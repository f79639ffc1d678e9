/**
 * The popup's display helpers: shortening a title or URL with an ellipsis,
 * classifying a tab by how long it has been idle, and ordering the tab list
 * with the most idle tab first.
 */
module Popup {

  // ------------------------------------------------------------ truncation

  /** How many characters `substring(0, maxLength)` keeps of a longer text. */
  function KeptLength(maxLength: int): nat {
    if maxLength < 0 then 0 else maxLength
  }

  /** `truncateText`: the text itself when it fits, otherwise its head and "...". */
  function TruncateText(text: string, maxLength: int): (r: string)
    ensures |text| <= maxLength ==> r == text
    ensures |text| > maxLength ==>
              && |r| == KeptLength(maxLength) + 3
              && r[..KeptLength(maxLength)] == text[..KeptLength(maxLength)]
              && r[KeptLength(maxLength)..] == "..."
    ensures maxLength >= 0 ==> |r| <= maxLength + 3
    ensures maxLength < 0 ==> r == "..."
  {
    if |text| <= maxLength then text else text[..KeptLength(maxLength)] + "..."
  }

  /** Shortening a shortened text changes nothing. */
  lemma TruncateTextIdempotent(text: string, maxLength: int)
    ensures TruncateText(TruncateText(text, maxLength), maxLength) == TruncateText(text, maxLength)
  {
    var r := TruncateText(text, maxLength);
    if |r| > maxLength {
      var n := KeptLength(maxLength);
      assert r[..n] + "..." == r;
    }
  }

  /** A text that gets shortened keeps its head, and one that fits is kept whole. */
  lemma TruncateTextKeepsPrefix(text: string, maxLength: int)
    ensures var r := TruncateText(text, maxLength);
      var n := if |text| <= maxLength then |text| else KeptLength(maxLength);
      n <= |r| && r[..n] == text[..n]
  {
  }

  // ------------------------------------------------------------ staleness

  /** The three idleness classes a tab row is drawn with. */
  datatype StalenessClass = Fresh | Stale | VeryStale

  /** The CSS class name of each idleness class. */
  function CssName(c: StalenessClass): (name: string)
    ensures name == "fresh" <==> c == Fresh
    ensures name == "stale" <==> c == Stale
    ensures name == "very-stale" <==> c == VeryStale
  {
    match c
    case Fresh => "fresh"
    case Stale => "stale"
    case VeryStale => "very-stale"
  }

  /** Fresh up to 300 seconds idle, stale up to 1800, very stale beyond. */
  function StalenessClassFor(staleness: real): (c: StalenessClass)
    ensures c == Fresh <==> staleness <= 300.0
    ensures c == Stale <==> 300.0 < staleness <= 1800.0
    ensures c == VeryStale <==> 1800.0 < staleness
  {
    if staleness > 1800.0 then VeryStale else if staleness > 300.0 then Stale else Fresh
  }

  /** How idle a class says a tab is. */
  function Rank(c: StalenessClass): nat {
    match c
    case Fresh => 0
    case Stale => 1
    case VeryStale => 2
  }

  /** A tab idle for longer never gets a fresher class. */
  lemma StalenessClassMonotone(s: real, t: real)
    requires s <= t
    ensures Rank(StalenessClassFor(s)) <= Rank(StalenessClassFor(t))
  {
  }

  // ------------------------------------------------------------ ordering

  /** A row of the popup's tab list; `staleness` is in seconds. */
  datatype TabItem = TabItem(id: int, title: string, url: string, staleness: real)

  /** Staleness never increases along the list. */
  predicate MostStaleFirst(s: seq<TabItem>) {
    forall k, l :: 0 <= k < l < |s| ==> s[k].staleness >= s[l].staleness
  }

  /** Exchanges the tabs at `j - 1` and `j`; nothing else moves. */
  method SwapWithPrevious(a: array<TabItem>, j: nat)
    requires 0 < j < a.Length
    modifies a
    ensures a[j - 1] == old(a[j]) && a[j] == old(a[j - 1])
    ensures forall k :: 0 <= k < a.Length && k != j - 1 && k != j ==> a[k] == old(a[k])
    ensures multiset(a[..]) == multiset(old(a[..]))
  {
    a[j - 1], a[j] := a[j], a[j - 1];
  }

  /**
   * One insertion step: the tab at index `i` is swapped leftwards past every
   * less idle tab, so that the first `i + 1` tabs end up ordered.
   */
  method SinkLeft(a: array<TabItem>, i: nat)
    requires i < a.Length && MostStaleFirst(a[..i])
    modifies a
    ensures MostStaleFirst(a[..i + 1])
    ensures a[i + 1..] == old(a[i + 1..])
    ensures multiset(a[..]) == multiset(old(a[..]))
  {
    var j := i;
    while j > 0 && a[j - 1].staleness < a[j].staleness
      invariant 0 <= j <= i
      invariant forall k, l :: 0 <= k < l <= i && k != j && l != j ==> a[k].staleness >= a[l].staleness
      invariant forall l :: j < l <= i ==> a[j].staleness >= a[l].staleness
      invariant a[i + 1..] == old(a[i + 1..])
      invariant multiset(a[..]) == multiset(old(a[..]))
    {
      SwapWithPrevious(a, j);
      j := j - 1;
    }
  }

  /**
   * `displayTabs`' sort, with the comparator `b.staleness - a.staleness`:
   * the array is rearranged in place so that the most idle tab comes first.
   */
  method SortByStaleness(a: array<TabItem>)
    modifies a
    ensures MostStaleFirst(a[..])
    ensures multiset(a[..]) == multiset(old(a[..]))
  {
    var i := 0;
    while i < a.Length
      invariant 0 <= i <= a.Length
      invariant MostStaleFirst(a[..i])
      invariant multiset(a[..]) == multiset(old(a[..]))
    {
      SinkLeft(a, i);
      i := i + 1;
    }
    assert a[..a.Length] == a[..];
  }
}
