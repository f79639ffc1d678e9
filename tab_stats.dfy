/**
 * The background script's `tabStats` record and the toolbar badge that
 * `updateTabStats` derives from it: the badge text is the tab count, the
 * badge colour a three-step classification of that count.
 */
module TabStats {
  import opened Decimal
  import opened TabMemory
  import opened MemoryUsage

  /** The three badge backgrounds. */
  datatype BadgeColor = Green | Orange | Red

  /** The CSS colour the host is given for each badge background. */
  function Hex(c: BadgeColor): (h: string)
    ensures |h| == 7 && h[0] == '#'
  {
    match c
    case Green => "#4CAF50"
    case Orange => "#FF9800"
    case Red => "#F44336"
  }

  /** The three backgrounds are told apart by the host: their colours differ. */
  lemma HexDistinct()
    ensures Hex(Green) != Hex(Orange) && Hex(Orange) != Hex(Red) && Hex(Green) != Hex(Red)
  {
  }

  /** Green up to 20 tabs, orange from 21 to 50, red beyond 50. */
  function BadgeColorFor(totalTabs: nat): (c: BadgeColor)
    ensures c == Green <==> totalTabs <= 20
    ensures c == Orange <==> 20 < totalTabs <= 50
    ensures c == Red <==> 50 < totalTabs
  {
    if totalTabs > 50 then Red else if totalTabs > 20 then Orange else Green
  }

  /** How alarming a badge colour is. */
  function Severity(c: BadgeColor): nat {
    match c
    case Green => 0
    case Orange => 1
    case Red => 2
  }

  /** Opening more tabs never calms the badge down. */
  lemma BadgeColorMonotone(m: nat, n: nat)
    requires m <= n
    ensures Severity(BadgeColorFor(m)) <= Severity(BadgeColorFor(n))
  {
  }

  /** The record the background script keeps and hands to the popup. */
  class Stats {
    var totalTabs: nat
    var totalMemory: int
    var lastUpdate: int

    /** The initial record: no tabs, no memory, stamped with the load time. */
    constructor(now: int)
      ensures totalTabs == 0 && totalMemory == 0 && lastUpdate == now
    {
      totalTabs := 0;
      totalMemory := 0;
      lastUpdate := now;
    }

    /**
     * `updateTabStats`: count the open tabs, stamp the time, recompute the
     * memory total, and return the badge's text and colour.
     */
    method Update(tabs: seq<Tab>, times: map<int, int>, now: int, host: HostAnswers,
                  lookupDraws: seq<real>, fallbackDraws: seq<real>)
      returns (badgeText: string, badgeColor: BadgeColor)
      requires WellFormed(tabs, host, lookupDraws, fallbackDraws)
      modifies this
      ensures totalTabs == |tabs| && lastUpdate == now
      ensures totalMemory == MemoryUsage.MemoryUsage(tabs, times, now, host, lookupDraws, fallbackDraws)
      ensures badgeText == DecimalString(|tabs|) && AllDigits(badgeText)
      ensures ParseDecimal(badgeText) == |tabs|
      ensures badgeColor == BadgeColorFor(|tabs|)
    {
      totalTabs := |tabs|;
      lastUpdate := now;
      totalMemory := CalculateMemoryUsage(tabs, times, now, host, lookupDraws, fallbackDraws);
      badgeText := DecimalString(totalTabs);
      ParseDecimalString(totalTabs);
      badgeColor := Green;
      if totalTabs > 20 {
        badgeColor := Orange;
      }
      if totalTabs > 50 {
        badgeColor := Red;
      }
    }
  }
}
