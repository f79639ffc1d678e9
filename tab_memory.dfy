/**
 * The per-tab memory estimator of the background script: a first-match
 * category profile chosen by URL substrings, title and URL adjustments,
 * growth with idle time, a fragmentation factor, rounding and a clamp.
 * Arithmetic is over reals; `Math.random()` is the parameter `random`,
 * `Date.now()` is the parameter `now` (milliseconds), and the access-time
 * map is passed in.
 */
module TabMemory {
  import opened Wrappers

  /** A tab as the host reports it; a tab whose title is undefined has `title == None`. */
  datatype Tab = Tab(id: int, url: string, title: Option<string>)

  /** The four base quantities of a site category, in MB. */
  datatype Profile = Profile(jsHeap: int, dom: int, media: int, network: int)

  /** One branch of the category chain: it applies when the lower-cased URL includes any of its patterns. */
  datatype Category = Category(patterns: seq<string>, profile: Profile)

  const BaseMemory: int := 45
  const MsPerHour: int := 3600000
  const MinEstimate: int := 30
  const MaxEstimate: int := 800

  /** The profile of a URL that no category matches. */
  const DefaultProfile: Profile := Profile(60, 50, 20, 15)

  /** The categories in the order the estimator tests them. */
  const Categories: seq<Category> := [
    Category(["youtube.com"], Profile(180, 120, 200, 50)),
    Category(["netflix.com"], Profile(220, 100, 300, 80)),
    Category(["twitch.tv"], Profile(160, 90, 180, 60)),
    Category(["facebook.com"], Profile(140, 200, 80, 40)),
    Category(["twitter.com", "x.com"], Profile(120, 150, 60, 35)),
    Category(["instagram.com"], Profile(130, 180, 120, 45)),
    Category(["gmail.com"], Profile(110, 100, 30, 25)),
    Category(["outlook.com"], Profile(100, 90, 25, 20)),
    Category(["amazon.com"], Profile(90, 140, 80, 30)),
    Category(["ebay.com"], Profile(85, 120, 70, 25)),
    Category(["reddit.com"], Profile(80, 100, 50, 20)),
    Category(["cnn.com", "bbc.com"], Profile(70, 90, 60, 15)),
    Category(["github.com"], Profile(95, 80, 20, 30)),
    Category(["stackoverflow.com"], Profile(75, 70, 15, 20)),
    Category(["google.com"], Profile(50, 40, 10, 15)),
    Category(["bing.com"], Profile(45, 35, 8, 12))
  ]

  // ---------------------------------------------------------------- strings

  predicate IsUpper(c: char) {
    'A' <= c <= 'Z'
  }

  function LowerChar(c: char): (l: char)
    ensures !IsUpper(l)
    ensures !IsUpper(c) ==> l == c
    ensures IsUpper(c) ==> 'a' <= l <= 'z' && l as int - 'a' as int == c as int - 'A' as int
  {
    if IsUpper(c) then (c as int + 32) as char else c
  }

  /** `String.prototype.toLowerCase`, on the ASCII letters. */
  function ToLower(s: string): (r: string)
    ensures |r| == |s|
    ensures forall i :: 0 <= i < |r| ==> !IsUpper(r[i])
    ensures forall i :: 0 <= i < |s| && !IsUpper(s[i]) ==> r[i] == s[i]
    ensures forall i :: 0 <= i < |s| && IsUpper(s[i]) ==> r[i] as int - 'a' as int == s[i] as int - 'A' as int
  {
    seq(|s|, i requires 0 <= i < |s| => LowerChar(s[i]))
  }

  /** `String.prototype.includes`: `p` occurs in `s` at some position (the empty string occurs everywhere). */
  predicate Includes(s: string, p: string)
    ensures p <= s ==> Includes(s, p)
    ensures Includes(s, p) ==> |p| <= |s|
    decreases |s|
  {
    p <= s || (|s| > 0 && Includes(s[1..], p))
  }

  /** `p` occurs in `s` starting at index `i`. */
  predicate OccursAt(s: string, p: string, i: int) {
    0 <= i && i + |p| <= |s| && s[i..i + |p|] == p
  }

  lemma SliceOfTail(s: string, i: int, n: nat)
    requires 0 < i && i + n <= |s|
    ensures s[i..i + n] == s[1..][i - 1..i - 1 + n]
  {
    assert s[1..][i - 1..] == s[i..];
    assert s[1..][i - 1..i - 1 + n] == s[1..][i - 1..][..n];
    assert s[i..i + n] == s[i..][..n];
  }

  /** `Includes` against the textbook definition: some slice of `s` equals `p`. */
  lemma {:induction false} IncludesIff(s: string, p: string)
    ensures Includes(s, p) <==> exists i :: OccursAt(s, p, i)
  {
    if p <= s {
      assert OccursAt(s, p, 0);
    } else if |s| > 0 {
      IncludesIff(s[1..], p);
      if Includes(s[1..], p) {
        var i :| OccursAt(s[1..], p, i);
        assert s[i + 1..i + 1 + |p|] == s[1..][i..i + |p|];
        assert OccursAt(s, p, i + 1);
      } else {
        forall i | 0 < i && i + |p| <= |s|
          ensures !OccursAt(s, p, i)
        {
          SliceOfTail(s, i, |p|);
          assert !OccursAt(s[1..], p, i - 1);
        }
      }
    } else {
      assert |p| > 0;
    }
  }

  // ------------------------------------------------------- category lookup

  /** A branch of the chain applies: the URL includes one of its patterns. */
  predicate Matches(c: Category, url: string) {
    exists k :: 0 <= k < |c.patterns| && Includes(url, c.patterns[k])
  }

  /** The index of the first category that matches `url`, or `|cats|` when none does. */
  function FirstMatch(cats: seq<Category>, url: string): (k: nat)
    ensures k <= |cats|
  {
    if |cats| == 0 then 0
    else if Matches(cats[0], url) then 0
    else 1 + FirstMatch(cats[1..], url)
  }

  /** `FirstMatch` is the first match: no earlier category matches, and the one found does. */
  lemma {:induction false} FirstMatchIsFirst(cats: seq<Category>, url: string)
    ensures var k := FirstMatch(cats, url);
      && (forall j :: 0 <= j < k ==> !Matches(cats[j], url))
      && (k < |cats| ==> Matches(cats[k], url))
  {
    if |cats| > 0 && !Matches(cats[0], url) {
      FirstMatchIsFirst(cats[1..], url);
      var k := FirstMatch(cats, url);
      forall j | 0 <= j < k
        ensures !Matches(cats[j], url)
      {
        if j > 0 {
          assert cats[j] == cats[1..][j - 1];
        }
      }
    }
  }

  /** The profile sizes every table entry and the default satisfy. */
  ghost predicate PlausibleProfile(p: Profile) {
    && 45 <= p.jsHeap
    && 0 <= p.dom && 0 <= p.media && 0 <= p.network
    && p.jsHeap + p.dom + p.media + p.network >= 100
  }

  lemma TableIsPlausible()
    ensures PlausibleProfile(DefaultProfile)
    ensures forall c :: c in Categories ==> PlausibleProfile(c.profile)
  {
  }

  /**
   * The profile the estimator uses for a URL: that of the first category, in
   * table order, matching the lower-cased URL, or the default profile.
   */
  function ProfileFor(url: string): (p: Profile)
    ensures PlausibleProfile(p)
    ensures p == DefaultProfile || exists k :: 0 <= k < |Categories| && p == Categories[k].profile
  {
    var k := FirstMatch(Categories, ToLower(url));
    if k < |Categories| then
      TableIsPlausible();
      assert Categories[k] in Categories;
      Categories[k].profile
    else
      DefaultProfile
  }

  /** Category `k` decides when it is the first, in table order, to match the lower-cased URL. */
  lemma ProfileIsFirstMatch(url: string, k: nat)
    requires k < |Categories| && Matches(Categories[k], ToLower(url))
    requires forall j :: 0 <= j < k ==> !Matches(Categories[j], ToLower(url))
    ensures ProfileFor(url) == Categories[k].profile
  {
    var m := FirstMatch(Categories, ToLower(url));
    FirstMatchIsFirst(Categories, ToLower(url));
    assert !(k < m);
    assert !(m < k);
  }

  /** A URL no category matches gets the default profile {60, 50, 20, 15}. */
  lemma UnmatchedUrlGetsDefault(url: string)
    requires forall j :: 0 <= j < |Categories| ==> !Matches(Categories[j], ToLower(url))
    ensures ProfileFor(url) == DefaultProfile
  {
    var m := FirstMatch(Categories, ToLower(url));
    FirstMatchIsFirst(Categories, ToLower(url));
    assert !(m < |Categories|);
  }

  /** A pattern longer than the text cannot occur in it. */
  lemma {:induction false} LongerPatternAbsent(s: string, p: string)
    requires |s| < |p|
    ensures !Includes(s, p)
    decreases |s|
  {
    if |s| > 0 {
      LongerPatternAbsent(s[1..], p);
    }
  }

  /**
   * "X.com" is lower-cased to "x.com", which none of the first four (longer)
   * patterns can occur in, and which the second pattern of the fifth
   * category matches: the tab gets the Twitter/X profile.
   */
  lemma MixedCaseXComUsesTwitterProfile()
    ensures ProfileFor("X.com") == Profile(120, 150, 60, 35)
  {
    var url := ToLower("X.com");
    assert url == "x.com";
    forall j | 0 <= j < 4
      ensures !Matches(Categories[j], url)
    {
      var c := Categories[j];
      assert |c.patterns| == 1 && |c.patterns[0]| > |url|;
      LongerPatternAbsent(url, c.patterns[0]);
    }
    assert Includes(url, Categories[4].patterns[1]);
    ProfileIsFirstMatch("X.com", 4);
  }

  // ------------------------------------------------------------ adjustments

  function MinReal(a: real, b: real): real {
    if a <= b then a else b
  }

  /** `tab.title || ""`. */
  function TitleOf(tab: Tab): (t: string)
    ensures tab.title.None? ==> t == ""
    ensures tab.title.Some? ==> t == tab.title.value
  {
    tab.title.GetOr("")
  }

  /** Extra heap for a title of `len` characters: 1.5 MB a character, capped at 80. */
  function TitleComplexity(len: nat): (c: real)
    ensures 0.0 <= c <= 80.0
    ensures c <= 1.5 * len as real
    ensures c == 0.0 <==> len == 0
    ensures len >= 54 ==> c == 80.0
    ensures len <= 53 ==> c == 1.5 * len as real
  {
    MinReal(len as real * 1.5, 80.0)
  }

  /** Extra heap for a URL of `len` characters: 0.3 MB a character, capped at 30. */
  function UrlComplexity(len: nat): (c: real)
    ensures 0.0 <= c <= 30.0
    ensures c <= 0.3 * len as real
    ensures c == 0.0 <==> len == 0
    ensures len >= 100 ==> c == 30.0
    ensures len <= 100 ==> c == 0.3 * len as real
  {
    MinReal(len as real * 0.3, 30.0)
  }

  /**
   * The title adds between 0 and 80 MB to the heap and the URL between 0 and
   * 30; a missing title counts as the empty one, and empty strings add nothing.
   */
  lemma HeapAdjustmentBounds(tab: Tab)
    ensures 0.0 <= TitleComplexity(|TitleOf(tab)|) <= 80.0
    ensures 0.0 <= UrlComplexity(|tab.url|) <= 30.0
    ensures tab.title.None? || tab.title == Some("") ==> TitleComplexity(|TitleOf(tab)|) == 0.0
    ensures tab.url == "" ==> UrlComplexity(|tab.url|) == 0.0
  {
  }

  /**
   * `tabAccessTimes.get(id) || Date.now()`: the recorded time, or `now` when
   * there is none; a recorded 0 is falsy and also gives `now`.
   */
  function LastAccessed(times: map<int, int>, tabId: int, now: int): (t: int)
    ensures tabId !in times ==> t == now
    ensures tabId in times && times[tabId] != 0 ==> t == times[tabId]
    ensures tabId in times && times[tabId] == 0 ==> t == now
  {
    if tabId in times && times[tabId] != 0 then times[tabId] else now
  }

  /** Milliseconds since the tab was last accessed (negative when the record lies in the future). */
  function Elapsed(times: map<int, int>, tabId: int, now: int): int {
    now - LastAccessed(times, tabId, now)
  }

  /** Hours idle, capped at 2; not floored at 0. */
  function TimeFactor(elapsed: int): (f: real)
    ensures f <= 2.0
    ensures elapsed >= 0 ==> 0.0 <= f
    ensures elapsed == 0 ==> f == 0.0
    ensures elapsed >= 2 * MsPerHour ==> f == 2.0
    ensures elapsed <= 2 * MsPerHour ==> f == elapsed as real / MsPerHour as real
  {
    MinReal(elapsed as real / MsPerHour as real, 2.0)
  }

  lemma TimeFactorMonotone(e1: int, e2: int)
    requires e1 <= e2
    ensures TimeFactor(e1) <= TimeFactor(e2)
  {
    assert e1 as real / MsPerHour as real <= e2 as real / MsPerHour as real;
  }

  /** The multiplier applied to the heap estimate for idle time. */
  function HeapGrowth(elapsed: int): (g: real)
    ensures g <= 1.6
    ensures elapsed >= 0 ==> 1.0 <= g
  {
    1.0 + TimeFactor(elapsed) * 0.3
  }

  lemma HeapGrowthMonotone(e1: int, e2: int)
    requires e1 <= e2
    ensures HeapGrowth(e1) <= HeapGrowth(e2)
  {
    TimeFactorMonotone(e1, e2);
  }

  /** The fixed part of the sum: the 45 MB base plus the profile's DOM, media and network figures. */
  function Overhead(p: Profile): real {
    BaseMemory as real + p.dom as real + p.media as real + p.network as real
  }

  /** The heap estimate before idle growth: profile heap plus the title and URL adjustments. */
  function BaseHeap(p: Profile, titleLen: nat, urlLen: nat): (h: real)
    ensures p.jsHeap as real <= h <= p.jsHeap as real + 110.0
  {
    p.jsHeap as real + TitleComplexity(titleLen) + UrlComplexity(urlLen)
  }

  /** The sum the fragmentation factor multiplies. */
  function PreJitterTotal(p: Profile, titleLen: nat, urlLen: nat, elapsed: int): real {
    GrownSum(Overhead(p), BaseHeap(p, titleLen, urlLen), HeapGrowth(elapsed))
  }

  /** A fixed overhead plus a heap that has grown by factor `g`. */
  function GrownSum(o: real, h: real, g: real): real {
    o + h * g
  }

  /** `1.1 + Math.random() * 0.3`. */
  function FragmentationFactor(random: real): (f: real)
    requires 0.0 <= random < 1.0
    ensures 1.1 <= f < 1.4
  {
    1.1 + random * 0.3
  }

  /** `Math.round`: the nearest integer, halves rounded up. */
  function JsRound(x: real): (n: int)
    ensures n as real - 0.5 <= x < n as real + 0.5
  {
    (x + 0.5).Floor
  }

  /** `Math.max(30, Math.min(n, 800))`. */
  function Clamp(n: int): (r: int)
    ensures MinEstimate <= r <= MaxEstimate
    ensures MinEstimate <= n <= MaxEstimate ==> r == n
    ensures n < MinEstimate ==> r == MinEstimate
    ensures n > MaxEstimate ==> r == MaxEstimate
  {
    if n < MinEstimate then MinEstimate else if n > MaxEstimate then MaxEstimate else n
  }

  // -------------------------------------------------------------- estimator

  /** The last steps: the sum times the fragmentation factor, rounded, clamped to [30, 800]. */
  function ScaledEstimate(total: real, random: real): (mb: int)
    requires 0.0 <= random < 1.0
    ensures MinEstimate <= mb <= MaxEstimate
  {
    Clamp(JsRound(total * FragmentationFactor(random)))
  }

  /** The estimate from the profile, the title and URL lengths, idle time and the random draw, in whole MB. */
  function EstimateFrom(p: Profile, titleLen: nat, urlLen: nat, elapsed: int, random: real): (mb: int)
    requires 0.0 <= random < 1.0
    ensures MinEstimate <= mb <= MaxEstimate
  {
    ScaledEstimate(PreJitterTotal(p, titleLen, urlLen, elapsed), random)
  }

  /** The estimate for a tab idle for `elapsed` milliseconds. */
  function Estimate(tab: Tab, elapsed: int, random: real): (mb: int)
    requires 0.0 <= random < 1.0
    ensures MinEstimate <= mb <= MaxEstimate
  {
    EstimateFrom(ProfileFor(tab.url), |TitleOf(tab)|, |tab.url|, elapsed, random)
  }

  /** `estimateTabMemory(tab)` with the access-time map, the clock and the random draw made explicit. */
  function EstimateTabMemory(tab: Tab, times: map<int, int>, now: int, random: real): (mb: int)
    requires 0.0 <= random < 1.0
    ensures MinEstimate <= mb <= MaxEstimate
  {
    Estimate(tab, Elapsed(times, tab.id, now), random)
  }

  // ------------------------------------------------------------- properties

  lemma MulMonotone(a: real, x: real, y: real)
    requires 0.0 <= a && x <= y
    ensures a * x <= a * y
  {
  }

  lemma MulMonotoneRight(a: real, x: real, y: real)
    requires 0.0 <= a && x <= y
    ensures x * a <= y * a
  {
    MulMonotone(a, x, y);
  }

  lemma GrowthKeepsHeap(h: real, g: real)
    requires 0.0 <= h && 1.0 <= g
    ensures h <= h * g
  {
    MulMonotone(h, 1.0, g);
  }

  lemma GrownSumAtLeast(o: real, h: real, g: real, bound: real)
    requires o + h >= bound && 0.0 <= h && 1.0 <= g
    ensures GrownSum(o, h, g) >= bound
  {
    GrowthKeepsHeap(h, g);
  }

  lemma JsRoundMonotone(x: real, y: real)
    requires x <= y
    ensures JsRound(x) <= JsRound(y)
  {
  }

  lemma ClampMonotone(m: int, n: int)
    requires m <= n
    ensures Clamp(m) <= Clamp(n)
  {
  }

  lemma GrownSumMonotone(o: real, h: real, g1: real, g2: real)
    requires 0.0 <= h && g1 <= g2
    ensures GrownSum(o, h, g1) <= GrownSum(o, h, g2)
  {
    MulMonotone(h, g1, g2);
  }

  /** The sum before the factor grows with idle time. */
  lemma PreJitterMonotone(p: Profile, titleLen: nat, urlLen: nat, e1: int, e2: int)
    requires PlausibleProfile(p) && e1 <= e2
    ensures PreJitterTotal(p, titleLen, urlLen, e1) <= PreJitterTotal(p, titleLen, urlLen, e2)
  {
    HeapGrowthMonotone(e1, e2);
    GrownSumMonotone(Overhead(p), BaseHeap(p, titleLen, urlLen), HeapGrowth(e1), HeapGrowth(e2));
  }

  /** Scaling by the factor and rounding keep the order of two sums. */
  lemma ScaledEstimateMonotone(s1: real, s2: real, random: real)
    requires 0.0 <= random < 1.0 && s1 <= s2
    ensures ScaledEstimate(s1, random) <= ScaledEstimate(s2, random)
  {
    var f := FragmentationFactor(random);
    MulMonotoneRight(f, s1, s2);
    JsRoundMonotone(s1 * f, s2 * f);
    ClampMonotone(JsRound(s1 * f), JsRound(s2 * f));
  }

  /** With the profile, the lengths and the random draw fixed, longer idle time never lowers the estimate. */
  lemma {:induction false} EstimateFromMonotone(p: Profile, titleLen: nat, urlLen: nat, e1: int, e2: int, random: real)
    requires PlausibleProfile(p) && 0.0 <= random < 1.0 && e1 <= e2
    ensures EstimateFrom(p, titleLen, urlLen, e1, random) <= EstimateFrom(p, titleLen, urlLen, e2, random)
  {
    PreJitterMonotone(p, titleLen, urlLen, e1, e2);
    ScaledEstimateMonotone(PreJitterTotal(p, titleLen, urlLen, e1), PreJitterTotal(p, titleLen, urlLen, e2), random);
  }

  /** With the random draw fixed, a tab idle longer never gets a smaller estimate. */
  lemma {:induction false} EstimateMonotone(tab: Tab, e1: int, e2: int, random: real)
    requires 0.0 <= random < 1.0 && e1 <= e2
    ensures Estimate(tab, e1, random) <= Estimate(tab, e2, random)
  {
    EstimateFromMonotone(ProfileFor(tab.url), |TitleOf(tab)|, |tab.url|, e1, e2, random);
  }

  /**
   * A later clock never lowers a tab's estimate. A tab with a non-zero record
   * has been idle longer; any other tab reads as just accessed at both clocks.
   */
  lemma EstimateGrowsWithClock(tab: Tab, times: map<int, int>, now1: int, now2: int, random: real)
    requires 0.0 <= random < 1.0 && now1 <= now2
    ensures EstimateTabMemory(tab, times, now1, random) <= EstimateTabMemory(tab, times, now2, random)
  {
    if tab.id in times && times[tab.id] != 0 {
      EstimateMonotone(tab, Elapsed(times, tab.id, now1), Elapsed(times, tab.id, now2), random);
    } else {
      assert Elapsed(times, tab.id, now1) == Elapsed(times, tab.id, now2);
    }
  }

  /**
   * A tab without a usable access record counts as just accessed (no growth);
   * one recorded in the past grows its heap by a factor in [1, 1.6].
   */
  lemma IdleGrowthBounds(tab: Tab, times: map<int, int>, now: int)
    ensures tab.id !in times ==> TimeFactor(Elapsed(times, tab.id, now)) == 0.0
    ensures tab.id in times && times[tab.id] == 0 ==> HeapGrowth(Elapsed(times, tab.id, now)) == 1.0
    ensures tab.id in times && times[tab.id] <= now ==>
      0.0 <= TimeFactor(Elapsed(times, tab.id, now)) <= 2.0 && 1.0 <= HeapGrowth(Elapsed(times, tab.id, now)) <= 1.6
  {
  }

  /**
   * For non-negative idle time the estimate is at least 160 MB, so the lower
   * bound of the clamp only acts when an access time lies in the future.
   */
  lemma PreJitterAtLeast145(p: Profile, titleLen: nat, urlLen: nat, elapsed: int)
    requires PlausibleProfile(p) && elapsed >= 0
    ensures PreJitterTotal(p, titleLen, urlLen, elapsed) >= 145.0
  {
    GrownSumAtLeast(Overhead(p), BaseHeap(p, titleLen, urlLen), HeapGrowth(elapsed), 145.0);
  }

  lemma ScaledEstimateAtLeast160(s: real, random: real)
    requires 0.0 <= random < 1.0 && s >= 145.0
    ensures ScaledEstimate(s, random) >= 160
  {
    var f := FragmentationFactor(random);
    MulMonotoneRight(f, 145.0, s);
    JsRoundMonotone(159.5, s * f);
  }

  lemma {:induction false} EstimateFromAtLeast160(p: Profile, titleLen: nat, urlLen: nat, elapsed: int, random: real)
    requires PlausibleProfile(p) && 0.0 <= random < 1.0 && elapsed >= 0
    ensures EstimateFrom(p, titleLen, urlLen, elapsed, random) >= 160
  {
    var s := PreJitterTotal(p, titleLen, urlLen, elapsed);
    PreJitterAtLeast145(p, titleLen, urlLen, elapsed);
    ScaledEstimateAtLeast160(s, random);
  }

  lemma EstimateAtLeast160(tab: Tab, elapsed: int, random: real)
    requires 0.0 <= random < 1.0 && elapsed >= 0
    ensures Estimate(tab, elapsed, random) >= 160
  {
    EstimateFromAtLeast160(ProfileFor(tab.url), |TitleOf(tab)|, |tab.url|, elapsed, random);
  }

  /** Neither pattern of any category occurs in the empty URL. */
  lemma EmptyUrlMatchesNothing()
    ensures forall j :: 0 <= j < |Categories| ==> !Matches(Categories[j], ToLower(""))
  {
    assert ToLower("") == "";
    forall j | 0 <= j < |Categories|
      ensures !Matches(Categories[j], "")
    {
      var c := Categories[j];
      assert c in Categories;
      forall k | 0 <= k < |c.patterns|
        ensures !Includes("", c.patterns[k])
      {
        assert |c.patterns[k]| > 0;
      }
    }
  }

  /**
   * A fresh tab with an empty URL and no title uses the default profile:
   * 45 + 60 + 50 + 20 + 15 = 190 MB before the factor, so 209 to 266 MB.
   */
  lemma ScaledEstimate190(random: real)
    requires 0.0 <= random < 1.0
    ensures 209 <= ScaledEstimate(190.0, random) <= 266
  {
  }

  lemma EmptyUrlProfile()
    ensures ProfileFor("") == DefaultProfile
  {
    EmptyUrlMatchesNothing();
    UnmatchedUrlGetsDefault("");
  }

  lemma FreshDefaultEstimate(random: real)
    requires 0.0 <= random < 1.0
    ensures 209 <= EstimateFrom(DefaultProfile, 0, 0, 0, random) <= 266
  {
    assert PreJitterTotal(DefaultProfile, 0, 0, 0) == 190.0;
    ScaledEstimate190(random);
  }

  lemma {:induction false} BlankTabEstimate(id: int, random: real)
    requires 0.0 <= random < 1.0
    ensures 209 <= Estimate(Tab(id, "", None), 0, random) <= 266
  {
    EmptyUrlProfile();
    FreshDefaultEstimate(random);
    assert TitleOf(Tab(id, "", None)) == "";
  }
}
