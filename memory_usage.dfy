/**
 * The background script's memory total: the precise path over the host's
 * process registry and its fallbacks to the per-tab estimator. The host's
 * answers are inputs: whether the registry exists, each tab's process-id
 * lookup (None when it threw) and the batched process-info answer (None
 * when it threw). Each estimator call draws its own random number; the
 * draws of the per-tab fallbacks and of the whole-batch fallback are given
 * separately, one per tab.
 *
 * The source's units are reproduced as written: the whole-batch fallback
 * divides a sum of MB estimates by 1024, and a tab whose lookup fails adds
 * its MB estimate to an accumulator of bytes that is divided by 1048576.
 */
module MemoryUsage {
  import opened Wrappers
  import opened TabMemory

  const BytesPerMb: int := 1048576

  /** One member of the batched process-info answer; `privateMemory` is in bytes and may be missing. */
  datatype ProcessEntry = ProcessEntry(pid: int, privateMemory: Option<nat>)

  /** What the host answered during one aggregation. */
  datatype HostAnswers = HostAnswers(
    processesApi: bool,
    processIdFor: seq<Option<int>>,
    processInfo: Option<seq<ProcessEntry>>)

  /** One `Math.random()` result per tab. */
  predicate ValidDraws(draws: seq<real>, n: nat) {
    |draws| == n && forall i :: 0 <= i < n ==> 0.0 <= draws[i] < 1.0
  }

  /** No two entries of the batched answer share a process id (they are the keys of one object). */
  predicate DistinctPids(entries: seq<ProcessEntry>) {
    forall i, j :: 0 <= i < j < |entries| ==> entries[i].pid != entries[j].pid
  }

  /**
   * The host gave one lookup answer per tab, its batched answer is keyed by
   * distinct process ids, and the random draws are in range.
   */
  predicate WellFormed(tabs: seq<Tab>, host: HostAnswers, lookupDraws: seq<real>, fallbackDraws: seq<real>) {
    && |host.processIdFor| == |tabs|
    && (host.processInfo.Some? ==> DistinctPids(host.processInfo.value))
    && ValidDraws(lookupDraws, |tabs|) && ValidDraws(fallbackDraws, |tabs|)
  }

  // ------------------------------------------------------ specification

  /** The estimate of each tab, in MB, each with its own random draw. */
  function Estimates(tabs: seq<Tab>, times: map<int, int>, now: int, draws: seq<real>): (mbs: seq<int>)
    requires ValidDraws(draws, |tabs|)
    ensures |mbs| == |tabs|
    ensures forall i :: 0 <= i < |mbs| ==> MinEstimate <= mbs[i] <= MaxEstimate
  {
    seq(|tabs|, i requires 0 <= i < |tabs| => EstimateTabMemory(tabs[i], times, now, draws[i]))
  }

  /** The sum of a sequence of estimates. */
  function Sum(mbs: seq<int>): int
    decreases |mbs|
  {
    if |mbs| == 0 then 0 else Sum(mbs[..|mbs| - 1]) + mbs[|mbs| - 1]
  }

  /** The sum of the estimates of the tabs whose process-id lookup failed. */
  function FailedLookupSum(mbs: seq<int>, pids: seq<Option<int>>): int
    requires |pids| == |mbs|
    decreases |mbs|
  {
    if |mbs| == 0 then 0
    else
      var n := |mbs| - 1;
      FailedLookupSum(mbs[..n], pids[..n]) + (if pids[n].None? then mbs[n] else 0)
  }

  /** The tabs whose lookup answered `pid`, in tab order. */
  function TabsOfProcess(tabs: seq<Tab>, pids: seq<Option<int>>, pid: int): seq<Tab>
    requires |pids| == |tabs|
    decreases |tabs|
  {
    if |tabs| == 0 then []
    else
      var n := |tabs| - 1;
      TabsOfProcess(tabs[..n], pids[..n], pid) + (if pids[n] == Some(pid) then [tabs[n]] else [])
  }

  /** At least one lookup succeeded. */
  predicate AnyProcessId(pids: seq<Option<int>>) {
    exists i :: 0 <= i < |pids| && pids[i].Some?
  }

  /** `process.privateMemory || 0`. */
  function PrivateBytes(e: ProcessEntry): (b: nat)
    ensures e.privateMemory.None? ==> b == 0
    ensures e.privateMemory.Some? ==> b == e.privateMemory.value
  {
    e.privateMemory.GetOr(0)
  }

  /** The bytes the answer attributes to tabs: each process that hosts a tab counts its private memory once. */
  function MeasuredBytes(entries: seq<ProcessEntry>, tabs: seq<Tab>, pids: seq<Option<int>>): (bytes: int)
    requires |pids| == |tabs|
    ensures 0 <= bytes
    ensures bytes <= SumOfPrivateBytes(entries)
    decreases |entries|
  {
    if |entries| == 0 then 0
    else
      var n := |entries| - 1;
      MeasuredBytes(entries[..n], tabs, pids) +
        (if |TabsOfProcess(tabs, pids, entries[n].pid)| > 0 then PrivateBytes(entries[n]) else 0)
  }

  /** The private bytes of all entries, whether or not a tab lives in them. */
  function SumOfPrivateBytes(entries: seq<ProcessEntry>): int
    decreases |entries|
  {
    if |entries| == 0 then 0 else SumOfPrivateBytes(entries[..|entries| - 1]) + PrivateBytes(entries[|entries| - 1])
  }

  /** The whole-batch estimate: the tabs' MB estimates summed, divided by 1024 and rounded. */
  function WholeBatchEstimate(tabs: seq<Tab>, times: map<int, int>, now: int, draws: seq<real>): (total: int)
    requires ValidDraws(draws, |tabs|)
    ensures total >= 0
  {
    SumBounds(Estimates(tabs, times, now, draws));
    JsRound(Sum(Estimates(tabs, times, now, draws)) as real / 1024.0)
  }

  /** The precise total: failed-lookup estimates plus `measured` bytes, divided by 1048576 and rounded. */
  function PreciseTotal(tabs: seq<Tab>, times: map<int, int>, now: int, pids: seq<Option<int>>,
                        draws: seq<real>, measured: int): (total: int)
    requires |pids| == |tabs| && ValidDraws(draws, |tabs|) && 0 <= measured
    ensures total >= 0
  {
    FailedLookupSumBounds(Estimates(tabs, times, now, draws), pids);
    JsRound((FailedLookupSum(Estimates(tabs, times, now, draws), pids) + measured) as real / BytesPerMb as real)
  }

  /**
   * The total the cascade reports: the whole-batch estimate when the registry
   * is missing or the batched call fails, otherwise the failed-lookup
   * estimates plus the measured bytes, converted by 1048576 and rounded.
   */
  function MemoryUsage(tabs: seq<Tab>, times: map<int, int>, now: int, host: HostAnswers,
                       lookupDraws: seq<real>, fallbackDraws: seq<real>): (total: int)
    requires WellFormed(tabs, host, lookupDraws, fallbackDraws)
    ensures total >= 0
  {
    var pids := host.processIdFor;
    if !host.processesApi || (AnyProcessId(pids) && host.processInfo.None?) then
      WholeBatchEstimate(tabs, times, now, fallbackDraws)
    else
      var measured := if AnyProcessId(pids) then MeasuredBytes(host.processInfo.value, tabs, pids) else 0;
      PreciseTotal(tabs, times, now, pids, lookupDraws, measured)
  }

  // ------------------------------------------------------------ methods

  lemma SumStep(mbs: seq<int>, i: nat)
    requires i < |mbs|
    ensures Sum(mbs[..i + 1]) == Sum(mbs[..i]) + mbs[i]
  {
    assert mbs[..i + 1][..i] == mbs[..i];
  }

  lemma FailedLookupSumStep(mbs: seq<int>, pids: seq<Option<int>>, i: nat)
    requires |pids| == |mbs| && i < |mbs|
    ensures FailedLookupSum(mbs[..i + 1], pids[..i + 1]) ==
      FailedLookupSum(mbs[..i], pids[..i]) + (if pids[i].None? then mbs[i] else 0)
  {
    assert mbs[..i + 1][..i] == mbs[..i] && pids[..i + 1][..i] == pids[..i];
  }

  /** The loop of `calculateEstimatedMemoryUsage`: each tab's estimate added to a running total. */
  method SumEstimates(tabs: seq<Tab>, times: map<int, int>, now: int, draws: seq<real>)
    returns (totalMemory: int)
    requires ValidDraws(draws, |tabs|)
    ensures totalMemory == Sum(Estimates(tabs, times, now, draws))
  {
    ghost var mbs := Estimates(tabs, times, now, draws);
    totalMemory := 0;
    var i := 0;
    while i < |tabs|
      invariant 0 <= i <= |tabs|
      invariant totalMemory == Sum(mbs[..i])
    {
      EstimatesSumStep(tabs, times, now, draws, i);
      totalMemory := totalMemory + EstimateTabMemory(tabs[i], times, now, draws[i]);
      i := i + 1;
    }
    assert mbs[..i] == mbs;
  }

  lemma EstimatesSumStep(tabs: seq<Tab>, times: map<int, int>, now: int, draws: seq<real>, i: nat)
    requires ValidDraws(draws, |tabs|) && i < |tabs|
    ensures Sum(Estimates(tabs, times, now, draws)[..i + 1]) ==
      Sum(Estimates(tabs, times, now, draws)[..i]) + EstimateTabMemory(tabs[i], times, now, draws[i])
  {
    SumStep(Estimates(tabs, times, now, draws), i);
  }

  /** `calculateEstimatedMemoryUsage`: the summed estimates, divided by 1024 and rounded. */
  method CalculateEstimatedMemoryUsage(tabs: seq<Tab>, times: map<int, int>, now: int, draws: seq<real>)
    returns (total: int)
    requires ValidDraws(draws, |tabs|)
    ensures total == WholeBatchEstimate(tabs, times, now, draws)
  {
    var totalMemory := SumEstimates(tabs, times, now, draws);
    total := JsRound(totalMemory as real / 1024.0);
  }

  /**
   * The memory of one process handed out in equal shares to the tabs sharing
   * it. With no tab nothing is handed out (the source's share is then a
   * division by zero that is never added).
   */
  method DistributeShares(memoryUsage: real, tabsInProcess: seq<Tab>) returns (handed: real)
    ensures |tabsInProcess| > 0 ==> handed == memoryUsage
    ensures |tabsInProcess| == 0 ==> handed == 0.0
  {
    handed := 0.0;
    if |tabsInProcess| == 0 {
      return;
    }
    var memoryPerTab := memoryUsage / |tabsInProcess| as real;
    var n := 0;
    while n < |tabsInProcess|
      invariant 0 <= n <= |tabsInProcess|
      invariant handed == n as real * memoryPerTab
    {
      handed := handed + memoryPerTab;
      n := n + 1;
    }
  }

  lemma AnyProcessIdStep(pids: seq<Option<int>>, i: nat)
    requires i < |pids|
    ensures AnyProcessId(pids[..i + 1]) <==> AnyProcessId(pids[..i]) || pids[i].Some?
  {
    if pids[i].Some? {
      assert pids[..i + 1][i].Some?;
    }
    if AnyProcessId(pids[..i]) {
      var j :| 0 <= j < i && pids[..i][j].Some?;
      assert pids[..i + 1][j].Some?;
    }
  }

  /** `tabProcessMap` holds, for each process id met so far, the tabs found in it, in order. */
  ghost predicate Grouped(tabProcessMap: map<int, seq<Tab>>, tabs: seq<Tab>, pids: seq<Option<int>>)
    requires |pids| == |tabs|
  {
    && (forall p :: p in tabProcessMap ==> tabProcessMap[p] == TabsOfProcess(tabs, pids, p))
    && (forall p :: p !in tabProcessMap ==> TabsOfProcess(tabs, pids, p) == [])
    && (tabProcessMap.Keys != {} <==> AnyProcessId(pids))
  }

  /** The map after `tab` is appended to the list of process `pid`. */
  function AddToGroup(tabProcessMap: map<int, seq<Tab>>, pid: int, tab: Tab): (m: map<int, seq<Tab>>)
    ensures m.Keys == tabProcessMap.Keys + {pid}
  {
    tabProcessMap[pid := (if pid in tabProcessMap then tabProcessMap[pid] else []) + [tab]]
  }

  /** The grouping the first pass builds, tab by tab. */
  function GroupMap(tabs: seq<Tab>, pids: seq<Option<int>>): map<int, seq<Tab>>
    requires |pids| == |tabs|
    decreases |tabs|
  {
    if |tabs| == 0 then map[]
    else
      var n := |tabs| - 1;
      var m := GroupMap(tabs[..n], pids[..n]);
      if pids[n].Some? then AddToGroup(m, pids[n].value, tabs[n]) else m
  }

  lemma GroupMapStep(tabs: seq<Tab>, pids: seq<Option<int>>, i: nat)
    requires |pids| == |tabs| && i < |tabs|
    ensures pids[i].None? ==> GroupMap(tabs[..i + 1], pids[..i + 1]) == GroupMap(tabs[..i], pids[..i])
    ensures pids[i].Some? ==>
              GroupMap(tabs[..i + 1], pids[..i + 1]) == AddToGroup(GroupMap(tabs[..i], pids[..i]), pids[i].value, tabs[i])
  {
    assert tabs[..i + 1][..i] == tabs[..i] && pids[..i + 1][..i] == pids[..i];
  }

  /**
   * The grouping is exact: each process id maps to the tabs whose lookup
   * answered it, in tab order, no other tab sits in a group, and there is a
   * group exactly when some lookup succeeded.
   */
  lemma {:induction false} GroupMapGroups(tabs: seq<Tab>, pids: seq<Option<int>>)
    requires |pids| == |tabs|
    ensures Grouped(GroupMap(tabs, pids), tabs, pids)
  {
    forall p {
      GroupMapContents(tabs, pids, p);
    }
    GroupMapKeys(tabs, pids);
  }

  /** One process id at a time: its group holds its tabs, and without a group it has none. */
  lemma {:induction false} GroupMapContents(tabs: seq<Tab>, pids: seq<Option<int>>, p: int)
    requires |pids| == |tabs|
    ensures p in GroupMap(tabs, pids) ==> GroupMap(tabs, pids)[p] == TabsOfProcess(tabs, pids, p)
    ensures p !in GroupMap(tabs, pids) ==> TabsOfProcess(tabs, pids, p) == []
    decreases |tabs|
  {
    if |tabs| > 0 {
      var n := |tabs| - 1;
      GroupMapContents(tabs[..n], pids[..n], p);
    }
  }

  /** There is a group exactly when some lookup succeeded. */
  lemma {:induction false} GroupMapKeys(tabs: seq<Tab>, pids: seq<Option<int>>)
    requires |pids| == |tabs|
    ensures GroupMap(tabs, pids).Keys != {} <==> AnyProcessId(pids)
    decreases |tabs|
  {
    if |tabs| > 0 {
      var n := |tabs| - 1;
      GroupMapKeys(tabs[..n], pids[..n]);
      AnyProcessIdStep(pids, n);
      assert pids[..n + 1] == pids;
      if pids[n].Some? {
        assert pids[n].value in GroupMap(tabs, pids).Keys;
      }
    }
  }


  /**
   * The first pass of `calculateMemoryUsage`: tabs whose process lookup
   * succeeded are grouped by process id, the others add their estimate to
   * the running total.
   */
  method GroupByProcess(tabs: seq<Tab>, pids: seq<Option<int>>, times: map<int, int>, now: int, draws: seq<real>)
    returns (tabProcessMap: map<int, seq<Tab>>, totalMemory: real)
    requires |pids| == |tabs| && ValidDraws(draws, |tabs|)
    ensures totalMemory == FailedLookupSum(Estimates(tabs, times, now, draws), pids) as real
    ensures tabProcessMap == GroupMap(tabs, pids)
  {
    ghost var mbs := Estimates(tabs, times, now, draws);
    tabProcessMap := map[];
    totalMemory := 0.0;
    var i := 0;
    while i < |tabs|
      invariant 0 <= i <= |tabs|
      invariant totalMemory == FailedLookupSum(mbs[..i], pids[..i]) as real
      invariant tabProcessMap == GroupMap(tabs[..i], pids[..i])
    {
      FailedLookupSumStep(mbs, pids, i);
      GroupMapStep(tabs, pids, i);
      if pids[i].Some? {
        var processId := pids[i].value;
        var group := if processId in tabProcessMap then tabProcessMap[processId] else [];
        tabProcessMap := tabProcessMap[processId := group + [tabs[i]]];
      } else {
        totalMemory := totalMemory + EstimateTabMemory(tabs[i], times, now, draws[i]) as real;
      }
      i := i + 1;
    }
    assert tabs[..i] == tabs && pids[..i] == pids && mbs[..i] == mbs;
  }

  /**
   * The second pass of `calculateMemoryUsage`: every process of the batched
   * answer hands its private bytes out in equal shares to the tabs grouped
   * under its id; a process with no tab hands out nothing.
   */
  method DistributeProcesses(processes: seq<ProcessEntry>, tabProcessMap: map<int, seq<Tab>>,
                             ghost tabs: seq<Tab>, ghost pids: seq<Option<int>>)
    returns (handedOut: real)
    requires |pids| == |tabs| && Grouped(tabProcessMap, tabs, pids)
    ensures handedOut == MeasuredBytes(processes, tabs, pids) as real
  {
    handedOut := 0.0;
    var k := 0;
    while k < |processes|
      invariant 0 <= k <= |processes|
      invariant handedOut == MeasuredBytes(processes[..k], tabs, pids) as real
    {
      assert processes[..k + 1][..k] == processes[..k];
      var memoryUsage := PrivateBytes(processes[k]) as real;
      var tabsInProcess := if processes[k].pid in tabProcessMap then tabProcessMap[processes[k].pid] else [];
      var handed := DistributeShares(memoryUsage, tabsInProcess);
      handedOut := handedOut + handed;
      k := k + 1;
    }
    assert processes[..k] == processes;
  }

  /** `calculateMemoryUsage`: the precise path with its per-tab and whole-batch fallbacks. */
  method CalculateMemoryUsage(tabs: seq<Tab>, times: map<int, int>, now: int, host: HostAnswers,
                              lookupDraws: seq<real>, fallbackDraws: seq<real>)
    returns (total: int)
    requires WellFormed(tabs, host, lookupDraws, fallbackDraws)
    ensures total == MemoryUsage(tabs, times, now, host, lookupDraws, fallbackDraws)
  {
    if !host.processesApi {
      total := CalculateEstimatedMemoryUsage(tabs, times, now, fallbackDraws);
      return;
    }
    var pids := host.processIdFor;
    var tabProcessMap, totalMemory := GroupByProcess(tabs, pids, times, now, lookupDraws);
    GroupMapGroups(tabs, pids);
    ghost var measuredBytes := 0;
    if tabProcessMap.Keys != {} {
      if host.processInfo.None? {
        total := CalculateEstimatedMemoryUsage(tabs, times, now, fallbackDraws);
        return;
      }
      var measured := DistributeProcesses(host.processInfo.value, tabProcessMap, tabs, pids);
      measuredBytes := MeasuredBytes(host.processInfo.value, tabs, pids);
      totalMemory := totalMemory + measured;
    }
    total := JsRound(totalMemory / BytesPerMb as real);
    assert total == PreciseTotal(tabs, times, now, pids, lookupDraws, measuredBytes);
  }

  // --------------------------------------------------------- properties

  /** Every tab contributes between 30 and 800 MB to the sum of estimates. */
  lemma {:induction false} SumBounds(mbs: seq<int>)
    requires forall i :: 0 <= i < |mbs| ==> MinEstimate <= mbs[i] <= MaxEstimate
    ensures MinEstimate * |mbs| <= Sum(mbs) <= MaxEstimate * |mbs|
    decreases |mbs|
  {
    if |mbs| > 0 {
      SumBounds(mbs[..|mbs| - 1]);
    }
  }

  /** Failed lookups contribute at most 800 MB each, and nothing is negative. */
  lemma {:induction false} FailedLookupSumBounds(mbs: seq<int>, pids: seq<Option<int>>)
    requires |pids| == |mbs|
    requires forall i :: 0 <= i < |mbs| ==> MinEstimate <= mbs[i] <= MaxEstimate
    ensures 0 <= FailedLookupSum(mbs, pids) <= MaxEstimate * |mbs|
    decreases |mbs|
  {
    if |mbs| > 0 {
      var n := |mbs| - 1;
      FailedLookupSumBounds(mbs[..n], pids[..n]);
    }
  }

  /** When no lookup succeeds, every tab falls back on its own estimate. */
  lemma {:induction false} AllLookupsFailed(mbs: seq<int>, pids: seq<Option<int>>)
    requires |pids| == |mbs|
    requires !AnyProcessId(pids)
    ensures FailedLookupSum(mbs, pids) == Sum(mbs)
    decreases |mbs|
  {
    if |mbs| > 0 {
      var n := |mbs| - 1;
      assert !AnyProcessId(pids[..n]);
      assert pids[n].None?;
      AllLookupsFailed(mbs[..n], pids[..n]);
    }
  }

  /**
   * The units as written: with the registry present and every lookup failing,
   * the MB estimates land in the byte accumulator, so fewer than 655 tabs
   * report a total of 0.
   */
  lemma FailedLookupsRoundToZero(tabs: seq<Tab>, times: map<int, int>, now: int, host: HostAnswers,
                                 lookupDraws: seq<real>, fallbackDraws: seq<real>)
    requires WellFormed(tabs, host, lookupDraws, fallbackDraws)
    requires host.processesApi && !AnyProcessId(host.processIdFor) && |tabs| < 655
    ensures MemoryUsage(tabs, times, now, host, lookupDraws, fallbackDraws) == 0
  {
    var mbs := Estimates(tabs, times, now, lookupDraws);
    var f := FailedLookupSum(mbs, host.processIdFor);
    FailedLookupSumBounds(mbs, host.processIdFor);
    assert 0 <= f < 524288;
    assert 0.0 <= f as real / BytesPerMb as real < 0.5;
  }

  /**
   * The registry missing, or its batched call failing after a lookup
   * succeeded, gives the whole-batch estimate: the fallback draws' estimates
   * summed, divided by 1024 and rounded.
   */
  lemma WholeBatchFallbackValue(tabs: seq<Tab>, times: map<int, int>, now: int, host: HostAnswers,
                                lookupDraws: seq<real>, fallbackDraws: seq<real>)
    requires WellFormed(tabs, host, lookupDraws, fallbackDraws)
    requires !host.processesApi || (AnyProcessId(host.processIdFor) && host.processInfo.None?)
    ensures MemoryUsage(tabs, times, now, host, lookupDraws, fallbackDraws) ==
      JsRound(Sum(Estimates(tabs, times, now, fallbackDraws)) as real / 1024.0)
  {
  }

  /** The whole-batch fallback lies between the rounded minimum and maximum totals for that many tabs. */
  lemma WholeBatchFallback(tabs: seq<Tab>, times: map<int, int>, now: int, host: HostAnswers,
                           lookupDraws: seq<real>, fallbackDraws: seq<real>)
    requires WellFormed(tabs, host, lookupDraws, fallbackDraws)
    requires !host.processesApi || (AnyProcessId(host.processIdFor) && host.processInfo.None?)
    ensures var total := MemoryUsage(tabs, times, now, host, lookupDraws, fallbackDraws);
      JsRound((MinEstimate * |tabs|) as real / 1024.0) <= total <= JsRound((MaxEstimate * |tabs|) as real / 1024.0)
  {
    var mbs := Estimates(tabs, times, now, fallbackDraws);
    var s := Sum(mbs);
    SumBounds(mbs);
    JsRoundMonotone((MinEstimate * |tabs|) as real / 1024.0, s as real / 1024.0);
    JsRoundMonotone(s as real / 1024.0, (MaxEstimate * |tabs|) as real / 1024.0);
  }
}
