/**
 * The background script's access-time tracker: a map from tab id to the
 * millisecond timestamp of the tab's last creation, completed load or
 * activation, updated by four host event handlers.
 */
module AccessTimes {
  import TabMemory

  /** The host events the tracker listens to. */
  datatype TabEvent =
    | Created(tabId: int)
    | Removed(tabId: int)
    | Updated(tabId: int, status: string)
    | Activated(tabId: int)

  /** The events that record the current time for their tab. */
  predicate Records(e: TabEvent) {
    e.Created? || e.Activated? || (e.Updated? && e.status == "complete")
  }

  /** The map after one event handled at time `now`. */
  function Step(times: map<int, int>, e: TabEvent, now: int): (r: map<int, int>)
    ensures Records(e) ==> e.tabId in r && r[e.tabId] == now
    ensures e.Removed? ==> e.tabId !in r
    ensures e.Updated? && e.status != "complete" ==> r == times
    ensures forall t :: t != e.tabId ==> (t in r <==> t in times)
    ensures forall t :: t != e.tabId && t in r ==> r[t] == times[t]
  {
    match e
    case Created(id) => times[id := now]
    case Removed(id) => times - {id}
    case Updated(id, status) => if status == "complete" then times[id := now] else times
    case Activated(id) => times[id := now]
  }

  /** The map after a sequence of events, each with the time it was handled. */
  function Replay(times: map<int, int>, events: seq<(TabEvent, int)>): map<int, int>
    decreases |events|
  {
    if |events| == 0 then times
    else Replay(Step(times, events[0].0, events[0].1), events[1..])
  }

  /** Events about other tabs never touch a tab's entry. */
  lemma {:induction false} ReplayKeepsOtherTabs(times: map<int, int>, events: seq<(TabEvent, int)>, t: int)
    requires forall k :: 0 <= k < |events| ==> events[k].0.tabId != t
    ensures var r := Replay(times, events); (t in r <==> t in times) && (t in r ==> r[t] == times[t])
    decreases |events|
  {
    if |events| > 0 {
      ReplayKeepsOtherTabs(Step(times, events[0].0, events[0].1), events[1..], t);
    }
  }

  /**
   * After the last event about a tab, its entry is that event's time when the
   * event records one, and absent when it was a removal.
   */
  lemma {:induction false} ReplayLastEventDecides(times: map<int, int>, events: seq<(TabEvent, int)>, k: nat, t: int)
    requires k < |events| && events[k].0.tabId == t
    requires forall j :: k < j < |events| ==> events[j].0.tabId != t
    ensures Records(events[k].0) ==> t in Replay(times, events) && Replay(times, events)[t] == events[k].1
    ensures events[k].0.Removed? ==> t !in Replay(times, events)
    decreases k
  {
    if k == 0 {
      ReplayKeepsOtherTabs(Step(times, events[0].0, events[0].1), events[1..], t);
    } else {
      ReplayLastEventDecides(Step(times, events[0].0, events[0].1), events[1..], k - 1, t);
    }
  }

  /** The tracker object: `tabAccessTimes`, updated in place by the event handlers. */
  class Tracker {
    var times: map<int, int>

    constructor ()
      ensures times == map[]
    {
      times := map[];
    }

    /** A created tab is recorded at the current time. */
    method OnCreated(tabId: int, now: int)
      modifies this
      ensures times == Step(old(times), Created(tabId), now)
    {
      times := times[tabId := now];
    }

    /** A closed tab loses its record. */
    method OnRemoved(tabId: int)
      modifies this
      ensures times == Step(old(times), Removed(tabId), 0)
    {
      times := times - {tabId};
    }

    /** A tab that finished loading is recorded at the current time; other updates change nothing. */
    method OnUpdated(tabId: int, status: string, now: int)
      modifies this
      ensures times == Step(old(times), Updated(tabId, status), now)
    {
      if status == "complete" {
        times := times[tabId := now];
      }
    }

    /** A tab the user switches to is recorded at the current time. */
    method OnActivated(tabId: int, now: int)
      modifies this
      ensures times == Step(old(times), Activated(tabId), now)
    {
      times := times[tabId := now];
    }

    /** The access time the estimator uses for a tab: the record, or `now` when there is none (or it is 0). */
    function LastAccessed(tabId: int, now: int): (t: int)
      reads this
      ensures tabId in times && times[tabId] != 0 ==> t == times[tabId]
      ensures tabId !in times || times[tabId] == 0 ==> t == now
    {
      TabMemory.LastAccessed(times, tabId, now)
    }
  }

  /** A tab that was created and then closed reads as just accessed, not as its old record. */
  method CreateThenRemove(tabId: int, created: int, now: int) returns (t: int)
    ensures t == now
  {
    var tracker := new Tracker();
    tracker.OnCreated(tabId, created);
    tracker.OnRemoved(tabId);
    t := tracker.LastAccessed(tabId, now);
  }
}
