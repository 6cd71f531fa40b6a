/**
 * The in-memory progress tracker of services/progress/tracker.py: a map
 * from request id to a `ProgressState` object holding the total, the
 * number processed so far and the creation time.
 *
 * The tracker is modelled sequentially as one explicitly constructed
 * object; its locks and the singleton are not modelled. The clock is a
 * parameter: times are integers counting microseconds, the resolution of
 * Python's `datetime`.
 */
module Tracker {
  import opened Wrappers

  /** The snapshot `{"total": ..., "processed": ...}`. */
  datatype Progress = Progress(total: int, processed: int)

  /** What the tracker holds for one request, as a value. */
  datatype Entry = Entry(total: int, processed: int, createdAt: int)

  /** `timedelta(minutes=1)` in microseconds. */
  const MicrosPerMinute: int := 60 * 1000 * 1000

  /** The progress of a request in a view of the tracker, `None` when it is not tracked. */
  function ProgressOf(v: map<string, Entry>, id: string): (r: Option<Progress>)
    ensures r.None? <==> id !in v
    ensures r.Some? ==> r.value.total == v[id].total && r.value.processed == v[id].processed
  {
    if id in v then Some(Progress(v[id].total, v[id].processed)) else None
  }

  /** Whether a request has processed all of its records. */
  predicate Complete(e: Entry) {
    e.processed >= e.total
  }

  /** The view after `start_tracking`: a fresh entry replaces whatever was there. */
  function Started(v: map<string, Entry>, id: string, total: int, now: int): (r: map<string, Entry>)
    ensures r.Keys == v.Keys + {id} && ProgressOf(r, id) == Some(Progress(total, 0))
    ensures forall k :: k in v && k != id ==> r[k] == v[k]
  {
    v[id := Entry(total, 0, now)]
  }

  /** The view after `increment_progress`: one more processed record, if the request is tracked. */
  function Incremented(v: map<string, Entry>, id: string): (r: map<string, Entry>)
    ensures r.Keys == v.Keys
    ensures forall k :: k in v && k != id ==> r[k] == v[k]
  {
    if id in v then v[id := v[id].(processed := v[id].processed + 1)] else v
  }

  /** The view after `k` calls of `increment_progress` on the same id. */
  function IncrementedTimes(v: map<string, Entry>, id: string, k: nat): map<string, Entry> {
    if k == 0 then v else Incremented(IncrementedTimes(v, id, k - 1), id)
  }

  /** One more increment on top of `k`. */
  lemma IncrementedTimesStep(v: map<string, Entry>, id: string, k: nat)
    ensures IncrementedTimes(v, id, k + 1) == Incremented(IncrementedTimes(v, id, k), id)
  {
  }

  /** The view after `stop_tracking`. */
  function Stopped(v: map<string, Entry>, id: string): (r: map<string, Entry>)
    ensures r.Keys == v.Keys - {id} && ProgressOf(r, id).None?
  {
    v - {id}
  }

  /** The view after `cleanup_old_states`: the entries created at or after the cutoff. */
  function Swept(v: map<string, Entry>, cutoff: int): (r: map<string, Entry>)
    ensures r.Keys <= v.Keys
    ensures forall id :: id in r ==> r[id] == v[id] && r[id].createdAt >= cutoff
  {
    map id | id in v && v[id].createdAt >= cutoff :: v[id]
  }

  /** `ProgressState`: one request's counters. */
  class ProgressState {
    const requestId: string
    const totalRecords: int
    var processedRecords: int
    const createdAt: int

    constructor(requestId: string, totalRecords: int, now: int)
      ensures this.requestId == requestId && this.totalRecords == totalRecords && this.createdAt == now
      ensures processedRecords == 0
    {
      this.requestId := requestId;
      this.totalRecords := totalRecords;
      processedRecords := 0;
      createdAt := now;
    }

    /** `increment`: one more record processed. */
    method Increment()
      modifies this
      ensures processedRecords == old(processedRecords) + 1
    {
      processedRecords := processedRecords + 1;
    }

    /** `get_progress`: a snapshot of the counters. */
    function GetProgress(): (p: Progress)
      reads this
      ensures p.total == totalRecords && p.processed == processedRecords
    {
      Progress(totalRecords, processedRecords)
    }

    /** `is_complete`: the snapshot shows no record left to process. */
    function IsComplete(): (b: bool)
      reads this
      ensures b <==> GetProgress().processed >= GetProgress().total
      ensures b <==> Complete(Entry(totalRecords, processedRecords, createdAt))
    {
      processedRecords >= totalRecords
    }
  }

  /** `ProgressTracker`: the states of all tracked requests. */
  class ProgressTracker {
    var states: map<string, ProgressState>

    /** Every state is filed under its own request id, so distinct ids never share a state. */
    ghost predicate Valid()
      reads this
    {
      forall id :: id in states ==> states[id].requestId == id
    }

    /** The tracker's contents as values. */
    function View(): map<string, Entry>
      reads this, states.Values
    {
      map id | id in states :: Entry(states[id].totalRecords, states[id].processedRecords, states[id].createdAt)
    }

    constructor()
      ensures Valid() && View() == map[]
    {
      states := map[];
    }

    /** `start_tracking`: (re)start a request at zero processed records. */
    method StartTracking(requestId: string, totalRecords: int, now: int)
      requires Valid()
      modifies this
      ensures Valid()
      ensures View() == Started(old(View()), requestId, totalRecords, now)
      ensures requestId in states && fresh(states[requestId])
    {
      var state := new ProgressState(requestId, totalRecords, now);
      states := states[requestId := state];
    }

    /** `increment_progress`: count one record for a tracked request; an unknown id changes nothing. */
    method IncrementProgress(requestId: string)
      requires Valid()
      modifies if requestId in states then {states[requestId]} else {}
      ensures Valid() && states == old(states)
      ensures View() == Incremented(old(View()), requestId)
    {
      if requestId in states {
        var state := states[requestId];
        state.Increment();
        assert forall id :: id in states && id != requestId ==> states[id] != state;
      }
    }

    /** `get_progress` on the tracker. */
    function GetProgress(requestId: string): (r: Option<Progress>)
      reads this, states.Values
      ensures r == ProgressOf(View(), requestId)
    {
      if requestId in states then Some(states[requestId].GetProgress()) else None
    }

    /** `stop_tracking`: forget a request; an unknown id changes nothing. */
    method StopTracking(requestId: string)
      requires Valid()
      modifies this
      ensures Valid()
      ensures View() == Stopped(old(View()), requestId)
    {
      if requestId in states {
        states := states - {requestId};
      }
    }

    /** `cleanup_old_states`: drop every state created before `now` minus `maxAgeMinutes` minutes. */
    method CleanupOldStates(now: int, maxAgeMinutes: int)
      requires Valid()
      modifies this
      ensures Valid()
      ensures View() == Swept(old(View()), now - maxAgeMinutes * MicrosPerMinute)
    {
      var cutoffTime := now - maxAgeMinutes * MicrosPerMinute;
      var toRemove := set id | id in states && states[id].createdAt < cutoffTime;
      while toRemove != {}
        invariant Valid()
        invariant forall id :: id in toRemove ==> id in old(states) && old(states)[id].createdAt < cutoffTime
        invariant forall id :: id in states <==> id in old(states) && (id in toRemove || old(states)[id].createdAt >= cutoffTime)
        invariant forall id :: id in states ==> states[id] == old(states)[id]
        decreases |toRemove|
      {
        var id :| id in toRemove;
        states := states - {id};
        toRemove := toRemove - {id};
      }
    }
  }

  /** Starting a request shows it at zero processed records, whether or not it was tracked, and
      leaves every other request as it was. */
  lemma StartedProgress(v: map<string, Entry>, id: string, total: int, now: int)
    ensures ProgressOf(Started(v, id, total, now), id) == Some(Progress(total, 0))
    ensures forall other :: other != id ==> ProgressOf(Started(v, id, total, now), other) == ProgressOf(v, other)
  {
  }

  /** Incrementing a tracked request adds exactly one to its processed count and keeps its total
      and creation time; every other request is untouched; an untracked id is a no-op. */
  lemma IncrementedProgress(v: map<string, Entry>, id: string)
    ensures id in v ==> ProgressOf(Incremented(v, id), id) == Some(Progress(v[id].total, v[id].processed + 1))
    ensures id in v ==> Incremented(v, id)[id].createdAt == v[id].createdAt
    ensures id !in v ==> Incremented(v, id) == v
    ensures forall other :: other != id ==> ProgressOf(Incremented(v, id), other) == ProgressOf(v, other)
  {
  }

  /** After stopping, the request is gone; stopping an unknown id is a no-op; others are unaffected. */
  lemma StoppedProgress(v: map<string, Entry>, id: string)
    ensures ProgressOf(Stopped(v, id), id).None?
    ensures id !in v ==> Stopped(v, id) == v
    ensures forall other :: other != id ==> ProgressOf(Stopped(v, id), other) == ProgressOf(v, other)
  {
  }

  /** The sweep removes exactly the entries older than the cutoff and keeps the rest as they were. */
  lemma SweptExactly(v: map<string, Entry>, cutoff: int)
    ensures forall id :: id in Swept(v, cutoff) <==> id in v && v[id].createdAt >= cutoff
    ensures forall id :: id in Swept(v, cutoff) ==> Swept(v, cutoff)[id] == v[id]
    ensures Swept(Swept(v, cutoff), cutoff) == Swept(v, cutoff)
  {
  }

  /** `k` increments after a start leave the total and creation time and count `k` records;
      no other request changes. */
  lemma {:induction false} StartThenIncrements(v: map<string, Entry>, id: string, total: int, now: int, k: nat)
    ensures var w := IncrementedTimes(Started(v, id, total, now), id, k);
      id in w && w[id] == Entry(total, k, now)
      && forall other :: other != id ==> ProgressOf(w, other) == ProgressOf(v, other)
  {
    if k > 0 {
      StartThenIncrements(v, id, total, now, k - 1);
    }
  }

  /** A request started with `n` records and incremented `k` times is complete exactly when `k >= n`;
      in particular, after `n` increments it shows `n` of `n` and is complete. */
  lemma StartThenIncrementsComplete(v: map<string, Entry>, id: string, n: nat, now: int, k: nat)
    ensures var w := IncrementedTimes(Started(v, id, n, now), id, k);
      id in w && (Complete(w[id]) <==> k >= n)
    ensures ProgressOf(IncrementedTimes(Started(v, id, n, now), id, n), id) == Some(Progress(n, n))
  {
    StartThenIncrements(v, id, n, now, k);
    StartThenIncrements(v, id, n, now, n);
  }
}
