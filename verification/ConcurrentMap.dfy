/** Mapping over items with a bounded number of workers that share one counter and one array of results. */
module ConcurrentMap {
  import opened Wrappers

  /** A worker that waits for an item's work, has run out of items, or was rejected at an item. */
  datatype Worker = Working(index: nat) | Done | Rejected(index: nat, error: string)

  function MapAll<T, R>(items: seq<T>, work: (T, nat) -> R): (r: seq<R>)
    ensures |r| == |items| && forall i :: 0 <= i < |items| ==> r[i] == work(items[i], i)
  {
    seq(|items|, i requires 0 <= i < |items| => work(items[i], i))
  }

  predicate IsAt(worker: Worker, index: nat) {
    !worker.Done? && worker.index == index
  }

  /** Some worker is at this index. */
  predicate IsClaimed(workers: seq<Worker>, index: nat) {
    exists w :: 0 <= w < |workers| && IsAt(workers[w], index)
  }

  class Call<T, R> {
    const items: seq<T>
    const concurrency: int
    const results: array<Option<R>>
    var nextIndex: nat
    var workers: seq<Worker>

    /** The first claims happen at once, one for each worker. */
    constructor (items: seq<T>, concurrency: int)
      requires concurrency >= 1
      ensures Valid() && this.items == items && this.concurrency == concurrency && fresh(results)
      ensures |workers| == if concurrency <= |items| then concurrency else |items|
      ensures forall w :: 0 <= w < |workers| ==> workers[w] == Working(w)
      ensures nextIndex == |workers| && forall i :: 0 <= i < |items| ==> results[i].None?
    {
      var workerCount := if concurrency <= |items| then concurrency else |items|;
      this.items, this.concurrency := items, concurrency;
      results := new Option<R>[|items|](_ => None);
      nextIndex := workerCount;
      workers := seq(workerCount, (w: nat) => Working(w));
      new;
      assert forall i :: 0 <= i < results.Length ==> results[i].None?;
      forall i | 0 <= i < nextIndex
        ensures IsClaimed(workers, i)
      {
        assert IsAt(workers[i], i);
      }
    }

    ghost predicate Valid()
      reads this, results
    {
      && results.Length == |items| && nextIndex <= |items|
      && 1 <= concurrency && |workers| <= concurrency && |workers| <= |items|
      && EachIndexOnce() && EveryClaimKept()
      && (forall w :: 0 <= w < |workers| && workers[w].Done? ==> nextIndex == |items|)
      && (|items| > 0 ==> |workers| > 0)
    }

    /** No two workers are at one index, and nobody is at an index that has its result. */
    ghost predicate EachIndexOnce()
      requires results.Length == |items|
      reads this, results
    {
      && (forall v, w :: 0 <= v < w < |workers| && !workers[v].Done? && !workers[w].Done? ==> workers[v].index != workers[w].index)
      && (forall w :: 0 <= w < |workers| && !workers[w].Done? ==>
            workers[w].index < nextIndex && workers[w].index < results.Length && results[workers[w].index].None?)
    }

    /** A claimed index has its result, or some worker is at it; an index not yet claimed has no result. */
    ghost predicate EveryClaimKept()
      requires results.Length == |items|
      reads this, results
    {
      forall i :: 0 <= i < |items| ==>
        if i < nextIndex then results[i].Some? || IsClaimed(workers, i)
        else results[i].None?
    }

    /** The results so far are those of the work. */
    ghost predicate ResultsAreOf(work: (T, nat) -> R)
      requires results.Length == |items|
      reads this, results
    {
      forall i :: 0 <= i < |items| && results[i].Some? ==> results[i].value == work(items[i], i)
    }

    /** A worker's item is done: the result is stored and the worker claims the next index, if there is one. */
    method Fulfil(w: nat, result: R, ghost work: (T, nat) -> R)
      requires Valid() && w < |workers| && workers[w].Working? && ResultsAreOf(work)
      requires result == work(items[workers[w].index], workers[w].index)
      modifies this, results
      ensures Valid() && ResultsAreOf(work) && |workers| == |old(workers)|
      ensures results[old(workers[w]).index] == Some(result)
      ensures forall i :: 0 <= i < |items| && i != old(workers[w]).index ==> results[i] == old(results[i])
      ensures old(nextIndex) < |items| ==> nextIndex == old(nextIndex) + 1 && workers == old(workers)[w := Working(old(nextIndex))]
      ensures old(nextIndex) == |items| ==> nextIndex == old(nextIndex) && workers == old(workers)[w := Done]
    {
      var index := workers[w].index;
      ghost var before := workers;
      results[index] := Some(result);
      if nextIndex < |items| {
        workers := workers[w := Working(nextIndex)];
        nextIndex := nextIndex + 1;
      } else {
        workers := workers[w := Done];
      }
      forall i | 0 <= i < nextIndex && results[i].None?
        ensures IsClaimed(workers, i)
      {
        if i < old(nextIndex) {
          assert old(results[i]).None?;
          var v :| 0 <= v < |before| && IsAt(before[v], i);
          assert v != w;
          assert IsAt(workers[v], i);
        } else {
          assert IsAt(workers[w], i);
        }
      }
    }

    /** A worker's item fails: that worker stops, the others go on. */
    method Reject(w: nat, error: string)
      requires Valid() && w < |workers| && workers[w].Working?
      modifies this
      ensures Valid() && nextIndex == old(nextIndex)
      ensures workers == old(workers)[w := Rejected(old(workers[w]).index, error)]
    {
      ghost var before := workers;
      workers := workers[w := Rejected(workers[w].index, error)];
      forall i | 0 <= i < nextIndex && results[i].None?
        ensures IsClaimed(workers, i)
      {
        var v :| 0 <= v < |before| && IsAt(before[v], i);
        assert IsAt(workers[v], i);
      }
    }

    predicate HasWorkInFlight()
      reads this
    {
      exists w :: 0 <= w < |workers| && workers[w].Working?
    }

    predicate HasRejection()
      reads this
    {
      exists w :: 0 <= w < |workers| && workers[w].Rejected?
    }

    /**
     All workers have settled. Without a rejection the results are those of the sequential map; otherwise
     the call is rejected with the error of the first rejected worker.
     */
    method Settle(ghost work: (T, nat) -> R) returns (mapped: Option<seq<R>>, error: Option<string>)
      requires Valid() && ResultsAreOf(work) && !HasWorkInFlight()
      ensures mapped.Some? <==> !HasRejection()
      ensures mapped.Some? ==> mapped.value == MapAll(items, work) && error == None
      ensures mapped.None? ==>
                exists w :: 0 <= w < |workers| && workers[w].Rejected? && error == Some(workers[w].error)
                            && forall v :: 0 <= v < w ==> !workers[v].Rejected?
    {
      for w := 0 to |workers|
        invariant forall v :: 0 <= v < w ==> !workers[v].Rejected?
      {
        if workers[w].Rejected? {
          return None, Some(workers[w].error);
        }
      }
      assert forall w :: 0 <= w < |workers| ==> workers[w].Done? && forall i :: !IsAt(workers[w], i);
      assert |items| > 0 ==> workers[0].Done?;
      assert forall i :: 0 <= i < |items| ==> results[i].Some?;
      var all := seq(|items|, i requires 0 <= i < |items| && results.Length == |items| && results[i].Some? reads results =>
                                 results[i].value);
      assert all == MapAll(items, work);
      return Some(all), None;
    }
  }

  /** No index is worked on twice: its result is there, or one worker is at it, or it is not claimed yet. */
  lemma ClaimedOnce<T, R>(call: Call<T, R>, v: nat, w: nat)
    requires call.Valid() && v < |call.workers| && w < |call.workers|
    requires call.workers[v].Working? && call.workers[w].Working? && call.workers[v].index == call.workers[w].index
    ensures v == w && call.results[call.workers[v].index].None?
  {
  }

  /** Whoever asks for fewer than one worker is refused. */
  method MapWithConcurrency<T, R>(items: seq<T>, concurrency: int) returns (call: Option<Call<T, R>>)
    ensures call.Some? <==> 1 <= concurrency <= MAX_SAFE_INTEGER
    ensures call.Some? ==>
              && call.value.Valid() && call.value.items == items
              && |call.value.workers| == if concurrency <= |items| then concurrency else |items|
    ensures call.Some? ==> (!call.value.HasWorkInFlight() <==> items == [])
  {
    if !(1 <= concurrency <= MAX_SAFE_INTEGER) {
      return None;
    }
    var started := new Call(items, concurrency);
    assert items != [] ==> started.workers[0].Working?;
    call := Some(started);
  }

  // Whole runs

  /** The work that a worker waits for is over, with an error or without. */
  datatype Arrival = Arrival(worker: nat, error: Option<string>)

  datatype Settlement<R> = Fulfilled(results: seq<R>) | RejectedWith(error: string)

  datatype Event = Start(index: nat) | Finish(index: nat, error: Option<string>)

  /** How much work is in flight after these events. */
  function InFlight(log: seq<Event>): int {
    if log == [] then 0 else InFlight(log[..|log| - 1]) + if log[|log| - 1].Start? then 1 else -1
  }

  function Starts(log: seq<Event>): seq<nat> {
    if log == [] then []
    else Starts(log[..|log| - 1]) + if log[|log| - 1].Start? then [log[|log| - 1].index] else []
  }

  /** At no time is more work in flight than allowed. */
  ghost predicate IsBounded(log: seq<Event>, concurrency: int) {
    forall n :: 0 <= n <= |log| ==> 0 <= InFlight(log[..n]) <= concurrency
  }

  /** Work was started for the first indices, once each and in order. */
  ghost predicate StartsInOrder(log: seq<Event>, n: nat) {
    Starts(log) == seq(n, i requires 0 <= i < n => i)
  }

  function CountWorking(workers: seq<Worker>): nat {
    if workers == [] then 0 else CountWorking(workers[..|workers| - 1]) + if workers[|workers| - 1].Working? then 1 else 0
  }

  lemma {:induction false} CountUpdated(workers: seq<Worker>, w: nat, worker: Worker)
    requires w < |workers|
    ensures CountWorking(workers[w := worker])
         == CountWorking(workers) - (if workers[w].Working? then 1 else 0) + if worker.Working? then 1 else 0
    ensures CountWorking(workers) <= |workers|
    decreases |workers|
  {
    var n := |workers| - 1;
    var updated := workers[w := worker];
    if w == n {
      assert updated[..n] == workers[..n];
      if n > 0 {
        CountUpdated(workers[..n], 0, workers[0]);
      }
    } else {
      assert updated[..n] == workers[..n][w := worker];
      CountUpdated(workers[..n], w, worker);
    }
  }

  lemma {:induction false} NoneWorking(workers: seq<Worker>)
    ensures CountWorking(workers) == 0 <==> forall w :: 0 <= w < |workers| ==> !workers[w].Working?
    decreases |workers|
  {
    if workers != [] {
      var n := |workers| - 1;
      var before := workers[..n];
      NoneWorking(before);
      assert forall w :: 0 <= w < n ==> before[w] == workers[w];
    }
  }

  lemma {:induction false} AllWorking(workers: seq<Worker>)
    requires forall w :: 0 <= w < |workers| ==> workers[w].Working?
    ensures CountWorking(workers) == |workers|
    decreases |workers|
  {
    if workers != [] {
      AllWorking(workers[..|workers| - 1]);
    }
  }

  lemma AppendEvent(log: seq<Event>, e: Event)
    ensures InFlight(log + [e]) == InFlight(log) + if e.Start? then 1 else -1
    ensures Starts(log + [e]) == Starts(log) + if e.Start? then [e.index] else []
    ensures forall concurrency :: IsBounded(log, concurrency) && 0 <= InFlight(log + [e]) <= concurrency ==>
              IsBounded(log + [e], concurrency)
  {
    assert (log + [e])[..|log|] == log;
    assert forall n :: 0 <= n <= |log| ==> (log + [e])[..n] == log[..n];
    assert (log + [e])[..|log| + 1] == log + [e];
  }

  lemma NextStart(log: seq<Event>, n: nat)
    requires StartsInOrder(log, n)
    ensures StartsInOrder(log + [Start(n)], n + 1)
  {
    AppendEvent(log, Start(n));
    assert seq(n + 1, i requires 0 <= i < n + 1 => i) == seq(n, i requires 0 <= i < n => i) + [n];
  }

  /** The events when the call has been made: each worker has started with its first index. */
  method FirstStarts(n: nat) returns (log: seq<Event>)
    ensures InFlight(log) == n && StartsInOrder(log, n) && forall c :: n <= c ==> IsBounded(log, c)
    ensures forall e <- log :: e.Start?
  {
    log := [];
    for i := 0 to n
      invariant InFlight(log) == i && StartsInOrder(log, i) && forall c :: i <= c ==> IsBounded(log, c)
      invariant forall e <- log :: e.Start?
    {
      AppendEvent(log, Start(i));
      NextStart(log, i);
      log := log + [Start(i)];
    }
  }

  predicate IsError(e: Event, error: string) {
    e.Finish? && e.error == Some(error)
  }

  /** What the events say about the workers: who is at work, and which errors there were. */
  ghost predicate Logged(workers: seq<Worker>, nextIndex: nat, concurrency: int, log: seq<Event>) {
    && |workers| <= concurrency
    && InFlight(log) == CountWorking(workers) && IsBounded(log, concurrency) && StartsInOrder(log, nextIndex)
    && (forall w :: 0 <= w < |workers| && workers[w].Rejected? ==> exists e <- log :: IsError(e, workers[w].error))
    && (forall e <- log :: e.Finish? && e.error.Some? ==> exists w :: 0 <= w < |workers| && workers[w].Rejected?)
  }

  lemma LoggedReject(workers: seq<Worker>, w: nat, nextIndex: nat, concurrency: int, log: seq<Event>, index: nat, error: string)
    requires Logged(workers, nextIndex, concurrency, log) && w < |workers| && workers[w].Working?
    ensures Logged(workers[w := Rejected(index, error)], nextIndex, concurrency, log + [Finish(index, Some(error))])
  {
    hide IsBounded;
    var after, event := workers[w := Rejected(index, error)], Finish(index, Some(error));
    AppendEvent(log, event);
    CountUpdated(workers, w, Rejected(index, error));
    assert after[w].Rejected? && IsError((log + [event])[|log|], error);
    forall v | 0 <= v < |after| && after[v].Rejected?
      ensures exists e <- log + [event] :: IsError(e, after[v].error)
    {
      if v != w {
        var e :| e in log && IsError(e, workers[v].error);
        assert e in log + [event];
      }
    }
  }

  lemma LoggedFulfil(workers: seq<Worker>, w: nat, nextIndex: nat, concurrency: int, log: seq<Event>, index: nat)
    requires Logged(workers, nextIndex, concurrency, log) && w < |workers| && workers[w].Working?
    ensures Logged(workers[w := Done], nextIndex, concurrency, log + [Finish(index, None)])
  {
    hide IsBounded;
    AppendEvent(log, Finish(index, None));
    CountUpdated(workers, w, Done);
    ErrorsKept(workers, w, Done, log, Finish(index, None));
  }

  /** The worker has claimed another index. */
  lemma LoggedStart(workers: seq<Worker>, w: nat, nextIndex: nat, concurrency: int, log: seq<Event>)
    requires Logged(workers, nextIndex, concurrency, log) && w < |workers| && workers[w].Done?
    ensures Logged(workers[w := Working(nextIndex)], nextIndex + 1, concurrency, log + [Start(nextIndex)])
  {
    hide IsBounded;
    AppendEvent(log, Start(nextIndex));
    NextStart(log, nextIndex);
    CountUpdated(workers, w, Working(nextIndex));
    CountUpdated(workers[w := Working(nextIndex)], w, Working(nextIndex));
    ErrorsKept(workers, w, Working(nextIndex), log, Start(nextIndex));
  }

  lemma ErrorsKept(workers: seq<Worker>, w: nat, worker: Worker, log: seq<Event>, event: Event)
    requires w < |workers| && !workers[w].Rejected? && !worker.Rejected? && (event.Finish? ==> event.error.None?)
    requires forall v :: 0 <= v < |workers| && workers[v].Rejected? ==> exists e <- log :: IsError(e, workers[v].error)
    requires forall e <- log :: e.Finish? && e.error.Some? ==> exists v :: 0 <= v < |workers| && workers[v].Rejected?
    ensures var after, events := workers[w := worker], log + [event];
            && (forall v :: 0 <= v < |after| && after[v].Rejected? ==> exists e <- events :: IsError(e, after[v].error))
            && (forall e <- events :: e.Finish? && e.error.Some? ==> exists v :: 0 <= v < |after| && after[v].Rejected?)
  {
    var after, events := workers[w := worker], log + [event];
    forall v | 0 <= v < |after| && after[v].Rejected?
      ensures exists e <- events :: IsError(e, after[v].error)
    {
      var e :| e in log && IsError(e, workers[v].error);
      assert e in events;
    }
    forall e <- events | e.Finish? && e.error.Some?
      ensures exists v :: 0 <= v < |after| && after[v].Rejected?
    {
      var v :| 0 <= v < |workers| && workers[v].Rejected?;
      assert after[v].Rejected?;
    }
  }

  /** One arrival; an arrival at a worker that does not wait is none. */
  method Arrive<T(!new), R>(call: Call<T, R>, arrival: Arrival, work: (T, nat) -> R, log: seq<Event>)
    returns (log': seq<Event>)
    requires call.Valid() && Logged(call.workers, call.nextIndex, call.concurrency, log) && call.ResultsAreOf(work)
    modifies call, call.results
    ensures call.Valid() && Logged(call.workers, call.nextIndex, call.concurrency, log') && call.ResultsAreOf(work)
    ensures log <= log' && forall e <- log'[|log|..] :: e.Finish? ==> e.error == arrival.error
  {
    hide Logged;
    log' := log;
    if arrival.worker < |call.workers| && call.workers[arrival.worker].Working? {
      var w, index, next := arrival.worker, call.workers[arrival.worker].index, call.nextIndex;
      ghost var before, concurrency := call.workers, call.concurrency;
      if arrival.error.Some? {
        LoggedReject(before, w, next, concurrency, log, index, arrival.error.value);
        call.Reject(w, arrival.error.value);
        log' := log + [Finish(index, Some(arrival.error.value))];
      } else {
        LoggedFulfil(before, w, next, concurrency, log, index);
        call.Fulfil(w, work(call.items[index], index), work);
        log' := log + [Finish(index, None)];
        if next < |call.items| {
          LoggedStart(before[w := Done], w, next, concurrency, log');
          assert before[w := Done][w := Working(next)] == before[w := Working(next)];
          log' := log' + [Start(next)];
        }
      }
    }
  }

  /**
   A whole call under any order of arrivals. Work is started once for each index, in order, and never
   more of it is in flight than allowed. The call settles exactly when no work is in flight: with the
   results of the sequential map if no work failed, and otherwise with the error of work that did.
   */
  method RunToSettlement<T(!new), R>(items: seq<T>, concurrency: int, arrivals: seq<Arrival>, work: (T, nat) -> R)
    returns (settlement: Option<Settlement<R>>, log: seq<Event>)
    requires 1 <= concurrency <= MAX_SAFE_INTEGER
    ensures IsBounded(log, concurrency) && |Starts(log)| <= |items| && StartsInOrder(log, |Starts(log)|)
    ensures forall e <- log :: e.Finish? ==> exists a <- arrivals :: a.error == e.error
    ensures settlement.Some? <==> InFlight(log) == 0
    ensures settlement.Some? ==> (settlement.value.Fulfilled? <==> forall e <- log :: e.Finish? ==> e.error.None?)
    ensures settlement.Some? && settlement.value.Fulfilled? ==>
              settlement.value.results == MapAll(items, work) && |Starts(log)| == |items|
    ensures settlement.Some? && settlement.value.RejectedWith? ==> exists e <- log :: IsError(e, settlement.value.error)
  {
    var call := new Call<T, R>(items, concurrency);
    log := FirstStarts(|call.workers|);
    AllWorking(call.workers);
    for i := 0 to |arrivals|
      invariant call.Valid() && Logged(call.workers, call.nextIndex, concurrency, log) && call.ResultsAreOf(work)
      invariant call.items == items && call.concurrency == concurrency
      invariant fresh(call) && fresh(call.results)
      invariant forall e <- log :: e.Finish? ==> exists a <- arrivals :: a.error == e.error
    {
      var before := log;
      log := Arrive(call, arrivals[i], work, before);
      assert arrivals[i] in arrivals && log == before + log[|before|..];
    }
    NoneWorking(call.workers);
    settlement := None;
    if !call.HasWorkInFlight() {
      var mapped, error := call.Settle(work);
      settlement := Some(if mapped.Some? then Fulfilled(mapped.value) else RejectedWith(error.value));
    }
  }
}
