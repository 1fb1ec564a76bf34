/** Jobs of one project path run one after the other: each call waits for the promise of the call before it. */
module SerializedBackupRunner {

  import opened Wrappers

  /** One call: its project path, the call whose promise it waits for, and whether its own gate is open. */
  datatype Call = Call(key: string, previous: Option<nat>, started: bool, finished: bool)

  /** Nothing of this path comes between the two calls. */
  ghost predicate NoneBetween(calls: seq<Call>, p: nat, j: nat)
    requires p < j < |calls|
  {
    forall i :: p < i < j ==> calls[i].key != calls[j].key
  }

  /** Every earlier call of the same path has finished. */
  ghost predicate IsNext(calls: seq<Call>, j: nat)
    requires j < |calls|
  {
    forall i :: 0 <= i < j && calls[i].key == calls[j].key ==> calls[i].finished
  }

  /** A call waits for the one before it on the same path, or for nothing when all of those had finished. */
  ghost predicate LinkFits(calls: seq<Call>, j: nat)
    requires j < |calls|
  {
    match calls[j].previous
    case Some(p) => p < j && calls[p].key == calls[j].key && NoneBetween(calls, p, j)
    case None => IsNext(calls, j)
  }

  ghost predicate WellLinked(calls: seq<Call>) {
    forall j :: 0 <= j < |calls| ==> LinkFits(calls, j)
  }

  /** The promise of a call settles when its gate is open and the promise before it has settled. */
  ghost predicate Settled(calls: seq<Call>, j: nat)
    requires WellLinked(calls) && j < |calls|
    decreases j, 1
  {
    calls[j].finished && MayStart(calls, j)
  }

  ghost predicate MayStart(calls: seq<Call>, j: nat)
    requires WellLinked(calls) && j < |calls|
    decreases j, 0
  {
    assert LinkFits(calls, j);
    match calls[j].previous
    case None => true
    case Some(p) => Settled(calls, p)
  }

  /** Waiting for one promise is waiting for all earlier calls of the path, failed ones included. */
  lemma {:induction false} MayStartMeansNext(calls: seq<Call>, j: nat)
    requires WellLinked(calls) && j < |calls|
    ensures MayStart(calls, j) <==> IsNext(calls, j)
  {
    assert LinkFits(calls, j);
    if calls[j].previous.Some? {
      MayStartMeansNext(calls, calls[j].previous.value);
    }
  }

  ghost predicate IsLast(calls: seq<Call>, j: nat)
    requires j < |calls|
  {
    forall i :: j < i < |calls| ==> calls[i].key != calls[j].key
  }

  /** The table holds the last call of each path in it. */
  ghost predicate HoldsLast(chains: map<string, nat>, calls: seq<Call>) {
    forall key <- chains :: chains[key] < |calls| && calls[chains[key]].key == key && IsLast(calls, chains[key])
  }

  /** A path is forgotten only when all its calls have finished. */
  ghost predicate ForgetsFinished(chains: map<string, nat>, calls: seq<Call>) {
    forall i :: 0 <= i < |calls| && calls[i].key !in chains ==> calls[i].finished
  }

  ghost predicate RunsInTurn(calls: seq<Call>) {
    forall i :: 0 <= i < |calls| ==>
      (calls[i].finished ==> calls[i].started) && (calls[i].started ==> IsNext(calls, i))
  }

  /** Jobs of one path start in the order of their calls. */
  ghost predicate StartsInOrder(calls: seq<Call>, starts: seq<nat>) {
    && (forall a :: 0 <= a < |starts| ==> starts[a] < |calls| && calls[starts[a]].started)
    && (forall a, b :: 0 <= a < b < |starts| && calls[starts[a]].key == calls[starts[b]].key ==> starts[a] < starts[b])
  }

  // A call comes in

  function Added(calls: seq<Call>, chains: map<string, nat>, key: string): seq<Call> {
    calls + [Call(key, if key in chains then Some(chains[key]) else None, false, false)]
  }

  lemma AddedLinks(calls: seq<Call>, chains: map<string, nat>, key: string)
    requires WellLinked(calls) && HoldsLast(chains, calls) && ForgetsFinished(chains, calls)
    ensures WellLinked(Added(calls, chains, key))
  {
    var next := Added(calls, chains, key);
    forall j | 0 <= j < |next|
      ensures LinkFits(next, j)
    {
      assert j < |calls| ==> LinkFits(calls, j);
    }
  }

  lemma AddedTables(calls: seq<Call>, chains: map<string, nat>, key: string)
    requires HoldsLast(chains, calls) && ForgetsFinished(chains, calls)
    ensures HoldsLast(chains[key := |calls|], Added(calls, chains, key))
    ensures ForgetsFinished(chains[key := |calls|], Added(calls, chains, key))
  {
  }

  lemma AddedTurns(calls: seq<Call>, chains: map<string, nat>, key: string, starts: seq<nat>)
    requires RunsInTurn(calls) && StartsInOrder(calls, starts)
    ensures RunsInTurn(Added(calls, chains, key)) && StartsInOrder(Added(calls, chains, key), starts)
  {
  }

  // A job starts

  function Started(calls: seq<Call>, id: nat): seq<Call>
    requires id < |calls|
  {
    calls[id := calls[id].(started := true)]
  }

  lemma StartedLinks(calls: seq<Call>, id: nat)
    requires WellLinked(calls) && id < |calls|
    ensures WellLinked(Started(calls, id))
  {
    forall j | 0 <= j < |calls|
      ensures LinkFits(Started(calls, id), j)
    {
      assert LinkFits(calls, j);
    }
  }

  lemma StartedTables(calls: seq<Call>, chains: map<string, nat>, id: nat)
    requires HoldsLast(chains, calls) && ForgetsFinished(chains, calls) && id < |calls|
    ensures HoldsLast(chains, Started(calls, id)) && ForgetsFinished(chains, Started(calls, id))
  {
  }

  lemma StartedTurns(calls: seq<Call>, id: nat, starts: seq<nat>)
    requires RunsInTurn(calls) && StartsInOrder(calls, starts) && id < |calls| && !calls[id].started && IsNext(calls, id)
    ensures RunsInTurn(Started(calls, id)) && StartsInOrder(Started(calls, id), starts + [id])
  {
    var next := Started(calls, id);
    assert forall i :: 0 <= i < |calls| && IsNext(calls, i) ==> IsNext(next, i);
    forall a | 0 <= a < |starts| && calls[starts[a]].key == calls[id].key
      ensures starts[a] < id
    {
      assert IsNext(calls, starts[a]);
    }
  }

  // A job ends

  function Finished(calls: seq<Call>, id: nat): seq<Call>
    requires id < |calls|
  {
    calls[id := calls[id].(finished := true)]
  }

  lemma FinishedLinks(calls: seq<Call>, id: nat)
    requires WellLinked(calls) && id < |calls|
    ensures WellLinked(Finished(calls, id))
  {
    forall j | 0 <= j < |calls|
      ensures LinkFits(Finished(calls, id), j)
    {
      assert LinkFits(calls, j);
    }
  }

  lemma FinishedTables(calls: seq<Call>, chains: map<string, nat>, id: nat)
    requires HoldsLast(chains, calls) && ForgetsFinished(chains, calls) && RunsInTurn(calls)
    requires id < |calls| && calls[id].started
    ensures HoldsLast(chains, Finished(calls, id)) && ForgetsFinished(chains, Finished(calls, id))
    ensures calls[id].key in chains && chains[calls[id].key] == id ==>
              HoldsLast(chains - {calls[id].key}, Finished(calls, id))
              && ForgetsFinished(chains - {calls[id].key}, Finished(calls, id))
  {
    assert IsNext(calls, id);
  }

  lemma FinishedTurns(calls: seq<Call>, id: nat, starts: seq<nat>)
    requires RunsInTurn(calls) && StartsInOrder(calls, starts) && id < |calls| && calls[id].started
    ensures RunsInTurn(Finished(calls, id)) && StartsInOrder(Finished(calls, id), starts)
  {
    var next := Finished(calls, id);
    assert forall i :: 0 <= i < |calls| && IsNext(calls, i) ==> IsNext(next, i);
  }

  class Runner {
    var chains: map<string, nat>
    var calls: seq<Call>
    ghost var starts: seq<nat>

    constructor ()
      ensures Valid() && calls == []
    {
      chains, calls, starts := map[], [], [];
    }

    ghost predicate Valid()
      reads this
    {
      && WellLinked(calls) && HoldsLast(chains, calls) && ForgetsFinished(chains, calls)
      && RunsInTurn(calls) && StartsInOrder(calls, starts)
    }

    /** A call comes in and links itself behind the last one of its path. */
    method Request(key: string) returns (id: nat)
      requires Valid()
      modifies this
      ensures Valid() && id == |old(calls)| && starts == old(starts)
      ensures |calls| == id + 1 && calls[..id] == old(calls)
      ensures calls[id].key == key && !calls[id].started && !calls[id].finished
    {
      hide WellLinked, HoldsLast, ForgetsFinished, RunsInTurn, StartsInOrder;
      AddedLinks(calls, chains, key);
      AddedTables(calls, chains, key);
      AddedTurns(calls, chains, key, starts);
      id := |calls|;
      calls := Added(calls, chains, key);
      chains := chains[key := id];
    }

    /** The promise before it has settled, so the job runs. */
    method Start(id: nat)
      requires Valid() && id < |calls| && !calls[id].started && MayStart(calls, id)
      modifies this
      ensures Valid() && calls == old(calls)[id := old(calls)[id].(started := true)]
      ensures starts == old(starts) + [id] && chains == old(chains)
    {
      hide WellLinked, HoldsLast, ForgetsFinished, RunsInTurn, StartsInOrder, MayStart;
      MayStartMeansNext(calls, id);
      StartedLinks(calls, id);
      StartedTables(calls, chains, id);
      StartedTurns(calls, id, starts);
      calls := Started(calls, id);
      starts := starts + [id];
    }

    /** The job has returned or thrown; either way the gate opens, and the path is forgotten if nobody waits. */
    method Finish(id: nat)
      requires Valid() && id < |calls| && calls[id].started && !calls[id].finished
      modifies this
      ensures Valid() && calls == old(calls)[id := old(calls)[id].(finished := true)] && starts == old(starts)
      ensures chains == if old(calls)[id].key in old(chains) && old(chains)[old(calls)[id].key] == id
                        then old(chains) - {old(calls)[id].key} else old(chains)
    {
      hide WellLinked, HoldsLast, ForgetsFinished, RunsInTurn, StartsInOrder;
      FinishedLinks(calls, id);
      FinishedTables(calls, chains, id);
      FinishedTurns(calls, id, starts);
      var key := calls[id].key;
      calls := Finished(calls, id);
      if key in chains && chains[key] == id {
        chains := chains - {key};
      }
    }
  }

  /** At most one job of a path runs at any time. */
  lemma AtMostOneRuns(calls: seq<Call>, i: nat, j: nat)
    requires RunsInTurn(calls) && i < |calls| && j < |calls| && calls[i].key == calls[j].key
    requires calls[i].started && !calls[i].finished && calls[j].started && !calls[j].finished
    ensures i == j
  {
    assert IsNext(calls, i) && IsNext(calls, j);
  }

  /** A path with unfinished calls is never stuck: the first of them is running or may start. */
  lemma {:induction false} SomeoneGoesOn(calls: seq<Call>, j: nat) returns (i: nat)
    requires WellLinked(calls) && j < |calls| && !calls[j].finished
    ensures i <= j && calls[i].key == calls[j].key && !calls[i].finished && MayStart(calls, i)
    decreases j
  {
    if k :| 0 <= k < j && calls[k].key == calls[j].key && !calls[k].finished {
      i := SomeoneGoesOn(calls, k);
    } else {
      i := j;
      MayStartMeansNext(calls, j);
    }
  }
}
