/** The transcript of a conversation, as stream events build it up. */
module PsychiatristTranscript {
  import opened Wrappers

  datatype Citation = Citation(sourceId: string, title: string, url: string)

  datatype Status = Pending | Running | Completed | Canceled | Failed | Stale

  datatype RetryMode = FirstAnswer | Regenerate

  datatype Pair = Pair(
    answer: string, citations: seq<Citation>,
    draftAnswer: Option<string>, draftOriginalTurnId: Option<string>, draftTurnId: Option<string>,
    pairId: string, process: seq<string>,
    retryAction: Option<string>, retryMode: Option<RetryMode>, retryTurnId: Option<string>,
    status: Status, turnId: string, userPrompt: string)

  datatype Kind =
    | ProcessDelta | AnswerDelta | TurnStarted | RegenerateStarted | AnswerCompleted | RegenerateCompleted
    | TurnCanceled | AnswerFailed | PermissionRequired | OtherKind

  /** The fields of an event's data that were there and of the right type. */
  datatype Data = Data(
    pairId: Option<string>, text: Option<string>, userPrompt: Option<string>,
    retryAction: Option<string>, retryMode: Option<RetryMode>, retryTurnId: Option<string>,
    citations: Option<seq<Citation>>)

  datatype Event = Event(kind: Kind, turnId: string, data: Data)

  const MAX_PROCESS_ROWS: nat := 8

  function WithoutDraft(pair: Pair): Pair {
    pair.(draftAnswer := None, draftOriginalTurnId := None, draftTurnId := None)
  }

  function WithoutRetry(pair: Pair): Pair {
    pair.(retryAction := None, retryMode := None, retryTurnId := None)
  }

  function GetOr<T>(value: Option<T>, other: T): T {
    if value.Some? then value.value else other
  }

  function AppendProcessText(rows: seq<string>, text: string): seq<string> {
    if rows != [] && rows[|rows| - 1] == text then rows
    else if |rows| < MAX_PROCESS_ROWS then rows + [text]
    else [rows[0]] + rows[|rows| - (MAX_PROCESS_ROWS - 2)..] + [text]
  }

  function Started(pair: Pair, event: Event): Pair {
    var regenerate := event.kind == RegenerateStarted;
    pair.(process := [],
          draftAnswer := if regenerate then Some("") else pair.draftAnswer,
          draftOriginalTurnId := if regenerate then Some(pair.turnId) else pair.draftOriginalTurnId,
          draftTurnId := if regenerate then Some(event.turnId) else pair.draftTurnId,
          status := Running, turnId := event.turnId)
  }

  function WithAnswerDelta(pair: Pair, event: Event): Pair {
    var text := GetOr(event.data.text, "");
    if pair.draftTurnId.Some? then
      (if pair.draftTurnId.value != event.turnId then pair
       else pair.(draftAnswer := Some(GetOr(pair.draftAnswer, "") + text)))
    else if pair.turnId != event.turnId then pair
    else pair.(answer := pair.answer + text)
  }

  function CompletedPair(pair: Pair, event: Event): Pair {
    var draft := if event.kind == RegenerateCompleted && pair.draftTurnId == Some(event.turnId) then pair.draftAnswer else None;
    WithoutDraft(WithoutRetry(pair.(
      answer := if event.data.text.Some? then event.data.text.value else GetOr(draft, pair.answer),
      citations := GetOr(event.data.citations, pair.citations),
      status := Completed, turnId := event.turnId)))
  }

  function CanceledPair(pair: Pair, event: Event): Pair {
    var keeps := pair.status == Completed || pair.draftTurnId == Some(event.turnId);
    WithoutDraft(WithoutRetry(pair.(
      answer := if keeps then pair.answer else "",
      status := if keeps then Completed else Canceled,
      turnId := if keeps then GetOr(pair.draftOriginalTurnId, pair.turnId) else event.turnId)))
  }

  function FailedPair(pair: Pair, event: Event): Pair {
    var keeps := pair.answer != "" && (pair.draftTurnId == Some(event.turnId) || event.data.retryMode == Some(Regenerate));
    WithoutDraft(pair.(
      retryAction := if event.data.retryAction == Some("allow_web_sources") then event.data.retryAction else None,
      retryMode := event.data.retryMode, retryTurnId := event.data.retryTurnId,
      answer := if keeps then pair.answer else "",
      status := if keeps then Completed else Failed,
      turnId := if keeps then GetOr(pair.draftOriginalTurnId, pair.turnId) else event.turnId))
  }

  /** What an event does to the pair it is for. `safe` is the filter for process texts. */
  function ApplyToPair(pair: Pair, event: Event, safe: string -> Option<string>): Pair {
    match event.kind
    case ProcessDelta =>
      var text := if event.data.text.Some? then safe(event.data.text.value) else None;
      if text.None? then pair else pair.(process := AppendProcessText(pair.process, text.value))
    case AnswerDelta => WithAnswerDelta(pair, event)
    case TurnStarted => Started(pair, event)
    case RegenerateStarted => Started(pair, event)
    case AnswerCompleted => CompletedPair(pair, event)
    case RegenerateCompleted => CompletedPair(pair, event)
    case TurnCanceled => CanceledPair(pair, event)
    case AnswerFailed => FailedPair(pair, event)
    case PermissionRequired => FailedPair(pair, event)
    case OtherKind => pair
  }

  predicate IsFor(pair: Pair, event: Event) {
    if event.data.pairId.Some? then pair.pairId == event.data.pairId.value else pair.turnId == event.turnId
  }

  /** The first pair that an event is for. */
  function FindPair(pairs: seq<Pair>, event: Event): (i: Option<nat>)
    ensures i.Some? ==> i.value < |pairs| && IsFor(pairs[i.value], event)
  {
    if pairs == [] then None
    else if IsFor(pairs[0], event) then Some(0)
    else
      var rest := FindPair(pairs[1..], event);
      if rest.None? then None else Some(rest.value + 1)
  }

  function NewPair(event: Event): Pair
    requires event.data.pairId.Some? && event.data.userPrompt.Some?
  {
    Pair("", [], None, None, None, event.data.pairId.value, [], None, None, None, Running, event.turnId,
         event.data.userPrompt.value)
  }

  function ApplyEvent(pairs: seq<Pair>, event: Event, safe: string -> Option<string>): seq<Pair> {
    var index := FindPair(pairs, event);
    if index.Some? then pairs[index.value := ApplyToPair(pairs[index.value], event, safe)]
    else if event.kind == TurnStarted && event.data.pairId.Some? && event.data.userPrompt.Some? then pairs + [NewPair(event)]
    else pairs
  }

  function Run(pairs: seq<Pair>, events: seq<Event>, safe: string -> Option<string>): seq<Pair>
    decreases events
  {
    if events == [] then pairs else Run(ApplyEvent(pairs, events[0], safe), events[1..], safe)
  }

  function RunPair(pair: Pair, events: seq<Event>, safe: string -> Option<string>): Pair
    decreases events
  {
    if events == [] then pair else RunPair(ApplyToPair(pair, events[0], safe), events[1..], safe)
  }

  // One pair among others

  /** Each event is for the pair as the events before have left it: by its id, or by the turn it is in. */
  predicate Addressed(pair: Pair, events: seq<Event>, safe: string -> Option<string>)
    decreases events
  {
    events == [] || (IsFor(pair, events[0]) && Addressed(ApplyToPair(pair, events[0], safe), events[1..], safe))
  }

  /** No pair further up is taken for the pair at this index. */
  predicate IsFirstFor(pairs: seq<Pair>, index: nat, events: seq<Event>) {
    index <= |pairs| && forall i, j :: 0 <= i < index && 0 <= j < |events| ==> !IsFor(pairs[i], events[j])
  }

  lemma {:induction false} FindsFirst(pairs: seq<Pair>, index: nat, event: Event)
    requires index < |pairs| && IsFor(pairs[index], event) && forall i :: 0 <= i < index ==> !IsFor(pairs[i], event)
    ensures FindPair(pairs, event) == Some(index)
  {
    if index > 0 {
      FindsFirst(pairs[1..], index - 1, event);
    }
  }

  /** Events for one pair, named by its id or by its turn, act on that pair alone. */
  lemma {:induction false} RunActsOnOnePair(pairs: seq<Pair>, index: nat, events: seq<Event>, safe: string -> Option<string>)
    requires index < |pairs| && Addressed(pairs[index], events, safe) && IsFirstFor(pairs, index, events)
    ensures Run(pairs, events, safe) == pairs[index := RunPair(pairs[index], events, safe)]
    decreases events
  {
    hide ApplyToPair, IsFor;
    if events != [] {
      var event := events[0];
      FindsFirst(pairs, index, event);
      var next := pairs[index := ApplyToPair(pairs[index], event, safe)];
      assert forall j :: 0 <= j < |events[1..]| ==> events[1..][j] == events[j + 1];
      RunActsOnOnePair(next, index, events[1..], safe);
    }
  }

  /** Named by the id of the pair, or not naming a pair and in the given turn. */
  predicate IsAddressedTo(event: Event, pairId: string, turnId: string) {
    if event.data.pairId.Some? then event.data.pairId.value == pairId else event.turnId == turnId
  }

  /** Deltas leave the pair in its turn, so that events of the turn stay addressed to it. */
  lemma {:induction false} DeltasAreAddressed(pair: Pair, deltas: seq<Event>, end: Event, safe: string -> Option<string>)
    requires AreDeltas(deltas) && IsAddressedTo(end, pair.pairId, pair.turnId)
    requires forall i :: 0 <= i < |deltas| ==> IsAddressedTo(deltas[i], pair.pairId, pair.turnId)
    ensures Addressed(pair, deltas + [end], safe)
    decreases deltas
  {
    if deltas == [] {
      assert [end][1..] == [];
    } else {
      assert (deltas + [end])[1..] == deltas[1..] + [end];
      DeltasAreAddressed(ApplyToPair(pair, deltas[0], safe), deltas[1..], end, safe);
    }
  }

  lemma {:induction false} RunPairConcat(pair: Pair, a: seq<Event>, b: seq<Event>, safe: string -> Option<string>)
    ensures RunPair(pair, a + b, safe) == RunPair(RunPair(pair, a, safe), b, safe)
    decreases a
  {
    hide ApplyToPair;
    if a == [] {
      assert a + b == b;
    } else {
      assert (a + b)[1..] == a[1..] + b;
      RunPairConcat(ApplyToPair(pair, a[0], safe), a[1..], b, safe);
    }
  }

  lemma FirstOfRun(pair: Pair, events: seq<Event>, safe: string -> Option<string>)
    requires events != []
    ensures RunPair(pair, events, safe) == RunPair(ApplyToPair(pair, events[0], safe), events[1..], safe)
    ensures RunPair(pair, [events[0]], safe) == ApplyToPair(pair, events[0], safe)
  {
    hide ApplyToPair;
    assert [events[0]][1..] == [];
  }

  // Regenerating an answer

  predicate AreDeltas(events: seq<Event>) {
    forall i :: 0 <= i < |events| ==> events[i].kind == AnswerDelta || events[i].kind == ProcessDelta
  }

  /** The answer texts that belong to one turn, one after the other. */
  function AnswerText(events: seq<Event>, turnId: string): string {
    if events == [] then ""
    else (if events[0].kind == AnswerDelta && events[0].turnId == turnId then GetOr(events[0].data.text, "") else "")
         + AnswerText(events[1..], turnId)
  }

  /** Deltas touch the draft and the process rows, and nothing else. */
  lemma {:induction false} DeltasFillDraft(pair: Pair, events: seq<Event>, safe: string -> Option<string>)
    requires AreDeltas(events) && pair.draftTurnId.Some? && pair.draftAnswer.Some?
    ensures var r := RunPair(pair, events, safe);
            r == pair.(draftAnswer := Some(pair.draftAnswer.value + AnswerText(events, pair.draftTurnId.value)),
                       process := r.process)
    decreases events
  {
    if events == [] {
      assert pair.draftAnswer.value + "" == pair.draftAnswer.value;
    } else {
      var next := ApplyToPair(pair, events[0], safe);
      DeltasFillDraft(next, events[1..], safe);
      var text := if events[0].kind == AnswerDelta && events[0].turnId == pair.draftTurnId.value
                  then GetOr(events[0].data.text, "") else "";
      assert pair.draftAnswer.value + text + AnswerText(events[1..], pair.draftTurnId.value)
          == pair.draftAnswer.value + (text + AnswerText(events[1..], pair.draftTurnId.value));
      assert pair.draftAnswer.value + "" == pair.draftAnswer.value;
    }
  }

  predicate EndsTurn(event: Event, turnId: string) {
    event.turnId == turnId && (event.kind == AnswerFailed || event.kind == TurnCanceled || event.kind == PermissionRequired)
  }

  /** The pair offers the retry of a failure, and no other one. */
  predicate HasRetryOf(pair: Pair, event: Event) {
    if event.kind == AnswerFailed || event.kind == PermissionRequired then
      && pair.retryAction == (if event.data.retryAction == Some("allow_web_sources") then event.data.retryAction else None)
      && pair.retryMode == event.data.retryMode && pair.retryTurnId == event.data.retryTurnId
    else pair.retryAction == None && pair.retryMode == None && pair.retryTurnId == None
  }

  lemma {:induction false} PairRollsBack(pair: Pair, start: Event, deltas: seq<Event>, end: Event, safe: string -> Option<string>)
    requires pair.status == Completed && pair.answer != ""
    requires start.kind == RegenerateStarted && AreDeltas(deltas) && EndsTurn(end, start.turnId)
    ensures var r := RunPair(pair, [start] + deltas + [end], safe);
            && r.answer == pair.answer && r.citations == pair.citations && r.turnId == pair.turnId && r.status == Completed
            && r.draftAnswer == None && r.draftOriginalTurnId == None && r.draftTurnId == None
            && r.pairId == pair.pairId && r.userPrompt == pair.userPrompt && HasRetryOf(r, end)
  {
    hide RunPair, AnswerText, AppendProcessText;
    RunPairConcat(pair, [start] + deltas, [end], safe);
    RunPairConcat(pair, [start], deltas, safe);
    FirstOfRun(pair, [start], safe);
    var started := ApplyToPair(pair, start, safe);
    DeltasFillDraft(started, deltas, safe);
    FirstOfRun(RunPair(started, deltas, safe), [end], safe);
  }

  /** What a regeneration sends: its start, deltas, and its end, all for one pair and no pair further up. */
  predicate IsRegeneration(pairs: seq<Pair>, index: nat, start: Event, deltas: seq<Event>, end: Event) {
    && index < |pairs| && start.kind == RegenerateStarted && IsFor(pairs[index], start)
    && AreDeltas(deltas) && end.turnId == start.turnId && IsFirstFor(pairs, index, [start] + deltas + [end])
    && (forall i :: 0 <= i < |deltas| ==> IsAddressedTo(deltas[i], pairs[index].pairId, start.turnId))
    && IsAddressedTo(end, pairs[index].pairId, start.turnId)
  }

  lemma {:induction false} RegenerationActsOnOnePair(pairs: seq<Pair>, index: nat, start: Event, deltas: seq<Event>, end: Event,
                                  safe: string -> Option<string>)
    requires IsRegeneration(pairs, index, start, deltas, end)
    ensures var events := [start] + deltas + [end];
            Run(pairs, events, safe) == pairs[index := RunPair(pairs[index], events, safe)]
  {
    var events := [start] + deltas + [end];
    assert events[1..] == deltas + [end];
    DeltasAreAddressed(ApplyToPair(pairs[index], start, safe), deltas, end, safe);
    RunActsOnOnePair(pairs, index, events, safe);
  }

  /**
   A regeneration that fails, is cancelled or needs permission leaves the completed answer as it was, and
   all other pairs too.
   */
  lemma {:induction false} RegenerateRollsBack(pairs: seq<Pair>, index: nat, start: Event, deltas: seq<Event>, end: Event,
                            safe: string -> Option<string>)
    requires IsRegeneration(pairs, index, start, deltas, end) && EndsTurn(end, start.turnId)
    requires pairs[index].status == Completed && pairs[index].answer != ""
    ensures var r, pair := Run(pairs, [start] + deltas + [end], safe), pairs[index];
            && |r| == |pairs| && r == pairs[index := r[index]]
            && r[index].answer == pair.answer && r[index].citations == pair.citations
            && r[index].turnId == pair.turnId && r[index].status == Completed
            && r[index].draftAnswer == None && r[index].draftOriginalTurnId == None && r[index].draftTurnId == None
            && r[index].pairId == pair.pairId && r[index].userPrompt == pair.userPrompt && HasRetryOf(r[index], end)
  {
    hide RunPair, Run, IsRegeneration, ApplyToPair, IsFor;
    RegenerationActsOnOnePair(pairs, index, start, deltas, end, safe);
    RegenerationHasDeltas(pairs, index, start, deltas, end);
    PairRollsBack(pairs[index], start, deltas, end, safe);
  }

  lemma RegenerationHasDeltas(pairs: seq<Pair>, index: nat, start: Event, deltas: seq<Event>, end: Event)
    requires IsRegeneration(pairs, index, start, deltas, end)
    ensures start.kind == RegenerateStarted && AreDeltas(deltas) && end.turnId == start.turnId && index < |pairs|
  {
  }

  lemma {:induction false} PairCompletes(pair: Pair, start: Event, deltas: seq<Event>, end: Event, safe: string -> Option<string>)
    requires start.kind == RegenerateStarted && AreDeltas(deltas)
    requires end.kind == RegenerateCompleted && end.turnId == start.turnId
    ensures var r := RunPair(pair, [start] + deltas + [end], safe);
            && r.answer == GetOr(end.data.text, AnswerText(deltas, start.turnId))
            && r.turnId == start.turnId && r.status == Completed
            && r.citations == GetOr(end.data.citations, pair.citations)
  {
    hide RunPair, AnswerText, AppendProcessText;
    RunPairConcat(pair, [start] + deltas, [end], safe);
    RunPairConcat(pair, [start], deltas, safe);
    FirstOfRun(pair, [start], safe);
    var started := ApplyToPair(pair, start, safe);
    DeltasFillDraft(started, deltas, safe);
    FirstOfRun(RunPair(started, deltas, safe), [end], safe);
    assert "" + AnswerText(deltas, start.turnId) == AnswerText(deltas, start.turnId);
  }

  /**
   A regeneration that completes without a text of its own has the concatenated deltas as its answer, and
   leaves all other pairs alone.
   */
  lemma {:induction false} RegenerateCompletes(pairs: seq<Pair>, index: nat, start: Event, deltas: seq<Event>, end: Event,
                            safe: string -> Option<string>)
    requires IsRegeneration(pairs, index, start, deltas, end) && end.kind == RegenerateCompleted
    ensures var r := Run(pairs, [start] + deltas + [end], safe);
            && |r| == |pairs| && r == pairs[index := r[index]]
            && r[index].answer == GetOr(end.data.text, AnswerText(deltas, start.turnId))
            && r[index].turnId == start.turnId && r[index].status == Completed
            && r[index].citations == GetOr(end.data.citations, pairs[index].citations)
  {
    hide RunPair, Run, IsRegeneration, ApplyToPair, IsFor;
    RegenerationActsOnOnePair(pairs, index, start, deltas, end, safe);
    RegenerationHasDeltas(pairs, index, start, deltas, end);
    PairCompletes(pairs[index], start, deltas, end, safe);
  }

  lemma {:induction false} DeltasExtendAnswer(pair: Pair, events: seq<Event>, safe: string -> Option<string>)
    requires AreDeltas(events) && pair.draftTurnId.None?
    ensures var r := RunPair(pair, events, safe);
            r == pair.(answer := pair.answer + AnswerText(events, pair.turnId), process := r.process)
    decreases events
  {
    if events == [] {
      assert pair.answer + "" == pair.answer;
    } else {
      var next := ApplyToPair(pair, events[0], safe);
      DeltasExtendAnswer(next, events[1..], safe);
      var text := if events[0].kind == AnswerDelta && events[0].turnId == pair.turnId then GetOr(events[0].data.text, "") else "";
      assert pair.answer + text + AnswerText(events[1..], pair.turnId)
          == pair.answer + (text + AnswerText(events[1..], pair.turnId));
      assert pair.answer + "" == pair.answer;
    }
  }

  predicate HasNoDraft(pair: Pair) {
    pair.draftAnswer == None && pair.draftOriginalTurnId == None && pair.draftTurnId == None
  }

  /** A draft is there with its turn and the turn before, or not at all, whatever events come. */
  lemma DraftsGoTogether(pair: Pair, event: Event, safe: string -> Option<string>)
    requires HasNoDraft(pair) || (pair.draftAnswer.Some? && pair.draftOriginalTurnId.Some? && pair.draftTurnId.Some?)
    ensures var r := ApplyToPair(pair, event, safe);
            HasNoDraft(r) || (r.draftAnswer.Some? && r.draftOriginalTurnId.Some? && r.draftTurnId.Some?)
  {
  }

  predicate EndsAnswer(event: Event, turnId: string) {
    event.turnId == turnId
    && (event.kind == AnswerCompleted || event.kind == AnswerFailed || event.kind == PermissionRequired || event.kind == TurnCanceled)
  }

  /**
   How the answer of a turn ends, when `text` has come so far: a completion has a text of its own or what
   came; a cancelled answer is empty; and so is a failed one, unless the failure asks for a regeneration
   of a text, which is then kept as complete.
   */
  predicate AnswerEnds(before: Pair, after: Pair, end: Event, text: string) {
    && after.pairId == before.pairId && after.userPrompt == before.userPrompt && after.turnId == end.turnId
    && after.draftAnswer == None && after.draftOriginalTurnId == None && after.draftTurnId == None && HasRetryOf(after, end)
    && match end.kind
       case AnswerCompleted =>
         after.status == Completed && after.answer == GetOr(end.data.text, text)
         && after.citations == GetOr(end.data.citations, before.citations)
       case TurnCanceled => after.status == Canceled && after.answer == "" && after.citations == before.citations
       case _ =>
         after.citations == before.citations
         && if text != "" && end.data.retryMode == Some(Regenerate) then after.status == Completed && after.answer == text
            else after.status == Failed && after.answer == ""
  }

  lemma {:induction false} PairAnswerEnds(pair: Pair, deltas: seq<Event>, end: Event, safe: string -> Option<string>)
    requires AreDeltas(deltas) && EndsAnswer(end, pair.turnId) && HasNoDraft(pair) && pair.status == Running
    ensures AnswerEnds(pair, RunPair(pair, deltas + [end], safe), end, pair.answer + AnswerText(deltas, pair.turnId))
  {
    RunPairConcat(pair, deltas, [end], safe);
    DeltasExtendAnswer(pair, deltas, safe);
    assert [end][1..] == [];
    assert RunPair(pair, deltas + [end], safe) == ApplyToPair(RunPair(pair, deltas, safe), end, safe);
  }

  /** A first answer: a new pair at the end of the transcript, which ends as its last event says. */
  lemma {:induction false} FirstAnswerEnds(pairs: seq<Pair>, start: Event, deltas: seq<Event>, end: Event, safe: string -> Option<string>)
    requires start.kind == TurnStarted && start.data.pairId.Some? && start.data.userPrompt.Some?
    requires FindPair(pairs, start).None? && AreDeltas(deltas) && EndsAnswer(end, start.turnId)
    requires IsAddressedTo(end, start.data.pairId.value, start.turnId) && IsFirstFor(pairs, |pairs|, deltas + [end])
    requires forall i :: 0 <= i < |deltas| ==> IsAddressedTo(deltas[i], start.data.pairId.value, start.turnId)
    ensures var r := Run(pairs, [start] + deltas + [end], safe);
            && |r| == |pairs| + 1 && r[..|pairs|] == pairs
            && r[|pairs|].pairId == start.data.pairId.value && r[|pairs|].userPrompt == start.data.userPrompt.value
            && AnswerEnds(NewPair(start), r[|pairs|], end, AnswerText(deltas, start.turnId))
            && NewPair(start).citations == []
  {
    hide AnswerEnds, ApplyToPair, RunPair;
    var first := NewPair(start);
    var all := pairs + [first];
    var rest := deltas + [end];
    assert ([start] + deltas + [end])[1..] == rest;
    DeltasAreAddressed(first, deltas, end, safe);
    RunActsOnOnePair(all, |pairs|, rest, safe);
    PairAnswerEnds(first, deltas, end, safe);
    assert "" + AnswerText(deltas, start.turnId) == AnswerText(deltas, start.turnId);
    PairAnswerIs(first, RunPair(first, rest, safe), end, AnswerText(deltas, start.turnId));
  }

  lemma PairAnswerIs(before: Pair, after: Pair, end: Event, text: string)
    requires AnswerEnds(before, after, end, text)
    ensures after.pairId == before.pairId && after.userPrompt == before.userPrompt
  {
  }

  /** Another attempt at an answer: the turn starts again for a pair that is there, and ends as its last event says. */
  lemma {:induction false} NextAnswerEnds(pairs: seq<Pair>, index: nat, start: Event, deltas: seq<Event>, end: Event,
                                          safe: string -> Option<string>)
    requires index < |pairs| && start.kind == TurnStarted && IsFor(pairs[index], start) && HasNoDraft(pairs[index])
    requires AreDeltas(deltas) && EndsAnswer(end, start.turnId) && IsFirstFor(pairs, index, [start] + deltas + [end])
    requires IsAddressedTo(end, pairs[index].pairId, start.turnId)
    requires forall i :: 0 <= i < |deltas| ==> IsAddressedTo(deltas[i], pairs[index].pairId, start.turnId)
    ensures var r := Run(pairs, [start] + deltas + [end], safe);
            && |r| == |pairs| && r == pairs[index := r[index]]
            && AnswerEnds(pairs[index], r[index], end, pairs[index].answer + AnswerText(deltas, start.turnId))
  {
    hide AnswerEnds, RunPair;
    var events := [start] + deltas + [end];
    var started := ApplyToPair(pairs[index], start, safe);
    assert events[1..] == deltas + [end];
    DeltasAreAddressed(started, deltas, end, safe);
    RunActsOnOnePair(pairs, index, events, safe);
    PairAnswerEnds(started, deltas, end, safe);
    StartedEnds(pairs[index], start, RunPair(started, deltas + [end], safe), end,
                pairs[index].answer + AnswerText(deltas, start.turnId), safe);
    FirstOfRun(pairs[index], events, safe);
  }

  lemma StartedEnds(pair: Pair, start: Event, after: Pair, end: Event, text: string, safe: string -> Option<string>)
    requires start.kind == TurnStarted && AnswerEnds(ApplyToPair(pair, start, safe), after, end, text)
    ensures AnswerEnds(pair, after, end, text)
  {
  }

  /** A cancelled turn keeps an answer that is complete or being regenerated in it. */
  predicate CancelKeeps(pair: Pair, turnId: string) {
    pair.status == Completed || (pair.draftTurnId.Some? && pair.draftTurnId.value == turnId)
  }

  /** A failed turn keeps an answer that is being regenerated in it, or whose regeneration is offered. */
  predicate FailureKeeps(pair: Pair, event: Event) {
    && pair.answer != ""
    && ((pair.draftTurnId.Some? && pair.draftTurnId.value == event.turnId) || event.data.retryMode == Some(Regenerate))
  }

  /**
   However a pair is, a cancellation or a failure leaves it complete in its earlier turn exactly if it keeps
   the answer, and otherwise without an answer in the turn of the event. The draft is gone, the prompt,
   the citations and the process rows stay, and a retry is offered only after a failure.
   */
  lemma EndSettles(pair: Pair, event: Event, safe: string -> Option<string>)
    requires event.kind == TurnCanceled || event.kind == AnswerFailed || event.kind == PermissionRequired
    ensures var r := ApplyToPair(pair, event, safe);
            var kept := if event.kind == TurnCanceled then CancelKeeps(pair, event.turnId) else FailureKeeps(pair, event);
            && (r.status == Completed <==> kept)
            && (kept ==> r.answer == pair.answer
                         && r.turnId == if pair.draftOriginalTurnId.Some? then pair.draftOriginalTurnId.value else pair.turnId)
            && (!kept ==> r.answer == "" && r.turnId == event.turnId
                          && r.status == if event.kind == TurnCanceled then Canceled else Failed)
            && HasNoDraft(r) && HasRetryOf(r, event)
            && r.citations == pair.citations && r.process == pair.process && r.pairId == pair.pairId && r.userPrompt == pair.userPrompt
  {
  }

  /** However a pair is, a completion has the text it brings, or what has been drafted for it, or what was there. */
  lemma CompletionSettles(pair: Pair, event: Event, safe: string -> Option<string>)
    requires event.kind == AnswerCompleted || event.kind == RegenerateCompleted
    ensures var r := ApplyToPair(pair, event, safe);
            && r.status == Completed && r.turnId == event.turnId && HasNoDraft(r)
            && r.retryAction == None && r.retryMode == None && r.retryTurnId == None
            && r.process == pair.process && r.pairId == pair.pairId && r.userPrompt == pair.userPrompt
            && (event.data.text.Some? ==> r.answer == event.data.text.value)
            && (event.data.text.None? ==>
                  r.answer == if event.kind == RegenerateCompleted && pair.draftTurnId == Some(event.turnId) && pair.draftAnswer.Some?
                              then pair.draftAnswer.value else pair.answer)
            && (if event.data.citations.Some? then r.citations == event.data.citations.value else r.citations == pair.citations)
  {
  }

  /** A start empties the process rows; that of a regeneration opens an empty draft beside the answer. */
  lemma StartSettles(pair: Pair, event: Event, safe: string -> Option<string>)
    requires event.kind == TurnStarted || event.kind == RegenerateStarted
    ensures var r := ApplyToPair(pair, event, safe);
            && r.status == Running && r.turnId == event.turnId && r.process == []
            && (event.kind == RegenerateStarted ==>
                  r.draftAnswer == Some("") && r.draftOriginalTurnId == Some(pair.turnId) && r.draftTurnId == Some(event.turnId))
            && (event.kind == TurnStarted ==>
                  && r.draftAnswer == pair.draftAnswer && r.draftOriginalTurnId == pair.draftOriginalTurnId
                  && r.draftTurnId == pair.draftTurnId)
            && r.answer == pair.answer && r.citations == pair.citations && r.pairId == pair.pairId && r.userPrompt == pair.userPrompt
            && r.retryAction == pair.retryAction && r.retryMode == pair.retryMode && r.retryTurnId == pair.retryTurnId
  {
  }

  // Process rows

  /** The texts that pass the filter, in order. */
  function ProcessTexts(events: seq<Event>, safe: string -> Option<string>): seq<string> {
    if events == [] then []
    else
      var last := events[|events| - 1];
      var text := if last.kind == ProcessDelta && last.data.text.Some? then safe(last.data.text.value) else None;
      ProcessTexts(events[..|events| - 1], safe) + if text.None? then [] else [text.value]
  }

  /** Without immediate repetitions. */
  function Deduplicated(texts: seq<string>): seq<string> {
    if texts == [] then []
    else
      var before := Deduplicated(texts[..|texts| - 1]);
      var text := texts[|texts| - 1];
      if before != [] && before[|before| - 1] == text then before else before + [text]
  }

  /** All rows, or the first and the last seven. */
  function Bounded(rows: seq<string>): seq<string> {
    if |rows| <= MAX_PROCESS_ROWS then rows else [rows[0]] + rows[|rows| - (MAX_PROCESS_ROWS - 1)..]
  }

  /** Up to eight rows are all shown; of more, the first and the last seven. */
  lemma EightRows(rows: seq<string>)
    ensures |rows| <= 8 ==> Bounded(rows) == rows
    ensures |rows| > 8 ==> |Bounded(rows)| == 8 && Bounded(rows)[0] == rows[0] && Bounded(rows)[1..] == rows[|rows| - 7..]
  {
  }

  /** The text differs from the one before it. */
  predicate Begins(texts: seq<string>, i: nat) {
    i < |texts| && (i == 0 || texts[i] != texts[i - 1])
  }

  /** Of each stretch of equal texts one is kept: `at` says where these stretches begin. */
  lemma {:induction false} DeduplicatedAre(texts: seq<string>) returns (at: seq<nat>)
    ensures |at| == |Deduplicated(texts)|
    ensures forall k :: 0 <= k < |at| ==> Begins(texts, at[k]) && Deduplicated(texts)[k] == texts[at[k]]
    ensures forall j, k :: 0 <= j < k < |at| ==> at[j] < at[k]
    ensures forall i: nat :: Begins(texts, i) ==> i in at
    ensures texts != [] ==> Deduplicated(texts) != [] && Deduplicated(texts)[|Deduplicated(texts)| - 1] == texts[|texts| - 1]
  {
    at := [];
    if texts != [] {
      var last := |texts| - 1;
      var before := texts[..last];
      at := DeduplicatedAre(before);
      forall i: nat | Begins(texts, i) && i < last
        ensures i in at
      {
        assert Begins(before, i);
      }
      forall k | 0 <= k < |at|
        ensures Begins(texts, at[k])
      {
        assert Begins(before, at[k]);
      }
      if Begins(texts, last) {
        at := at + [last];
      }
    }
  }

  /** The event brings a process text that passes the filter. */
  predicate Brings(events: seq<Event>, i: nat, safe: string -> Option<string>) {
    && i < |events| && events[i].kind == ProcessDelta && events[i].data.text.Some?
    && safe(events[i].data.text.value).Some?
  }

  lemma OneText(event: Event, safe: string -> Option<string>)
    ensures ProcessTexts([event], safe)
         == if Brings([event], 0, safe) then [safe(event.data.text.value).value] else []
  {
    assert [event][..0] == [];
  }

  /** Exactly the texts of process events that pass the filter are taken, in order; `at` says of which events. */
  lemma {:induction false} ProcessTextsAre(events: seq<Event>, safe: string -> Option<string>) returns (at: seq<nat>)
    ensures |at| == |ProcessTexts(events, safe)|
    ensures forall k :: 0 <= k < |at| ==>
              Brings(events, at[k], safe) && safe(events[at[k]].data.text.value) == Some(ProcessTexts(events, safe)[k])
    ensures forall j, k :: 0 <= j < k < |at| ==> at[j] < at[k]
    ensures forall i: nat :: Brings(events, i, safe) ==> i in at
  {
    hide ProcessTexts;
    at := [];
    NoRows(safe);
    if events != [] {
      var last := |events| - 1;
      var before := events[..last];
      at := ProcessTextsAre(before, safe);
      forall i: nat | Brings(events, i, safe) && i < last
        ensures i in at
      {
        assert Brings(before, i, safe);
      }
      forall k | 0 <= k < |at|
        ensures Brings(events, at[k], safe) && events[at[k]] == before[at[k]]
      {
        assert Brings(before, at[k], safe);
      }
      LastText(events, safe);
      OneText(events[last], safe);
      if Brings(events, last, safe) {
        at := at + [last];
      }
    }
  }

  lemma AppendIsBounded(rows: seq<string>, text: string)
    ensures AppendProcessText(Bounded(rows), text)
         == Bounded(if rows != [] && rows[|rows| - 1] == text then rows else rows + [text])
  {
    var shown := Bounded(rows);
    assert rows != [] ==> shown[|shown| - 1] == rows[|rows| - 1];
    if rows != [] && rows[|rows| - 1] == text {
    } else if |rows| < MAX_PROCESS_ROWS {
    } else {
      var next := rows + [text];
      assert shown[|shown| - 6..] == rows[|rows| - 6..];
      assert next[|next| - 7..] == rows[|rows| - 6..] + [text];
    }
  }

  lemma DeltaAppends(pair: Pair, event: Event, safe: string -> Option<string>)
    requires event.kind == AnswerDelta || event.kind == ProcessDelta
    ensures var texts := ProcessTexts([event], safe);
            && |texts| <= 1
            && ApplyToPair(pair, event, safe).process
               == if texts == [] then pair.process else AppendProcessText(pair.process, texts[0])
  {
    assert [event][..0] == [];
  }

  lemma LastText(events: seq<Event>, safe: string -> Option<string>)
    requires events != []
    ensures ProcessTexts(events, safe) == ProcessTexts(events[..|events| - 1], safe) + ProcessTexts([events[|events| - 1]], safe)
  {
    assert [events[|events| - 1]][..0] == [];
  }

  lemma NextRows(texts: seq<string>, more: seq<string>)
    requires |more| <= 1
    ensures Bounded(Deduplicated(texts + more))
         == if more == [] then Bounded(Deduplicated(texts)) else AppendProcessText(Bounded(Deduplicated(texts)), more[0])
  {
    hide Bounded, AppendProcessText;
    if more == [] {
      assert texts + more == texts;
    } else {
      AppendIsBounded(Deduplicated(texts), more[0]);
      assert (texts + more)[..|texts|] == texts;
    }
  }

  lemma {:induction false} ProcessIsBounded(pair: Pair, events: seq<Event>, safe: string -> Option<string>)
    requires AreDeltas(events) && pair.process == []
    ensures RunPair(pair, events, safe).process == Bounded(Deduplicated(ProcessTexts(events, safe)))
    decreases events
  {
    hide ApplyToPair, AppendProcessText, Bounded, Deduplicated, ProcessTexts;
    if events == [] {
      NoRows(safe);
    } else {
      var before, last := events[..|events| - 1], events[|events| - 1];
      ProcessIsBounded(pair, before, safe);
      assert events == before + [last];
      RunPairConcat(pair, before, [last], safe);
      assert [last][1..] == [];
      LastText(events, safe);
      DeltaAppends(RunPair(pair, before, safe), last, safe);
      NextRows(ProcessTexts(before, safe), ProcessTexts([last], safe));
    }
  }

  lemma NoRows(safe: string -> Option<string>)
    ensures ProcessTexts([], safe) == [] && Bounded(Deduplicated([])) == []
  {
  }

  /** After any start, the rows shown are the de-duplicated stream since, or its first row and its last seven. */
  lemma {:induction false} ProcessAfterStart(pair: Pair, start: Event, deltas: seq<Event>, safe: string -> Option<string>)
    requires (start.kind == TurnStarted || start.kind == RegenerateStarted) && AreDeltas(deltas)
    ensures RunPair(pair, [start] + deltas, safe).process == Bounded(Deduplicated(ProcessTexts(deltas, safe)))
    ensures |RunPair(pair, [start] + deltas, safe).process| <= 8
  {
    assert ([start] + deltas)[1..] == deltas;
    ProcessIsBounded(ApplyToPair(pair, start, safe), deltas, safe);
  }
}
