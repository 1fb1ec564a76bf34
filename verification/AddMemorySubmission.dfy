/** Submitting a URL to be saved: one request at a time, and a retry sends the key of the attempt it repeats. */
module AddMemorySubmission {
  import opened Text
  import opened Wrappers

  datatype Attempt = Attempt(idempotencyKey: string, normalizedUrl: string)

  datatype Result = Created(memoryId: string) | Refused(error: string, backupFailsafe: bool)

  datatype Submitted = Sent(attempt: Attempt) | Joined | Empty

  /** A request in flight; `settled` when its result has been handled but it is still registered as pending. */
  datatype Request = Request(attempt: Attempt, settled: bool)

  const EMPTY_URL_ERROR := "Enter a URL before saving."

  /** The key of the attempt was made for its URL. */
  predicate Knows(urlOfKey: map<string, string>, a: Attempt) {
    a.idempotencyKey in urlOfKey && urlOfKey[a.idempotencyKey] == a.normalizedUrl && a.normalizedUrl != ""
  }

  /** What happened, in order: a request went out, a key succeeded, a request was over. */
  datatype Event = Send(attempt: Attempt) | Success(key: string) | End

  /** A request goes out only at the start or when the one before is over; it may succeed once, and then it is over. */
  ghost predicate OneAtATime(log: seq<Event>) {
    forall i :: 0 <= i < |log| ==> IsInTurn(log, i)
  }

  predicate IsInTurn(log: seq<Event>, i: nat)
    requires i < |log|
  {
    match log[i]
    case Send(_) => i == 0 || log[i - 1].End?
    case Success(key) => i > 0 && log[i - 1].Send? && log[i - 1].attempt.idempotencyKey == key
    case End => i > 0 && !log[i - 1].End?
  }

  lemma InTurnAppend(log: seq<Event>, e: Event)
    requires OneAtATime(log) && IsInTurn(log + [e], |log|)
    ensures OneAtATime(log + [e])
  {
    forall i | 0 <= i < |log|
      ensures IsInTurn(log + [e], i)
    {
      assert IsInTurn(log, i);
    }
  }

  /** No key goes out after it has succeeded. */
  ghost predicate NotSentAgain(log: seq<Event>) {
    forall i, j :: 0 <= i < j < |log| && log[i].Success? && log[j].Send? ==> log[j].attempt.idempotencyKey != log[i].key
  }

  /** Requests with equal keys are for the same URL. */
  ghost predicate OneUrlPerKey(log: seq<Event>) {
    forall a, b :: Send(a) in log && Send(b) in log && a.idempotencyKey == b.idempotencyKey ==> a == b
  }

  ghost predicate InFlight(log: seq<Event>) {
    log != [] && !log[|log| - 1].End?
  }

  /** Between two requests the first one has come to its end. */
  lemma AtMostOneInFlight(log: seq<Event>, i: nat, j: nat)
    requires OneAtATime(log) && i < j < |log| && log[i].Send? && log[j].Send?
    ensures exists k :: i < k < j && log[k].End?
  {
    assert IsInTurn(log, j);
    assert log[j - 1].End?;
  }

  lemma SendKeeps(log: seq<Event>, a: Attempt)
    requires OneAtATime(log) && NotSentAgain(log) && !InFlight(log) && Success(a.idempotencyKey) !in log
    ensures OneAtATime(log + [Send(a)]) && NotSentAgain(log + [Send(a)])
  {
    InTurnAppend(log, Send(a));
    forall i | 0 <= i < |log| && log[i].Success?
      ensures log[i].key != a.idempotencyKey
    {
      assert log[i] == Success(log[i].key);
    }
  }

  lemma SuccessKeeps(log: seq<Event>, key: string)
    requires OneAtATime(log) && NotSentAgain(log)
    requires log != [] && log[|log| - 1].Send? && log[|log| - 1].attempt.idempotencyKey == key
    ensures OneAtATime(log + [Success(key)]) && NotSentAgain(log + [Success(key)])
  {
    InTurnAppend(log, Success(key));
  }

  class Controller {
    var url: string
    var errorMessage: string
    var isSubmitting: bool
    var attempt: Option<Attempt>
    var pending: Option<Request>
    ghost var urlOfKey: map<string, string>
    ghost var log: seq<Event>

    constructor ()
      ensures Valid() && log == [] && attempt == None && pending == None && url == ""
      ensures urlOfKey == map[]
    {
      url, errorMessage, isSubmitting, attempt, pending := "", "", false, None, None;
      urlOfKey, log := map[], [];
    }

    ghost predicate Valid()
      reads this
    {
      && (isSubmitting <==> pending.Some?)
      && (attempt.Some? ==> Knows(urlOfKey, attempt.value) && Success(attempt.value.idempotencyKey) !in log)
      && (forall e <- log :: (e.Send? ==> Knows(urlOfKey, e.attempt)) && (e.Success? ==> e.key in urlOfKey))
      && OneAtATime(log) && NotSentAgain(log)
      && (pending.Some? <==> InFlight(log))
      && (pending.Some? && !pending.value.settled ==> log[|log| - 1] == Send(pending.value.attempt))
    }

    /** The attempt for a URL: the one at hand if it is for this URL, otherwise a new one. */
    method AttemptFor(normalizedUrl: string, freshKey: string)
      requires Valid() && freshKey !in urlOfKey
      modifies this`attempt, this`urlOfKey
      ensures Valid()
      ensures attempt == if old(attempt).Some? && old(attempt).value.normalizedUrl == normalizedUrl then old(attempt)
                         else if normalizedUrl == "" then None
                         else Some(Attempt(freshKey, normalizedUrl))
      ensures urlOfKey == if attempt.Some? && attempt != old(attempt) then old(urlOfKey)[freshKey := normalizedUrl]
                          else old(urlOfKey)
    {
      if attempt.None? || attempt.value.normalizedUrl != normalizedUrl {
        if normalizedUrl == "" {
          attempt := None;
        } else {
          attempt := Some(Attempt(freshKey, normalizedUrl));
          urlOfKey := urlOfKey[freshKey := normalizedUrl];
        }
      }
    }

    method SetUrl(nextUrl: string, freshKey: string)
      requires Valid() && freshKey !in urlOfKey
      modifies this
      ensures Valid() && url == nextUrl && errorMessage == "" && log == old(log)
      ensures pending == old(pending) && urlOfKey.Keys <= old(urlOfKey).Keys + {freshKey}
      ensures old(attempt).Some? && old(attempt).value.normalizedUrl == Trim(nextUrl) ==> attempt == old(attempt)
      ensures attempt.Some? ==> attempt.value.normalizedUrl == Trim(nextUrl)
      ensures attempt.Some? && attempt != old(attempt) ==> attempt.value.idempotencyKey == freshKey
      ensures attempt.None? ==> Trim(nextUrl) == ""
    {
      hide Trim;
      AttemptFor(Trim(nextUrl), freshKey);
      url, errorMessage := nextUrl, "";
    }

    /** Joins the request in flight if there is one; otherwise sends the attempt for the current URL. */
    method Submit(freshKey: string) returns (r: Submitted)
      requires Valid() && freshKey !in urlOfKey
      modifies this
      ensures Valid() && url == old(url) && urlOfKey.Keys <= old(urlOfKey).Keys + {freshKey}
      ensures log == if r.Sent? then old(log) + [Send(r.attempt)] else old(log)
      ensures r.Joined? <==> old(pending).Some?
      ensures r.Joined? ==> pending == old(pending) && attempt == old(attempt) && errorMessage == old(errorMessage)
      ensures r.Sent? ==> errorMessage == ""
      ensures r.Empty? ==> pending == None && attempt == None && errorMessage == EMPTY_URL_ERROR && Trim(url) == ""
      ensures r.Sent? ==>
                && pending == Some(Request(r.attempt, false)) && attempt == Some(r.attempt)
                && r.attempt.normalizedUrl == Trim(url) && Success(r.attempt.idempotencyKey) !in old(log)
                && (old(attempt).Some? && old(attempt).value.normalizedUrl == Trim(url) ==> Some(r.attempt) == old(attempt))
                && (r.attempt.idempotencyKey == freshKey || Some(r.attempt) == old(attempt))
    {
      hide OneAtATime, NotSentAgain, Trim;
      if pending.Some? {
        return Joined;
      }
      AttemptFor(Trim(url), freshKey);
      if attempt.None? {
        errorMessage := EMPTY_URL_ERROR;
        return Empty;
      }
      errorMessage := "";
      isSubmitting := true;
      SendKeeps(log, attempt.value);
      log := log + [Send(attempt.value)];
      pending := Some(Request(attempt.value, false));
      return Sent(attempt.value);
    }

    /** The result arrives: success clears the attempt it belongs to, failure keeps it for a retry. */
    method HandleResult(result: Result)
      requires Valid() && pending.Some? && !pending.value.settled
      modifies this
      ensures Valid() && pending == Some(old(pending).value.(settled := true)) && urlOfKey == old(urlOfKey)
      ensures var key := old(pending).value.attempt.idempotencyKey;
              && log == old(log) + (if result.Created? then [Success(key)] else [])
              && (if result.Created? && old(attempt).Some? && old(attempt).value.idempotencyKey == key
                  then attempt == None && url == "" && errorMessage == ""
                  else attempt == old(attempt) && url == old(url))
              && (result.Refused? ==>
                    errorMessage == if old(attempt).Some? && old(attempt).value.idempotencyKey == key then result.error
                                    else old(errorMessage))
    {
      hide OneAtATime, NotSentAgain;
      var submitted := pending.value.attempt;
      assert log[|log| - 1] in log && Knows(urlOfKey, log[|log| - 1].attempt);
      var isCurrent := attempt.Some? && attempt.value.idempotencyKey == submitted.idempotencyKey;
      match result {
      case Created(_) =>
        if isCurrent {
          attempt, url, errorMessage := None, "", "";
        }
        SuccessKeeps(log, submitted.idempotencyKey);
        log := log + [Success(submitted.idempotencyKey)];
      case Refused(error, _) =>
        if isCurrent {
          errorMessage := error;
        }
      }
      pending := Some(pending.value.(settled := true));
    }

    /** The request failed without a result. */
    method HandleFailure()
      requires Valid() && pending.Some? && !pending.value.settled
      modifies this`pending
      ensures Valid() && pending == Some(old(pending).value.(settled := true))
    {
      pending := Some(pending.value.(settled := true));
    }

    /** After its result has been handled, the request is no longer pending. */
    method Finish()
      requires Valid() && pending.Some? && pending.value.settled
      modifies this`pending, this`isSubmitting, this`log
      ensures Valid() && pending == None && log == old(log) + [End]
    {
      pending, isSubmitting := None, false;
      InTurnAppend(log, End);
      log := log + [End];
    }
  }

  // Runs

  datatype Step =
    | Edit(url: string)
    | Press
    | Arrive(result: Result)
    | Fail
    | Over

  /**
   Any run of edits, presses, results and failures, with keys that are fresh: at any time, requests have
   gone out one at a time, equal keys mean the same URL, and no key has gone out after it had succeeded.
   The log only grows, so all of this is about everything that ever happened.
   */
  method RunSteps(controller: Controller, steps: seq<Step>, keys: seq<string>)
    requires controller.Valid() && |keys| == |steps|
    requires forall i :: 0 <= i < |keys| ==> keys[i] !in controller.urlOfKey
    requires forall i, j :: 0 <= i < j < |keys| ==> keys[i] != keys[j]
    modifies controller
    ensures controller.Valid() && old(controller.log) <= controller.log
    ensures OneAtATime(controller.log) && NotSentAgain(controller.log) && OneUrlPerKey(controller.log)
  {
    hide Trim;
    ghost var log0 := controller.log;
    for i := 0 to |steps|
      invariant controller.Valid() && log0 <= controller.log
      invariant forall j :: i <= j < |keys| ==> keys[j] !in controller.urlOfKey
    {
      match steps[i]
      case Edit(url) =>
        controller.SetUrl(url, keys[i]);
      case Press =>
        var submitted := controller.Submit(keys[i]);
      case Arrive(result) =>
        if controller.pending.Some? && !controller.pending.value.settled {
          controller.HandleResult(result);
        }
      case Fail =>
        if controller.pending.Some? && !controller.pending.value.settled {
          controller.HandleFailure();
        }
      case Over =>
        if controller.pending.Some? && controller.pending.value.settled {
          controller.Finish();
        }
    }
  }
}
