/** The task as a whole (index.ts lines 48-190): validate, submit, poll,
    fetch the result, reporting progress along the way. The three remote
    endpoints are given as their answers; the run returns the outcome and
    the trace of its observable events. */
module Orchestrator {
  import opened JobTypes
  import opened JobRequest
  import opened Progress
  import opened Poll

  /** The outcome of a run with the events it produced, in order. */
  datatype Execution = Execution(outcome: Outcome, trace: seq<Event>)

  /** The submit answer lets the run go on (lines 100-110). */
  predicate SubmitAccepted(submit: SubmitResponse)
  {
    submit.ok && submit.success && submit.sessionID.Some? && submit.sessionID.value != ""
  }

  /** The result answer carries data (lines 171-182). */
  predicate ResultAccepted(result: ResultResponse)
  {
    result.ok && result.success && result.data.Some?
  }

  /** What a run does, stated without the loop: the poll is summarised by
      the number of queries it makes and the verdict it reaches. */
  function Expected(p: Inputs, submit: SubmitResponse, states: seq<StateResponse>, result: ResultResponse): (x: Execution)
    requires MaxAttempts <= |states|
  {
    match Validate(p)
    case Some(e) => Execution(Failure(e), [])
    case None =>
      var submitted := [Report(10), SubmitRequest(RequestBody(p))];
      if !submit.ok then Execution(Failure(SubmitHttpFailed), submitted)
      else if !SubmitAccepted(submit) then Execution(Failure(NoSessionID), submitted)
      else
        var sessionID := submit.sessionID.value;
        var polled := submitted + [Report(20)] + PollEvents(sessionID, states[..Queries(states)]);
        match PollVerdict(states)
        case Some(e) => Execution(Failure(e), polled)
        case None =>
          var fetched := polled + [Report(95)] + [ResultRequest(sessionID)];
          if !result.ok then Execution(Failure(ResultHttpFailed), fetched)
          else if !ResultAccepted(result) then Execution(Failure(NoResultData), fetched)
          else Execution(Success(Outputs(result.data.value.images, result.data.value.taskId)), fetched + [Report(100)])
  }

  /** The task. `submit`, `states` and `result` are the answers of the three
      endpoints; `states[i]` answers state query number `i + 1`. */
  method Run(p: Inputs, submit: SubmitResponse, states: seq<StateResponse>, result: ResultResponse)
    returns (outcome: Outcome, trace: seq<Event>)
    requires MaxAttempts <= |states|
    ensures Execution(outcome, trace) == Expected(p, submit, states, result)
  {
    var invalid := Validate(p);
    if invalid.Some? {
      return Failure(invalid.value), [];
    }
    var body := BuildRequestBody(p);

    // Step 1: submit
    trace := [Report(10), SubmitRequest(body)];
    if !submit.ok {
      return Failure(SubmitHttpFailed), trace;
    }
    if !submit.success || submit.sessionID.None? || submit.sessionID.value == "" {
      return Failure(NoSessionID), trace;
    }
    var sessionID := submit.sessionID.value;
    trace := trace + [Report(20)];

    // Step 2: poll
    var verdict, attempts, events := PollState(sessionID, states);
    trace := trace + events;
    if verdict.Some? {
      return Failure(verdict.value), trace;
    }
    trace := trace + [Report(95)];

    // Step 3: result
    trace := trace + [ResultRequest(sessionID)];
    if !result.ok {
      return Failure(ResultHttpFailed), trace;
    }
    if !result.success || result.data.None? {
      return Failure(NoResultData), trace;
    }
    trace := trace + [Report(100)];
    outcome := Success(Outputs(result.data.value.images, result.data.value.taskId));
  }

  /** The events after the poll: none when the poll failed, else the 95
      report and the result request, and the final 100 report on success. */
  function FetchTail(sessionID: string, states: seq<StateResponse>, result: ResultResponse): (tail: seq<Event>)
    requires MaxAttempts <= |states|
    ensures forall i :: 0 <= i < |tail| ==> tail[i].Report? || tail[i] == ResultRequest(sessionID)
  {
    if PollVerdict(states).Some? then []
    else if ResultAccepted(result) then [Report(95)] + [ResultRequest(sessionID)] + [Report(100)]
    else [Report(95)] + [ResultRequest(sessionID)]
  }

  /** The trace of a run whose submission was accepted. */
  lemma AcceptedTrace(p: Inputs, submit: SubmitResponse, states: seq<StateResponse>, result: ResultResponse)
    requires MaxAttempts <= |states|
    requires WellFormed(p) && SubmitAccepted(submit)
    ensures Expected(p, submit, states, result).trace
         == [Report(10), SubmitRequest(RequestBody(p))] + [Report(20)]
            + PollEvents(submit.sessionID.value, states[..Queries(states)])
            + FetchTail(submit.sessionID.value, states, result)
  {
  }

  /** Invalid inputs fail with a validation error before any request or
      progress report; valid inputs never fail validation. */
  lemma ValidationFirst(p: Inputs, submit: SubmitResponse, states: seq<StateResponse>, result: ResultResponse)
    requires MaxAttempts <= |states|
    ensures var x := Expected(p, submit, states, result);
      (x.outcome.Failure? && IsValidationError(x.outcome.error) <==> !WellFormed(p)) &&
      (!WellFormed(p) ==> x.trace == [])
  {
  }

  /** A valid run first reports 10 and submits exactly the request body. */
  lemma SubmitsRequestBody(p: Inputs, submit: SubmitResponse, states: seq<StateResponse>, result: ResultResponse)
    requires MaxAttempts <= |states|
    requires WellFormed(p)
    ensures var x := Expected(p, submit, states, result);
      |x.trace| >= 2 && x.trace[..2] == [Report(10), SubmitRequest(RequestBody(p))]
  {
  }

  /** A rejected submission ends the run with a submission error after the
      submit request, with no state query. */
  lemma SubmitRejected(p: Inputs, submit: SubmitResponse, states: seq<StateResponse>, result: ResultResponse)
    requires MaxAttempts <= |states|
    requires WellFormed(p) && !SubmitAccepted(submit)
    ensures var x := Expected(p, submit, states, result);
      x.outcome.Failure? && IsSubmissionError(x.outcome.error) &&
      x.trace == [Report(10), SubmitRequest(RequestBody(p))] &&
      StateQueries(x.trace) == 0 && Reports(x.trace) == [10]
  {
  }

  /** A trace made of the submission, the poll events and a tail without
      state queries holds exactly the poll's state queries. */
  lemma TraceQueryCount(body: Body, events: seq<Event>, tail: seq<Event>)
    requires forall i :: 0 <= i < |tail| ==> !tail[i].StateRequest?
    ensures StateQueries([Report(10), SubmitRequest(body)] + [Report(20)] + events + tail) == StateQueries(events)
  {
    var pre := [Report(10), SubmitRequest(body)] + [Report(20)];
    NoStateQueries(pre);
    NoStateQueries(tail);
    StateQueriesAppend(pre, events);
    StateQueriesAppend(pre + events, tail);
  }

  /** The number of state queries a run makes: as many as the poll consumes
      once the submission is accepted, otherwise none; never more than 300. */
  lemma QueryCount(p: Inputs, submit: SubmitResponse, states: seq<StateResponse>, result: ResultResponse)
    requires MaxAttempts <= |states|
    ensures var x := Expected(p, submit, states, result);
      StateQueries(x.trace) == (if WellFormed(p) && SubmitAccepted(submit) then Queries(states) else 0) &&
      StateQueries(x.trace) <= MaxAttempts
  {
    var x := Expected(p, submit, states, result);
    if WellFormed(p) && SubmitAccepted(submit) {
      var sessionID := submit.sessionID.value;
      var events := PollEvents(sessionID, states[..Queries(states)]);
      var tail := FetchTail(sessionID, states, result);
      AcceptedTrace(p, submit, states, result);
      TraceQueryCount(RequestBody(p), events, tail);
      PollQueryCount(sessionID, states[..Queries(states)]);
    } else {
      assert x.trace == [] || x.trace == [Report(10), SubmitRequest(RequestBody(p))];
      NoStateQueries(x.trace);
    }
  }

  /** A trace made of the submission, poll events and a tail, each of whose
      requests uses `sessionID`, uses no other session identifier. */
  lemma OnlyOneSession(body: Body, sessionID: string, events: seq<Event>, tail: seq<Event>)
    requires forall e :: e in events ==> e.Report? || e == StateRequest(sessionID)
    requires forall i :: 0 <= i < |tail| ==> tail[i].Report? || tail[i] == ResultRequest(sessionID)
    ensures forall e :: e in [Report(10), SubmitRequest(body)] + [Report(20)] + events + tail ==>
      (e.StateRequest? || e.ResultRequest?) ==> e.sessionID == sessionID
  {
  }

  /** Every state and result request of a run uses the session identifier
      returned by the submission. */
  lemma RequestsUseSession(p: Inputs, submit: SubmitResponse, states: seq<StateResponse>, result: ResultResponse)
    requires MaxAttempts <= |states|
    ensures var x := Expected(p, submit, states, result);
      forall e :: e in x.trace && (e.StateRequest? || e.ResultRequest?) ==>
        SubmitAccepted(submit) && e.sessionID == submit.sessionID.value
  {
    var x := Expected(p, submit, states, result);
    if WellFormed(p) && SubmitAccepted(submit) {
      var sessionID := submit.sessionID.value;
      var events := PollEvents(sessionID, states[..Queries(states)]);
      PollEventsSession(sessionID, states[..Queries(states)]);
      var tail := FetchTail(sessionID, states, result);
      AcceptedTrace(p, submit, states, result);
      OnlyOneSession(RequestBody(p), sessionID, events, tail);
    } else {
      assert forall e :: e in x.trace ==> e.Report? || e.SubmitRequest?;
    }
  }

  /** The state answer to query `k` stops the poll, after exactly `k`
      queries, when it is unsuccessful or reports `failed`; a `completed`
      answer before query 300 leads on to the result request. */
  lemma StopsAtQuery(p: Inputs, submit: SubmitResponse, states: seq<StateResponse>, result: ResultResponse, k: nat)
    requires MaxAttempts <= |states|
    requires WellFormed(p) && SubmitAccepted(submit)
    requires 1 <= k <= MaxAttempts
    requires forall i :: 0 <= i < k - 1 ==> !Stops(states[i])
    requires Stops(states[k - 1])
    ensures var x := Expected(p, submit, states, result);
      StateQueries(x.trace) == k &&
      (!states[k - 1].ok ==> x.outcome == Failure(StateHttpFailed)) &&
      (states[k - 1].ok && !states[k - 1].success ==> x.outcome == Failure(StateCheckFailed)) &&
      (states[k - 1].ok && states[k - 1].success && states[k - 1].state == "failed" ==> x.outcome == Failure(TaskFailed)) &&
      (states[k - 1].ok && states[k - 1].success && states[k - 1].state == "completed" && k < MaxAttempts ==>
         ResultRequest(submit.sessionID.value) in x.trace &&
         (x.outcome.Failure? ==> IsResultFetchError(x.outcome.error)))
  {
    QueriesIs(states, k);
    QueryCount(p, submit, states, result);
    var x := Expected(p, submit, states, result);
    if states[k - 1].ok && states[k - 1].success && states[k - 1].state == "completed" && k < MaxAttempts {
      var sessionID := submit.sessionID.value;
      var polled := [Report(10), SubmitRequest(RequestBody(p))] + [Report(20)] + PollEvents(sessionID, states[..k]);
      var fetched := polled + [Report(95)] + [ResultRequest(sessionID)];
      assert fetched[|polled| + 1] == ResultRequest(sessionID);
      assert x.trace == fetched || x.trace == fetched + [Report(100)];
      assert x.trace[|polled| + 1] == ResultRequest(sessionID);
    }
  }

  /** 300 answers none of which stops the poll end in a timeout after
      exactly 300 queries. */
  lemma TimeoutWhenNeverTerminal(p: Inputs, submit: SubmitResponse, states: seq<StateResponse>, result: ResultResponse)
    requires MaxAttempts <= |states|
    requires WellFormed(p) && SubmitAccepted(submit)
    requires forall i :: 0 <= i < MaxAttempts ==> !Stops(states[i])
    ensures var x := Expected(p, submit, states, result);
      x.outcome == Failure(Timeout) && StateQueries(x.trace) == MaxAttempts
  {
    QueriesIs(states, MaxAttempts);
    QueryCount(p, submit, states, result);
  }

  /** The timeout check runs after the loop: a job that completes on exactly
      the 300th query is still reported as a timeout. */
  lemma TimeoutWhenCompletedOnLastQuery(p: Inputs, submit: SubmitResponse, states: seq<StateResponse>, result: ResultResponse)
    requires MaxAttempts <= |states|
    requires WellFormed(p) && SubmitAccepted(submit)
    requires forall i :: 0 <= i < MaxAttempts - 1 ==> !Stops(states[i])
    requires states[MaxAttempts - 1].ok && states[MaxAttempts - 1].success
    requires states[MaxAttempts - 1].state == "completed"
    ensures var x := Expected(p, submit, states, result);
      x.outcome == Failure(Timeout) && StateQueries(x.trace) == MaxAttempts &&
      ResultRequest(submit.sessionID.value) !in x.trace
  {
    QueriesIs(states, MaxAttempts);
    QueryCount(p, submit, states, result);
    RequestsUseSession(p, submit, states, result);
    var x := Expected(p, submit, states, result);
    var sessionID := submit.sessionID.value;
    var polled := [Report(10), SubmitRequest(RequestBody(p))] + [Report(20)] + PollEvents(sessionID, states[..MaxAttempts]);
    assert x.trace == polled;
    PollEventsSession(sessionID, states[..MaxAttempts]);
    assert ResultRequest(sessionID) !in polled;
  }

  /** The progress reports of a trace shaped like a successful run. */
  lemma SuccessTraceReports(body: Body, sessionID: string, events: seq<Event>)
    ensures Reports([Report(10), SubmitRequest(body)] + [Report(20)] + events
                    + [Report(95)] + [ResultRequest(sessionID)] + [Report(100)])
         == [10, 20] + Reports(events) + [95, 100]
  {
    var submitted := [Report(10), SubmitRequest(body)];
    var tail := [Report(95), ResultRequest(sessionID)];
    assert submitted + [Report(20)] + events + [Report(95)] + [ResultRequest(sessionID)]
        == submitted + [Report(20)] + events + tail;
    ReportsAppend(submitted, [Report(20)]);
    ReportsAppend(submitted + [Report(20)], events);
    ReportsAppend(submitted + [Report(20)] + events, tail);
    ReportsAppend(submitted + [Report(20)] + events + tail, [Report(100)]);
    assert Reports(submitted) == [10] by {
      assert submitted[1..] == [SubmitRequest(body)];
      assert submitted[1..][1..] == [];
    }
    assert Reports(tail) == [95] by {
      assert tail[1..] == [ResultRequest(sessionID)];
      assert tail[1..][1..] == [];
    }
    assert Reports([Report(20)]) == [20] by {
      assert [Report(20)][1..] == [];
    }
    assert Reports([Report(100)]) == [100] by {
      assert [Report(100)][1..] == [];
    }
  }

  /** A run succeeds exactly when every stage succeeds. */
  lemma SuccessExactly(p: Inputs, submit: SubmitResponse, states: seq<StateResponse>, result: ResultResponse)
    requires MaxAttempts <= |states|
    ensures var x := Expected(p, submit, states, result);
      x.outcome.Success? <==>
        WellFormed(p) && SubmitAccepted(submit) && PollVerdict(states).None? && ResultAccepted(result)
  {
  }

  /** A successful run: the poll saw `completed` before the cap, the outputs
      are the result data verbatim, and the progress reported is 10, 20,
      one mapped value per query, 95, 100. */
  lemma SuccessfulRun(p: Inputs, submit: SubmitResponse, states: seq<StateResponse>, result: ResultResponse)
    requires MaxAttempts <= |states|
    requires Expected(p, submit, states, result).outcome.Success?
    ensures var x := Expected(p, submit, states, result);
      x.outcome.outputs.images == result.data.value.images &&
      x.outcome.outputs.taskId == result.data.value.taskId &&
      Queries(states) < MaxAttempts && states[Queries(states) - 1].state == "completed" &&
      Reports(x.trace) == [10, 20] + ProgressOf(states[..Queries(states)]) + [95, 100]
  {
    var sessionID := submit.sessionID.value;
    var n := Queries(states);
    CompletedPollSucceeded(states);
    PollReportsMapped(sessionID, states[..n]);
    SuccessTraceReports(RequestBody(p), sessionID, PollEvents(sessionID, states[..n]));
  }

  predicate NonDecreasing(s: seq<int>)
  {
    forall i, j :: 0 <= i <= j < |s| ==> s[i] <= s[j]
  }

  /** The progress log of a successful run is non-decreasing when the API's
      progress values are non-decreasing and within [0, 100]. */
  lemma SuccessLogNonDecreasing(rs: seq<StateResponse>)
    requires forall i, j :: 0 <= i <= j < |rs| ==> rs[i].progress <= rs[j].progress
    requires forall i :: 0 <= i < |rs| ==> 0 <= rs[i].progress <= 100
    ensures NonDecreasing([10, 20] + ProgressOf(rs) + [95, 100])
  {
  }

  /** Non-decreasing API progress within [0, 100] over the answers the run
      consumes gives a non-decreasing progress log ending in 100 on a
      successful run; answers to queries never made are unconstrained. */
  lemma SuccessfulRunProgressMonotone(p: Inputs, submit: SubmitResponse, states: seq<StateResponse>, result: ResultResponse)
    requires MaxAttempts <= |states|
    requires forall i, j :: 0 <= i <= j < Queries(states) ==> states[i].progress <= states[j].progress
    requires forall i :: 0 <= i < Queries(states) ==> 0 <= states[i].progress <= 100
    requires Expected(p, submit, states, result).outcome.Success?
    ensures var log := Reports(Expected(p, submit, states, result).trace);
      NonDecreasing(log) && log[|log| - 1] == 100
  {
    SuccessfulRun(p, submit, states, result);
    SuccessLogNonDecreasing(states[..Queries(states)]);
  }

  /** Answers to queries the run never made do not change anything it does. */
  lemma LaterAnswersIrrelevant(p: Inputs, submit: SubmitResponse, states: seq<StateResponse>, other: seq<StateResponse>, result: ResultResponse)
    requires MaxAttempts <= |states| && MaxAttempts <= |other|
    requires other[..Queries(states)] == states[..Queries(states)]
    ensures Expected(p, submit, other, result) == Expected(p, submit, states, result)
  {
    LaterAnswersIgnored(states, other);
  }

  /** The run of the example scenario: the first answer reports `completed`
      at progress 50, and the result holds two images. */
  lemma CompletedOnFirstQuery(p: Inputs, states: seq<StateResponse>)
    requires MaxAttempts <= |states| && WellFormed(p)
    requires states[0] == StateResponse(true, true, "completed", 50)
    ensures var submit := SubmitResponse(true, true, Some("s1"));
      var result := ResultResponse(true, true, Some(ResultData("t1", ["u1", "u2"])));
      Expected(p, submit, states, result) ==
        Execution(Success(Outputs(["u1", "u2"], "t1")),
                  [Report(10), SubmitRequest(RequestBody(p)), Report(20),
                   StateRequest("s1"), Report(55), Report(95), ResultRequest("s1"), Report(100)])
  {
    QueriesIs(states, 1);
    assert states[..1] == [states[0]];
    assert PollEvents("s1", states[..1]) == [StateRequest("s1"), Report(55)] by {
      assert states[..1][..0] == [];
    }
  }
}
