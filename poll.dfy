/** The bounded poll of the job state (index.ts lines 115-159): a loop of at
    most 300 state queries that stops on a failed query, on `completed` or
    on `failed`, followed by the timeout check after the loop. */
module Poll {
  import opened JobTypes
  import opened Progress

  /** True when the loop does not go on after receiving `r`: the query
      failed, or the job reached a terminal state. */
  predicate Stops(r: StateResponse)
  {
    !r.ok || !r.success || r.state == "completed" || r.state == "failed"
  }

  /** Number of state queries made when `done` queries have been answered
      without stopping the loop. */
  function QueriesFrom(states: seq<StateResponse>, done: nat): (n: nat)
    requires done <= MaxAttempts <= |states|
    ensures done < n <= MaxAttempts || n == done == MaxAttempts
    ensures forall i :: done <= i < n - 1 ==> !Stops(states[i])
    ensures n < MaxAttempts ==> Stops(states[n - 1])
    decreases MaxAttempts - done
  {
    if done == MaxAttempts then MaxAttempts
    else if Stops(states[done]) then done + 1
    else QueriesFrom(states, done + 1)
  }

  /** Number of state queries the poll makes given the answers `states`
      (one answer per possible query). */
  function Queries(states: seq<StateResponse>): (n: nat)
    requires MaxAttempts <= |states|
    ensures 1 <= n <= MaxAttempts
    ensures forall i :: 0 <= i < n - 1 ==> !Stops(states[i])
    ensures n < MaxAttempts ==> Stops(states[n - 1])
  {
    QueriesFrom(states, 0)
  }

  /** The first `k` answers determine whether the poll stops at query `k`. */
  lemma QueriesIs(states: seq<StateResponse>, k: nat)
    requires MaxAttempts <= |states|
    requires 1 <= k <= MaxAttempts
    requires forall i :: 0 <= i < k - 1 ==> !Stops(states[i])
    requires k < MaxAttempts ==> Stops(states[k - 1])
    ensures Queries(states) == k
  {
  }

  /** How the poll ends, given the answers: `None` when the job completed in
      time, otherwise the error thrown (lines 131-159). */
  function PollVerdict(states: seq<StateResponse>): (e: Option<ErrorKind>)
    requires MaxAttempts <= |states|
  {
    var last := states[Queries(states) - 1];
    if !last.ok then Some(StateHttpFailed)
    else if !last.success then Some(StateCheckFailed)
    else if last.state == "failed" then Some(TaskFailed)
    else if last.state == "completed" && Queries(states) < MaxAttempts then None
    else Some(Timeout)
  }

  /** The events of one loop iteration that received `r`: the query, then
      the progress report when the answer was successful. */
  function StepEvents(sessionID: string, r: StateResponse): (evs: seq<Event>)
    ensures Reports(evs) == if r.ok && r.success then [MapProgress(r.progress)] else []
    ensures StateQueries(evs) == 1
    ensures evs[0] == StateRequest(sessionID)
  {
    [StateRequest(sessionID)] + if r.ok && r.success then [Report(MapProgress(r.progress))] else []
  }

  /** The events of the iterations that received `rs`, in order. */
  function PollEvents(sessionID: string, rs: seq<StateResponse>): (evs: seq<Event>)
  {
    if rs == [] then []
    else PollEvents(sessionID, rs[..|rs| - 1]) + StepEvents(sessionID, rs[|rs| - 1])
  }

  /** The poll loop. `states[i]` is the answer to query number `i + 1`. */
  method PollState(sessionID: string, states: seq<StateResponse>)
    returns (verdict: Option<ErrorKind>, attempts: nat, events: seq<Event>)
    requires MaxAttempts <= |states|
    ensures attempts == Queries(states)
    ensures verdict == PollVerdict(states)
    ensures events == PollEvents(sessionID, states[..attempts])
  {
    attempts := 0;
    events := [];
    while attempts < MaxAttempts
      invariant attempts <= MaxAttempts
      invariant QueriesFrom(states, attempts) == Queries(states)
      invariant forall i :: 0 <= i < attempts ==> !Stops(states[i])
      invariant events == PollEvents(sessionID, states[..attempts])
    {
      var state := states[attempts];
      attempts := attempts + 1;
      assert states[..attempts][..attempts - 1] == states[..attempts - 1];
      events := events + StepEvents(sessionID, state);
      if !state.ok {
        return Some(StateHttpFailed), attempts, events;
      }
      if !state.success {
        return Some(StateCheckFailed), attempts, events;
      }
      if state.state == "completed" {
        break;
      }
      if state.state == "failed" {
        return Some(TaskFailed), attempts, events;
      }
    }
    if attempts >= MaxAttempts {
      return Some(Timeout), attempts, events;
    }
    verdict := None;
  }

  /** Answers that reached the progress report (lines 131-142 passed). */
  predicate AllSucceeded(rs: seq<StateResponse>)
  {
    forall i :: 0 <= i < |rs| ==> rs[i].ok && rs[i].success
  }

  /** The poll issues exactly one state query per answer it consumes. */
  lemma {:induction false} PollQueryCount(sessionID: string, rs: seq<StateResponse>)
    ensures StateQueries(PollEvents(sessionID, rs)) == |rs|
  {
    if rs != [] {
      var front, last := rs[..|rs| - 1], rs[|rs| - 1];
      PollQueryCount(sessionID, front);
      StateQueriesAppend(PollEvents(sessionID, front), StepEvents(sessionID, last));
    }
  }

  /** The API progress of each answer, remapped into the 20-90 window. */
  function ProgressOf(rs: seq<StateResponse>): (r: seq<int>)
    ensures |r| == |rs|
    ensures forall i :: 0 <= i < |rs| ==> r[i] == MapProgress(rs[i].progress)
  {
    seq(|rs|, i requires 0 <= i < |rs| => MapProgress(rs[i].progress))
  }

  /** When every answer succeeded, the poll reports one mapped progress value
      per answer, in order. */
  lemma {:induction false} PollReportsMapped(sessionID: string, rs: seq<StateResponse>)
    requires AllSucceeded(rs)
    ensures Reports(PollEvents(sessionID, rs)) == ProgressOf(rs)
  {
    if rs != [] {
      var front, last := rs[..|rs| - 1], rs[|rs| - 1];
      PollReportsMapped(sessionID, front);
      ReportsAppend(PollEvents(sessionID, front), StepEvents(sessionID, last));
      assert ProgressOf(rs) == ProgressOf(front) + [MapProgress(last.progress)];
    }
  }

  /** Whatever the answers, every progress value reported while polling lies
      in [20, 90] when the API's progress values lie in [0, 100]. */
  lemma {:induction false} PollReportsBounded(sessionID: string, rs: seq<StateResponse>)
    requires forall i :: 0 <= i < |rs| ==> 0 <= rs[i].progress <= 100
    ensures forall x :: x in Reports(PollEvents(sessionID, rs)) ==> 20 <= x <= 90
  {
    if rs != [] {
      var front, last := rs[..|rs| - 1], rs[|rs| - 1];
      PollReportsBounded(sessionID, front);
      ReportsAppend(PollEvents(sessionID, front), StepEvents(sessionID, last));
    }
  }

  /** Every state query carries the session identifier. */
  lemma {:induction false} PollEventsSession(sessionID: string, rs: seq<StateResponse>)
    ensures forall e :: e in PollEvents(sessionID, rs) ==> e.Report? || e == StateRequest(sessionID)
  {
    if rs != [] {
      PollEventsSession(sessionID, rs[..|rs| - 1]);
    }
  }

  /** Only the answers the poll actually consumed matter: answers after the
      last query can be anything (no further query is issued). */
  lemma LaterAnswersIgnored(states: seq<StateResponse>, other: seq<StateResponse>)
    requires MaxAttempts <= |states| && MaxAttempts <= |other|
    requires other[..Queries(states)] == states[..Queries(states)]
    ensures Queries(other) == Queries(states)
    ensures PollVerdict(other) == PollVerdict(states)
  {
    var n := Queries(states);
    assert forall i :: 0 <= i < n ==> other[i] == other[..n][i] == states[..n][i] == states[i];
    QueriesIs(other, n);
  }

  /** A poll that ends without error saw `completed` before the cap, and
      every answer it consumed was successful. */
  lemma CompletedPollSucceeded(states: seq<StateResponse>)
    requires MaxAttempts <= |states|
    requires PollVerdict(states).None?
    ensures Queries(states) < MaxAttempts
    ensures states[Queries(states) - 1].state == "completed"
    ensures AllSucceeded(states[..Queries(states)])
  {
  }
}
