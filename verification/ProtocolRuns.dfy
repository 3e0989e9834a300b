/** Whole runs of the generation protocol: a job is submitted, ends, and is reported. */
module ProtocolRuns {
  import opened GoStrings
  import opened Options
  import opened ProviderErrors
  import opened TaskStore
  import opened GenerationProtocol
  import opened ProtocolSafety
  import opened ProtocolTiming

  const STORED := PendingRow(WHAT, 0).(state := Running, providerTaskId := "p-1")

  const INSERTED := Call(1, Insert(PendingRow(WHAT, 0)), Hit, 0, false, 1)

  const SAVED := Call(1, ToRunning("provider", "p-1"), Hit, 0, false, 1)

  /** A new key was submitted, the provider accepted the job as "p-1", and RUNNING was answered. */
  const ACCEPTED_ONE :=
    System(0, map[1 := STORED], [INSERTED, SAVED], map[1 := Submit(WHAT, 0, 0, Replied(Task(1, Running)))], [1],
           map[1 := "p-1"], map[], map[])

  /** The statement with the id is on its way. */
  const SAVING_ONE :=
    System(0, map[1 := PendingRow(WHAT, 0)], [INSERTED, SAVED.(fate := InFlight)],
           map[1 := Submit(WHAT, 0, 0, SavingId(1))], [1], map[1 := "p-1"], map[], map[])

  lemma IdIsSent()
    ensures Reachable(SAVING_ONE)
  {
    OneWaitsFor(0);
    ReachableNext(Waiting(0), ProviderAnswers(1, Accepted("p-1")));
    assert Next(Waiting(0), ProviderAnswers(1, Accepted("p-1"))) == SAVING_ONE;
  }

  lemma SubmitIsAnsweredRunning()
    ensures Reachable(ACCEPTED_ONE)
  {
    IdIsSent();
    ReachableNext(SAVING_ONE, TakesEffect(1));
    var s := Next(SAVING_ONE, TakesEffect(1));
    ReachableNext(s, HearSave(1, true));
  }

  /** A Get of this task that is about to ask the provider. */
  const ASKING := ACCEPTED_ONE.(requests := ACCEPTED_ONE.requests[2 := Get(1, Some("caller"), 0, Holding(STORED))])

  lemma GetHoldsTheRow()
    ensures Reachable(ASKING)
  {
    SubmitIsAnsweredRunning();
    var s := ACCEPTED_ONE;
    ReachableNext(s, GetArrives(2, 1, Some("caller"), 0));
    s := Next(s, GetArrives(2, 1, Some("caller"), 0));
    ReachableNext(s, Read(2, false));
  }

  /** The poll gave this answer, and this write was sent. */
  function Writing(answer: Poll, update: Update, verdict: State): System {
    ASKING.(calls := ASKING.calls + [Call(1, update, InFlight, 0, false, 2)],
            requests := ASKING.requests[2 := Get(1, Some("caller"), 0, Settling(2, verdict))],
            polls := map[2 := Polled("provider", "model", "p-1", answer)])
  }

  lemma DoneIsWritten()
    ensures Reachable(Writing(JobSucceeded, ToSucceeded, Succeeded))
  {
    GetHoldsTheRow();
    TrimmedIsKept("p-1");
    ReachableNext(ASKING, Decide(2, JobSucceeded));
    assert Next(ASKING, Decide(2, JobSucceeded)) == Writing(JobSucceeded, ToSucceeded, Succeeded);
  }

  lemma FailureIsWritten(fault: Option<Fault>)
    ensures Reachable(Writing(JobFailed(fault), ToFailed(Running, Normalize(fault)), Failed))
  {
    GetHoldsTheRow();
    TrimmedIsKept("p-1");
    ReachableNext(ASKING, Decide(2, JobFailed(fault)));
    assert Next(ASKING, Decide(2, JobFailed(fault))) ==
           Writing(JobFailed(fault), ToFailed(Running, Normalize(fault)), Failed);
  }

  /** The write takes effect and is heard to have. */
  lemma WriteIsHeard(answer: Poll, update: Update, verdict: State) returns (s: System)
    requires Reachable(Writing(answer, update, verdict)) && Applies(ASKING.table, 1, update)
    ensures Reachable(s) && GetAt(s, 2) && s.requests[2].task == 1 && s.requests[2].seen == Told(Reported(verdict))
    ensures s.table == Commit(ASKING.table, 1, update) && s.polls == Writing(answer, update, verdict).polls
  {
    s := Writing(answer, update, verdict);
    ReachableNext(s, TakesEffect(2));
    s := Next(s, TakesEffect(2));
    ReachableNext(s, HearSettle(2, true));
    s := Next(s, HearSettle(2, true));
  }

  /** A job that the provider reports as done is told as SUCCEEDED to its owner, and the row is. */
  lemma DoneIsTold() returns (s: System)
    ensures Reachable(s) && GetAt(s, 2) && s.requests[2].task == 1 && s.requests[2].seen == Told(Reported(Succeeded))
    ensures s.table == map[1 := STORED.(state := Succeeded)]
    ensures s.polls == map[2 := Polled("provider", "model", "p-1", JobSucceeded)]
  {
    DoneIsWritten();
    s := WriteIsHeard(JobSucceeded, ToSucceeded, Succeeded);
  }

  /** A job that the provider reports as rate limited is told as FAILED, with this error stored. */
  lemma FailureIsTold() returns (s: System)
    ensures Reachable(s) && GetAt(s, 2) && s.requests[2].task == 1 && s.requests[2].seen == Told(Reported(Failed))
    ensures s.table == map[1 := STORED.(state := Failed, error := Verdict(8, "slow down", "RATE_LIMITED"))]
  {
    var fault := Some(Typed(RateLimited, "slow down", None));
    FailureIsWritten(fault);
    assert Normalize(fault) == Verdict(8, "slow down", "RATE_LIMITED");
    s := WriteIsHeard(JobFailed(fault), ToFailed(Running, Normalize(fault)), Failed);
  }
}
