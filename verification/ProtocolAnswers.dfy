/** What each step of the generation protocol does and answers, and why a row is as it is. The
    lemmas on steps speak of reachable states and fix the whole effect of a step: the statement
    sent, the record of the provider's answers, and the request's new position. */
module ProtocolAnswers {
  import opened GoStrings
  import opened Options
  import opened ProviderErrors
  import opened TaskStore
  import opened GenerationProtocol
  import opened ProtocolInvariant
  import opened ProtocolSafety

  /** Request `r` sends exactly this statement for task `t` and waits for it. */
  predicate SendsOnly(s: System, s': System, r: RequestId, t: TaskId, update: Update, stale: bool) {
    s'.calls == s.calls + [Call(t, update, InFlight, s.now, stale, r)] && s'.table == s.table
  }

  predicate SendsNothing(s: System, s': System) { s'.calls == s.calls && s'.table == s.table }

  predicate SubmitGoesTo(s: System, s': System, r: RequestId, point: SubmitPoint)
    requires SubmitAt(s, r)
  {
    s'.requests == s.requests[r := s.requests[r].(point := point)]
  }

  predicate GetGoesTo(s: System, s': System, r: RequestId, seen: GetPoint)
    requires GetAt(s, r)
  {
    s'.requests == s.requests[r := s.requests[r].(seen := seen)]
  }

  predicate SameLog(s: System, s': System) {
    s'.submitted == s.submitted && s'.accepted == s.accepted && s'.refused == s.refused && s'.polls == s.polls
  }

  /** The sender knows that its statement found its row. */
  predicate HeardHit(s: System, call: nat, heard: bool) { heard && call < |s.calls| && s.calls[call].fate == Hit }

  predicate HeardMiss(s: System, call: nat, heard: bool) { heard && call < |s.calls| && s.calls[call].fate == Miss }

  // The errors that the service writes on its own account.
  const STALE_ERROR :=
    Verdict(14, "submit outcome unknown; " + "stale pending without provider task id", "SUBMIT_OUTCOME_UNKNOWN")
  const NO_ID_ERROR :=
    Verdict(14, "submit outcome unknown; " + "running without provider task id", "SUBMIT_OUTCOME_UNKNOWN")
  const LOST_ID_ERROR := Verdict(14, "failed to persist provider task id", "SUBMIT_OUTCOME_UNKNOWN")

  // Submit

  lemma InsertIsSent(s: System, r: RequestId)
    requires Reachable(s) && Enabled(s, SendInsert(r))
    ensures var s' := Next(s, SendInsert(r)); var me := s.requests[r];
            var row := Row(me.what.key, me.what.hash, me.what.model, me.what.provider, "", Pending, Verdict(0, "", ""),
                Some(s.now + me.offset));
      && SendsOnly(s, s', r, r, Insert(row), false) && SameLog(s, s')
      && s'.requests == s.requests[r := me.(insertedAt := s.now, point := Inserting(|s.calls|))]
  {
  }

  /** A row created by this request makes it the owner, a conflict leads to the look-up, and
      anything else is an error of the caller. */
  lemma InsertIsAnswered(s: System, r: RequestId, heard: bool)
    requires Reachable(s) && Enabled(s, HearInsert(r, heard))
    ensures var s' := Next(s, HearInsert(r, heard)); var call := s.requests[r].point.call;
      && SendsNothing(s, s') && SameLog(s, s')
      && SubmitGoesTo(s, s', r, if HeardHit(s, call, heard) then Owner
                                else if HeardMiss(s, call, heard) then LookingUp else Replied(SubmitUnavailable))
      && (HeardHit(s, call, heard) ==> r in s.table && s.table[r].key == s.requests[r].what.key)
      && (HeardMiss(s, call, heard) ==> s.calls[call].update.Insert? && s.calls[call].task == r)
  {
    ReachableInv(s);
    assert RequestFits(s, r);
    var call := s.requests[r].point.call;
    assert CallFits(s, s.calls[call]);
    if HeardHit(s, call, heard) { assert RowFits(s, r, s.table[r]); }
  }

  /** A look-up that finds the row of the key answers its task and state when the hashes agree,
      and a conflict when they do not. */
  lemma LookUpIsAnswered(s: System, r: RequestId, existing: Option<TaskId>, lost: bool)
    requires Reachable(s) && Enabled(s, LookUp(r, existing, lost))
    ensures var s' := Next(s, LookUp(r, existing, lost));
      && SendsNothing(s, s') && SameLog(s, s')
      && (lost || existing == None ==> SubmitGoesTo(s, s', r, Replied(SubmitUnavailable)))
      && (!lost ==> forall t :: t in s.table && s.table[t].key == s.requests[r].what.key ==>
            SubmitGoesTo(s, s', r, Replied(if s.table[t].hash == s.requests[r].what.hash then Task(t, s.table[t].state)
                else AlreadyExists)))
  {
    ReachableInv(s);
    if existing.Some? {
      forall t | t in s.table && s.table[t].key == s.requests[r].what.key ensures t == existing.value { }
    }
  }

  lemma SubmissionIsStarted(s: System, r: RequestId)
    requires Reachable(s) && Enabled(s, StartSubmission(r))
    ensures var s' := Next(s, StartSubmission(r));
      && SendsNothing(s, s') && SubmitGoesTo(s, s', r, AtProvider) && s'.submitted == s.submitted + [r]
      && s'.accepted == s.accepted && s'.refused == s.refused && s'.polls == s.polls
  {
  }

  /** An accepted submission stores exactly its id, under its provider; a refused one stores what
      describes the error. */
  lemma ProviderAnswerIsStored(s: System, r: RequestId, answer: ProviderAnswer)
    requires Reachable(s) && Enabled(s, ProviderAnswers(r, answer))
    ensures var s' := Next(s, ProviderAnswers(r, answer));
      && s'.submitted == s.submitted && s'.polls == s.polls
      && match answer
         case Accepted(id) =>
           && SendsOnly(s, s', r, r, ToRunning(s.requests[r].what.provider, id), false)
           && SubmitGoesTo(s, s', r, SavingId(|s.calls|)) && s'.accepted == s.accepted[r := id] &&
               s'.refused == s.refused
         case Refused(fault) =>
           && |s'.calls| == |s.calls| + 1 && s'.calls[|s.calls|].update.ToFailed?
           && SendsOnly(s, s', r, r, ToFailed(Pending, s'.calls[|s.calls|].update.error), false)
           && DescribesSubmit(s'.calls[|s.calls|].update.error, fault)
           && SubmitGoesTo(s, s', r, SavingRefusal(|s.calls|)) && s'.refused == s.refused[r := fault] &&
               s'.accepted == s.accepted
  {
    if answer.Refused? { SubmitVerdictDescribes(answer.fault); }
  }

  /** RUNNING is answered exactly when the write of the id is known to have hit, FAILED exactly
      when the write of the refusal is. When the write of the id is not known to have hit, the
      submitter first sends a write that fails the task from PENDING; in all other cases it
      answers that the service is unavailable. */
  lemma SaveIsAnswered(s: System, r: RequestId, heard: bool)
    requires Reachable(s) && Enabled(s, HearSave(r, heard))
    ensures var s' := Next(s, HearSave(r, heard)); var point := s.requests[r].point; var hit := HeardHit(s, point.call,
            heard);
      && SameLog(s, s')
      && (if point.SavingId? && !hit then
            && SendsOnly(s, s', r, r, ToFailed(Pending,
                Verdict(14, "failed to persist provider task id", "SUBMIT_OUTCOME_UNKNOWN")), false)
            && SubmitGoesTo(s, s', r, GivingUp(|s.calls|))
          else
            && SendsNothing(s, s')
            && SubmitGoesTo(s, s', r, Replied(if !hit || point.GivingUp? then SubmitUnavailable
                                              else if point.SavingId? then Task(r, Running) else Task(r, Failed))))
  {
    ReachableInv(s);
    assert RequestFits(s, r);
  }

  // Get

  /** A Get holds the row it read, unless the read was lost, there is no such task, or the task
      belongs to another than the public caller. */
  lemma ReadIsAnswered(s: System, r: RequestId, lost: bool)
    requires Reachable(s) && Enabled(s, Read(r, lost))
    ensures var s' := Next(s, Read(r, lost)); var me := s.requests[r];
            var mine := me.task in s.table && (me.publicCaller == None ||
                me.publicCaller == Some(s.table[me.task].key.caller));
      && SendsNothing(s, s') && SameLog(s, s')
      && (lost ==> GetGoesTo(s, s', r, Told(GetFailed)))
      && (!lost && mine ==> GetGoesTo(s, s', r, Holding(s.table[me.task])))
      && (!lost && !mine ==> GetGoesTo(s, s', r, Told(TaskNotFound)))
  {
  }

  /** A FAILED or SUCCEEDED row that was read is reported as such, without a poll or a write. */
  lemma EndIsReported(s: System, r: RequestId, poll: Poll)
    requires Reachable(s) && Enabled(s, Decide(r, poll))
    requires s.requests[r].seen.row.state == Failed || s.requests[r].seen.row.state == Succeeded
    ensures var s' := Next(s, Decide(r, poll));
            SendsNothing(s, s') && SameLog(s, s') && GetGoesTo(s, s', r, Told(Reported(s.requests[r].seen.row.state)))
  {
  }

  /** A RUNNING row with a blank id is failed, and no provider is asked. */
  lemma BlankIdIsFailed(s: System, r: RequestId, poll: Poll)
    requires Reachable(s) && Enabled(s, Decide(r, poll)) && s.requests[r].seen.row.state == Running
    requires Blank(s.requests[r].seen.row.providerTaskId)
    ensures var s' := Next(s, Decide(r, poll));
      && SendsOnly(s, s', r, s.requests[r].task, ToFailed(Running, NO_ID_ERROR), false) && SameLog(s, s')
      && GetGoesTo(s, s', r, Settling(|s.calls|, Failed))
  {
    assert Next(s, Decide(r, poll)) == Settle(s, r, ToFailed(Running, NO_ID_ERROR), false, Failed);
  }

  lemma PendingDecidesBy(s: System, r: RequestId, row: Row)
    requires GetAt(s, r) && row.createdAt.Some? && row.providerTaskId == ""
    ensures var s' := OnPending(s, r, row); var young := (s.now +
            s.requests[r].offset) - row.createdAt.value <= 720_000;
      && SameLog(s, s')
      && (young ==> SendsNothing(s, s') && GetGoesTo(s, s', r, Told(Reported(Pending))))
      && (!young ==>
            SendsOnly(s, s', r, s.requests[r].task, ToFailed(Pending, STALE_ERROR), true) &&
                GetGoesTo(s, s', r, Settling(|s.calls|, Failed)))
  {
  }

  /** A PENDING row is reported as such while it is young by this pod's clock, and failed after
      that. */
  lemma PendingDecides(s: System, r: RequestId, poll: Poll)
    requires Reachable(s) && Enabled(s, Decide(r, poll)) && s.requests[r].seen.row.state == Pending
    ensures SubmitAt(s, s.requests[r].task)
    ensures var s' := Next(s, Decide(r, poll)); var me := s.requests[r]; var owner := s.requests[me.task];
            var young := (s.now + me.offset) - (owner.insertedAt + owner.offset) <= 720_000;
      && SameLog(s, s')
      && (young ==> SendsNothing(s, s') && GetGoesTo(s, s', r, Told(Reported(Pending))))
      && (!young ==>
            && SendsOnly(s, s', r, me.task, ToFailed(Pending, STALE_ERROR), true)
            && GetGoesTo(s, s', r, Settling(|s.calls|, Failed)))
  {
    ReachableInv(s);
    assert RequestFits(s, r);
    PendingDecidesBy(s, r, s.requests[r].seen.row);
  }

  /** With an id, the provider of the row is asked about it, and the answer decides: an error,
      RUNNING, a write of what describes the failure, or the write of success. */
  lemma PollDecides(s: System, r: RequestId, poll: Poll)
    requires Reachable(s) && Enabled(s, Decide(r, poll)) && s.requests[r].seen.row.state == Running
    requires !Blank(s.requests[r].seen.row.providerTaskId)
    ensures var s' := Next(s, Decide(r, poll)); var row := s.requests[r].seen.row; var t := s.requests[r].task;
      && s'.submitted == s.submitted && s'.accepted == s.accepted && s'.refused == s.refused
      && s'.polls == s.polls[r := Polled(row.provider, row.model, row.providerTaskId, poll)]
      && match poll
         case PollError => SendsNothing(s, s') && GetGoesTo(s, s', r, Told(GetFailed))
         case StillRunning => SendsNothing(s, s') && GetGoesTo(s, s', r, Told(Reported(Running)))
         case JobSucceeded =>
           SendsOnly(s, s', r, t, ToSucceeded, false) && GetGoesTo(s, s', r, Settling(|s.calls|, Succeeded))
         case JobFailed(fault) =>
           && |s'.calls| == |s.calls| + 1 && s'.calls[|s.calls|].update.ToFailed?
           && SendsOnly(s, s', r, t, ToFailed(Running, s'.calls[|s.calls|].update.error), false)
           && DescribesJob(s'.calls[|s.calls|].update.error, fault) && GetGoesTo(s, s', r, Settling(|s.calls|, Failed))
  {
    if poll.JobFailed? { NormalizeDescribes(poll.fault); }
  }

  /** A Get reports the end it wrote exactly when its write is known to have hit, and then the row
      has that end; otherwise it reports an error. */
  lemma EndIsToldAfterTheWrite(s: System, r: RequestId, heard: bool)
    requires Reachable(s) && Enabled(s, HearSettle(r, heard))
    ensures var s' := Next(s, HearSettle(r, heard)); var call := s.requests[r].seen.call; var t := s.requests[r].task;
      && SendsNothing(s, s') && SameLog(s, s')
      && s.calls[call].task == t && (s.calls[call].update.ToFailed? || s.calls[call].update.ToSucceeded?)
      && (!HeardHit(s, call, heard) ==> GetGoesTo(s, s', r, Told(GetFailed)))
      && (HeardHit(s, call, heard) ==>
            var end := if s.calls[call].update.ToSucceeded? then Succeeded else Failed;
            GetGoesTo(s, s', r, Told(Reported(end))) && t in s.table && s.table[t].state == end)
  {
    ReachableInv(s);
    assert RequestFits(s, r);
    assert CallFits(s, s.calls[s.requests[r].seen.call]);
  }

  // Why a statement was sent

  /** Get request `q` asked the provider of task `t` about its accepted id, and heard this. */
  ghost predicate Learned(s: System, q: RequestId, t: TaskId, answer: Poll) {
    && GetAt(s, q) && s.requests[q].task == t && t in s.accepted && SubmitAt(s, t)
    && q in s.polls && s.polls[q] == Polled(s.requests[t].what.provider, s.requests[t].what.model, s.accepted[t],
        answer)
  }

  /** What must have happened before statement `c` was sent. A task is failed from PENDING because
      its submission was refused, because its id could not be stored, or because it was stale;
      from RUNNING because its id is blank, or because its provider said that the job failed. */
  ghost predicate Caused(s: System, c: Call) {
    match c.update
    case Insert(_) => c.sender == c.task
    case ToRunning(_, id) => c.sender == c.task && c.task in s.accepted && s.accepted[c.task] == id
    case ToFailed(Pending, error) =>
      || (c.sender == c.task && c.task in s.refused && DescribesSubmit(error, s.refused[c.task]))
      || (c.sender == c.task && c.task in s.accepted && error == LOST_ID_ERROR)
      || (c.stale && error == STALE_ERROR)
    case ToFailed(_, error) =>
      || (c.task in s.accepted && Blank(s.accepted[c.task]) && error == NO_ID_ERROR)
      || (exists fault :: Learned(s, c.sender, c.task, JobFailed(fault)) && DescribesJob(error, fault))
    case ToSucceeded => Learned(s, c.sender, c.task, JobSucceeded)
  }

  /** A poll is recorded once, when its request makes its decision. */
  ghost predicate PollFits(s: System, q: RequestId) {
    GetAt(s, q) && !s.requests[q].seen.Asked? && !s.requests[q].seen.Holding?
  }

  /** A submission has one answer: an id or an error. */
  ghost predicate AnswerFits(s: System, t: TaskId) {
    SubmitAt(s, t) && Answered(s.requests[t].point) && t !in s.accepted
  }

  predicate Answered(point: SubmitPoint) {
    point.SavingId? || point.SavingRefusal? || point.GivingUp? || point.Replied?
  }

  ghost predicate Explained(s: System) {
    && (forall c :: c in s.calls ==> Caused(s, c))
    && (forall q :: q in s.polls ==> PollFits(s, q))
    && (forall t :: t in s.refused ==> AnswerFits(s, t))
  }

  /** What was recorded of the providers stays. */
  ghost predicate LogGrows(s: System, s': System) {
    && (forall q :: q in s.polls ==> q in s'.polls && s'.polls[q] == s.polls[q])
    && (forall t :: t in s.refused ==> t in s'.refused && s'.refused[t] == s.refused[t])
  }

  /** How the log of the providers' answers changes. */
  lemma OnlyDecisionsPoll(s: System, step: Step)
    requires Enabled(s, step) && !step.Decide?
    ensures Next(s, step).polls == s.polls
  {
    if !step.ProviderAnswers? && !step.Tick? && !step.TakesEffect? { assert SameAnswers(s, Next(s, step)); }
  }

  lemma OnlyProvidersAnswer(s: System, step: Step)
    requires Enabled(s, step) && !step.ProviderAnswers?
    ensures Next(s, step).refused == s.refused && Next(s, step).accepted == s.accepted
  {
    if !step.Decide? && !step.Tick? && !step.TakesEffect? { assert SameAnswers(s, Next(s, step)); }
  }

  lemma StepGrowsLog(s: System, step: Step)
    requires Enabled(s, step) && Explained(s)
    ensures LogGrows(s, Next(s, step))
  {
    if step.Decide? {
      assert step.r in s.polls ==> PollFits(s, step.r);
    } else {
      OnlyDecisionsPoll(s, step);
    }
    if step.ProviderAnswers? { assert step.r in s.refused ==> AnswerFits(s, step.r); } else {
        OnlyProvidersAnswer(s, step); }
  }

  lemma PollStaysFitElsewhere(s: System, step: Step, q: RequestId)
    requires Enabled(s, step) && PollFits(s, q) && !(step.Decide? && step.r == q)
    ensures PollFits(Next(s, step), q)
  {
    if !ActsIn(step, q) { OthersAreUntouched(s, step, q); }
  }

  lemma PollStaysFit(s: System, step: Step, q: RequestId)
    requires Enabled(s, step) && Explained(s) && q in Next(s, step).polls
    ensures PollFits(Next(s, step), q)
  {
    if step.Decide? {
      if step.r != q { PollStaysFitElsewhere(s, step, q); }
    } else {
      OnlyDecisionsPoll(s, step);
      PollStaysFitElsewhere(s, step, q);
    }
  }

  lemma AnswerStaysFitElsewhere(s: System, step: Step, t: TaskId)
    requires Enabled(s, step) && AnswerFits(s, t) && !ActsIn(step, t)
    ensures AnswerFits(Next(s, step), t)
  {
    OthersAreUntouched(s, step, t);
    if !step.ProviderAnswers? { OnlyProvidersAnswer(s, step); }
  }

  lemma AnswerStaysFitAtHome(s: System, r: RequestId, heard: bool)
    requires Enabled(s, HearSave(r, heard)) && AnswerFits(s, r)
    ensures AnswerFits(OnHearSave(s, r, heard), r)
  {
  }

  lemma NewAnswerFits(s: System, r: RequestId, fault: Fault)
    requires SubmitAt(s, r) && r !in s.accepted
    ensures AnswerFits(OnProviderAnswer(s, r, Refused(fault)), r)
  {
  }

  lemma AnswerStaysFit(s: System, step: Step, t: TaskId)
    requires Inv(s) && Enabled(s, step) && Explained(s) && t in Next(s, step).refused
    ensures AnswerFits(Next(s, step), t)
  {
    if step.ProviderAnswers? && step.r == t {
      assert RequestFits(s, t);
      assert t in s.refused ==> AnswerFits(s, t);
      if step.answer.Refused? { NewAnswerFits(s, t, step.answer.fault); }
    } else {
      if !step.ProviderAnswers? { OnlyProvidersAnswer(s, step); }
      assert AnswerFits(s, t);
      if ActsIn(step, t) { AnswerStaysFitAtHome(s, t, step.heard); } else { AnswerStaysFitElsewhere(s, step, t); }
    }
  }

  lemma CausedKept(s: System, s': System, c: Call)
    requires Grows(s, s') && LogGrows(s, s') && Caused(s, c)
    ensures Caused(s', c)
  {
    match c.update
    case ToFailed(Pending, error) =>
    case ToFailed(_, error) =>
      if !(c.task in s.accepted && Blank(s.accepted[c.task]) && error == NO_ID_ERROR) {
        var fault :| Learned(s, c.sender, c.task, JobFailed(fault)) && DescribesJob(error, fault);
        assert Learned(s', c.sender, c.task, JobFailed(fault));
      }
    case ToSucceeded => assert Learned(s', c.sender, c.task, JobSucceeded);
    case _ =>
  }

  lemma FateIsNoCause(s: System, c: Call, fate: Fate)
    requires Caused(s, c)
    ensures Caused(s, c.(fate := fate))
  {
  }

  /** The statement that a step sends, if any, has its cause. */
  ghost predicate SendsCaused(s: System, s': System) {
    || s'.calls == s.calls
    || (|s'.calls| == |s.calls| + 1 && s'.calls[..|s.calls|] == s.calls && Caused(s', s'.calls[|s.calls|]))
  }

  lemma InsertSendsCaused(s: System, r: RequestId)
    requires SubmitAt(s, r)
    ensures SendsCaused(s, OnSendInsert(s, r))
  {
  }

  lemma AnswerSendsCaused(s: System, r: RequestId, answer: ProviderAnswer)
    requires SubmitAt(s, r)
    ensures SendsCaused(s, OnProviderAnswer(s, r, answer))
  {
    if answer.Refused? { SubmitVerdictDescribes(answer.fault); }
  }

  lemma GiveUpSendsCaused(s: System, r: RequestId)
    requires SubmitAt(s, r) && r in s.accepted
    ensures SendsCaused(s, Move(Send(s, r, r, ToFailed(Pending, LOST_ID), false), r, GivingUp(|s.calls|)))
  {
  }

  lemma SaveSendsCaused(s: System, r: RequestId, heard: bool)
    requires Inv(s) && Enabled(s, HearSave(r, heard))
    ensures SendsCaused(s, OnHearSave(s, r, heard))
  {
    var point := s.requests[r].point;
    if point.SavingId? && Heard(s.calls[point.call], heard) != Done {
      assert RequestFits(s, r);
      assert CallFits(s, s.calls[point.call]);
      GiveUpSendsCaused(s, r);
    } else {
      assert OnHearSave(s, r, heard).calls == s.calls;
    }
  }

  lemma RunningSendsCaused(s: System, r: RequestId, poll: Poll)
    requires GetAt(s, r) && s.requests[r].seen.Holding? && s.requests[r].seen.row.state == Running
    requires RowFits(s, s.requests[r].task, s.requests[r].seen.row)
    ensures SendsCaused(s, OnRunning(s, r, s.requests[r].seen.row, poll))
  {
    var row, t := s.requests[r].seen.row, s.requests[r].task;
    var s' := OnRunning(s, r, row, poll);
    if !Blank(row.providerTaskId) {
      if poll.JobFailed? {
        NormalizeDescribes(poll.fault);
        assert Learned(s', r, t, JobFailed(poll.fault));
      }
      if poll.JobSucceeded? { assert Learned(s', r, t, JobSucceeded); }
    }
  }

  lemma PendingSendsCaused(s: System, r: RequestId, row: Row)
    requires GetAt(s, r)
    ensures SendsCaused(s, OnPending(s, r, row))
  {
  }

  lemma DecideSendsCaused(s: System, r: RequestId, poll: Poll)
    requires Inv(s) && GetAt(s, r) && s.requests[r].seen.Holding?
    ensures SendsCaused(s, OnDecide(s, r, s.requests[r].seen.row, poll))
  {
    var row := s.requests[r].seen.row;
    match row.state {
      case Pending => PendingSendsCaused(s, r, row);
      case Running =>
        assert RequestFits(s, r);
        RunningSendsCaused(s, r, poll);
      case _ => assert OnDecide(s, r, row, poll).calls == s.calls;
    }
  }

  lemma StepSendsCaused(s: System, step: Step)
    requires Inv(s) && Enabled(s, step) && !step.TakesEffect?
    ensures SendsCaused(s, Next(s, step))
  {
    match step
    case SendInsert(r) => InsertSendsCaused(s, r);
    case ProviderAnswers(r, answer) => AnswerSendsCaused(s, r, answer);
    case HearSave(r, heard) => SaveSendsCaused(s, r, heard);
    case Decide(r, poll) => DecideSendsCaused(s, r, poll);
    case _ => OtherStepsSendNothing(s, step);
  }

  lemma OtherStepsSendNothing(s: System, step: Step)
    requires Enabled(s, step) && !step.TakesEffect? && !step.Decide? && !step.SendInsert? && !step.ProviderAnswers? &&
             !step.HearSave?
    ensures Next(s, step).calls == s.calls
  {
  }

  lemma EffectKeepsCaused(s: System, i: nat)
    requires i < |s.calls| && (forall c :: c in s.calls ==> Caused(s, c)) && Grows(s, TakeEffect(s, i))
    ensures forall c :: c in TakeEffect(s, i).calls ==> Caused(TakeEffect(s, i), c)
  {
    var s' := TakeEffect(s, i);
    forall c | c in s'.calls ensures Caused(s', c) {
      if c == s'.calls[i] {
        assert s.calls[i] in s.calls;
        CausedKept(s, s', s.calls[i]);
        FateIsNoCause(s', s.calls[i], c.fate);
      } else {
        assert c in s.calls;
        CausedKept(s, s', c);
      }
    }
  }

  lemma SendKeepsCaused(s: System, s': System)
    requires (forall c :: c in s.calls ==> Caused(s, c)) && Grows(s, s') && LogGrows(s, s') && SendsCaused(s, s')
    ensures forall c :: c in s'.calls ==> Caused(s', c)
  {
    forall c | c in s'.calls ensures Caused(s', c) {
      if c in s.calls { CausedKept(s, s', c); } else { assert c == s'.calls[|s.calls|]; }
    }
  }

  lemma CallsStayCaused(s: System, step: Step)
    requires Inv(s) && Explained(s) && Enabled(s, step) && Grows(s, Next(s, step)) && LogGrows(s, Next(s, step))
    ensures forall c :: c in Next(s, step).calls ==> Caused(Next(s, step), c)
  {
    if step.TakesEffect? {
      EffectKeepsCaused(s, step.call);
    } else {
      StepSendsCaused(s, step);
      SendKeepsCaused(s, Next(s, step));
    }
  }

  lemma StepKeepsExplained(s: System, step: Step)
    requires Inv(s) && Explained(s) && Enabled(s, step)
    ensures Explained(Next(s, step))
  {
    StepKeepsInv(s, step);
    StepGrowsLog(s, step);
    CallsStayCaused(s, step);
    forall q | q in Next(s, step).polls ensures PollFits(Next(s, step), q) { PollStaysFit(s, step, q); }
    forall t | t in Next(s, step).refused ensures AnswerFits(Next(s, step), t) { AnswerStaysFit(s, step, t); }
  }

  lemma {:induction false} RunKeepsExplained(s: System, steps: seq<Step>)
    requires Inv(s) && Explained(s) && CanRun(s, steps)
    ensures Explained(Run(s, steps))
    decreases |steps|
  {
    if steps != [] {
      StepKeepsInv(s, steps[0]);
      StepKeepsExplained(s, steps[0]);
      RunKeepsExplained(Next(s, steps[0]), steps[1..]);
    }
  }

  /** In every reachable state every statement has its cause. */
  lemma ReachableIsExplained(s: System)
    requires Reachable(s)
    ensures Explained(s)
  {
    var steps :| CanRun(START, steps) && Run(START, steps) == s;
    RunKeepsExplained(START, steps);
  }

  lemma JobEndsBy(s: System, i: nat, t: TaskId)
    requires i < |s.calls| && Caused(s, s.calls[i]) && CallFits(s, s.calls[i])
    requires t in s.table && s.table[t].state == Running && RowFits(s, t, s.table[t])
    ensures var now := TakeEffect(s, i).table; var sender := s.calls[i].sender;
      && t in now && (now[t].state == Running || now[t].state == Succeeded || now[t].state == Failed)
      && (now[t].state == Succeeded ==> Learned(s, sender, t, JobSucceeded))
      && (now[t].state == Failed ==>
            || (Blank(s.accepted[t]) && now[t].error == NO_ID_ERROR)
            || exists fault :: Learned(s, sender, t, JobFailed(fault)) && DescribesJob(now[t].error, fault))
  {
  }

  /** The table moves a task from RUNNING only for what its provider said of its id: to SUCCEEDED
      when the poll of the writing request said so, and to FAILED when that poll said so, or when
      the id is blank. The stored error describes the provider's. */
  lemma JobEndsAsTheProviderSaid(s: System, call: nat, t: TaskId)
    requires Reachable(s) && Enabled(s, TakesEffect(call)) && t in s.table && s.table[t].state == Running
    ensures var now := Next(s, TakesEffect(call)).table; var sender := s.calls[call].sender;
      && t in now && t in s.accepted && s.table[t].providerTaskId == s.accepted[t]
      && (now[t].state == Running || now[t].state == Succeeded || now[t].state == Failed)
      && (now[t].state == Succeeded ==> Learned(s, sender, t, JobSucceeded))
      && (now[t].state == Failed ==>
            || (Blank(s.accepted[t]) && now[t].error == NO_ID_ERROR)
            || exists fault :: Learned(s, sender, t, JobFailed(fault)) && DescribesJob(now[t].error, fault))
  {
    ReachableInv(s);
    ReachableIsExplained(s);
    assert s.calls[call] in s.calls;
    JobEndsBy(s, call, t);
  }

  lemma SubmissionFailsBy(s: System, i: nat, t: TaskId)
    requires i < |s.calls| && Caused(s, s.calls[i]) && CallFits(s, s.calls[i]) && t in s.table &&
             s.table[t].state == Pending
    ensures var now := TakeEffect(s, i).table; var c := s.calls[i];
      && t in now && (now[t].state == Pending || now[t].state == Running || now[t].state == Failed)
      && (now[t].state == Running ==> t in s.accepted && now[t].providerTaskId == s.accepted[t])
      && (now[t].state == Failed ==>
            || (t in s.refused && DescribesSubmit(now[t].error, s.refused[t]))
            || (t in s.accepted && now[t].error == LOST_ID_ERROR)
            || (c.stale && now[t].error == STALE_ERROR))
  {
  }

  /** And from PENDING to FAILED only because its submission was refused, its id could not be
      stored, or it was stale. */
  lemma SubmissionFailsForAReason(s: System, call: nat, t: TaskId)
    requires Reachable(s) && Enabled(s, TakesEffect(call)) && t in s.table && s.table[t].state == Pending
    ensures var now := Next(s, TakesEffect(call)).table; var c := s.calls[call];
      && t in now && (now[t].state == Pending || now[t].state == Running || now[t].state == Failed)
      && (now[t].state == Running ==> t in s.accepted && now[t].providerTaskId == s.accepted[t])
      && (now[t].state == Failed ==>
            || (t in s.refused && DescribesSubmit(now[t].error, s.refused[t]))
            || (t in s.accepted && now[t].error == LOST_ID_ERROR)
            || (c.stale && now[t].error == STALE_ERROR))
  {
    ReachableInv(s);
    ReachableIsExplained(s);
    assert s.calls[call] in s.calls;
    SubmissionFailsBy(s, call, t);
  }
}
