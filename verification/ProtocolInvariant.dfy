/** The inductive invariant of the generation protocol, kept by every step. */
module ProtocolInvariant {
  import opened GoStrings
  import opened Options
  import opened ProviderErrors
  import opened TaskStore
  import opened GenerationProtocol

  /** Row `row` is what task `t` may look like: it records the request that created it; a
      RUNNING or SUCCEEDED row carries exactly the id that the task's one submission
      returned; error columns are set exactly on FAILED rows. */
  ghost predicate RowFits(s: System, t: TaskId, row: Row) {
    && SubmitAt(s, t)
    && var me := s.requests[t];
    && me.point != Arrived
    && row.key == me.what.key && row.hash == me.what.hash
    && row.model == me.what.model && row.provider == me.what.provider
    && row.createdAt == Some(me.insertedAt + me.offset)
    && (row.state == Pending ==> row.providerTaskId == "")
    && (row.state == Running || row.state == Succeeded ==> t in s.accepted && row.providerTaskId == s.accepted[t])
    && (row.providerTaskId == "" || (t in s.accepted && row.providerTaskId == s.accepted[t]))
    && (if row.state == Failed then ProperFailure(row.error) else row.error == NO_ERROR)
  }

  ghost predicate CallFits(s: System, c: Call) {
    && SubmitAt(s, c.task)
    && var me := s.requests[c.task];
    && me.point != Arrived
    && (c.fate == Hit ==> c.task in s.table)
    && match c.update
       case Insert(row) => row == PendingRow(me.what, me.insertedAt + me.offset)
       case ToRunning(provider, id) =>
         && c.task in s.accepted && id == s.accepted[c.task] && provider == me.what.provider
         && (c.fate == Hit ==> s.table[c.task].state != Pending)
       case ToFailed(expected, error) =>
         && !expected.Terminal() && ProperFailure(error)
         && (c.fate == Hit ==> s.table[c.task].state == Failed)
       case ToSucceeded => c.fate == Hit ==> s.table[c.task].state == Succeeded
  }

  /** What was reported is the state the row had reached by then. */
  ghost predicate Honest(s: System, t: TaskId, reported: State) {
    && t in s.table
    && reported.Stage() <= s.table[t].state.Stage()
    && (reported.Terminal() ==> s.table[t].state == reported)
  }

  predicate Waits(s: System, call: nat, t: TaskId) {
    call < |s.calls| && s.calls[call].task == t
  }

  /** A row of this key has another hash. */
  ghost predicate Conflicts(s: System, what: Submission) {
    exists t :: t in s.table && s.table[t].key == what.key && s.table[t].hash != what.hash
  }

  ghost predicate SubmitFits(s: System, r: RequestId, what: Submission, point: SubmitPoint) {
    match point
    case Arrived => r !in s.table && r !in s.submitted && r !in s.accepted
    case Inserting(c) => Waits(s, c, r) && s.calls[c].update.Insert? && r !in s.submitted && r !in s.accepted
    case LookingUp => r !in s.submitted && r !in s.accepted
    case Owner => r in s.table && r !in s.submitted && r !in s.accepted
    case AtProvider => r in s.submitted && r !in s.accepted
    case SavingId(c) => Waits(s, c, r) && s.calls[c].update.ToRunning?
    case SavingRefusal(c) => Waits(s, c, r) && s.calls[c].update.ToFailed?
    case GivingUp(c) => Waits(s, c, r) && s.calls[c].update.ToFailed?
    case Replied(Task(t, state)) => Honest(s, t, state) && s.table[t].key == what.key && s.table[t].hash == what.hash
    case Replied(AlreadyExists) => Conflicts(s, what)
    case Replied(_) => true
  }

  ghost predicate GetFits(s: System, t: TaskId, caller: Option<string>, seen: GetPoint) {
    match seen
    case Asked => true
    case Holding(row) =>
      && RowFits(s, t, row) && t in s.table && Evolves(row, s.table[t])
      && (caller.Some? ==> row.key.caller == caller.value)
    case Settling(c, verdict) =>
      && Waits(s, c, t) && verdict.Terminal()
      && (if verdict == Failed then s.calls[c].update.ToFailed? else s.calls[c].update.ToSucceeded?)
      && t in s.table && (caller.Some? ==> s.table[t].key.caller == caller.value)
    case Told(Reported(state)) =>
      Honest(s, t, state) && (caller.Some? ==> s.table[t].key.caller == caller.value)
    case Told(_) => true
  }

  ghost predicate RequestFits(s: System, r: RequestId)
    requires r in s.requests
  {
    match s.requests[r]
    case Submit(what, _, _, point) => SubmitFits(s, r, what, point)
    case Get(t, caller, _, seen) => GetFits(s, t, caller, seen)
  }

  ghost predicate LogFits(s: System) {
    && (forall t :: t in s.submitted ==> t in s.table)
    && (forall i, j :: 0 <= i < j < |s.submitted| ==> s.submitted[i] != s.submitted[j])
    && (forall t :: t in s.accepted ==> t in s.submitted)
  }

  ghost predicate Inv(s: System) {
    && UniqueKeys(s.table)
    && (forall t :: t in s.table ==> RowFits(s, t, s.table[t]))
    && (forall c :: c in s.calls ==> CallFits(s, c))
    && (forall r :: r in s.requests ==> RequestFits(s, r))
    && LogFits(s)
  }

  /** How one state may follow another, seen from everything the step does not touch. */
  ghost predicate Grows(s: System, s': System) {
    && TableEvolves(s.table, s'.table)
    && |s.calls| <= |s'.calls|
    && (forall i :: 0 <= i < |s.calls| ==>
          s'.calls[i].task == s.calls[i].task && s'.calls[i].update == s.calls[i].update)
    && (forall r :: r in s.requests ==> r in s'.requests && SameRequest(s.requests[r], s'.requests[r]))
    && (forall t :: t in s.accepted ==> t in s'.accepted && s'.accepted[t] == s.accepted[t])
  }

  /** The same request, later: its inputs and its creation time are fixed. */
  predicate SameRequest(a: Request, b: Request) {
    if a.Submit?
    then b.Submit? && b.what == a.what && b.offset == a.offset &&
         (a.point != Arrived ==> b.point != Arrived && b.insertedAt == a.insertedAt)
    else b.Get? && b.task == a.task && b.publicCaller == a.publicCaller && b.offset == a.offset
  }

  lemma RowKept(s: System, s': System, t: TaskId, row: Row)
    requires RowFits(s, t, row) && Grows(s, s')
    ensures RowFits(s', t, row)
  {
  }

  lemma CallKept(s: System, s': System, c: Call)
    requires CallFits(s, c) && Grows(s, s')
    ensures CallFits(s', c)
  {
  }

  /** A request that a step leaves alone still fits afterwards. */
  lemma RequestKept(s: System, s': System, r: RequestId)
    requires Grows(s, s') && r in s.requests && RequestFits(s, r)
    requires s'.requests[r] == s.requests[r]
    requires s.requests[r].Submit? ==> (r in s.submitted <==> r in s'.submitted)
    requires s.requests[r].Submit? ==> (r in s.accepted <==> r in s'.accepted)
    requires s.requests[r].Submit? && s.requests[r].point == Arrived ==> r !in s'.table
    ensures RequestFits(s', r)
  {
    match s.requests[r] {
      case Submit(what, _, _, point) =>
      case Get(t, caller, _, seen) =>
        if seen.Holding? { RowKept(s, s', t, seen.row); EvolvesTransitive(seen.row, s.table[t], s'.table[t]); }
    }
  }

  lemma EvolvesTransitive(a: Row, b: Row, c: Row)
    requires Evolves(a, b) && Evolves(b, c)
    ensures Evolves(a, c)
  {
  }

  /** Only the request `r` acts: the table and the provider log stay as they are, and at
      most one statement is sent. */
  ghost predicate Local(s: System, s': System, r: RequestId) {
    && s'.table == s.table && s'.submitted == s.submitted && s'.accepted == s.accepted
    && (s'.calls == s.calls || (|s'.calls| == |s.calls| + 1 && s'.calls[..|s.calls|] == s.calls))
    && r in s'.requests && s'.requests == s.requests[r := s'.requests[r]]
    && (r in s.requests ==> SameRequest(s.requests[r], s'.requests[r]))
  }

  ghost predicate NewCallFits(s: System, s': System) {
    |s'.calls| > |s.calls| ==> CallFits(s', s'.calls[|s.calls|])
  }

  lemma LocalGrows(s: System, s': System, r: RequestId)
    requires Local(s, s', r)
    ensures Grows(s, s')
  {
  }

  lemma LocalRowsAndCalls(s: System, s': System, r: RequestId)
    requires Local(s, s', r) && Grows(s, s') && NewCallFits(s, s')
    requires forall t :: t in s.table ==> RowFits(s, t, s.table[t])
    requires forall c :: c in s.calls ==> CallFits(s, c)
    ensures forall t :: t in s'.table ==> RowFits(s', t, s'.table[t])
    ensures forall c :: c in s'.calls ==> CallFits(s', c)
  {
    forall t | t in s'.table ensures RowFits(s', t, s'.table[t]) { RowKept(s, s', t, s.table[t]); }
    forall c | c in s'.calls ensures CallFits(s', c) {
      if c in s.calls { CallKept(s, s', c); } else { assert c == s'.calls[|s.calls|]; }
    }
  }

  lemma LocalStep(s: System, s': System, r: RequestId)
    requires Inv(s) && Local(s, s', r) && RequestFits(s', r) && NewCallFits(s, s')
    ensures Inv(s') && Grows(s, s')
  {
    LocalGrows(s, s', r);
    LocalRowsAndCalls(s, s', r);
    forall q | q in s'.requests ensures RequestFits(s', q) {
      if q != r { RequestKept(s, s', q); }
    }
  }

  lemma TakeEffectGrows(s: System, i: nat)
    requires UniqueKeys(s.table) && i < |s.calls| && s.calls[i].fate == InFlight && CallFits(s, s.calls[i])
    ensures Grows(s, TakeEffect(s, i)) && UniqueKeys(TakeEffect(s, i).table)
  {
    CommitIsLegal(s.table, s.calls[i].task, s.calls[i].update);
  }

  lemma TakeEffectRow(s: System, i: nat)
    requires i < |s.calls| && s.calls[i].fate == InFlight && CallFits(s, s.calls[i])
    requires s.calls[i].task in s.table ==> RowFits(s, s.calls[i].task, s.table[s.calls[i].task])
    ensures var s' := TakeEffect(s, i);
            s.calls[i].task in s'.table ==> RowFits(s', s.calls[i].task, s'.table[s.calls[i].task])
  {
  }

  lemma TakeEffectCall(s: System, i: nat)
    requires i < |s.calls| && s.calls[i].fate == InFlight && CallFits(s, s.calls[i])
    ensures CallFits(TakeEffect(s, i), TakeEffect(s, i).calls[i])
  {
  }

  lemma TakeEffectRows(s: System, i: nat)
    requires Inv(s) && i < |s.calls| && s.calls[i].fate == InFlight
    requires Grows(s, TakeEffect(s, i))
    ensures forall t :: t in TakeEffect(s, i).table ==> RowFits(TakeEffect(s, i), t, TakeEffect(s, i).table[t])
  {
    var s' := TakeEffect(s, i);
    TakeEffectRow(s, i);
    forall t | t in s'.table ensures RowFits(s', t, s'.table[t]) {
      if t != s.calls[i].task { RowKept(s, s', t, s.table[t]); }
    }
  }

  lemma StatementTakesEffect(s: System, i: nat)
    requires Inv(s) && i < |s.calls| && s.calls[i].fate == InFlight
    ensures Inv(TakeEffect(s, i)) && Grows(s, TakeEffect(s, i))
  {
    var s' := TakeEffect(s, i);
    TakeEffectGrows(s, i);
    TakeEffectRows(s, i);
    TakeEffectCall(s, i);
    forall c | c in s'.calls ensures CallFits(s', c) {
      if c != s'.calls[i] { assert c in s.calls; CallKept(s, s', c); }
    }
    forall q | q in s'.requests ensures RequestFits(s', q) { RequestKept(s, s', q); }
  }

  /** Starting a submission, or recording its id, touches the provider log as well. */
  lemma LogStep(s: System, s': System, r: RequestId)
    requires Inv(s) && Grows(s, s') && s'.table == s.table
    requires s'.calls == s.calls || (|s'.calls| == |s.calls| + 1 && s'.calls[..|s.calls|] == s.calls)
    requires r in s.requests && s'.requests == s.requests[r := s'.requests[r]]
    requires forall q :: q != r ==> (q in s'.submitted <==> q in s.submitted) && (q in s'.accepted <==> q in s.accepted)
    requires RequestFits(s', r) && NewCallFits(s, s') && LogFits(s')
    ensures Inv(s')
  {
    forall t | t in s'.table ensures RowFits(s', t, s'.table[t]) { RowKept(s, s', t, s.table[t]); }
    forall c | c in s'.calls ensures CallFits(s', c) {
      if c in s.calls { CallKept(s, s', c); } else { assert c == s'.calls[|s.calls|]; }
    }
    forall q | q in s'.requests ensures RequestFits(s', q) { if q != r { RequestKept(s, s', q); } }
  }

  lemma StartSubmissionFits(s: System, r: RequestId)
    requires SubmitAt(s, r) && s.requests[r].point == Owner && RequestFits(s, r) && LogFits(s)
    ensures var s' := OnStartSubmission(s, r);
            Grows(s, s') && RequestFits(s', r) && LogFits(s')
  {
  }

  lemma StartSubmissionKeeps(s: System, r: RequestId)
    requires Inv(s) && SubmitAt(s, r) && s.requests[r].point == Owner
    ensures Inv(OnStartSubmission(s, r)) && Grows(s, OnStartSubmission(s, r))
  {
    assert RequestFits(s, r);
    StartSubmissionFits(s, r);
    LogStep(s, OnStartSubmission(s, r), r);
  }

  lemma AcceptanceFits(s: System, r: RequestId, id: string)
    requires SubmitAt(s, r) && s.requests[r].point == AtProvider && RequestFits(s, r)
    ensures var s' := OnProviderAnswer(s, r, Accepted(id));
            Grows(s, s') && RequestFits(s', r) && NewCallFits(s, s')
  {
  }

  lemma RefusalFits(s: System, r: RequestId, fault: Fault)
    requires SubmitAt(s, r) && s.requests[r].point == AtProvider && RequestFits(s, r)
    ensures var s' := OnProviderAnswer(s, r, Refused(fault));
            Grows(s, s') && RequestFits(s', r) && NewCallFits(s, s')
  {
    SubmitVerdictIsProper(fault);
  }

  lemma ProviderAnswersKeeps(s: System, r: RequestId, answer: ProviderAnswer)
    requires Inv(s) && SubmitAt(s, r) && s.requests[r].point == AtProvider
    ensures Inv(OnProviderAnswer(s, r, answer)) && Grows(s, OnProviderAnswer(s, r, answer))
  {
    assert RequestFits(s, r);
    match answer {
      case Accepted(id) => AcceptanceFits(s, r, id);
      case Refused(fault) => RefusalFits(s, r, fault);
    }
    LogStep(s, OnProviderAnswer(s, r, answer), r);
  }

  lemma SendInsertKeeps(s: System, r: RequestId)
    requires Inv(s) && SubmitAt(s, r) && s.requests[r].point == Arrived
    ensures Inv(OnSendInsert(s, r)) && Grows(s, OnSendInsert(s, r))
  {
    assert RequestFits(s, r);
    LocalStep(s, OnSendInsert(s, r), r);
  }

  lemma HearInsertKeeps(s: System, r: RequestId, heard: bool)
    requires Inv(s) && Enabled(s, HearInsert(r, heard))
    ensures Inv(OnHearInsert(s, r, heard)) && Grows(s, OnHearInsert(s, r, heard))
  {
    assert RequestFits(s, r);
    assert CallFits(s, s.calls[s.requests[r].point.call]);
    LocalStep(s, OnHearInsert(s, r, heard), r);
  }

  lemma LookUpKeeps(s: System, r: RequestId, existing: Option<TaskId>, lost: bool)
    requires Inv(s) && Enabled(s, LookUp(r, existing, lost))
    ensures Inv(OnLookUp(s, r, existing, lost)) && Grows(s, OnLookUp(s, r, existing, lost))
  {
    assert RequestFits(s, r);
    LocalStep(s, OnLookUp(s, r, existing, lost), r);
  }

  lemma SubmitReplyFits(s: System, r: RequestId, reply: SubmitReply)
    requires SubmitAt(s, r) && s.requests[r].point != Arrived && RequestFits(s, r)
    requires reply == SubmitUnavailable || (reply.Task? && reply.task == r && Honest(s, r, reply.state) &&
             RowFits(s, r, s.table[r]))
    ensures var s' := Move(s, r, Replied(reply));
            Local(s, s', r) && RequestFits(s', r) && NewCallFits(s, s')
  {
  }

  lemma GiveUpFits(s: System, r: RequestId)
    requires SubmitAt(s, r) && s.requests[r].point != Arrived
    ensures var s' := Move(Send(s, r, r, ToFailed(Pending, LOST_ID), false), r, GivingUp(|s.calls|));
            Local(s, s', r) && RequestFits(s', r) && NewCallFits(s, s')
  {
  }

  lemma HearSaveFits(s: System, r: RequestId, heard: bool)
    requires Enabled(s, HearSave(r, heard)) && RequestFits(s, r) && CallFits(s, s.calls[s.requests[r].point.call])
    requires r in s.table ==> RowFits(s, r, s.table[r])
    ensures var s' := OnHearSave(s, r, heard);
            Local(s, s', r) && RequestFits(s', r) && NewCallFits(s, s')
  {
    var point := s.requests[r].point;
    var result := Heard(s.calls[point.call], heard);
    if point.SavingId? && result == Done { SubmitReplyFits(s, r, Task(r, Running)); }
    else if point.SavingId? { GiveUpFits(s, r); }
    else if point.SavingRefusal? && result == Done { SubmitReplyFits(s, r, Task(r, Failed)); }
    else { SubmitReplyFits(s, r, SubmitUnavailable); }
  }

  lemma HearSaveKeeps(s: System, r: RequestId, heard: bool)
    requires Inv(s) && Enabled(s, HearSave(r, heard))
    ensures Inv(OnHearSave(s, r, heard)) && Grows(s, OnHearSave(s, r, heard))
  {
    assert RequestFits(s, r);
    assert CallFits(s, s.calls[s.requests[r].point.call]);
    HearSaveFits(s, r, heard);
    LocalStep(s, OnHearSave(s, r, heard), r);
  }

  lemma ReadFits(s: System, r: RequestId, lost: bool)
    requires GetAt(s, r) && s.requests[r].seen == Asked
    requires s.requests[r].task in s.table ==> RowFits(s, s.requests[r].task, s.table[s.requests[r].task])
    ensures Local(s, OnRead(s, r, lost), r) && RequestFits(OnRead(s, r, lost), r)
  {
    var s' := OnRead(s, r, lost);
    LocalGrows(s, s', r);
    if s.requests[r].task in s.table { RowKept(s, s', s.requests[r].task, s.table[s.requests[r].task]); }
  }

  lemma ReadKeeps(s: System, r: RequestId, lost: bool)
    requires Inv(s) && GetAt(s, r) && s.requests[r].seen == Asked
    ensures Inv(OnRead(s, r, lost)) && Grows(s, OnRead(s, r, lost))
  {
    ReadFits(s, r, lost);
    LocalStep(s, OnRead(s, r, lost), r);
  }

  lemma SettleFits(s: System, r: RequestId, update: Update, stale: bool, verdict: State)
    requires GetAt(s, r) && s.requests[r].seen.Holding? && RequestFits(s, r)
    requires verdict == Failed ==> update.ToFailed? && !update.expected.Terminal() && ProperFailure(update.error)
    requires verdict != Failed ==> verdict == Succeeded && update.ToSucceeded?
    ensures var s' := Settle(s, r, update, stale, verdict);
            Local(s, s', r) && RequestFits(s', r) && NewCallFits(s, s')
  {
  }

  lemma TellFits(s: System, r: RequestId, reply: GetReply)
    requires GetAt(s, r) && s.requests[r].seen.Holding? && RequestFits(s, r)
    requires reply == GetFailed || reply == Reported(s.requests[r].seen.row.state)
    ensures var s' := Show(s, r, Told(reply));
            Local(s, s', r) && RequestFits(s', r) && NewCallFits(s, s')
  {
  }

  lemma PendingFits(s: System, r: RequestId)
    requires GetAt(s, r) && s.requests[r].seen.Holding? && RequestFits(s, r) && s.requests[r].seen.row.state == Pending
    ensures var s' := OnPending(s, r, s.requests[r].seen.row);
            Local(s, s', r) && RequestFits(s', r) && NewCallFits(s, s')
  {
    TellFits(s, r, Reported(Pending));
    SettleFits(s, r, ToFailed(Pending, MissingId("stale pending without provider task id")), true, Failed);
  }

  lemma AskChangesNothingElse(s: System, r: RequestId, row: Row, poll: Poll)
    requires GetAt(s, r) && RequestFits(s, r)
    ensures RequestFits(Ask(s, r, row, poll), r)
    ensures forall s', q :: Local(Ask(s, r, row, poll), s', q) <==> Local(s, s', q)
    ensures forall s' :: NewCallFits(Ask(s, r, row, poll), s') <==> NewCallFits(s, s')
  {
  }

  lemma RunningFits(s: System, r: RequestId, poll: Poll)
    requires GetAt(s, r) && s.requests[r].seen.Holding? && RequestFits(s, r) && s.requests[r].seen.row.state == Running
    ensures var s' := OnRunning(s, r, s.requests[r].seen.row, poll);
            Local(s, s', r) && RequestFits(s', r) && NewCallFits(s, s')
  {
    var row := s.requests[r].seen.row;
    if Blank(row.providerTaskId) {
      SettleFits(s, r, ToFailed(Running, MissingId("running without provider task id")), false, Failed);
    } else {
      var asked := Ask(s, r, row, poll);
      AskChangesNothingElse(s, r, row, poll);
      match poll {
        case PollError => TellFits(asked, r, GetFailed);
        case StillRunning => TellFits(asked, r, Reported(Running));
        case JobFailed(fault) =>
          SubmitVerdictIsProper(Canceled);
          SettleFits(asked, r, ToFailed(Running, Normalize(fault)), false, Failed);
        case JobSucceeded => SettleFits(asked, r, ToSucceeded, false, Succeeded);
      }
    }
  }

  lemma DecideFits(s: System, r: RequestId, poll: Poll)
    requires GetAt(s, r) && s.requests[r].seen.Holding? && RequestFits(s, r)
    ensures var s' := OnDecide(s, r, s.requests[r].seen.row, poll);
            Local(s, s', r) && RequestFits(s', r) && NewCallFits(s, s')
  {
    match s.requests[r].seen.row.state {
      case Pending => PendingFits(s, r);
      case Running => RunningFits(s, r, poll);
      case Failed => TellFits(s, r, Reported(Failed));
      case Succeeded => TellFits(s, r, Reported(Succeeded));
    }
  }

  lemma DecideKeeps(s: System, r: RequestId, poll: Poll)
    requires Inv(s) && GetAt(s, r) && s.requests[r].seen.Holding?
    ensures var s' := OnDecide(s, r, s.requests[r].seen.row, poll); Inv(s') && Grows(s, s')
  {
    assert RequestFits(s, r);
    DecideFits(s, r, poll);
    LocalStep(s, OnDecide(s, r, s.requests[r].seen.row, poll), r);
  }

  lemma HearSettleFits(s: System, r: RequestId, heard: bool)
    requires Enabled(s, HearSettle(r, heard)) && RequestFits(s, r) && CallFits(s, s.calls[s.requests[r].seen.call])
    ensures Local(s, OnHearSettle(s, r, heard), r) && RequestFits(OnHearSettle(s, r, heard), r)
  {
  }

  lemma HearSettleKeeps(s: System, r: RequestId, heard: bool)
    requires Inv(s) && Enabled(s, HearSettle(r, heard))
    ensures Inv(OnHearSettle(s, r, heard)) && Grows(s, OnHearSettle(s, r, heard))
  {
    assert RequestFits(s, r);
    assert CallFits(s, s.calls[s.requests[r].seen.call]);
    HearSettleFits(s, r, heard);
    LocalStep(s, OnHearSettle(s, r, heard), r);
  }

  lemma ArrivalKeeps(s: System, step: Step)
    requires Inv(s) && Enabled(s, step) && (step.SubmitArrives? || step.GetArrives?)
    ensures Inv(Next(s, step)) && Grows(s, Next(s, step))
  {
    assert step.r !in s.table;
    LocalStep(s, Next(s, step), step.r);
  }

  lemma TickKeeps(s: System, elapsed: nat)
    requires Inv(s)
    ensures Inv(Next(s, Tick(elapsed))) && Grows(s, Next(s, Tick(elapsed)))
  {
    var s' := Next(s, Tick(elapsed));
    forall t | t in s'.table ensures RowFits(s', t, s'.table[t]) { RowKept(s, s', t, s.table[t]); }
    forall c | c in s'.calls ensures CallFits(s', c) { CallKept(s, s', c); }
    forall q | q in s'.requests ensures RequestFits(s', q) { RequestKept(s, s', q); }
  }

  /** Every step of every request keeps the invariant, and only adds to what is known. */
  lemma StepKeepsInv(s: System, step: Step)
    requires Inv(s) && Enabled(s, step)
    ensures Inv(Next(s, step))
    ensures Grows(s, Next(s, step))
  {
    match step
    case Tick(elapsed) => TickKeeps(s, elapsed);
    case SubmitArrives(_, _, _) => ArrivalKeeps(s, step);
    case GetArrives(_, _, _, _) => ArrivalKeeps(s, step);
    case TakesEffect(call) => StatementTakesEffect(s, call);
    case SendInsert(r) => SendInsertKeeps(s, r);
    case HearInsert(r, heard) => HearInsertKeeps(s, r, heard);
    case LookUp(r, existing, lost) => LookUpKeeps(s, r, existing, lost);
    case StartSubmission(r) => StartSubmissionKeeps(s, r);
    case ProviderAnswers(r, answer) => ProviderAnswersKeeps(s, r, answer);
    case HearSave(r, heard) => HearSaveKeeps(s, r, heard);
    case Read(r, lost) => ReadKeeps(s, r, lost);
    case Decide(r, poll) => DecideKeeps(s, r, poll);
    case HearSettle(r, heard) => HearSettleKeeps(s, r, heard);
  }

  lemma {:induction false} RunKeepsInv(s: System, steps: seq<Step>)
    requires Inv(s) && CanRun(s, steps)
    ensures Inv(Run(s, steps))
    decreases |steps|
  {
    if steps != [] {
      StepKeepsInv(s, steps[0]);
      RunKeepsInv(Next(s, steps[0]), steps[1..]);
    }
  }

  lemma ReachableInv(s: System)
    requires Reachable(s)
    ensures Inv(s)
  {
    var steps :| CanRun(START, steps) && Run(START, steps) == s;
    RunKeepsInv(START, steps);
  }
}
