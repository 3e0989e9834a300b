/** What the generation protocol guarantees in every reachable state and over every run. */
module ProtocolSafety {
  import opened GoStrings
  import opened Options
  import opened ProviderErrors
  import opened TaskStore
  import opened GenerationProtocol
  import opened ProtocolInvariant

  // Runs

  lemma {:induction false} RunAppend(s: System, steps: seq<Step>, last: Step)
    requires CanRun(s, steps) && Enabled(Run(s, steps), last)
    ensures CanRun(s, steps + [last]) && Run(s, steps + [last]) == Next(Run(s, steps), last)
    decreases |steps|
  {
    if steps == [] {
      assert steps + [last] == [last] && [last][1..] == [];
    } else {
      assert (steps + [last])[1..] == steps[1..] + [last];
      RunAppend(Next(s, steps[0]), steps[1..], last);
    }
  }

  lemma ReachableNext(s: System, step: Step)
    requires Reachable(s) && Enabled(s, step)
    ensures Reachable(Next(s, step))
  {
    var steps :| CanRun(START, steps) && Run(START, steps) == s;
    RunAppend(START, steps, step);
  }

  lemma GrowsTransitive(a: System, b: System, c: System)
    requires Grows(a, b) && Grows(b, c)
    ensures Grows(a, c)
  {
    forall t | t in a.table ensures t in c.table && Evolves(a.table[t], c.table[t]) {
      EvolvesTransitive(a.table[t], b.table[t], c.table[t]);
    }
  }

  lemma {:induction false} RunGrows(s: System, steps: seq<Step>)
    requires Inv(s) && CanRun(s, steps)
    ensures Grows(s, Run(s, steps)) && Inv(Run(s, steps))
    decreases |steps|
  {
    if steps != [] {
      var s' := Next(s, steps[0]);
      StepKeepsInv(s, steps[0]);
      RunGrows(s', steps[1..]);
      GrowsTransitive(s, s', Run(s', steps[1..]));
    }
  }

  // Terminal verdicts

  /** Whatever any two requests, on any pods, have reported as the end of one task, it is the
      same end: never FAILED here and SUCCEEDED there. */
  lemma TerminalVerdictsAgree(s: System, p: RequestId, q: RequestId, t: TaskId)
    requires Reachable(s)
    requires TellsOf(s, p, t) && StateTold(s, p, t).Terminal()
    requires TellsOf(s, q, t) && StateTold(s, q, t).Terminal()
    ensures StateTold(s, p, t) == StateTold(s, q, t)
  {
    ReachableInv(s);
    assert RequestFits(s, p) && RequestFits(s, q);
  }

  /** A reported end is what the row says at that moment and for the rest of every run. */
  lemma VerdictIsForever(s: System, steps: seq<Step>, p: RequestId, t: TaskId)
    requires Reachable(s) && CanRun(s, steps)
    requires TellsOf(s, p, t) && StateTold(s, p, t).Terminal()
    ensures t in s.table && s.table[t].state == StateTold(s, p, t)
    ensures t in Run(s, steps).table && Run(s, steps).table[t] == s.table[t]
  {
    ReachableInv(s);
    assert RequestFits(s, p);
    RunGrows(s, steps);
  }

  // One submission

  /** No two upstream submissions are ever started for one (caller, request_id), however many
      requests use it and whatever became of the first. */
  lemma AtMostOneSubmission(s: System, i: nat, j: nat)
    requires Reachable(s) && i < j < |s.submitted|
    ensures SubmitAt(s, s.submitted[i]) && SubmitAt(s, s.submitted[j])
    ensures s.requests[s.submitted[i]].what.key != s.requests[s.submitted[j]].what.key
  {
    ReachableInv(s);
    var a, b := s.submitted[i], s.submitted[j];
    assert a in s.submitted && b in s.submitted;
    assert RowFits(s, a, s.table[a]) && RowFits(s, b, s.table[b]);
  }

  /** A submit request that met an existing row of its key never owns a task: it starts no
      submission and none of its statements takes effect. When it answers at all, it names the
      task of that row exactly when the hashes agree, and reports a conflict otherwise. */
  lemma LatecomerChangesNothing(s: System, t: TaskId, q: RequestId)
    requires Reachable(s) && t in s.table && SubmitAt(s, q) && q != t
    requires s.requests[q].what.key == s.table[t].key
    ensures q !in s.table && q !in s.submitted
    ensures forall c :: c in s.calls && c.task == q ==> c.fate != Hit
    ensures s.requests[q].point.Replied? && s.requests[q].point.reply != SubmitUnavailable ==>
              (s.requests[q].point.reply.Task? <==> s.requests[q].what.hash == s.table[t].hash)
    ensures s.requests[q].point.Replied? && s.requests[q].point.reply.Task? ==> s.requests[q].point.reply.task == t
  {
    ReachableInv(s);
    assert RowFits(s, t, s.table[t]);
    assert RequestFits(s, q);
    assert q !in s.table;
    forall c | c in s.calls && c.task == q ensures c.fate != Hit { assert CallFits(s, c); }
  }

  /** Two answers that name a task for one key name the same task, and their bodies had the
      same hash. */
  lemma ReplaysAgree(s: System, p: RequestId, q: RequestId)
    requires Reachable(s) && SubmitAt(s, p) && SubmitAt(s, q)
    requires s.requests[p].what.key == s.requests[q].what.key
    requires s.requests[p].point.Replied? && s.requests[p].point.reply.Task?
    requires s.requests[q].point.Replied? && s.requests[q].point.reply.Task?
    ensures s.requests[p].point.reply.task == s.requests[q].point.reply.task
    ensures s.requests[p].what.hash == s.requests[q].what.hash
  {
    ReachableInv(s);
    assert RequestFits(s, p) && RequestFits(s, q);
  }

  // Rows

  /** What a stored row says, in every reachable state. */
  lemma RowsAreConsistent(s: System, t: TaskId)
    requires Reachable(s) && t in s.table
    ensures SubmitAt(s, t)
    ensures s.table[t].key == s.requests[t].what.key && s.table[t].hash == s.requests[t].what.hash
    ensures s.table[t].model == s.requests[t].what.model && s.table[t].provider == s.requests[t].what.provider
    ensures s.table[t].state == Pending ==> s.table[t].providerTaskId == ""
    ensures s.table[t].state == Running || s.table[t].state == Succeeded ==>
              t in s.submitted && t in s.accepted && s.table[t].providerTaskId == s.accepted[t]
    ensures s.table[t].state == Failed ==> s.table[t].error.code != 0 && s.table[t].error.reason != ""
    ensures s.table[t].state != Failed ==> s.table[t].error == NO_ERROR
  {
    ReachableInv(s);
    assert RowFits(s, t, s.table[t]);
  }

  /** The table changes only when a statement reaches it. */
  lemma OnlyStatementsChangeRows(s: System, step: Step)
    requires Enabled(s, step) && !step.TakesEffect?
    ensures Next(s, step).table == s.table
  {
    if !step.Tick? { assert ActsAlone(s, Next(s, step), step.r); }
  }

  /** A statement that reaches the table makes a PENDING row appear, or moves one row by one
      of the four moves; identity columns stay, and the provider id is written only on the
      way from PENDING to RUNNING, and is then the accepted one. */
  lemma RowsMoveLegally(s: System, call: nat, t: TaskId)
    requires Reachable(s) && Enabled(s, TakesEffect(call)) && t in Next(s, TakesEffect(call)).table
    ensures var now := Next(s, TakesEffect(call)).table[t];
      if t !in s.table then now.state == Pending else
        var before := s.table[t];
        && (now == before || (t == s.calls[call].task && LegalMove(before.state, now.state)))
        && now.key == before.key && now.hash == before.hash && now.model == before.model
        && now.provider == before.provider && now.createdAt == before.createdAt
        && (now.providerTaskId != before.providerTaskId ==>
              before.state == Pending && now.state == Running && t in s.accepted && now.providerTaskId == s.accepted[t])
  {
    ReachableInv(s);
    var c := s.calls[call];
    assert CallFits(s, c);
    if t in s.table { assert RowFits(s, t, s.table[t]); }
    OneStatementMovesLegally(s, call, t);
  }

  lemma OneStatementMovesLegally(s: System, call: nat, t: TaskId)
    requires UniqueKeys(s.table) && call < |s.calls| && CallFits(s, s.calls[call])
    requires t in s.table ==> RowFits(s, t, s.table[t])
    requires t in TakeEffect(s, call).table
    ensures var now := TakeEffect(s, call).table[t];
      if t !in s.table then now.state == Pending else
        var before := s.table[t];
        && (now == before || (t == s.calls[call].task && LegalMove(before.state, now.state)))
        && now.key == before.key && now.hash == before.hash && now.model == before.model
        && now.provider == before.provider && now.createdAt == before.createdAt
        && (now.providerTaskId != before.providerTaskId ==>
              before.state == Pending && now.state == Running && t in s.accepted && now.providerTaskId == s.accepted[t])
  {
  }

  /** A RUNNING row has a blank provider id exactly when the provider returned one, so with
      providers that return non-blank ids no Get ever meets a running task without id. */
  lemma RunningRowHasId(s: System, t: TaskId)
    requires Reachable(s) && t in s.table && s.table[t].state == Running
    ensures t in s.accepted && (Blank(s.table[t].providerTaskId) <==> Blank(s.accepted[t]))
  {
    ReachableInv(s);
    assert RowFits(s, t, s.table[t]);
  }

  lemma RunningWithoutIdIsUnreachable(s: System, r: RequestId, poll: Poll)
    requires Reachable(s) && Enabled(s, Decide(r, poll)) && s.requests[r].seen.row.state == Running
    requires forall t :: t in s.accepted ==> !Blank(s.accepted[t])
    ensures !Blank(s.requests[r].seen.row.providerTaskId)
    ensures OnDecide(s, r, s.requests[r].seen.row, poll).requests[r].seen.Settling? ==>
            poll.JobFailed? || poll.JobSucceeded?
  {
    ReachableInv(s);
    assert RequestFits(s, r);
  }

  /** A public caller is shown the state of its own tasks only. */
  lemma PublicCallerSeesOwnTasks(s: System, r: RequestId, caller: string)
    requires Reachable(s) && GetAt(s, r) && s.requests[r].publicCaller == Some(caller)
    requires TellsOf(s, r, s.requests[r].task)
    ensures s.requests[r].task in s.table && s.table[s.requests[r].task].key.caller == caller
  {
    ReachableInv(s);
    assert RequestFits(s, r);
  }

  // Monotone observations

  /** Request `q`, which arrived after task `t` had reached stage `n`, knows nothing older. */
  ghost predicate KnowsAtLeast(s: System, q: RequestId, t: TaskId, n: nat) {
    && t in s.table && n <= s.table[t].state.Stage()
    && q != t
    && (q in s.requests ==>
         match s.requests[q]
         case Submit(_, _, _, point) =>
           point.Replied? && point.reply.Task? && point.reply.task == t ==> n <= point.reply.state.Stage()
         case Get(u, _, _, seen) => u == t ==>
           match seen
           case Asked => true
           case Holding(row) => n <= row.state.Stage()
           case Settling(_, verdict) => n <= verdict.Stage()
           case Told(Reported(state)) => n <= state.Stage()
           case Told(_) => true)
  }

  predicate ActsIn(step: Step, q: RequestId) {
    !step.Tick? && !step.TakesEffect? && step.r == q
  }

  lemma OthersAreUntouched(s: System, step: Step, q: RequestId)
    requires Enabled(s, step) && !ActsIn(step, q)
    ensures q in Next(s, step).requests <==> q in s.requests
    ensures q in s.requests ==> Next(s, step).requests[q] == s.requests[q]
  {
    if !step.Tick? && !step.TakesEffect? { assert ActsAlone(s, Next(s, step), step.r); }
  }

  lemma OwnSubmitStepKeepsKnowledge(s: System, step: Step, q: RequestId, t: TaskId, n: nat)
    requires Enabled(s, step) && ActsIn(step, q) && KnowsAtLeast(s, q, t, n) && SubmitAt(s, q)
    ensures KnowsAtLeast(Next(s, step), q, t, n)
  {
    match step
    case SendInsert(r) =>
    case HearInsert(r, heard) =>
    case LookUp(r, existing, lost) =>
    case StartSubmission(r) =>
    case ProviderAnswers(r, answer) =>
    case HearSave(r, heard) =>
  }

  lemma SettleKeepsKnowledge(s: System, q: RequestId, update: Update, stale: bool, verdict: State, t: TaskId, n: nat)
    requires GetAt(s, q) && KnowsAtLeast(s, q, t, n) && verdict.Terminal()
    ensures KnowsAtLeast(Settle(s, q, update, stale, verdict), q, t, n)
  {
  }

  lemma TellKeepsKnowledge(s: System, q: RequestId, reply: GetReply, t: TaskId, n: nat)
    requires GetAt(s, q) && s.requests[q].seen.Holding? && KnowsAtLeast(s, q, t, n)
    requires reply == GetFailed || reply == Reported(s.requests[q].seen.row.state)
    ensures KnowsAtLeast(Show(s, q, Told(reply)), q, t, n)
  {
  }

  lemma RunningKeepsKnowledge(s: System, q: RequestId, poll: Poll, t: TaskId, n: nat)
    requires GetAt(s, q) && s.requests[q].seen.Holding? && KnowsAtLeast(s, q, t, n) &&
             s.requests[q].seen.row.state == Running
    ensures KnowsAtLeast(OnRunning(s, q, s.requests[q].seen.row, poll), q, t, n)
  {
    var row := s.requests[q].seen.row;
    var asked := Ask(s, q, row, poll);
    if Blank(row.providerTaskId) {
      SettleKeepsKnowledge(s, q, ToFailed(Running, MissingId("running without provider task id")), false, Failed, t, n);
    } else {
      match poll {
        case PollError => TellKeepsKnowledge(asked, q, GetFailed, t, n);
        case StillRunning => TellKeepsKnowledge(asked, q, Reported(Running), t, n);
        case JobFailed(fault) => SettleKeepsKnowledge(asked, q, ToFailed(Running, Normalize(fault)), false, Failed, t,
            n);
        case JobSucceeded => SettleKeepsKnowledge(asked, q, ToSucceeded, false, Succeeded, t, n);
      }
    }
  }

  lemma DecideKeepsKnowledge(s: System, q: RequestId, poll: Poll, t: TaskId, n: nat)
    requires GetAt(s, q) && s.requests[q].seen.Holding? && KnowsAtLeast(s, q, t, n)
    ensures KnowsAtLeast(OnDecide(s, q, s.requests[q].seen.row, poll), q, t, n)
  {
    var row := s.requests[q].seen.row;
    TellKeepsKnowledge(s, q, Reported(row.state), t, n);
    if row.state == Pending {
      var stale := ToFailed(Pending, MissingId("stale pending without provider task id"));
      SettleKeepsKnowledge(s, q, stale, true, Failed, t, n);
    } else if row.state == Running {
      RunningKeepsKnowledge(s, q, poll, t, n);
    }
  }

  lemma OwnGetStepKeepsKnowledge(s: System, step: Step, q: RequestId, t: TaskId, n: nat)
    requires Enabled(s, step) && ActsIn(step, q) && KnowsAtLeast(s, q, t, n) && GetAt(s, q)
    ensures KnowsAtLeast(Next(s, step), q, t, n)
  {
    if step.Decide? { DecideKeepsKnowledge(s, q, step.poll, t, n); }
  }

  lemma StepKeepsKnowledge(s: System, step: Step, q: RequestId, t: TaskId, n: nat)
    requires Enabled(s, step) && Grows(s, Next(s, step)) && KnowsAtLeast(s, q, t, n)
    ensures KnowsAtLeast(Next(s, step), q, t, n)
  {
    if !ActsIn(step, q) {
      OthersAreUntouched(s, step, q);
    } else if SubmitAt(s, q) {
      OwnSubmitStepKeepsKnowledge(s, step, q, t, n);
    } else if GetAt(s, q) {
      OwnGetStepKeepsKnowledge(s, step, q, t, n);
    }
  }

  lemma {:induction false} RunKeepsKnowledge(s: System, steps: seq<Step>, q: RequestId, t: TaskId, n: nat)
    requires Inv(s) && CanRun(s, steps) && KnowsAtLeast(s, q, t, n)
    ensures KnowsAtLeast(Run(s, steps), q, t, n)
    decreases |steps|
  {
    if steps != [] {
      StepKeepsInv(s, steps[0]);
      StepKeepsKnowledge(s, steps[0], q, t, n);
      RunKeepsKnowledge(Next(s, steps[0]), steps[1..], q, t, n);
    }
  }

  /** If one answer about a task was given before another request arrived, that request never
      reports an earlier stage, whichever pods and whichever calls they are. */
  lemma ObservationsAreMonotone(s: System, steps: seq<Step>, p: RequestId, q: RequestId, t: TaskId)
    requires Reachable(s) && CanRun(s, steps)
    requires TellsOf(s, p, t) && q !in s.requests
    requires TellsOf(Run(s, steps), q, t)
    ensures StateTold(s, p, t).Stage() <= StateTold(Run(s, steps), q, t).Stage()
  {
    ReachableInv(s);
    assert RequestFits(s, p);
    assert RowFits(s, t, s.table[t]);
    RunKeepsKnowledge(s, steps, q, t, StateTold(s, p, t).Stage());
  }
}
