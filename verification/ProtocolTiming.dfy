/** The stale-PENDING collector against live submissions, with pod clocks that disagree. */
module ProtocolTiming {
  import opened GoStrings
  import opened Options
  import opened ProviderErrors
  import opened TaskStore
  import opened GenerationProtocol
  import opened ProtocolInvariant
  import opened ProtocolSafety

  /** Any two pods' clocks differ by at most `skew`. */
  ghost predicate Skewed(s: System, skew: nat) {
    forall p, q :: p in s.requests && q in s.requests ==> s.requests[p].offset - s.requests[q].offset <= skew
  }

  /** The submitter already has the provider's answer. */
  predicate Decided(point: SubmitPoint) {
    point.SavingId? || point.SavingRefusal? || point.GivingUp? || point.Replied?
  }

  /** A submission is under way: it owns its task, and has not finished storing the outcome. */
  predicate Live(s: System, r: RequestId) {
    SubmitAt(s, r) && (s.requests[r].point in {Owner, AtProvider} || s.requests[r].point.SavingId?
      || s.requests[r].point.SavingRefusal? || s.requests[r].point.GivingUp?)
  }

  /** Every live submission is within its time budget: the insert, `SubmitVideo` and the
      persist window have together taken at most `budget` since the insert was sent. */
  ghost predicate InBudget(s: System, budget: nat) {
    forall r :: Live(s, r) ==> s.now - s.requests[r].insertedAt <= budget
  }

  /** A collector's write is sent only after the age limit, less the clock skew. Before the
      submitter has its answer, no other write than the insert and the collector's exists. */
  ghost predicate CallTimed(s: System, skew: nat, c: Call) {
    && c.sentAt <= s.now
    && SubmitAt(s, c.task)
    && (c.stale ==> c.sentAt - s.requests[c.task].insertedAt > STALE_PENDING - skew)
    && (c.update.Insert? || c.stale || Decided(s.requests[c.task].point))
  }

  ghost predicate Disturbed(s: System, t: TaskId) {
    exists c :: c in s.calls && c.task == t && c.stale && c.fate == Hit
  }

  /** A row leaves PENDING only after its submitter got an answer, or through the collector. */
  ghost predicate RowTimed(s: System, t: TaskId)
    requires t in s.table && SubmitAt(s, t)
  {
    s.table[t].state != Pending ==> Decided(s.requests[t].point) || Disturbed(s, t)
  }

  ghost predicate CallsTimed(s: System, skew: nat) {
    forall c :: c in s.calls ==> CallTimed(s, skew, c)
  }

  ghost predicate RowsTimed(s: System) {
    forall t :: t in s.table ==> SubmitAt(s, t) && RowTimed(s, t)
  }

  ghost predicate Timed(s: System, skew: nat) {
    CallsTimed(s, skew) && RowsTimed(s)
  }

  lemma DecidedStays(s: System, step: Step, r: RequestId)
    requires Enabled(s, step) && SubmitAt(s, r) && Decided(s.requests[r].point) && Grows(s, Next(s, step))
    ensures SubmitAt(Next(s, step), r) && Decided(Next(s, step).requests[r].point)
  {
    if !ActsIn(step, r) { OthersAreUntouched(s, step, r); }
  }

  ghost predicate DecisionsStay(s: System, s': System) {
    forall r :: SubmitAt(s, r) && Decided(s.requests[r].point) ==> SubmitAt(s', r) && Decided(s'.requests[r].point)
  }

  lemma StepKeepsDecisions(s: System, step: Step)
    requires Enabled(s, step) && Grows(s, Next(s, step))
    ensures DecisionsStay(s, Next(s, step))
  {
    forall r | SubmitAt(s, r) && Decided(s.requests[r].point)
      ensures SubmitAt(Next(s, step), r) && Decided(Next(s, step).requests[r].point) { DecidedStays(s, step, r); }
  }

  lemma CallStaysTimed(s: System, s': System, skew: nat, c: Call)
    requires Grows(s, s') && DecisionsStay(s, s') && s.now <= s'.now && CallTimed(s, skew, c) && CallFits(s, c)
    ensures CallTimed(s', skew, c)
  {
  }

  lemma SentBySettle(s: System, r: RequestId, update: Update, stale: bool, verdict: State, skew: nat)
    requires GetAt(s, r) && SubmitAt(s, s.requests[r].task)
    requires if stale then s.now - s.requests[s.requests[r].task].insertedAt > STALE_PENDING - skew
             else Decided(s.requests[s.requests[r].task].point)
    ensures var s' := Settle(s, r, update, stale, verdict);
      |s'.calls| == |s.calls| + 1 && s'.calls[..|s.calls|] == s.calls && CallTimed(s', skew, s'.calls[|s.calls|])
  {
  }

  /** At most one statement was sent, and it is timed. */
  ghost predicate SendsTimed(s: System, s': System, skew: nat) {
    || s'.calls == s.calls
    || (|s'.calls| == |s.calls| + 1 && s'.calls[..|s.calls|] == s.calls && CallTimed(s', skew, s'.calls[|s.calls|]))
  }

  lemma SentByPending(s: System, r: RequestId, skew: nat)
    requires GetAt(s, r) && s.requests[r].seen.Holding? && Skewed(s, skew) && s.requests[r].seen.row.state == Pending
    requires RowFits(s, s.requests[r].task, s.requests[r].seen.row)
    ensures SendsTimed(s, OnPending(s, r, s.requests[r].seen.row), skew)
  {
    if IsStale(s.requests[r].seen.row, s.now + s.requests[r].offset) {
      SentBySettle(s, r, ToFailed(Pending, MissingId("stale pending without provider task id")), true, Failed, skew);
    }
  }

  lemma SentByRunning(s: System, r: RequestId, poll: Poll, skew: nat)
    requires GetAt(s, r) && s.requests[r].seen.Holding? && SubmitAt(s, s.requests[r].task)
    requires Decided(s.requests[s.requests[r].task].point)
    ensures SendsTimed(s, OnRunning(s, r, s.requests[r].seen.row, poll), skew)
  {
    var row := s.requests[r].seen.row;
    if Blank(row.providerTaskId) {
      SentBySettle(s, r, ToFailed(Running, MissingId("running without provider task id")), false, Failed, skew);
    } else {
      var asked := Ask(s, r, row, poll);
      if poll.JobSucceeded? { SentBySettle(asked, r, ToSucceeded, false, Succeeded, skew); }
      if poll.JobFailed? { SentBySettle(asked, r, ToFailed(Running, Normalize(poll.fault)), false, Failed, skew); }
    }
  }

  lemma SentByDecide(s: System, r: RequestId, poll: Poll, skew: nat)
    requires GetAt(s, r) && s.requests[r].seen.Holding? && Skewed(s, skew)
    requires RowFits(s, s.requests[r].task, s.requests[r].seen.row)
    requires s.requests[r].task in s.accepted ==> Decided(s.requests[s.requests[r].task].point)
    ensures SendsTimed(s, OnDecide(s, r, s.requests[r].seen.row, poll), skew)
  {
    match s.requests[r].seen.row.state {
      case Pending => SentByPending(s, r, skew);
      case Running => SentByRunning(s, r, poll, skew);
      case _ =>
    }
  }

  lemma SentBySendInsert(s: System, r: RequestId, skew: nat)
    requires SubmitAt(s, r)
    ensures SendsTimed(s, OnSendInsert(s, r), skew)
  {
  }

  lemma SentByProviderAnswer(s: System, r: RequestId, answer: ProviderAnswer, skew: nat)
    requires SubmitAt(s, r)
    ensures SendsTimed(s, OnProviderAnswer(s, r, answer), skew)
  {
  }

  lemma SentByHearSave(s: System, r: RequestId, heard: bool, skew: nat)
    requires Enabled(s, HearSave(r, heard))
    ensures SendsTimed(s, OnHearSave(s, r, heard), skew)
  {
  }

  lemma DecideSendsTimed(s: System, r: RequestId, poll: Poll, skew: nat)
    requires Inv(s) && GetAt(s, r) && s.requests[r].seen.Holding? && Skewed(s, skew)
    ensures SendsTimed(s, OnDecide(s, r, s.requests[r].seen.row, poll), skew)
  {
    assert RequestFits(s, r);
    var t := s.requests[r].task;
    if t in s.accepted { assert RequestFits(s, t); }
    SentByDecide(s, r, poll, skew);
  }

  lemma OthersSendNothing(s: System, step: Step)
    requires Enabled(s, step) && !step.TakesEffect? && !step.Decide? && !step.SendInsert? && !step.ProviderAnswers? &&
             !step.HearSave?
    ensures Next(s, step).calls == s.calls
  {
  }

  /** Which statements a step may send. */
  lemma SentCallIsTimed(s: System, step: Step, skew: nat)
    requires Inv(s) && Enabled(s, step) && Skewed(s, skew) && !step.TakesEffect?
    ensures SendsTimed(s, Next(s, step), skew)
  {
    match step
    case Decide(r, poll) => DecideSendsTimed(s, r, poll, skew);
    case SendInsert(r) => SentBySendInsert(s, r, skew);
    case ProviderAnswers(r, answer) => SentByProviderAnswer(s, r, answer, skew);
    case HearSave(r, heard) => SentByHearSave(s, r, heard, skew);
    case _ => OthersSendNothing(s, step);
  }

  /** A step that is not a statement's effect leaves the old statements as they were. */
  lemma OldCallsStay(s: System, step: Step)
    requires Enabled(s, step) && !step.TakesEffect?
    ensures |s.calls| <= |Next(s, step).calls| <= |s.calls| + 1 && Next(s, step).calls[..|s.calls|] == s.calls
  {
    if !step.Tick? { assert ActsAlone(s, Next(s, step), step.r); }
  }

  lemma EffectKeepsCallsTimed(s: System, i: nat, skew: nat)
    requires i < |s.calls| && CallsTimed(s, skew)
    ensures CallsTimed(TakeEffect(s, i), skew)
  {
    var s' := TakeEffect(s, i);
    forall c | c in s'.calls ensures CallTimed(s', skew, c) {
      if c != s'.calls[i] { assert c in s.calls; } else { assert CallTimed(s, skew, s.calls[i]); }
    }
  }

  lemma DisturbedStays(s: System, i: nat, t: TaskId)
    requires i < |s.calls| && s.calls[i].fate == InFlight && Disturbed(s, t)
    ensures Disturbed(TakeEffect(s, i), t)
  {
    var c :| c in s.calls && c.task == t && c.stale && c.fate == Hit;
    var j :| 0 <= j < |s.calls| && s.calls[j] == c;
    assert TakeEffect(s, i).calls[j] == c;
  }

  lemma EffectKeepsRowsTimed(s: System, i: nat, skew: nat)
    requires i < |s.calls| && s.calls[i].fate == InFlight
    requires CallFits(s, s.calls[i]) && CallTimed(s, skew, s.calls[i]) && RowsTimed(s)
    ensures RowsTimed(TakeEffect(s, i))
  {
    var s' := TakeEffect(s, i);
    var call := s.calls[i];
    forall t | t in s'.table ensures SubmitAt(s', t) && RowTimed(s', t) {
      if t in s.table && Disturbed(s, t) { DisturbedStays(s, i, t); }
      if t == call.task && call.stale && s'.calls[i].fate == Hit { assert s'.calls[i] in s'.calls; }
    }
  }

  lemma EffectKeepsTimed(s: System, i: nat, skew: nat)
    requires Inv(s) && Timed(s, skew) && Enabled(s, TakesEffect(i))
    ensures Timed(Next(s, TakesEffect(i)), skew)
  {
    EffectKeepsCallsTimed(s, i, skew);
    EffectKeepsRowsTimed(s, i, skew);
  }

  lemma QuietStepKeepsCallsTimed(s: System, s': System, skew: nat)
    requires CallsTimed(s, skew) && (forall c :: c in s.calls ==> CallFits(s, c))
    requires Grows(s, s') && DecisionsStay(s, s') && s.now <= s'.now
    requires |s.calls| <= |s'.calls| <= |s.calls| + 1 && s'.calls[..|s.calls|] == s.calls
    requires |s'.calls| > |s.calls| ==> CallTimed(s', skew, s'.calls[|s.calls|])
    ensures CallsTimed(s', skew)
  {
    forall c | c in s'.calls ensures CallTimed(s', skew, c) {
      if c in s.calls { CallStaysTimed(s, s', skew, c); } else { assert c == s'.calls[|s.calls|]; }
    }
  }

  lemma QuietStepKeepsRowsTimed(s: System, s': System)
    requires RowsTimed(s) && Grows(s, s') && DecisionsStay(s, s') && s'.table == s.table
    requires |s.calls| <= |s'.calls| && s'.calls[..|s.calls|] == s.calls
    ensures RowsTimed(s')
  {
    forall t | t in s'.table ensures SubmitAt(s', t) && RowTimed(s', t) {
      if Disturbed(s, t) {
        var c :| c in s.calls && c.task == t && c.stale && c.fate == Hit;
        assert c in s'.calls[..|s.calls|];
      }
    }
  }

  lemma StepKeepsTimed(s: System, step: Step, skew: nat)
    requires Inv(s) && Timed(s, skew) && Skewed(s, skew) && Enabled(s, step)
    ensures Timed(Next(s, step), skew)
  {
    if step.TakesEffect? {
      EffectKeepsTimed(s, step.call, skew);
    } else {
      StepKeepsInv(s, step);
      StepKeepsDecisions(s, step);
      OldCallsStay(s, step);
      OnlyStatementsChangeRows(s, step);
      SentCallIsTimed(s, step, skew);
      QuietStepKeepsCallsTimed(s, Next(s, step), skew);
      QuietStepKeepsRowsTimed(s, Next(s, step));
    }
  }

  lemma SkewedBefore(s: System, s': System, skew: nat)
    requires Grows(s, s') && Skewed(s', skew)
    ensures Skewed(s, skew)
  {
  }

  lemma {:induction false} RunKeepsTimed(s: System, steps: seq<Step>, skew: nat)
    requires Inv(s) && Timed(s, skew) && CanRun(s, steps) && Skewed(Run(s, steps), skew)
    ensures Timed(Run(s, steps), skew)
    decreases |steps|
  {
    if steps != [] {
      RunGrows(s, steps);
      SkewedBefore(s, Run(s, steps), skew);
      StepKeepsInv(s, steps[0]);
      StepKeepsTimed(s, steps[0], skew);
      RunKeepsTimed(Next(s, steps[0]), steps[1..], skew);
    }
  }

  lemma ReachableTimed(s: System, skew: nat)
    requires Reachable(s) && Skewed(s, skew)
    ensures Inv(s) && Timed(s, skew)
  {
    ReachableInv(s);
    var steps :| CanRun(START, steps) && Run(START, steps) == s;
    RunKeepsTimed(START, steps, skew);
  }

  // The collector and live submissions

  /** While a submission waits for the provider, its row is PENDING. */
  ghost predicate LiveIsPending(s: System) {
    forall r :: Live(s, r) && !Decided(s.requests[r].point) ==> r in s.table && s.table[r].state == Pending
  }

  /** No write of the collector exists for a live submission, not even one still in flight. */
  ghost predicate CollectorStaysAway(s: System) {
    forall c :: c in s.calls && c.stale ==> !Live(s, c.task)
  }

  ghost predicate SparesLive(budget: nat, skew: nat) {
    forall s :: Reachable(s) && Skewed(s, skew) && InBudget(s, budget) ==> CollectorStaysAway(s) && LiveIsPending(s)
  }

  lemma LiveIsSpared(s: System, budget: nat, skew: nat)
    requires Reachable(s) && Skewed(s, skew) && InBudget(s, budget)
    requires budget + skew <= STALE_PENDING
    ensures CollectorStaysAway(s) && LiveIsPending(s)
  {
    ReachableTimed(s, skew);
    forall c | c in s.calls && c.stale ensures !Live(s, c.task) { assert CallTimed(s, skew, c); }
    forall r | Live(s, r) && !Decided(s.requests[r].point) ensures r in s.table && s.table[r].state == Pending {
      assert RequestFits(s, r);
    }
  }

  // Steps of the two runs below: submit request 1 owns its task and waits for its provider.
  const KEY := Key("caller", "request")
  const WHAT := Submission(KEY, "hash", "model", "provider")

  lemma OneCreated() returns (s: System)
    ensures Reachable(s)
    ensures s == System(0, map[1 := PendingRow(WHAT, 0)], [Call(1, Insert(PendingRow(WHAT, 0)), Hit, 0, false, 1)],
                        map[1 := Submit(WHAT, 0, 0, Inserting(0))], [], map[], map[], map[])
  {
    s := START;
    assert CanRun(START, []) && Run(START, []) == START;
    ReachableNext(s, SubmitArrives(1, WHAT, 0));
    s := Next(s, SubmitArrives(1, WHAT, 0));
    ReachableNext(s, SendInsert(1));
    s := Next(s, SendInsert(1));
    ReachableNext(s, TakesEffect(0));
    s := Next(s, TakesEffect(0));
  }

  lemma OneWaits() returns (s: System)
    ensures Reachable(s)
    ensures s == System(0, map[1 := PendingRow(WHAT, 0)], [Call(1, Insert(PendingRow(WHAT, 0)), Hit, 0, false, 1)],
                        map[1 := Submit(WHAT, 0, 0, AtProvider)], [1], map[], map[], map[])
  {
    s := OneCreated();
    ReachableNext(s, HearInsert(1, true));
    s := Next(s, HearInsert(1, true));
    ReachableNext(s, StartSubmission(1));
    s := Next(s, StartSubmission(1));
  }

  /** Its task, read by a pod whose clock is `skew` ahead, `wait` milliseconds later. */
  lemma OneIsRead(wait: nat, skew: nat) returns (s: System)
    ensures Reachable(s)
    ensures s == System(wait, map[1 := PendingRow(WHAT, 0)], [Call(1, Insert(PendingRow(WHAT, 0)), Hit, 0, false, 1)],
                        map[1 := Submit(WHAT, 0, 0, AtProvider),
                            2 := Get(1, None, skew, Holding(PendingRow(WHAT, 0)))], [1], map[], map[], map[])
  {
    s := OneWaits();
    ReachableNext(s, Tick(wait));
    s := Next(s, Tick(wait));
    ReachableNext(s, GetArrives(2, 1, None, skew));
    s := Next(s, GetArrives(2, 1, None, skew));
    ReachableNext(s, Read(2, false));
    s := Next(s, Read(2, false));
  }

  /** A run in which the collector fails a task whose submission is still waiting. */
  lemma CollectorStrikes(wait: nat, skew: nat) returns (s: System)
    requires wait + skew > STALE_PENDING
    ensures Reachable(s) && Skewed(s, skew) && InBudget(s, wait) && !LiveIsPending(s)
  {
    s := OneIsRead(wait, skew);
    ReachableNext(s, Decide(2, PollError));
    s := Next(s, Decide(2, PollError));
    assert s.calls[1].update.ToFailed? && s.calls[1].update.expected == Pending && s.calls[1].task == 1;
    ReachableNext(s, TakesEffect(1));
    s := Next(s, TakesEffect(1));
    assert Live(s, 1) && s.table[1].state == Failed;
  }

  /** The collector never moves a live submission from PENDING, in any run, if and only if
      the submission budget and the clock skew together fit in the twelve minutes. */
  lemma CollectorIsSafeExactlyWithin(budget: nat, skew: nat)
    ensures SparesLive(budget, skew) <==> budget + skew <= STALE_PENDING
  {
    if budget + skew <= STALE_PENDING {
      forall s | Reachable(s) && Skewed(s, skew) && InBudget(s, budget)
        ensures CollectorStaysAway(s) && LiveIsPending(s) { LiveIsSpared(s, budget, skew); }
    } else {
      var s := CollectorStrikes(budget, skew);
    }
  }

  /** The constants of the source leave two minutes, less the persist window, for insert
      latency and clock skew beside a provider's ten-minute submit window. */
  lemma TwelveMinutesCoverTheLongestSubmit(insertLatency: nat, skew: nat)
    requires insertLatency + PERSIST_TIMEOUT + skew <= STALE_PENDING_SAFETY_MARGIN
    ensures SparesLive(insertLatency + GEMINI_FILES_SUBMIT_WINDOW + PERSIST_TIMEOUT, skew)
  {
    CollectorIsSafeExactlyWithin(insertLatency + GEMINI_FILES_SUBMIT_WINDOW + PERSIST_TIMEOUT, skew);
  }

  // Abandoned tasks

  /** A Get that holds a PENDING row reports PENDING exactly when the row is at most twelve
      minutes old by its own clock; otherwise it sends a write that fails the task. */
  lemma PendingIsReportedExactlyWhileYoung(s: System, r: RequestId, poll: Poll)
    requires Reachable(s) && GetAt(s, r) && s.requests[r].seen.Holding? && s.requests[r].seen.row.state == Pending
    ensures SubmitAt(s, s.requests[r].task)
    ensures var me, owner := s.requests[r], s.requests[s.requests[r].task];
            var s' := OnDecide(s, r, me.seen.row, poll);
            var young := (s.now + me.offset) - (owner.insertedAt + owner.offset) <= STALE_PENDING;
      if young then s'.requests[r].seen == Told(Reported(Pending)) && s'.calls == s.calls
      else s'.requests[r].seen == Settling(|s.calls|, Failed) &&
           s'.calls[|s.calls|].task == me.task && s'.calls[|s.calls|].update.ToFailed? &&
               s'.calls[|s.calls|].update.expected == Pending
  {
    ReachableInv(s);
    assert RequestFits(s, r);
  }

  /** When such a Get hears that its write succeeded, it reports FAILED and the row is FAILED;
      when it hears anything else it reports an error, never PENDING. */
  lemma SettledGetTellsTheTruth(s: System, r: RequestId, heard: bool)
    requires Reachable(s) && Enabled(s, HearSettle(r, heard)) && s.requests[r].seen.verdict == Failed
    ensures var s' := OnHearSettle(s, r, heard);
      if heard && s.calls[s.requests[r].seen.call].fate == Hit
      then s'.requests[r].seen == Told(Reported(Failed)) && s.requests[r].task in s'.table &&
          s'.table[s.requests[r].task].state == Failed
      else s'.requests[r].seen == Told(GetFailed)
  {
    ReachableInv(s);
    assert RequestFits(s, r);
    assert CallFits(s, s.calls[s.requests[r].seen.call]);
  }

  /** Task `t` is past the limit on every clock, and `q` has not reported it as PENDING. */
  ghost predicate PastPending(s: System, q: RequestId, t: TaskId, skew: nat) {
    && SubmitAt(s, t) && s.requests[t].point != Arrived
    && s.now - s.requests[t].insertedAt > STALE_PENDING + skew
    && (GetAt(s, q) && s.requests[q].task == t ==> s.requests[q].seen != Told(Reported(Pending)))
    && !SubmitAt(s, q)
  }

  lemma PastPendingSettle(s: System, q: RequestId, update: Update, stale: bool, verdict: State, t: TaskId, skew: nat)
    requires GetAt(s, q) && PastPending(s, q, t, skew)
    ensures PastPending(Settle(s, q, update, stale, verdict), q, t, skew)
  {
  }

  lemma PastPendingTell(s: System, q: RequestId, reply: GetReply, t: TaskId, skew: nat)
    requires GetAt(s, q) && PastPending(s, q, t, skew) && (reply == Reported(Pending) ==> s.requests[q].task != t)
    ensures PastPending(Show(s, q, Told(reply)), q, t, skew)
  {
  }

  lemma PastPendingOnPending(s: System, q: RequestId, t: TaskId, skew: nat)
    requires GetAt(s, q) && s.requests[q].seen.Holding? && PastPending(s, q, t, skew)
    requires RowFits(s, s.requests[q].task, s.requests[q].seen.row) && s.requests[q].seen.row.state == Pending
    requires s.requests[t].offset - s.requests[q].offset <= skew
    ensures PastPending(OnPending(s, q, s.requests[q].seen.row), q, t, skew)
  {
    var row := s.requests[q].seen.row;
    PastPendingSettle(s, q, ToFailed(Pending, MissingId("stale pending without provider task id")), true, Failed, t,
        skew);
    if s.requests[q].task == t {
      assert IsStale(row, s.now + s.requests[q].offset);
    } else {
      PastPendingTell(s, q, Reported(Pending), t, skew);
    }
  }

  lemma PastPendingOnRunning(s: System, q: RequestId, row: Row, poll: Poll, t: TaskId, skew: nat)
    requires GetAt(s, q) && PastPending(s, q, t, skew)
    ensures PastPending(OnRunning(s, q, row, poll), q, t, skew)
  {
    var asked := Ask(s, q, row, poll);
    if Blank(row.providerTaskId) {
      PastPendingSettle(s, q, ToFailed(Running, MissingId("running without provider task id")), false, Failed, t, skew);
    } else {
      match poll {
        case PollError => PastPendingTell(asked, q, GetFailed, t, skew);
        case StillRunning => PastPendingTell(asked, q, Reported(Running), t, skew);
        case JobFailed(fault) => PastPendingSettle(asked, q, ToFailed(Running, Normalize(fault)), false, Failed, t,
            skew);
        case JobSucceeded => PastPendingSettle(asked, q, ToSucceeded, false, Succeeded, t, skew);
      }
    }
  }

  lemma PastPendingDecide(s: System, q: RequestId, poll: Poll, t: TaskId, skew: nat)
    requires GetAt(s, q) && s.requests[q].seen.Holding? && PastPending(s, q, t, skew)
    requires RowFits(s, s.requests[q].task, s.requests[q].seen.row)
    requires s.requests[t].offset - s.requests[q].offset <= skew
    ensures PastPending(OnDecide(s, q, s.requests[q].seen.row, poll), q, t, skew)
  {
    var row := s.requests[q].seen.row;
    match row.state {
      case Pending => PastPendingOnPending(s, q, t, skew);
      case Running => PastPendingOnRunning(s, q, row, poll, t, skew);
      case _ => PastPendingTell(s, q, Reported(row.state), t, skew);
    }
  }

  lemma PastPendingHearSettle(s: System, q: RequestId, heard: bool, t: TaskId, skew: nat)
    requires Enabled(s, HearSettle(q, heard)) && RequestFits(s, q) && PastPending(s, q, t, skew)
    ensures PastPending(OnHearSettle(s, q, heard), q, t, skew)
  {
  }

  lemma PastPendingRead(s: System, q: RequestId, lost: bool, t: TaskId, skew: nat)
    requires GetAt(s, q) && PastPending(s, q, t, skew)
    ensures PastPending(OnRead(s, q, lost), q, t, skew)
  {
  }

  lemma PastPendingElsewhere(s: System, s': System, q: RequestId, t: TaskId, skew: nat)
    requires PastPending(s, q, t, skew) && Grows(s, s') && s.now <= s'.now
    requires (q in s'.requests <==> q in s.requests) && (q in s.requests ==> s'.requests[q] == s.requests[q])
    ensures PastPending(s', q, t, skew)
  {
  }

  lemma StepKeepsPastPending(s: System, step: Step, q: RequestId, t: TaskId, skew: nat)
    requires Inv(s) && Enabled(s, step) && Skewed(s, skew) && PastPending(s, q, t, skew) && Grows(s, Next(s, step))
    requires !SubmitAt(Next(s, step), q)
    ensures PastPending(Next(s, step), q, t, skew)
  {
    if !ActsIn(step, q) {
      OthersAreUntouched(s, step, q);
      PastPendingElsewhere(s, Next(s, step), q, t, skew);
    } else if GetAt(s, q) {
      assert RequestFits(s, q);
      if step.Decide? { PastPendingDecide(s, q, step.poll, t, skew); }
      else if step.HearSettle? { PastPendingHearSettle(s, q, step.heard, t, skew); }
      else { PastPendingRead(s, q, step.lost, t, skew); }
    }
  }

  /** A request that is a Get in the end never was a Submit. */
  lemma StaysNoSubmit(s: System, s': System, q: RequestId)
    requires Grows(s, s') && GetAt(s', q)
    ensures !SubmitAt(s, q)
  {
  }

  lemma {:induction false} RunKeepsPastPending(s: System, steps: seq<Step>, q: RequestId, t: TaskId, skew: nat)
    requires Inv(s) && CanRun(s, steps) && Skewed(Run(s, steps), skew) && PastPending(s, q, t, skew)
    requires GetAt(Run(s, steps), q)
    ensures PastPending(Run(s, steps), q, t, skew)
    decreases |steps|
  {
    if steps != [] {
      RunGrows(s, steps);
      SkewedBefore(s, Run(s, steps), skew);
      StepKeepsInv(s, steps[0]);
      RunGrows(Next(s, steps[0]), steps[1..]);
      StaysNoSubmit(Next(s, steps[0]), Run(s, steps), q);
      StepKeepsPastPending(s, steps[0], q, t, skew);
      RunKeepsPastPending(Next(s, steps[0]), steps[1..], q, t, skew);
    }
  }

  /** No task is polled as PENDING forever: a Get that arrives when the task is older than
      twelve minutes plus the clock skew never reports PENDING. */
  lemma OldTaskIsNeverPolledAsPending(s: System, steps: seq<Step>, q: RequestId, t: TaskId, skew: nat)
    requires Reachable(s) && CanRun(s, steps) && Skewed(Run(s, steps), skew)
    requires t in s.table && SubmitAt(s, t) && s.now - s.requests[t].insertedAt > STALE_PENDING + skew
    requires q !in s.requests && GetAt(Run(s, steps), q) && TellsOf(Run(s, steps), q, t)
    ensures StateTold(Run(s, steps), q, t) != Pending
  {
    ReachableInv(s);
    assert RowFits(s, t, s.table[t]);
    RunKeepsPastPending(s, steps, q, t, skew);
  }

  function Waiting(age: nat): System {
    System(age, map[1 := PendingRow(WHAT, 0)], [Call(1, Insert(PendingRow(WHAT, 0)), Hit, 0, false, 1)],
           map[1 := Submit(WHAT, 0, 0, AtProvider)], [1], map[], map[], map[])
  }

  lemma OneWaitsFor(age: nat)
    ensures Reachable(Waiting(age))
  {
    var s := OneWaits();
    ReachableNext(s, Tick(age));
  }

  lemma Then(s: System, steps: seq<Step>, step: Step) returns (longer: seq<Step>)
    requires CanRun(s, steps) && Enabled(Run(s, steps), step)
    ensures CanRun(s, longer) && Run(s, longer) == Next(Run(s, steps), step)
  {
    longer := steps + [step];
    RunAppend(s, steps, step);
  }

  /** A second request with the same key sends its insert, which meets the first one's row. */
  lemma Repeats(age: nat) returns (steps: seq<Step>)
    ensures var s := Waiting(age); CanRun(s, steps)
    ensures var s := Waiting(age); var call := Call(2, Insert(PendingRow(WHAT, age)), Miss, age, false, 2);
            Run(s, steps) == s.(calls := s.calls + [call],
                requests := s.requests[2 := Submit(WHAT, 0, age, Inserting(1))])
  {
    var s := Waiting(age);
    steps := Then(s, [], SubmitArrives(2, WHAT, 0));
    steps := Then(s, steps, SendInsert(2));
    assert s.table[1].key == KEY;
    steps := Then(s, steps, TakesEffect(1));
  }

  /** It looks the row up and answers with its state. */
  lemma ReplayReportsPendingAtAnyAge(age: nat) returns (steps: seq<Step>)
    ensures var s := Waiting(age);
            CanRun(s, steps) && Skewed(Run(s, steps), 0) && SubmitAt(Run(s, steps), 2) &&
            TellsOf(Run(s, steps), 2, 1) && StateTold(Run(s, steps), 2, 1) == Pending
  {
    var s := Waiting(age);
    steps := Repeats(age);
    steps := Then(s, steps, HearInsert(2, true));
    assert s.table[1].key == KEY;
    steps := Then(s, steps, LookUp(2, Some(1), false));
  }

  /** A Get on a pod whose clock is `skew` behind. */
  lemma GetReportsPendingWhileYoung(age: nat, skew: nat) returns (steps: seq<Step>)
    requires age <= STALE_PENDING + skew
    ensures var s := Waiting(age);
            CanRun(s, steps) && Skewed(Run(s, steps), skew) && GetAt(Run(s, steps), 2) &&
            TellsOf(Run(s, steps), 2, 1) && StateTold(Run(s, steps), 2, 1) == Pending
  {
    var s := Waiting(age);
    steps := Then(s, [], GetArrives(2, 1, None, -(skew as int)));
    steps := Then(s, steps, Read(2, false));
    steps := Then(s, steps, Decide(2, PollError));
  }

  datatype Kind = ByGet | BySubmit

  /** A request `q` of this kind arrives when task `t` is `age` old, and reports PENDING. */
  ghost predicate ToldPending(kind: Kind, age: nat, skew: nat, s: System, steps: seq<Step>, q: RequestId, t: TaskId) {
    && Reachable(s) && t in s.table && SubmitAt(s, t) && s.now - s.requests[t].insertedAt == age
    && q !in s.requests && CanRun(s, steps) && Skewed(Run(s, steps), skew)
    && TellsOf(Run(s, steps), q, t) && StateTold(Run(s, steps), q, t) == Pending
    && (if kind == ByGet then GetAt(Run(s, steps), q) else SubmitAt(Run(s, steps), q))
  }

  /** Who can be told that a task of this age is PENDING: a repeated Submit at any age, and a Get
      exactly up to twelve minutes plus the clock skew. */
  lemma PendingCanBeToldExactlyWhen(kind: Kind, age: nat, skew: nat)
    ensures (exists s, steps, q, t :: ToldPending(kind, age, skew, s, steps, q, t)) <==>
            kind == BySubmit || age <= STALE_PENDING + skew
  {
    if s, steps, q, t :| ToldPending(kind, age, skew, s, steps, q, t) {
      if kind == ByGet && age > STALE_PENDING + skew { OldTaskIsNeverPolledAsPending(s, steps, q, t, skew); }
    }
    if kind == BySubmit || age <= STALE_PENDING + skew {
      OneWaitsFor(age);
      var steps;
      if kind == BySubmit {
        steps := ReplayReportsPendingAtAnyAge(age);
      } else {
        steps := GetReportsPendingWhileYoung(age, skew);
      }
      assert ToldPending(kind, age, skew, Waiting(age), steps, 2, 1);
    }
  }
}
