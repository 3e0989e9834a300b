/** `SubmitGeneration` and `GetGeneration` (internal/service/modelhub/generation.go) as one
    transition system: any number of requests, on any pods, over one shared table.

    Every database statement is three moments: it is sent, it may take effect at any later
    time or never, and the sender hears its result or an error, whichever really happened.
    A request that crashes simply takes no further step. */
module GenerationProtocol {
  import opened GoStrings
  import opened Options
  import opened ProviderErrors
  import opened TaskStore

  type RequestId = nat

  // Times are milliseconds.
  const PERSIST_TIMEOUT := 5_000
  const GEMINI_FILES_SUBMIT_WINDOW := 600_000
  const STALE_PENDING_SAFETY_MARGIN := 120_000
  const STALE_PENDING := GEMINI_FILES_SUBMIT_WINDOW + STALE_PENDING_SAFETY_MARGIN

  /** A validated and routed submit request. Its fresh task id is its own request number. */
  datatype Submission = Submission(key: Key, hash: string, model: string, provider: string)

  datatype SubmitReply = Task(task: TaskId, state: State) | AlreadyExists | SubmitUnavailable

  datatype GetReply = Reported(state: State) | TaskNotFound | GetFailed

  /** Where a submit request is. `call` is the index of the statement it waits for. */
  datatype SubmitPoint =
    | Arrived
    | Inserting(call: nat)
    | LookingUp
    | Owner
    | AtProvider
    | SavingId(call: nat)
    | SavingRefusal(call: nat)
    | GivingUp(call: nat)
    | Replied(reply: SubmitReply)

  /** Where a get request is. `row` is what it read, `verdict` what it is about to report. */
  datatype GetPoint =
    | Asked
    | Holding(row: Row)
    | Settling(call: nat, verdict: State)
    | Told(reply: GetReply)

  /** `offset` is the wall clock of the request's pod minus true time; `insertedAt` is the
      true time at which the insert was sent. `publicCaller` is the authenticated public
      principal, when there is one. */
  datatype Request =
    | Submit(what: Submission, offset: int, insertedAt: int, point: SubmitPoint)
    | Get(task: TaskId, publicCaller: Option<string>, offset: int, seen: GetPoint)

  datatype Fate = InFlight | Hit | Miss

  /** A statement that was sent. `stale` marks the write of the stale-PENDING collector, `sentAt`
      is the true time of sending and `sender` the request that sent it; the table sees neither. */
  datatype Call = Call(task: TaskId, update: Update, fate: Fate, sentAt: int, stale: bool, sender: RequestId)

  /** A `GetVideo` call: what it asked for, and the answer. */
  datatype Polled = Polled(provider: string, model: string, id: string, answer: Poll)

  /** `submitted` lists the tasks in the order in which their upstream submission was started,
      `accepted` holds the provider id that a submission returned, `refused` the error that
      another one returned, and `polls` the poll that a get request made. */
  datatype System = System(
    now: int,
    table: Table,
    calls: seq<Call>,
    requests: map<RequestId, Request>,
    submitted: seq<TaskId>,
    accepted: map<TaskId, string>,
    refused: map<TaskId, Fault>,
    polls: map<RequestId, Polled>)

  const START := System(0, map[], [], map[], [], map[], map[], map[])

  datatype ProviderAnswer = Accepted(id: string) | Refused(fault: Fault)

  /** One `GetVideo` call. PollError also covers a provider that is not configured. */
  datatype Poll = PollError | StillRunning | JobFailed(fault: Option<Fault>) | JobSucceeded

  /** The steps of the system, each with the environment's choices. */
  datatype Step =
    | Tick(elapsed: nat)
    | SubmitArrives(r: RequestId, what: Submission, offset: int)
    | GetArrives(r: RequestId, task: TaskId, publicCaller: Option<string>, offset: int)
    | TakesEffect(call: nat)
    | SendInsert(r: RequestId)
    | HearInsert(r: RequestId, heard: bool)
    | LookUp(r: RequestId, existing: Option<TaskId>, lost: bool)
    | StartSubmission(r: RequestId)
    | ProviderAnswers(r: RequestId, answer: ProviderAnswer)
    | HearSave(r: RequestId, heard: bool)
    | Read(r: RequestId, lost: bool)
    | Decide(r: RequestId, poll: Poll)
    | HearSettle(r: RequestId, heard: bool)

  /** What the sender of a statement learns; without an answer it is an error. */
  function Heard(call: Call, heard: bool): Outcome {
    if !heard || call.fate == InFlight then Broken else if call.fate == Hit then Done else NotFound
  }

  predicate SubmitAt(s: System, r: RequestId) {
    r in s.requests && s.requests[r].Submit?
  }

  predicate GetAt(s: System, r: RequestId) {
    r in s.requests && s.requests[r].Get?
  }

  /** A sender hears a result only once the statement has taken effect. */
  predicate Audible(s: System, call: nat, heard: bool) {
    call < |s.calls| && (heard ==> s.calls[call].fate != InFlight)
  }

  ghost predicate Enabled(s: System, step: Step) {
    match step
    case Tick(_) => true
    case SubmitArrives(r, _, _) => r !in s.requests
    case GetArrives(r, _, _, _) => r !in s.requests
    case TakesEffect(call) => call < |s.calls| && s.calls[call].fate == InFlight
    case SendInsert(r) => SubmitAt(s, r) && s.requests[r].point == Arrived
    case HearInsert(r, heard) =>
      SubmitAt(s, r) && s.requests[r].point.Inserting? && Audible(s, s.requests[r].point.call, heard)
    case LookUp(r, existing, lost) =>
      && SubmitAt(s, r) && s.requests[r].point == LookingUp
      && (if KeyTaken(s.table, s.requests[r].what.key)
          then existing.Some? && existing.value in s.table && s.table[existing.value].key == s.requests[r].what.key
          else existing == None)
    case StartSubmission(r) => SubmitAt(s, r) && s.requests[r].point == Owner
    case ProviderAnswers(r, _) => SubmitAt(s, r) && s.requests[r].point == AtProvider
    case HearSave(r, heard) =>
      && SubmitAt(s, r)
      && (s.requests[r].point.SavingId? || s.requests[r].point.SavingRefusal? || s.requests[r].point.GivingUp?)
      && Audible(s, s.requests[r].point.call, heard)
    case Read(r, _) => GetAt(s, r) && s.requests[r].seen == Asked
    case Decide(r, _) => GetAt(s, r) && s.requests[r].seen.Holding?
    case HearSettle(r, heard) =>
      GetAt(s, r) && s.requests[r].seen.Settling? && Audible(s, s.requests[r].seen.call, heard)
  }

  function Move(s: System, r: RequestId, point: SubmitPoint): System
    requires SubmitAt(s, r)
  {
    s.(requests := s.requests[r := s.requests[r].(point := point)])
  }

  function Show(s: System, r: RequestId, seen: GetPoint): System
    requires GetAt(s, r)
  {
    s.(requests := s.requests[r := s.requests[r].(seen := seen)])
  }

  function Send(s: System, r: RequestId, task: TaskId, update: Update, stale: bool): System {
    s.(calls := s.calls + [Call(task, update, InFlight, s.now, stale, r)])
  }

  function PendingRow(what: Submission, createdAt: int): Row {
    Row(what.key, what.hash, what.model, what.provider, "", Pending, NO_ERROR, Some(createdAt))
  }

  /** The write that MarkRunning's failure path sends. */
  const LOST_ID := Verdict(UNAVAILABLE, "failed to persist provider task id", SubmitOutcomeUnknown.Reason())

  function MissingId(detail: string): Verdict {
    Verdict(UNAVAILABLE, "submit outcome unknown; " + detail, SubmitOutcomeUnknown.Reason())
  }

  /** `time.Since(task.CreatedAt) > stalePendingWithoutProviderTaskID`, on the reader's clock. */
  predicate IsStale(row: Row, clock: int) {
    row.createdAt.Some? && clock - row.createdAt.value > STALE_PENDING
  }

  /** Request `r` acts alone: it changes no row and no other request, and sends at most one
      statement. */
  ghost predicate ActsAlone(s: System, s': System, r: RequestId) {
    && s'.table == s.table
    && s'.now == s.now
    && |s.calls| <= |s'.calls| <= |s.calls| + 1 && s'.calls[..|s.calls|] == s.calls
    && r in s'.requests && s'.requests == s.requests[r := s'.requests[r]]
  }

  /** Nothing new was heard from a provider. */
  predicate SameAnswers(s: System, s': System) {
    s'.accepted == s.accepted && s'.refused == s.refused && s'.polls == s.polls
  }

  /** A statement reaches the database. */
  function TakeEffect(s: System, i: nat): System
    requires i < |s.calls|
  {
    var call := s.calls[i];
    s.(table := Commit(s.table, call.task, call.update),
       calls := s.calls[i := call.(fate := if Applies(s.table, call.task, call.update) then Hit else Miss)])
  }

  function OnSendInsert(s: System, r: RequestId): (s': System)
    requires SubmitAt(s, r)
    ensures ActsAlone(s, s', r) && SameAnswers(s, s')
  {
    var me := s.requests[r];
    var sent := Send(s, r, r, Insert(PendingRow(me.what, s.now + me.offset)), false);
    sent.(requests := s.requests[r := me.(insertedAt := s.now, point := Inserting(|s.calls|))])
  }

  function OnHearInsert(s: System, r: RequestId, heard: bool): (s': System)
    requires Enabled(s, HearInsert(r, heard))
    ensures ActsAlone(s, s', r) && SameAnswers(s, s')
  {
    match Heard(s.calls[s.requests[r].point.call], heard)
    case Done => Move(s, r, Owner)
    case NotFound => Move(s, r, LookingUp)
    case Broken => Move(s, r, Replied(SubmitUnavailable))
  }

  function OnLookUp(s: System, r: RequestId, existing: Option<TaskId>, lost: bool): (s': System)
    requires Enabled(s, LookUp(r, existing, lost))
    ensures ActsAlone(s, s', r) && SameAnswers(s, s')
  {
    if lost || existing == None then Move(s, r, Replied(SubmitUnavailable))
    else
      var row := s.table[existing.value];
      Move(s, r, Replied(if row.hash != s.requests[r].what.hash then AlreadyExists
          else Task(existing.value, row.state)))
  }

  function OnStartSubmission(s: System, r: RequestId): (s': System)
    requires SubmitAt(s, r)
    ensures ActsAlone(s, s', r) && SameAnswers(s, s')
  {
    Move(s, r, AtProvider).(submitted := s.submitted + [r])
  }

  function OnProviderAnswer(s: System, r: RequestId, answer: ProviderAnswer): (s': System)
    requires SubmitAt(s, r)
    ensures ActsAlone(s, s', r)
  {
    match answer
    case Accepted(id) =>
      Move(Send(s, r, r, ToRunning(s.requests[r].what.provider, id), false), r,
          SavingId(|s.calls|)).(accepted := s.accepted[r := id])
    case Refused(fault) =>
      Move(Send(s, r, r, ToFailed(Pending, SubmitVerdict(fault)), false), r,
          SavingRefusal(|s.calls|)).(refused := s.refused[r := fault])
  }

  /** The submitter hears whether its result was stored. When the id could not be stored it
      tries once to fail the task and answers "unavailable" in any case. */
  function OnHearSave(s: System, r: RequestId, heard: bool): (s': System)
    requires Enabled(s, HearSave(r, heard))
    ensures ActsAlone(s, s', r) && SameAnswers(s, s')
  {
    var point := s.requests[r].point;
    var result := Heard(s.calls[point.call], heard);
    if point.SavingId? && result == Done then Move(s, r, Replied(Task(r, Running)))
    else if point.SavingId? then Move(Send(s, r, r, ToFailed(Pending, LOST_ID), false), r, GivingUp(|s.calls|))
    else if point.SavingRefusal? && result == Done then Move(s, r, Replied(Task(r, Failed)))
    else Move(s, r, Replied(SubmitUnavailable))
  }

  function OnRead(s: System, r: RequestId, lost: bool): (s': System)
    requires GetAt(s, r)
    ensures ActsAlone(s, s', r) && SameAnswers(s, s')
  {
    var me := s.requests[r];
    if lost then Show(s, r, Told(GetFailed))
    else if me.task !in s.table then Show(s, r, Told(TaskNotFound))
    else if me.publicCaller.Some? && s.table[me.task].key.caller != me.publicCaller.value then
        Show(s, r, Told(TaskNotFound))
    else Show(s, r, Holding(s.table[me.task]))
  }

  /** Send a write and remember the state to report once it is known to have succeeded. */
  function Settle(s: System, r: RequestId, update: Update, stale: bool, verdict: State): (s': System)
    requires GetAt(s, r)
    ensures ActsAlone(s, s', r) && SameAnswers(s, s')
  {
    Show(Send(s, r, s.requests[r].task, update, stale), r, Settling(|s.calls|, verdict))
  }

  /** `handlePendingTask`. */
  function OnPending(s: System, r: RequestId, row: Row): (s': System)
    requires GetAt(s, r)
    ensures ActsAlone(s, s', r) && SameAnswers(s, s')
  {
    if Blank(row.providerTaskId) && IsStale(row, s.now + s.requests[r].offset)
    then Settle(s, r, ToFailed(Pending, MissingId("stale pending without provider task id")), true, Failed)
    else Show(s, r, Told(Reported(Pending)))
  }

  /** The provider is asked about the job of a row. */
  function Ask(s: System, r: RequestId, row: Row, poll: Poll): System {
    s.(polls := s.polls[r := Polled(row.provider, row.model, row.providerTaskId, poll)])
  }

  /** `pollRunningTask`. */
  function OnRunning(s: System, r: RequestId, row: Row, poll: Poll): (s': System)
    requires GetAt(s, r)
    ensures ActsAlone(s, s', r) && s'.accepted == s.accepted && s'.refused == s.refused
    ensures s'.polls == s.polls || s'.polls == Ask(s, r, row, poll).polls
    ensures s'.requests[r].Get? && (s'.requests[r].seen.Told? || s'.requests[r].seen.Settling?)
  {
    if Blank(row.providerTaskId)
    then Settle(s, r, ToFailed(Running, MissingId("running without provider task id")), false, Failed)
    else
      var asked := Ask(s, r, row, poll);
      match poll
      case PollError => Show(asked, r, Told(GetFailed))
      case StillRunning => Show(asked, r, Told(Reported(Running)))
      case JobFailed(fault) => Settle(asked, r, ToFailed(Running, Normalize(fault)), false, Failed)
      case JobSucceeded => Settle(asked, r, ToSucceeded, false, Succeeded)
  }

  /** After the read: report what was read, or write first and report afterwards. */
  function OnDecide(s: System, r: RequestId, row: Row, poll: Poll): (s': System)
    requires GetAt(s, r)
    ensures ActsAlone(s, s', r) && s'.accepted == s.accepted && s'.refused == s.refused
    ensures s'.polls == s.polls || s'.polls == Ask(s, r, row, poll).polls
    ensures s'.requests[r].Get? && (s'.requests[r].seen.Told? || s'.requests[r].seen.Settling?)
  {
    match row.state
    case Pending => OnPending(s, r, row)
    case Running => OnRunning(s, r, row, poll)
    case Failed => Show(s, r, Told(Reported(Failed)))
    case Succeeded => Show(s, r, Told(Reported(Succeeded)))
  }

  function OnHearSettle(s: System, r: RequestId, heard: bool): (s': System)
    requires Enabled(s, HearSettle(r, heard))
    ensures ActsAlone(s, s', r) && SameAnswers(s, s')
  {
    var seen := s.requests[r].seen;
    if Heard(s.calls[seen.call], heard) == Done then Show(s, r, Told(Reported(seen.verdict)))
        else Show(s, r, Told(GetFailed))
  }

  function Next(s: System, step: Step): System
    requires Enabled(s, step)
  {
    match step
    case Tick(elapsed) => s.(now := s.now + elapsed)
    case SubmitArrives(r, what, offset) => s.(requests := s.requests[r := Submit(what, offset, 0, Arrived)])
    case GetArrives(r, task, publicCaller, offset) =>
      s.(requests := s.requests[r := Get(task, publicCaller, offset, Asked)])
    case TakesEffect(call) => TakeEffect(s, call)
    case SendInsert(r) => OnSendInsert(s, r)
    case HearInsert(r, heard) => OnHearInsert(s, r, heard)
    case LookUp(r, existing, lost) => OnLookUp(s, r, existing, lost)
    case StartSubmission(r) => OnStartSubmission(s, r)
    case ProviderAnswers(r, answer) => OnProviderAnswer(s, r, answer)
    case HearSave(r, heard) => OnHearSave(s, r, heard)
    case Read(r, lost) => OnRead(s, r, lost)
    case Decide(r, poll) => OnDecide(s, r, s.requests[r].seen.row, poll)
    case HearSettle(r, heard) => OnHearSettle(s, r, heard)
  }

  /** The state after a list of steps, when each step was possible. */
  ghost predicate CanRun(s: System, steps: seq<Step>)
    decreases |steps|
  {
    steps == [] || (Enabled(s, steps[0]) && CanRun(Next(s, steps[0]), steps[1..]))
  }

  ghost function Run(s: System, steps: seq<Step>): System
    requires CanRun(s, steps)
    decreases |steps|
  {
    if steps == [] then s else Run(Next(s, steps[0]), steps[1..])
  }

  /** Everything the service can ever be in, under any schedule and any failures. */
  ghost predicate Reachable(s: System) {
    exists steps :: CanRun(START, steps) && Run(START, steps) == s
  }

  // What a request has told its caller

  predicate TellsOf(s: System, r: RequestId, task: TaskId) {
    r in s.requests &&
    match s.requests[r]
    case Submit(_, _, _, point) => point.Replied? && point.reply.Task? && point.reply.task == task
    case Get(t, _, _, seen) => t == task && seen.Told? && seen.reply.Reported?
  }

  function StateTold(s: System, r: RequestId, task: TaskId): State
    requires TellsOf(s, r, task)
  {
    match s.requests[r]
    case Submit(_, _, _, point) => point.reply.state
    case Get(_, _, _, seen) => seen.reply.state
  }
}
