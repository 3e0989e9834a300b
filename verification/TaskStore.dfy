/** The table `modelhub.generation_task` and the store in front of it
    (internal/taskstore/store.go, ent/schema/generation_task.go).

    Every statement the store sends is one atomic conditional update, so its effect is a
    function on the table: `Commit`. The class `Postgres` gives the store's methods their
    own form; the protocol in GenerationProtocol uses `Commit` directly because there the
    statement, its effect and its answer are separate moments. */
module TaskStore {
  import opened Options
  import opened ProviderErrors

  /** `uuid.NewString()` draws fresh ids; here an id is a number. */
  type TaskId = nat

  datatype Key = Key(caller: string, requestId: string)

  datatype State = Pending | Running | Succeeded | Failed
  {
    predicate Terminal() { this == Succeeded || this == Failed }

    /** How far a task has come: PENDING, then RUNNING, then a terminal state. */
    function Stage(): nat { if this == Pending then 0 else if this == Running then 1 else 2 }
  }

  /** `createdAt` is None for Go's zero time. */
  datatype Row = Row(
    key: Key,
    hash: string,
    model: string,
    provider: string,
    providerTaskId: string,
    state: State,
    error: Verdict,
    createdAt: Option<int>)

  const NO_ERROR := Verdict(0, "", "")

  type Table = map<TaskId, Row>

  datatype Update =
    | Insert(row: Row)
    | ToRunning(provider: string, providerTaskId: string)
    | ToFailed(expected: State, error: Verdict)
    | ToSucceeded

  predicate KeyTaken(table: Table, key: Key) {
    exists t :: t in table && table[t].key == key
  }

  /** The unique index on (caller, request_id). */
  ghost predicate UniqueKeys(table: Table) {
    forall t, u :: t in table && u in table && table[t].key == table[u].key ==> t == u
  }

  /** Does the statement find a row to act on (or, for an insert, no conflicting row)? */
  predicate Applies(table: Table, task: TaskId, update: Update) {
    match update
    case Insert(row) => task !in table && !KeyTaken(table, row.key)
    case ToRunning(_, _) => task in table && table[task].state == Pending
    case ToFailed(expected, _) => task in table && table[task].state == expected
    case ToSucceeded => task in table && table[task].state == Running
  }

  /** The effect of one statement on the whole table. */
  function Commit(table: Table, task: TaskId, update: Update): Table {
    if !Applies(table, task, update) then table else
    match update
    case Insert(row) => table[task := row]
    case ToRunning(provider, id) =>
      table[task := table[task].(provider := provider, providerTaskId := id, state := Running)]
    case ToFailed(_, error) => table[task := table[task].(state := Failed, error := error)]
    case ToSucceeded => table[task := table[task].(state := Succeeded, error := NO_ERROR)]
  }

  /** The four moves a task may make. */
  predicate LegalMove(from: State, to: State) {
    || (from == Pending && to == Running)
    || (from == Pending && to == Failed)
    || (from == Running && to == Failed)
    || (from == Running && to == Succeeded)
  }

  /** One row at two moments, the second not before the first: the identity of the task
      never changes, its stage never goes back, and a terminal row is final. */
  predicate Evolves(before: Row, after: Row) {
    && after.key == before.key
    && after.hash == before.hash
    && after.model == before.model
    && after.createdAt == before.createdAt
    && before.state.Stage() <= after.state.Stage()
    && (before.state != Pending ==> after.providerTaskId == before.providerTaskId)
    && (before.state.Terminal() ==> after == before)
  }

  ghost predicate TableEvolves(before: Table, after: Table) {
    forall t :: t in before ==> t in after && Evolves(before[t], after[t])
  }

  /** No expected state of `MarkFailed` is terminal; its callers pass PENDING or RUNNING. */
  predicate WellFormed(update: Update) {
    update.ToFailed? ==> !update.expected.Terminal()
  }

  lemma CommitKeepsKeys(table: Table, task: TaskId, update: Update)
    requires UniqueKeys(table)
    ensures UniqueKeys(Commit(table, task, update))
  {
  }

  lemma CommitMovesOneRow(table: Table, task: TaskId, update: Update)
    ensures forall t :: t in Commit(table, task, update) && t != task ==>
            t in table && Commit(table, task, update)[t] == table[t]
    ensures forall t :: t in table ==> t in Commit(table, task, update)
  {
  }

  lemma MovedRowEvolves(table: Table, task: TaskId, update: Update)
    requires WellFormed(update) && task in table
    ensures task in Commit(table, task, update) && Evolves(table[task], Commit(table, task, update)[task])
    ensures Commit(table, task, update)[task] != table[task] ==>
            LegalMove(table[task].state, Commit(table, task, update)[task].state)
  {
  }

  /** A statement moves at most the row it names, by a legal move, keeps the unique index,
      and never rewrites the past. */
  lemma CommitIsLegal(table: Table, task: TaskId, update: Update)
    requires UniqueKeys(table) && WellFormed(update)
    ensures UniqueKeys(Commit(table, task, update))
    ensures TableEvolves(table, Commit(table, task, update))
    ensures forall t :: t in Commit(table, task, update) && t != task ==>
            t in table && Commit(table, task, update)[t] == table[t]
    ensures task in table && Commit(table, task, update)[task] != table[task] ==>
              LegalMove(table[task].state, Commit(table, task, update)[task].state)
  {
    CommitKeepsKeys(table, task, update);
    CommitMovesOneRow(table, task, update);
    if task in table { MovedRowEvolves(table, task, update); }
  }

  /** A read and what happens to the table afterwards. */
  function After(table: Table, later: seq<(TaskId, Update)>): Table
    decreases |later|
  {
    if later == [] then table else After(Commit(table, later[0].0, later[0].1), later[1..])
  }

  lemma OneStatementChangesTheState(table: Table, task: TaskId, statement: (TaskId, Update))
    requires task in table && WellFormed(statement.1)
    ensures var now := Commit(table, statement.0, statement.1);
            task in now && (now[task] == table[task] || table[task].state.Stage() < now[task].state.Stage())
  {
    CommitMovesOneRow(table, statement.0, statement.1);
    if statement.0 == task { MovedRowEvolves(table, task, statement.1); }
  }

  /** Comparing the state is enough: whatever statements came after a row was read, either the
      whole row is still as it was read, or its state has moved on and never comes back. */
  lemma {:induction false} SameStateMeansSameRow(table: Table, task: TaskId, later: seq<(TaskId, Update)>)
    requires task in table && forall i :: 0 <= i < |later| ==> WellFormed(later[i].1)
    ensures task in After(table, later)
    ensures var now := After(table, later)[task];
            now == table[task] || table[task].state.Stage() < now.state.Stage()
    decreases |later|
  {
    if later != [] {
      var next := Commit(table, later[0].0, later[0].1);
      OneStatementChangesTheState(table, task, later[0]);
      SameStateMeansSameRow(next, task, later[1..]);
    }
  }

  /** A conditional write that expects the state which was read hits only the row which was read,
      with every other column unchanged. */
  lemma WriteHitsTheRowRead(table: Table, task: TaskId, later: seq<(TaskId, Update)>, error: Verdict)
    requires task in table && forall i :: 0 <= i < |later| ==> WellFormed(later[i].1)
    requires Applies(After(table, later), task, ToFailed(table[task].state, error))
    ensures Commit(After(table, later), task, ToFailed(table[task].state, error))[task] ==
            table[task].(state := Failed, error := error)
  {
    SameStateMeansSameRow(table, task, later);
  }

  /** What the network did to one statement: it came through and was answered, it was lost
      before it took effect, or it took effect and the answer was lost. */
  datatype Delivery = Answered | LostBefore | LostAfter

  datatype Outcome = Done | NotFound | Broken

  datatype Inserted = Created(row: Row) | Existing(task: TaskId, row: Row) | HashConflict | InsertBroken

  datatype Found = Loaded(row: Row) | Missing | Unreadable

  class Postgres {
    var rows: Table

    constructor ()
      ensures rows == map[]
    {
      rows := map[];
    }

    /** Runs one statement and reports whether the caller learns its result. */
    method Execute(task: TaskId, update: Update, delivery: Delivery) returns (r: Outcome)
      modifies this
      ensures rows == if delivery == LostBefore then old(rows) else Commit(old(rows), task, update)
      ensures r == if delivery != Answered then Broken
                   else if Applies(old(rows), task, update) then Done else NotFound
    {
      r := if delivery != Answered then Broken
           else if Applies(rows, task, update) then Done else NotFound;
      if delivery != LostBefore {
        rows := Commit(rows, task, update);
      }
    }

    /** A created row is PENDING, without id and without error; a repeated key with the same
        hash yields the first task, with another hash a conflict, and neither changes a row. */
    method InsertPending(task: TaskId, row: Row, delivery: Delivery, lookupLost: bool) returns (r: Inserted)
      requires task !in rows
      modifies this
      ensures var pending := row.(providerTaskId := "", state := Pending, error := NO_ERROR);
              rows == if delivery == LostBefore || KeyTaken(old(rows), row.key) then old(rows)
                      else old(rows)[task := pending]
      ensures r.Created? ==> task in rows && rows[task] == r.row && r.row.state == Pending && r.row.key == row.key
      ensures r.Existing? ==> r.task in old(rows) && old(rows)[r.task] == r.row
      ensures r.Existing? ==> r.row.key == row.key && r.row.hash == row.hash
      ensures r.HashConflict? ==>
                exists t :: t in old(rows) && old(rows)[t].key == row.key && old(rows)[t].hash != row.hash
      ensures delivery == Answered && !KeyTaken(old(rows), row.key) ==> r.Created?
      ensures delivery == Answered && KeyTaken(old(rows), row.key) && !lookupLost ==> r.Existing? || r.HashConflict?
      ensures delivery != Answered ==> r.InsertBroken?
    {
      var pending := row.(providerTaskId := "", state := Pending, error := NO_ERROR);
      var answer := Execute(task, Insert(pending), delivery);
      if answer == Broken { return InsertBroken; }
      if answer == Done { return Created(pending); }
      if lookupLost { return InsertBroken; }
      var existing :| existing in rows && rows[existing].key == row.key;
      if rows[existing].hash != row.hash { return HashConflict; }
      return Existing(existing, rows[existing]);
    }

    /** One snapshot of one row; WriteHitsTheRowRead says what it is good for. */
    method GetByTaskId(task: TaskId, lost: bool) returns (r: Found)
      ensures r == if lost then Unreadable else if task in rows then Loaded(rows[task]) else Missing
    {
      if lost { return Unreadable; }
      if task in rows { return Loaded(rows[task]); }
      return Missing;
    }

    /** Only a PENDING row becomes RUNNING, and it takes the provider's id in the same statement. */
    method MarkRunning(task: TaskId, provider: string, providerTaskId: string, delivery: Delivery) returns (r: Outcome)
      modifies this
      ensures r == Done ==> task in old(rows) && old(rows)[task].state == Pending
      ensures r == NotFound ==> rows == old(rows)
      ensures rows == if delivery == LostBefore || task !in old(rows) || old(rows)[task].state != Pending then old(rows)
                      else old(rows)[task := old(rows)[task].(provider := provider, providerTaskId := providerTaskId,
                          state := Running)]
    {
      r := Execute(task, ToRunning(provider, providerTaskId), delivery);
    }

    /** Only a row still in the expected state becomes FAILED. */
    method MarkFailed(task: TaskId, expected: State, error: Verdict, delivery: Delivery) returns (r: Outcome)
      modifies this
      ensures r == Done ==> task in old(rows) && old(rows)[task].state == expected
      ensures r == NotFound ==> rows == old(rows)
      ensures rows == if delivery == LostBefore || task !in old(rows) || old(rows)[task].state != expected then
              old(rows)
                      else old(rows)[task := old(rows)[task].(state := Failed, error := error)]
    {
      r := Execute(task, ToFailed(expected, error), delivery);
    }

    /** Only a RUNNING row becomes SUCCEEDED. */
    method MarkSucceeded(task: TaskId, delivery: Delivery) returns (r: Outcome)
      modifies this
      ensures r == Done ==> task in old(rows) && old(rows)[task].state == Running
      ensures r == NotFound ==> rows == old(rows)
      ensures rows == if delivery == LostBefore || task !in old(rows) || old(rows)[task].state != Running then old(rows)
                      else old(rows)[task := old(rows)[task].(state := Succeeded, error := NO_ERROR)]
    {
      r := Execute(task, ToSucceeded, delivery);
    }
  }
}
