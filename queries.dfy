/**
 * The persistence contract (src/lib/db/queries.ts). The two SQLite tables are
 * maps from primary key to row, each with the order in which rows were
 * inserted (SQLite's rowid order). A database is a value: each writing query
 * takes the database and returns the new one.
 *
 * SQL `LIKE` is a parameter (`like(value, pattern)`), and `datetime('now')` is
 * the stamp `now` handed in by the caller.
 */
module Queries {
  import opened Optional
  import opened Strings
  import opened Types

  /** A `workflows` row, column by column. */
  datatype WorkflowRow = WorkflowRow(
    id: string,
    title: string,
    user_prompt: string,
    status: WorkflowStatus,
    current_step_index: int,
    project_path: string,
    created_at: Stamp,
    updated_at: Stamp,
    completed_at: Option<Stamp>)

  /** An `agent_steps` row, column by column. */
  datatype AgentStepRow = AgentStepRow(
    id: string,
    workflow_id: string,
    role: AgentRole,
    status: StepStatus,
    prompt: string,
    output: string,
    error: Option<string>,
    retry_count: int,
    duration_ms: Option<int>,
    tokens_in: Option<int>,
    tokens_out: Option<int>,
    started_at: Option<string>,
    completed_at: Option<string>)

  /** `rowToWorkflow`: every column to its camelCase field. */
  function RowToWorkflow(row: WorkflowRow): Workflow
  {
    Workflow(row.id, row.title, row.user_prompt, row.status, row.current_step_index,
             row.project_path, row.created_at, row.updated_at, row.completed_at)
  }

  /** `rowToStep`: every column to its camelCase field. */
  function RowToStep(row: AgentStepRow): AgentStep
  {
    AgentStep(row.id, row.workflow_id, row.role, row.status, row.prompt, row.output, row.error,
              row.retry_count, row.duration_ms, row.tokens_in, row.tokens_out, row.started_at, row.completed_at)
  }

  /** The mappers lose nothing: distinct rows map to distinct records, and every record is some row's image. */
  lemma RowMappersAreBijections(a: WorkflowRow, b: WorkflowRow, x: AgentStepRow, y: AgentStepRow, w: Workflow, s: AgentStep)
    ensures RowToWorkflow(a) == RowToWorkflow(b) ==> a == b
    ensures RowToStep(x) == RowToStep(y) ==> x == y
    ensures exists r :: RowToWorkflow(r) == w
    ensures exists r :: RowToStep(r) == s
  {
    var r := WorkflowRow(w.id, w.title, w.userPrompt, w.status, w.currentStepIndex, w.projectPath, w.createdAt, w.updatedAt, w.completedAt);
    assert RowToWorkflow(r) == w;
    var q := AgentStepRow(s.id, s.workflowId, s.role, s.status, s.prompt, s.output, s.error, s.retryCount,
                          s.durationMs, s.tokensIn, s.tokensOut, s.startedAt, s.completedAt);
    assert RowToStep(q) == s;
  }

  /** The two tables, with their insertion orders. */
  datatype Db = Db(
    workflows: map<string, WorkflowRow>,
    workflowOrder: seq<string>,
    steps: map<string, AgentStepRow>,
    stepOrder: seq<string>)

  const EmptyDb := Db(map[], [], map[], [])

  /** Primary keys match the rows, the orders list each key once, and every step belongs to a stored workflow. */
  ghost predicate WellFormed(db: Db)
  {
    && (forall k :: k in db.workflows <==> k in db.workflowOrder)
    && (forall k :: k in db.steps <==> k in db.stepOrder)
    && Distinct(db.workflowOrder) && Distinct(db.stepOrder)
    && (forall k :: k in db.workflows ==> db.workflows[k].id == k)
    && (forall k :: k in db.steps ==> db.steps[k].id == k && db.steps[k].workflow_id in db.workflows)
  }

  /** A stored workflow's steps, or a step's workflow, cannot be created twice under the same key. */
  predicate Conflict(db: Db, id: string, stepIds: seq<string>)
  {
    id in db.workflows || !Distinct(stepIds) || (exists i :: 0 <= i < |stepIds| && stepIds[i] in db.steps)
  }

  function NewWorkflowRow(id: string, title: string, userPrompt: string, projectPath: string, now: Stamp): WorkflowRow
  {
    WorkflowRow(id, title, userPrompt, Pending, 0, projectPath, now, now, None)
  }

  /** The row `INSERT INTO agent_steps (id, workflow_id, role, status)` creates: the other columns take their defaults. */
  function NewStepRow(id: string, workflowId: string, role: AgentRole): AgentStepRow
  {
    AgentStepRow(id, workflowId, role, StepPending, "", "", None, 0, None, None, None, None, None)
  }

  /** The step rows the loop over AGENT_ORDER inserts for `ids`, the i-th id taking the i-th role. */
  function PendingSteps(ids: seq<string>, workflowId: string): map<string, AgentStepRow>
    requires |ids| <= |AgentOrder|
  {
    if ids == [] then map[]
    else
      var n := |ids| - 1;
      PendingSteps(ids[..n], workflowId)[ids[n] := NewStepRow(ids[n], workflowId, AgentOrder[n])]
  }

  /** The database after a committed `createWorkflow` transaction. */
  function Created(db: Db, id: string, title: string, userPrompt: string, projectPath: string,
                   stepIds: seq<string>, now: Stamp): Db
    requires |stepIds| == |AgentOrder|
  {
    Db(db.workflows[id := NewWorkflowRow(id, title, userPrompt, projectPath, now)],
       db.workflowOrder + [id],
       db.steps + PendingSteps(stepIds, id),
       db.stepOrder + stepIds)
  }

  /**
   * `createWorkflow`: in one transaction, the workflow row and one step per
   * role of AGENT_ORDER, keyed by the fresh ids in `stepIds`. A key clash
   * aborts the transaction and nothing is written; the result is then None
   * (the source throws). Otherwise the result is the stored workflow.
   */
  method CreateWorkflow(db: Db, id: string, title: string, userPrompt: string, projectPath: string,
                        stepIds: seq<string>, now: Stamp) returns (r: Db, created: Option<Workflow>)
    requires |stepIds| == |AgentOrder|
    ensures Conflict(db, id, stepIds) ==> r == db && created == None
    ensures !Conflict(db, id, stepIds) ==>
      r == Created(db, id, title, userPrompt, projectPath, stepIds, now) && created == GetWorkflow(r, id)
  {
    if id in db.workflows || !Distinct(stepIds) {
      return db, None;
    }
    var j := 0;
    while j < |stepIds|
      invariant 0 <= j <= |stepIds|
      invariant forall i :: 0 <= i < j ==> stepIds[i] !in db.steps
    {
      if stepIds[j] in db.steps {
        return db, None;
      }
      j := j + 1;
    }
    var workflows := db.workflows[id := NewWorkflowRow(id, title, userPrompt, projectPath, now)];
    var steps, order := InsertSteps(db.steps, db.stepOrder, stepIds, id);
    r := Db(workflows, db.workflowOrder + [id], steps, order);
    created := GetWorkflow(r, id);
  }

  /** The loop of `createWorkflow` over AGENT_ORDER: one pending step row per role, keyed by its id. */
  method InsertSteps(steps0: map<string, AgentStepRow>, order0: seq<string>, stepIds: seq<string>, workflowId: string)
    returns (steps: map<string, AgentStepRow>, order: seq<string>)
    requires |stepIds| == |AgentOrder|
    ensures steps == steps0 + PendingSteps(stepIds, workflowId)
    ensures order == order0 + stepIds
  {
    steps, order := steps0, order0;
    var i := 0;
    while i < |AgentOrder|
      invariant 0 <= i <= |AgentOrder|
      invariant order == order0 + stepIds[..i]
      invariant steps == steps0 + PendingSteps(stepIds[..i], workflowId)
    {
      PendingStepsSnoc(stepIds, i, workflowId);
      steps := steps[stepIds[i] := NewStepRow(stepIds[i], workflowId, AgentOrder[i])];
      order := order + [stepIds[i]];
      assert stepIds[..i + 1] == stepIds[..i] + [stepIds[i]];
      i := i + 1;
    }
    assert stepIds[..i] == stepIds;
  }

  /** One more id: its row is added on top of the rows before it. */
  lemma PendingStepsSnoc(ids: seq<string>, i: nat, workflowId: string)
    requires i < |ids| <= |AgentOrder|
    ensures PendingSteps(ids[..i + 1], workflowId) == PendingSteps(ids[..i], workflowId)[ids[i] := NewStepRow(ids[i], workflowId, AgentOrder[i])]
  {
    assert ids[..i + 1][..i] == ids[..i];
  }

  /** The rows `PendingSteps` holds: exactly the ids, the i-th a pending step of the i-th role. */
  lemma {:induction false} PendingStepsRows(ids: seq<string>, workflowId: string)
    requires |ids| <= |AgentOrder| && Distinct(ids)
    ensures forall k :: k in PendingSteps(ids, workflowId) <==> k in ids
    ensures forall i :: 0 <= i < |ids| ==> PendingSteps(ids, workflowId)[ids[i]] == NewStepRow(ids[i], workflowId, AgentOrder[i])
    decreases |ids|
  {
    if ids != [] {
      var n := |ids| - 1;
      PendingStepsRows(ids[..n], workflowId);
      assert ids == ids[..n] + [ids[n]];
      forall i | 0 <= i < n ensures ids[i] != ids[n] && ids[..n][i] == ids[i] {
      }
    }
  }

  /**
   * A committed `createWorkflow` keeps the database well formed, stores the
   * workflow pending at index 0 with both stamps `now`, adds one pending
   * step per role under the fresh ids, and changes no existing row.
   */
  lemma CreatedEffect(db: Db, id: string, title: string, userPrompt: string, projectPath: string,
                      stepIds: seq<string>, now: Stamp)
    requires WellFormed(db) && |stepIds| == |AgentOrder| && !Conflict(db, id, stepIds)
    ensures var r := Created(db, id, title, userPrompt, projectPath, stepIds, now);
      && WellFormed(r)
      && GetWorkflow(r, id) == Some(Workflow(id, title, userPrompt, Pending, 0, projectPath, now, now, None))
      && (forall k :: k in db.workflows ==> k in r.workflows && r.workflows[k] == db.workflows[k])
      && (forall i :: 0 <= i < |stepIds| ==> stepIds[i] in r.steps && r.steps[stepIds[i]] == NewStepRow(stepIds[i], id, AgentOrder[i]))
      && (forall k :: k in db.steps ==> k in r.steps && r.steps[k] == db.steps[k])
      && (forall k :: k in r.steps ==> k in db.steps || k in stepIds)
  {
    var r := Created(db, id, title, userPrompt, projectPath, stepIds, now);
    PendingStepsRows(stepIds, id);
    forall a, b | 0 <= a < b < |r.stepOrder| ensures r.stepOrder[a] != r.stepOrder[b] {
      if b >= |db.stepOrder| && a < |db.stepOrder| {
        assert r.stepOrder[b] == stepIds[b - |db.stepOrder|];
      }
    }
    forall a, b | 0 <= a < b < |r.workflowOrder| ensures r.workflowOrder[a] != r.workflowOrder[b] {
    }
  }

  /** `getWorkflow(id)`. */
  function GetWorkflow(db: Db, id: string): (w: Option<Workflow>)
    ensures w.Some? <==> id in db.workflows
  {
    if id in db.workflows then Some(RowToWorkflow(db.workflows[id])) else None
  }

  // ---------------------------------------------------------------------
  // updateWorkflowStatus
  // ---------------------------------------------------------------------

  /** The `UPDATE workflows SET ...` applied to one row. */
  function WithStatus(row: WorkflowRow, status: WorkflowStatus, currentStepIndex: Option<int>, now: Stamp): WorkflowRow
  {
    var isTerminal := status == Completed || status == Failed || status == Cancelled;
    if currentStepIndex.Some? then
      row.(status := status, current_step_index := currentStepIndex.value, updated_at := now,
           completed_at := if isTerminal then Some(now) else row.completed_at)
    else
      row.(status := status, updated_at := now,
           completed_at := if isTerminal then Some(now) else row.completed_at)
  }

  /** `updateWorkflowStatus(id, status, currentStepIndex?)`: no row with that id, no change. */
  function UpdateWorkflowStatus(db: Db, id: string, status: WorkflowStatus, currentStepIndex: Option<int>, now: Stamp): Db
  {
    if id in db.workflows then db.(workflows := db.workflows[id := WithStatus(db.workflows[id], status, currentStepIndex, now)])
    else db
  }

  /**
   * The status is always written and `updated_at` bumped; the index changes
   * only when one is supplied; `completed_at` becomes now exactly for a
   * terminal status and is otherwise kept; nothing else changes.
   */
  lemma UpdateWorkflowStatusEffect(db: Db, id: string, status: WorkflowStatus, currentStepIndex: Option<int>, now: Stamp)
    requires id in db.workflows
    ensures var r := UpdateWorkflowStatus(db, id, status, currentStepIndex, now);
      var old_ := db.workflows[id];
      var new_ := r.workflows[id];
      && r.workflows.Keys == db.workflows.Keys
      && new_.status == status && new_.updated_at == now
      && new_.current_step_index == (if currentStepIndex.Some? then currentStepIndex.value else old_.current_step_index)
      && new_.completed_at == (if IsTerminal(status) then Some(now) else old_.completed_at)
      && new_.id == old_.id && new_.title == old_.title && new_.user_prompt == old_.user_prompt
      && new_.project_path == old_.project_path && new_.created_at == old_.created_at
      && (forall k :: k in db.workflows && k != id ==> r.workflows[k] == db.workflows[k])
      && r.steps == db.steps && r.workflowOrder == db.workflowOrder && r.stepOrder == db.stepOrder
  {
  }

  // ---------------------------------------------------------------------
  // updateStepStatus
  // ---------------------------------------------------------------------

  /** A key of the `updates` object: absent, or present with a value. */
  datatype Patch<T> = Absent | Present(value: T)

  /**
   * `StepUpdateFields`. For a nullable column the present value is an
   * Option: `Present(None)` is an explicit null or undefined, written as
   * NULL. The NOT NULL columns cannot be handed a null here.
   */
  datatype StepUpdateFields = StepUpdateFields(
    status: Patch<StepStatus>,
    prompt: Patch<string>,
    output: Patch<string>,
    error: Patch<Option<string>>,
    retryCount: Patch<int>,
    durationMs: Patch<Option<int>>,
    tokensIn: Patch<Option<int>>,
    tokensOut: Patch<Option<int>>,
    startedAt: Patch<Option<string>>,
    completedAt: Patch<Option<string>>)

  const NoUpdates := StepUpdateFields(Absent, Absent, Absent, Absent, Absent, Absent, Absent, Absent, Absent, Absent)

  /** The entries of `columnMap`, in its order. */
  datatype Column = StatusCol | PromptCol | OutputCol | ErrorCol | RetryCountCol
                  | DurationCol | TokensInCol | TokensOutCol | StartedAtCol | CompletedAtCol

  const ColumnMap: seq<Column> := [StatusCol, PromptCol, OutputCol, ErrorCol, RetryCountCol,
                                   DurationCol, TokensInCol, TokensOutCol, StartedAtCol, CompletedAtCol]

  /** `key in updates`. */
  predicate HasKey(u: StepUpdateFields, c: Column)
  {
    match c
    case StatusCol => u.status.Present?
    case PromptCol => u.prompt.Present?
    case OutputCol => u.output.Present?
    case ErrorCol => u.error.Present?
    case RetryCountCol => u.retryCount.Present?
    case DurationCol => u.durationMs.Present?
    case TokensInCol => u.tokensIn.Present?
    case TokensOutCol => u.tokensOut.Present?
    case StartedAtCol => u.startedAt.Present?
    case CompletedAtCol => u.completedAt.Present?
  }

  /** The columns of `cols` whose key is present, in order. */
  function PresentColumns(u: StepUpdateFields, cols: seq<Column>): (r: seq<Column>)
    ensures forall c :: c in r <==> c in cols && HasKey(u, c)
  {
    if cols == [] then [] else (if HasKey(u, cols[0]) then [cols[0]] else []) + PresentColumns(u, cols[1..])
  }

  /** One `column = @key` assignment. */
  function SetColumn(row: AgentStepRow, u: StepUpdateFields, c: Column): AgentStepRow
    requires HasKey(u, c)
  {
    match c
    case StatusCol => row.(status := u.status.value)
    case PromptCol => row.(prompt := u.prompt.value)
    case OutputCol => row.(output := u.output.value)
    case ErrorCol => row.(error := u.error.value)
    case RetryCountCol => row.(retry_count := u.retryCount.value)
    case DurationCol => row.(duration_ms := u.durationMs.value)
    case TokensInCol => row.(tokens_in := u.tokensIn.value)
    case TokensOutCol => row.(tokens_out := u.tokensOut.value)
    case StartedAtCol => row.(started_at := u.startedAt.value)
    case CompletedAtCol => row.(completed_at := u.completedAt.value)
  }

  /** The SET list applied to a row, assignment by assignment. */
  function SetColumns(row: AgentStepRow, u: StepUpdateFields, cols: seq<Column>): AgentStepRow
    requires forall c :: c in cols ==> HasKey(u, c)
    decreases |cols|
  {
    if cols == [] then row else SetColumns(SetColumn(row, u, cols[0]), u, cols[1..])
  }

  /** The value of one updatable column. */
  datatype Cell = StatusCell(s: StepStatus) | TextCell(t: string) | OptTextCell(o: Option<string>)
                | IntCell(i: int) | OptIntCell(n: Option<int>)

  /** A row's value in column `c`. */
  function Get(row: AgentStepRow, c: Column): Cell
  {
    match c
    case StatusCol => StatusCell(row.status)
    case PromptCol => TextCell(row.prompt)
    case OutputCol => TextCell(row.output)
    case ErrorCol => OptTextCell(row.error)
    case RetryCountCol => IntCell(row.retry_count)
    case DurationCol => OptIntCell(row.duration_ms)
    case TokensInCol => OptIntCell(row.tokens_in)
    case TokensOutCol => OptIntCell(row.tokens_out)
    case StartedAtCol => OptTextCell(row.started_at)
    case CompletedAtCol => OptTextCell(row.completed_at)
  }

  /** The value bound to `@key` for column `c`. */
  function Bound(u: StepUpdateFields, c: Column): Cell
    requires HasKey(u, c)
  {
    match c
    case StatusCol => StatusCell(u.status.value)
    case PromptCol => TextCell(u.prompt.value)
    case OutputCol => TextCell(u.output.value)
    case ErrorCol => OptTextCell(u.error.value)
    case RetryCountCol => IntCell(u.retryCount.value)
    case DurationCol => OptIntCell(u.durationMs.value)
    case TokensInCol => OptIntCell(u.tokensIn.value)
    case TokensOutCol => OptIntCell(u.tokensOut.value)
    case StartedAtCol => OptTextCell(u.startedAt.value)
    case CompletedAtCol => OptTextCell(u.completedAt.value)
  }

  /** `r` is `row` with exactly the keys present in `u` written, and the key columns untouched. */
  predicate PatchedFrom(row: AgentStepRow, u: StepUpdateFields, r: AgentStepRow)
  {
    && r.id == row.id && r.workflow_id == row.workflow_id && r.role == row.role
    && forall c :: Get(r, c) == (if HasKey(u, c) then Bound(u, c) else Get(row, c))
  }

  /** One assignment writes its own column and no other. */
  lemma SetColumnEffect(row: AgentStepRow, u: StepUpdateFields, c0: Column)
    requires HasKey(u, c0)
    ensures var r := SetColumn(row, u, c0);
      && r.id == row.id && r.workflow_id == row.workflow_id && r.role == row.role
      && forall c :: Get(r, c) == (if c == c0 then Bound(u, c0) else Get(row, c))
  {
  }

  /** A SET list writes each listed column with its bound value and leaves the rest. */
  lemma {:induction false} SetColumnsEffect(row: AgentStepRow, u: StepUpdateFields, cols: seq<Column>)
    requires forall c :: c in cols ==> HasKey(u, c)
    ensures var r := SetColumns(row, u, cols);
      && r.id == row.id && r.workflow_id == row.workflow_id && r.role == row.role
      && forall c :: Get(r, c) == (if c in cols then Bound(u, c) else Get(row, c))
    decreases |cols|
  {
    if cols != [] {
      SetColumnEffect(row, u, cols[0]);
      SetColumnsEffect(SetColumn(row, u, cols[0]), u, cols[1..]);
      assert forall c :: c in cols <==> c == cols[0] || c in cols[1..];
    }
  }

  /** No key present, no column listed (and the converse). */
  lemma NoKeysNoColumns(u: StepUpdateFields)
    ensures PresentColumns(u, ColumnMap) == [] <==> (forall c :: !HasKey(u, c))
  {
    if PresentColumns(u, ColumnMap) == [] {
      forall c ensures !HasKey(u, c) {
        assert c in ColumnMap;
      }
    } else {
      assert PresentColumns(u, ColumnMap)[0] in PresentColumns(u, ColumnMap);
    }
  }

  /**
   * `updateStepStatus(id, updates)`: the SET list holds one assignment per
   * key present in `updates`, in `columnMap` order; with none, no statement
   * runs; otherwise the row with that id (if any) gets exactly those columns
   * and nothing else in the database changes.
   */
  method UpdateStepStatus(db: Db, id: string, updates: StepUpdateFields) returns (r: Db, statementRun: bool)
    ensures statementRun <==> exists c :: HasKey(updates, c)
    ensures r.workflows == db.workflows && r.workflowOrder == db.workflowOrder && r.stepOrder == db.stepOrder
    ensures r.steps.Keys == db.steps.Keys
    ensures forall k :: k in db.steps && k != id ==> r.steps[k] == db.steps[k]
    ensures id in db.steps ==> PatchedFrom(db.steps[id], updates, r.steps[id])
    ensures !statementRun ==> r == db
  {
    var setClauses: seq<Column> := [];
    var i := 0;
    while i < |ColumnMap|
      invariant 0 <= i <= |ColumnMap|
      invariant setClauses == PresentColumns(updates, ColumnMap[..i])
    {
      PresentColumnsSnoc(updates, ColumnMap[..i], ColumnMap[i]);
      assert ColumnMap[..i + 1] == ColumnMap[..i] + [ColumnMap[i]];
      if HasKey(updates, ColumnMap[i]) {
        setClauses := setClauses + [ColumnMap[i]];
      }
      i := i + 1;
    }
    assert ColumnMap[..i] == ColumnMap;
    NoKeysNoColumns(updates);
    if |setClauses| == 0 {
      return db, false;
    }
    statementRun := true;
    if id in db.steps {
      var row := SetColumns(db.steps[id], updates, setClauses);
      PresentColumnsPatch(db.steps[id], updates);
      r := db.(steps := db.steps[id := row]);
    } else {
      r := db;
    }
  }

  /** Applying the SET list built from `columnMap` writes exactly the present keys. */
  lemma PresentColumnsPatch(row: AgentStepRow, u: StepUpdateFields)
    ensures forall c :: c in PresentColumns(u, ColumnMap) ==> HasKey(u, c)
    ensures PatchedFrom(row, u, SetColumns(row, u, PresentColumns(u, ColumnMap)))
  {
    var cols := PresentColumns(u, ColumnMap);
    SetColumnsEffect(row, u, cols);
    forall c ensures c in cols <==> HasKey(u, c) {
      assert c in ColumnMap;
    }
  }

  lemma {:induction false} PresentColumnsSnoc(u: StepUpdateFields, cols: seq<Column>, c: Column)
    ensures PresentColumns(u, cols + [c]) == PresentColumns(u, cols) + (if HasKey(u, c) then [c] else [])
    decreases |cols|
  {
    if cols == [] {
      assert [] + [c] == [c];
    } else {
      assert (cols + [c])[1..] == cols[1..] + [c];
      PresentColumnsSnoc(u, cols[1..], c);
    }
  }

  // ---------------------------------------------------------------------
  // getStepsForWorkflow
  // ---------------------------------------------------------------------

  /** The steps of one workflow and one role, in insertion order, among the keys `order`. */
  function StepsOf(db: Db, order: seq<string>, workflowId: string, role: AgentRole): (r: seq<AgentStep>)
    requires forall k :: k in order ==> k in db.steps
    ensures forall i :: 0 <= i < |r| ==> r[i].role == role && r[i].workflowId == workflowId
  {
    if order == [] then []
    else
      var row := db.steps[order[0]];
      (if row.workflow_id == workflowId && row.role == role then [RowToStep(row)] else [])
      + StepsOf(db, order[1..], workflowId, role)
  }

  /** The roles in `ORDER BY CASE role WHEN 'pm' THEN 0 ... END` order. */
  function StepsByRank(db: Db, workflowId: string, roles: seq<AgentRole>): seq<AgentStep>
    requires forall k :: k in db.stepOrder ==> k in db.steps
  {
    if roles == [] then [] else StepsOf(db, db.stepOrder, workflowId, roles[0]) + StepsByRank(db, workflowId, roles[1..])
  }

  /**
   * `getStepsForWorkflow(workflowId)`. Roles sort pm, rd, ui, test, sec;
   * steps of the same role keep their insertion order. (The CASE's ELSE rank
   * 5 cannot arise: a stored role is always one of the five.)
   */
  function GetStepsForWorkflow(db: Db, workflowId: string): seq<AgentStep>
    requires WellFormed(db)
  {
    StepsByRank(db, workflowId, AgentOrder)
  }

  /** All of `r` belongs to `workflowId`, its roles rank at least `k` in AGENT_ORDER, and the ranks never decrease. */
  predicate RankedFromK(r: seq<AgentStep>, workflowId: string, k: nat)
  {
    && (forall i :: 0 <= i < |r| ==> k <= IndexOf(r[i].role) && r[i].workflowId == workflowId)
    && (forall a, b :: 0 <= a < b < |r| ==> IndexOf(r[a].role) <= IndexOf(r[b].role))
  }

  /** The steps ranked from role `k` of AGENT_ORDER on are ranked from `k`. */
  lemma {:induction false} RankedFrom(db: Db, workflowId: string, k: nat)
    requires forall key :: key in db.stepOrder ==> key in db.steps
    requires k <= |AgentOrder|
    ensures RankedFromK(StepsByRank(db, workflowId, AgentOrder[k..]), workflowId, k)
    decreases |AgentOrder| - k
  {
    if k < |AgentOrder| {
      RankedFrom(db, workflowId, k + 1);
      assert AgentOrder[k..][1..] == AgentOrder[k + 1..];
      var head := StepsOf(db, db.stepOrder, workflowId, AgentOrder[k]);
      assert IndexOf(AgentOrder[k]) == k;
      ConcatRanked(head, StepsByRank(db, workflowId, AgentOrder[k + 1..]), workflowId, k);
    }
  }

  /** Steps of rank exactly `k` followed by steps ranked from `k + 1` are ranked from `k`. */
  lemma ConcatRanked(head: seq<AgentStep>, tail: seq<AgentStep>, workflowId: string, k: nat)
    requires forall i :: 0 <= i < |head| ==> IndexOf(head[i].role) == k && head[i].workflowId == workflowId
    requires RankedFromK(tail, workflowId, k + 1)
    ensures RankedFromK(head + tail, workflowId, k)
  {
    var r := head + tail;
    forall i | 0 <= i < |r| ensures k <= IndexOf(r[i].role) && r[i].workflowId == workflowId {
      if i >= |head| {
        assert r[i] == tail[i - |head|];
      }
    }
    forall a, b | 0 <= a < b < |r| ensures IndexOf(r[a].role) <= IndexOf(r[b].role) {
      if b >= |head| {
        assert r[b] == tail[b - |head|];
        if a >= |head| {
          assert r[a] == tail[a - |head|];
        }
      }
    }
  }

  /** `getStepsForWorkflow` returns only that workflow's steps, in pipeline order of their roles. */
  lemma StepsInPipelineOrder(db: Db, workflowId: string)
    requires WellFormed(db)
    ensures RankedFromK(GetStepsForWorkflow(db, workflowId), workflowId, 0)
  {
    RankedFrom(db, workflowId, 0);
    assert AgentOrder[0..] == AgentOrder;
  }

  lemma {:induction false} StepsOfAppend(db: Db, o1: seq<string>, o2: seq<string>, workflowId: string, role: AgentRole)
    requires forall k :: k in o1 + o2 ==> k in db.steps
    ensures StepsOf(db, o1 + o2, workflowId, role) == StepsOf(db, o1, workflowId, role) + StepsOf(db, o2, workflowId, role)
    decreases |o1|
  {
    if o1 == [] {
      assert o1 + o2 == o2;
    } else {
      assert (o1 + o2)[1..] == o1[1..] + o2;
      StepsOfAppend(db, o1[1..], o2, workflowId, role);
    }
  }

  lemma {:induction false} StepsOfForeign(db: Db, order: seq<string>, workflowId: string, role: AgentRole)
    requires forall k :: k in order ==> k in db.steps && db.steps[k].workflow_id != workflowId
    ensures StepsOf(db, order, workflowId, role) == []
    decreases |order|
  {
    if order != [] {
      StepsOfForeign(db, order[1..], workflowId, role);
    }
  }

  /** Among fresh rows laid out along AGENT_ORDER, role n matches only the n-th id. */
  lemma {:induction false} StepsOfFresh(db: Db, ids: seq<string>, workflowId: string, j: nat, n: nat)
    requires |ids| == |AgentOrder| && j <= |ids| && n < |ids|
    requires forall i :: 0 <= i < |ids| ==> ids[i] in db.steps && db.steps[ids[i]] == NewStepRow(ids[i], workflowId, AgentOrder[i])
    ensures StepsOf(db, ids[j..], workflowId, AgentOrder[n])
         == if j <= n then [RowToStep(NewStepRow(ids[n], workflowId, AgentOrder[n]))] else []
    decreases |ids| - j
  {
    if j < |ids| {
      assert ids[j..][1..] == ids[j + 1..];
      assert IndexOf(AgentOrder[j]) == j && IndexOf(AgentOrder[n]) == n;
      StepsOfFresh(db, ids, workflowId, j + 1, n);
    }
  }

  /** The steps of a freshly created workflow, ranked from role `k` on. */
  lemma {:induction false} CreatedRanked(r: Db, stepIds: seq<string>, id: string, k: nat)
    requires |stepIds| == |AgentOrder| && k <= |AgentOrder|
    requires forall key :: key in r.stepOrder ==> key in r.steps
    requires forall n :: 0 <= n < |AgentOrder| ==> StepsOf(r, r.stepOrder, id, AgentOrder[n]) == [RowToStep(NewStepRow(stepIds[n], id, AgentOrder[n]))]
    ensures |StepsByRank(r, id, AgentOrder[k..])| == |AgentOrder| - k
    ensures forall i :: 0 <= i < |AgentOrder| - k ==> StepsByRank(r, id, AgentOrder[k..])[i] == RowToStep(NewStepRow(stepIds[k + i], id, AgentOrder[k + i]))
    decreases |AgentOrder| - k
  {
    if k < |AgentOrder| {
      assert AgentOrder[k..][1..] == AgentOrder[k + 1..];
      CreatedRanked(r, stepIds, id, k + 1);
      var rest := StepsByRank(r, id, AgentOrder[k + 1..]);
      assert StepsByRank(r, id, AgentOrder[k..]) == [RowToStep(NewStepRow(stepIds[k], id, AgentOrder[k]))] + rest;
    }
  }

  /** After a committed `createWorkflow`, `getStepsForWorkflow` returns five pending steps, one per role, in AGENT_ORDER. */
  lemma CreatedWorkflowSteps(db: Db, id: string, title: string, userPrompt: string, projectPath: string,
                             stepIds: seq<string>, now: Stamp)
    requires WellFormed(db) && |stepIds| == |AgentOrder| && !Conflict(db, id, stepIds)
    ensures WellFormed(Created(db, id, title, userPrompt, projectPath, stepIds, now))
    ensures GetStepsForWorkflow(Created(db, id, title, userPrompt, projectPath, stepIds, now), id)
         == seq(|AgentOrder|, i requires 0 <= i < |AgentOrder| => RowToStep(NewStepRow(stepIds[i], id, AgentOrder[i])))
  {
    var r := Created(db, id, title, userPrompt, projectPath, stepIds, now);
    CreatedEffect(db, id, title, userPrompt, projectPath, stepIds, now);
    forall n | 0 <= n < |AgentOrder|
      ensures StepsOf(r, r.stepOrder, id, AgentOrder[n]) == [RowToStep(NewStepRow(stepIds[n], id, AgentOrder[n]))]
    {
      CreatedRoleSteps(db, r, id, stepIds, n);
    }
    RankedAll(r, stepIds, id);
  }

  /** The steps of a freshly created workflow in AGENT_ORDER: the n-th fresh step for role n. */
  lemma RankedAll(r: Db, stepIds: seq<string>, id: string)
    requires |stepIds| == |AgentOrder|
    requires forall key :: key in r.stepOrder ==> key in r.steps
    requires forall n :: 0 <= n < |AgentOrder| ==> StepsOf(r, r.stepOrder, id, AgentOrder[n]) == [RowToStep(NewStepRow(stepIds[n], id, AgentOrder[n]))]
    ensures StepsByRank(r, id, AgentOrder) == seq(|AgentOrder|, i requires 0 <= i < |AgentOrder| => RowToStep(NewStepRow(stepIds[i], id, AgentOrder[i])))
  {
    CreatedRanked(r, stepIds, id, 0);
    assert AgentOrder[0..] == AgentOrder;
  }

  /** In the created database, role n of the new workflow has exactly one step: the n-th fresh one. */
  lemma CreatedRoleSteps(db: Db, r: Db, id: string, stepIds: seq<string>, n: nat)
    requires WellFormed(db) && |stepIds| == |AgentOrder| && n < |AgentOrder| && id !in db.workflows
    requires r.stepOrder == db.stepOrder + stepIds
    requires forall k :: k in r.stepOrder ==> k in r.steps
    requires forall k :: k in db.steps ==> r.steps[k] == db.steps[k]
    requires forall i :: 0 <= i < |stepIds| ==> stepIds[i] in r.steps && r.steps[stepIds[i]] == NewStepRow(stepIds[i], id, AgentOrder[i])
    ensures StepsOf(r, r.stepOrder, id, AgentOrder[n]) == [RowToStep(NewStepRow(stepIds[n], id, AgentOrder[n]))]
  {
    StepsOfAppend(r, db.stepOrder, stepIds, id, AgentOrder[n]);
    StepsOfForeign(r, db.stepOrder, id, AgentOrder[n]);
    StepsOfFresh(r, stepIds, id, 0, n);
    assert stepIds[0..] == stepIds;
  }

  // ---------------------------------------------------------------------
  // listWorkflows / countWorkflows
  // ---------------------------------------------------------------------

  /** `WorkflowListFilters`: both filters optional. */
  datatype ListFilters = ListFilters(status: Option<WorkflowStatus>, q: Option<string>)

  const NoFilters := ListFilters(None, None)

  /** The text filter applies only to a search term that is not blank. */
  predicate TextFilterApplies(f: ListFilters)
  {
    f.q.Some? && Trim(f.q.value) != ""
  }

  /** `%${q.trim()}%`. */
  function SearchPattern(q: string): string
  {
    "%" + Trim(q) + "%"
  }

  /** The WHERE clause; `like(value, pattern)` is SQL's LIKE. */
  predicate Matches(row: WorkflowRow, f: ListFilters, like: (string, string) -> bool)
  {
    && (f.status.Some? ==> row.status == f.status.value)
    && (TextFilterApplies(f) ==> like(row.title, SearchPattern(f.q.value)) || like(row.user_prompt, SearchPattern(f.q.value)))
  }

  /** The ids of `order` whose rows match, newest (last inserted) first. */
  function NewestFirst(db: Db, order: seq<string>, f: ListFilters, like: (string, string) -> bool): (r: seq<string>)
    requires forall k :: k in order ==> k in db.workflows
    ensures forall k :: k in r <==> k in order && Matches(db.workflows[k], f, like)
    ensures |r| <= |order|
  {
    if order == [] then []
    else
      var last := order[|order| - 1];
      assert forall k :: k in order <==> k in order[..|order| - 1] || k == last;
      (if Matches(db.workflows[last], f, like) then [last] else []) + NewestFirst(db, order[..|order| - 1], f, like)
  }

  /** The matching ids in list order. */
  function Listing(db: Db, f: ListFilters, like: (string, string) -> bool): seq<string>
    requires WellFormed(db)
  {
    NewestFirst(db, db.workflowOrder, f, like)
  }

  /** `listWorkflows(limit, offset, filters)`: the matching rows newest first, `offset` skipped, at most `limit` kept. */
  function ListWorkflows(db: Db, limit: nat, offset: nat, f: ListFilters, like: (string, string) -> bool): seq<Workflow>
    requires WellFormed(db)
  {
    var ids := Listing(db, f, like);
    var lo := if offset < |ids| then offset else |ids|;
    var hi := if offset + limit < |ids| then offset + limit else |ids|;
    seq(hi - lo, i requires 0 <= i < hi - lo => RowToWorkflow(db.workflows[ids[lo + i]]))
  }

  /** `countWorkflows(filters)`. */
  function CountWorkflows(db: Db, f: ListFilters, like: (string, string) -> bool): nat
    requires WellFormed(db)
  {
    |Listing(db, f, like)|
  }

  /**
   * A page holds `min(limit, count - offset)` workflows (none past the end),
   * the i-th being the (offset + i)-th matching one; every listed workflow
   * passes both filters; and with no offset and a large enough limit the
   * page holds every stored workflow that matches.
   */
  lemma ListPage(db: Db, limit: nat, offset: nat, f: ListFilters, like: (string, string) -> bool)
    requires WellFormed(db)
    ensures var page := ListWorkflows(db, limit, offset, f, like);
      var count := CountWorkflows(db, f, like);
      && |page| == (if offset >= count then 0 else if offset + limit <= count then limit else count - offset)
      && (forall i :: 0 <= i < |page| ==> page[i] == RowToWorkflow(db.workflows[Listing(db, f, like)[offset + i]]))
      && (forall i :: 0 <= i < |page| ==> Matches(db.workflows[page[i].id], f, like))
      && (offset == 0 && limit >= count ==>
            forall k :: k in db.workflows && Matches(db.workflows[k], f, like) ==> exists i :: 0 <= i < |page| && page[i].id == k)
  {
    PageMatches(db, limit, offset, f, like);
    if offset == 0 && limit >= CountWorkflows(db, f, like) {
      PageComplete(db, limit, f, like);
    }
  }

  /** Every row of a page passes the filters. */
  lemma PageMatches(db: Db, limit: nat, offset: nat, f: ListFilters, like: (string, string) -> bool)
    requires WellFormed(db)
    ensures var page := ListWorkflows(db, limit, offset, f, like);
      forall i :: 0 <= i < |page| ==> page[i].id in db.workflows && Matches(db.workflows[page[i].id], f, like)
  {
    var ids := Listing(db, f, like);
    var page := ListWorkflows(db, limit, offset, f, like);
    forall i | 0 <= i < |page| ensures page[i].id in db.workflows && Matches(db.workflows[page[i].id], f, like) {
      assert page[i] == RowToWorkflow(db.workflows[ids[offset + i]]);
      assert ids[offset + i] in ids;
    }
  }

  /** A first page as long as the listing holds every matching workflow. */
  lemma PageComplete(db: Db, limit: nat, f: ListFilters, like: (string, string) -> bool)
    requires WellFormed(db) && limit >= CountWorkflows(db, f, like)
    ensures var page := ListWorkflows(db, limit, 0, f, like);
      forall k :: k in db.workflows && Matches(db.workflows[k], f, like) ==> exists i :: 0 <= i < |page| && page[i].id == k
  {
    var ids := Listing(db, f, like);
    var page := ListWorkflows(db, limit, 0, f, like);
    forall k | k in db.workflows && Matches(db.workflows[k], f, like) ensures exists i :: 0 <= i < |page| && page[i].id == k {
      var i :| 0 <= i < |ids| && ids[i] == k;
      assert page[i] == RowToWorkflow(db.workflows[ids[i]]);
    }
  }

  /** With neither a status nor a non-blank search term, every stored workflow is counted. */
  lemma UnfilteredCountsAll(db: Db, q: Option<string>, like: (string, string) -> bool)
    requires WellFormed(db)
    requires q.None? || IsBlank(q.value)
    ensures forall k :: k in db.workflows <==> k in Listing(db, ListFilters(None, q), like)
  {
  }

  /** Insertion order never runs against creation time. */
  ghost predicate ClockOrdered(db: Db)
    requires WellFormed(db)
  {
    Ascending(db, db.workflowOrder)
  }

  /** Creation stamps never decrease along `order`. */
  ghost predicate Ascending(db: Db, order: seq<string>)
    requires forall k :: k in order ==> k in db.workflows
  {
    forall i, j :: 0 <= i < j < |order| ==> db.workflows[order[i]].created_at <= db.workflows[order[j]].created_at
  }

  /** Creation stamps never increase along `order`. */
  ghost predicate Descending(db: Db, order: seq<string>)
    requires forall k :: k in order ==> k in db.workflows
  {
    forall i, j :: 0 <= i < j < |order| ==> db.workflows[order[i]].created_at >= db.workflows[order[j]].created_at
  }

  lemma {:induction false} NewestFirstOrder(db: Db, order: seq<string>, f: ListFilters, like: (string, string) -> bool)
    requires forall k :: k in order ==> k in db.workflows
    requires Ascending(db, order)
    ensures Descending(db, NewestFirst(db, order, f, like))
    decreases |order|
  {
    if order != [] {
      var init := order[..|order| - 1];
      var last := order[|order| - 1];
      assert Ascending(db, init) by {
        forall i, j | 0 <= i < j < |init| ensures db.workflows[init[i]].created_at <= db.workflows[init[j]].created_at {
          assert init[i] == order[i] && init[j] == order[j];
        }
      }
      NewestFirstOrder(db, init, f, like);
      var rest := NewestFirst(db, init, f, like);
      if Matches(db.workflows[last], f, like) {
        LastIsNewest(db, order, rest);
        PrependNewest(db, last, rest);
      }
    }
  }

  lemma LastIsNewest(db: Db, order: seq<string>, rest: seq<string>)
    requires order != [] && forall k :: k in order ==> k in db.workflows
    requires Ascending(db, order)
    requires forall k :: k in rest ==> k in order[..|order| - 1]
    ensures forall k :: k in rest ==> db.workflows[k].created_at <= db.workflows[order[|order| - 1]].created_at
  {
    forall k | k in rest ensures db.workflows[k].created_at <= db.workflows[order[|order| - 1]].created_at {
      var j :| 0 <= j < |order| - 1 && order[..|order| - 1][j] == k;
      assert order[j] == k;
    }
  }

  lemma PrependNewest(db: Db, last: string, rest: seq<string>)
    requires last in db.workflows && forall k :: k in rest ==> k in db.workflows
    requires Descending(db, rest)
    requires forall k :: k in rest ==> db.workflows[k].created_at <= db.workflows[last].created_at
    ensures Descending(db, [last] + rest)
  {
    var r := [last] + rest;
    forall a, b | 0 <= a < b < |r| ensures db.workflows[r[a]].created_at >= db.workflows[r[b]].created_at {
      assert r[b] == rest[b - 1];
      if a > 0 {
        assert r[a] == rest[a - 1];
      }
    }
  }

  /** `ORDER BY created_at DESC`: when stamps follow insertion, each page runs newest first. */
  lemma ListNewestFirst(db: Db, limit: nat, offset: nat, f: ListFilters, like: (string, string) -> bool)
    requires WellFormed(db) && ClockOrdered(db)
    ensures var page := ListWorkflows(db, limit, offset, f, like);
      forall a, b :: 0 <= a < b < |page| ==> page[a].createdAt >= page[b].createdAt
  {
    NewestFirstOrder(db, db.workflowOrder, f, like);
    ListPage(db, limit, offset, f, like);
    var ids := Listing(db, f, like);
    var page := ListWorkflows(db, limit, offset, f, like);
    forall a, b | 0 <= a < b < |page| ensures page[a].createdAt >= page[b].createdAt {
      assert page[a] == RowToWorkflow(db.workflows[ids[offset + a]]);
      assert page[b] == RowToWorkflow(db.workflows[ids[offset + b]]);
    }
  }
}
