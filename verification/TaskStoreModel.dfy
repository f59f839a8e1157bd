/** The task table: creation, optimistic mutations in two steps (a check against the table,
    later an atomic update that checks again), and the reader that accepts stored records.
    Times are milliseconds. */
module TaskStoreModel {
  import opened Collections
  import opened JsText

  const MAX_CHECKPOINTS: nat := 20
  const MAX_SAFE: int := 9007199254740991
  const MAX_TIME: int := 8640000000000000
  const MAX_ATTEMPTS: nat := 8
  const ID_CHARS: nat := 128

  datatype Status = Active | Paused | Completed

  datatype Checkpoint = Checkpoint(
    revision: int, at: int, summary: string, nextSteps: seq<string>, references: seq<string>)

  datatype Task = Task(
    id: string, title: string, status: Status, goal: string, workspace: string, summary: string,
    plan: seq<string>, nextSteps: seq<string>, references: seq<string>,
    revision: int, createdAt: int, updatedAt: int, completedAt: Option<int>, checkpoints: seq<Checkpoint>)

  datatype Error =
    | InvalidRequest | NotFound | RevisionConflict | InvalidTransition
    | InvalidIdFactory | IdCollision | TimeOutOfRange | InvalidRecord

  datatype Result<+T> = Ok(value: T) | Err(error: Error)

  /** Arguments that may be left out. */
  datatype Input = Input(
    title: Option<string>, goal: Option<string>, workspace: Option<string>, summary: Option<string>,
    plan: Option<seq<string>>, nextSteps: Option<seq<string>>, references: Option<seq<string>>)

  datatype Mutation =
    | Update(id: string, ifRevision: int, patch: Input)
    | AddCheckpoint(id: string, ifRevision: int, input: Input)
    | Transition(id: string, ifRevision: int, target: Status)

  type Table = map<string, Task>

  // --------------------------------------------------------------- validation

  predicate IdChar(c: char) { 'A' <= c <= 'Z' || 'a' <= c <= 'z' || '0' <= c <= '9' || c == '_' || c == '-' }

  /** The shape of a generated id: a fixed prefix and at least one more character. */
  predicate SafeId(id: string) {
    |id| > 5 && id[..5] == "task_" && forall i :: 5 <= i < |id| ==> IdChar(id[i])
  }

  predicate CallId(id: string) { !Blank(id) && |id| <= ID_CHARS && SafeId(id) }

  predicate SafeRevision(r: int) { 1 <= r <= MAX_SAFE }

  predicate TextOk(s: string, max: nat) { |s| <= max }

  predicate NonBlankText(s: string, max: nat) { !Blank(s) && |s| <= max }

  predicate ListOk(items: seq<string>, maxItems: nat, maxItem: nat) {
    |items| <= maxItems && forall i :: 0 <= i < |items| ==> |items[i]| <= maxItem
  }

  predicate TitleOk(s: string) { NonBlankText(s, 200) }
  predicate GoalOk(s: string) { TextOk(s, 4000) }
  predicate WorkspaceOk(s: string) { TextOk(s, 4096) }
  predicate SummaryOk(s: string) { TextOk(s, 12000) }
  predicate PlanOk(l: seq<string>) { ListOk(l, 100, 1000) }
  predicate StepsOk(l: seq<string>) { ListOk(l, 50, 1000) }
  predicate ReferencesOk(l: seq<string>) { ListOk(l, 50, 1000) }

  /** Every argument given is acceptable. */
  predicate InputOk(i: Input) {
    && (i.title.Some? ==> TitleOk(i.title.value))
    && (i.goal.Some? ==> GoalOk(i.goal.value))
    && (i.workspace.Some? ==> WorkspaceOk(i.workspace.value))
    && (i.summary.Some? ==> SummaryOk(i.summary.value))
    && (i.plan.Some? ==> PlanOk(i.plan.value))
    && (i.nextSteps.Some? ==> StepsOk(i.nextSteps.value))
    && (i.references.Some? ==> ReferencesOk(i.references.value))
  }

  /** A checkpoint needs a summary; only these four arguments are looked at. */
  predicate CheckpointInputOk(i: Input) {
    && i.summary.Some? && NonBlankText(i.summary.value, 12000)
    && (i.nextSteps.Some? ==> StepsOk(i.nextSteps.value))
    && (i.references.Some? ==> ReferencesOk(i.references.value))
    && (i.plan.Some? ==> PlanOk(i.plan.value))
  }

  predicate IsEmpty(i: Input) {
    i.title.None? && i.goal.None? && i.workspace.None? && i.summary.None? && i.plan.None? && i.nextSteps.None?
        && i.references.None?
  }

  function Get<T>(o: Option<T>, default: T): T { if o.Some? then o.value else default }

  // --------------------------------------------------------------------- time

  /** The next time stamp: now, or just after the previous one if the clock went back. */
  function Stamp(now: int, previous: Option<int>): Result<int> {
    var floor := if previous.Some? then previous.value + 1 else 0;
    var t := if now > floor then now else floor;
    if t > MAX_TIME then Err(TimeOutOfRange) else Ok(t)
  }

  // ----------------------------------------------------------------- creation

  /** The first unused candidate among eight. */
  function Allocate(table: Table, candidates: seq<string>, attempt: nat): Result<string>
    requires attempt <= MAX_ATTEMPTS <= |candidates|
    decreases MAX_ATTEMPTS - attempt
  {
    if attempt == MAX_ATTEMPTS then Err(IdCollision)
    else if !SafeId(candidates[attempt]) then Err(InvalidIdFactory)
    else if candidates[attempt] !in table then Ok(candidates[attempt])
    else Allocate(table, candidates, attempt + 1)
  }

  function NewTask(id: string, i: Input, at: int): Task
    requires i.title.Some?
  {
    Task(id, i.title.value, Active, Get(i.goal, ""), Get(i.workspace, ""), Get(i.summary, ""),
         Get(i.plan, []), Get(i.nextSteps, []), Get(i.references, []), 1, at, at, None, [])
  }

  function Create(table: Table, i: Input, candidates: seq<string>, now: int): (Table, Result<Task>)
    requires |candidates| >= MAX_ATTEMPTS
  {
    if i.title.None? || !InputOk(i) then (table, Err(InvalidRequest))
    else
      var id := Allocate(table, candidates, 0);
      if id.Err? then (table, Err(id.error))
      else
        var at := Stamp(now, None);
        if at.Err? then (table, Err(at.error))
        else (table[id.value := NewTask(id.value, i, at.value)], Ok(NewTask(id.value, i, at.value)))
  }

  // ---------------------------------------------------------------- mutations

  datatype Check = Refused(error: Error) | Unchanged(task: Task) | Proceed

  predicate RequestOk(m: Mutation) {
    && CallId(m.id) && SafeRevision(m.ifRevision)
    && match m
       case Update(_, _, patch) => InputOk(patch) && !IsEmpty(patch)
       case AddCheckpoint(_, _, i) => CheckpointInputOk(i)
       case Transition(_, _, _) => true
  }

  predicate MayTransition(from: Status, target: Status) { from.Completed? ==> target.Completed? }

  /** The first step: against the table as it is when the call arrives. */
  function Precheck(table: Table, m: Mutation): Check {
    if !RequestOk(m) then Refused(InvalidRequest)
    else if m.id !in table then Refused(NotFound)
    else if table[m.id].revision != m.ifRevision then Refused(RevisionConflict)
    else if m.Transition? && !MayTransition(table[m.id].status, m.target) then Refused(InvalidTransition)
    else if m.Transition? && table[m.id].status == m.target then Unchanged(table[m.id])
    else Proceed
  }

  function Patched(t: Task, p: Input, at: int): Task {
    t.(title := Get(p.title, t.title), goal := Get(p.goal, t.goal), workspace := Get(p.workspace, t.workspace),
       summary := Get(p.summary, t.summary), plan := Get(p.plan, t.plan), nextSteps := Get(p.nextSteps, t.nextSteps),
       references := Get(p.references, t.references), revision := t.revision + 1, updatedAt := at)
  }

  function LastTwenty(c: seq<Checkpoint>): seq<Checkpoint> {
    if |c| <= MAX_CHECKPOINTS then c else c[|c| - MAX_CHECKPOINTS..]
  }

  function CheckpointOf(t: Task, i: Input, at: int): Checkpoint {
    Checkpoint(t.revision + 1, at, Get(i.summary, ""), Get(i.nextSteps, []), Get(i.references, []))
  }

  function Checkpointed(t: Task, i: Input, at: int): Task {
    var c := CheckpointOf(t, i, at);
    t.(summary := c.summary, nextSteps := c.nextSteps, references := c.references, plan := Get(i.plan, t.plan),
       checkpoints := LastTwenty(t.checkpoints + [c]), revision := c.revision, updatedAt := at)
  }

  function Moved(t: Task, target: Status, at: int): Task {
    t.(status := target, revision := t.revision + 1, updatedAt := at,
        completedAt := if target.Completed? then Some(at) else None)
  }

  /** The second step: atomic, against the task as it is by then. */
  function Change(t: Task, m: Mutation, now: int): Result<Task> {
    if t.revision != m.ifRevision then Err(RevisionConflict)
    else if m.Transition? && !MayTransition(t.status, m.target) then Err(InvalidTransition)
    else
      var at := Stamp(now, Some(t.updatedAt));
      if at.Err? then Err(at.error)
      else
        match m
        case Update(_, _, patch) => Ok(Patched(t, patch, at.value))
        case AddCheckpoint(_, _, i) => Ok(Checkpointed(t, i, at.value))
        case Transition(_, _, target) => Ok(Moved(t, target, at.value))
  }

  function Commit(table: Table, m: Mutation, now: int): (Table, Result<Task>) {
    if m.id !in table then (table, Err(NotFound))
    else
      var r := Change(table[m.id], m, now);
      if r.Err? then (table, r) else (table[m.id := r.value], r)
  }

  // ------------------------------------------------------------------ reading

  predicate TimeOk(t: int) { -MAX_TIME <= t <= MAX_TIME }

  predicate CheckpointOk(c: Checkpoint, revision: int) {
    && 2 <= c.revision <= revision && c.revision <= MAX_SAFE && TimeOk(c.at)
    && NonBlankText(c.summary, 12000) && StepsOk(c.nextSteps) && ReferencesOk(c.references)
  }

  predicate FieldsOk(t: Task) {
    && TitleOk(t.title) && GoalOk(t.goal) && WorkspaceOk(t.workspace) && SummaryOk(t.summary)
    && PlanOk(t.plan) && StepsOk(t.nextSteps) && ReferencesOk(t.references)
  }

  /** What the reader demands of a stored record. */
  predicate Readable(t: Task) {
    && CallId(t.id) && SafeRevision(t.revision)
    && TimeOk(t.createdAt) && TimeOk(t.updatedAt) && (t.completedAt.Some? ==> TimeOk(t.completedAt.value))
    && (t.status.Completed? <==> t.completedAt.Some?)
    && |t.checkpoints| <= MAX_CHECKPOINTS
    && (forall i :: 0 <= i < |t.checkpoints| ==> CheckpointOk(t.checkpoints[i], t.revision))
    && FieldsOk(t)
  }

  function ParseStoredTask(t: Task): Result<Task> {
    if Readable(t) then Ok(t) else Err(InvalidRecord)
  }
}
