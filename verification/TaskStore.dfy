/** The task store object over its table. A mutation is two calls: Check when it arrives, Write
    when the table runs the update. */
module TaskStore {
  import opened Collections
  import opened TaskStoreModel

  class Store {
    var table: map<string, Task>

    constructor ()
      ensures table == map[]
    {
      table := map[];
    }

    /** A time stamp that is later than the previous one even if the clock is not. */
    static method Timestamp(now: int, previous: Option<int>) returns (at: Result<int>)
      ensures at == Stamp(now, previous)
      ensures at.Ok? ==> at.value >= now && (previous.Some? ==> at.value > previous.value)
    {
      var floor := 0;
      if previous.Some? { floor := previous.value + 1; }
      var t := now;
      if floor > t { t := floor; }
      at := if t > MAX_TIME then Err(TimeOutOfRange) else Ok(t);
    }

    /** Try up to eight generated ids. */
    method AllocateId(candidates: seq<string>) returns (id: Result<string>)
      requires |candidates| >= MAX_ATTEMPTS
      ensures id == Allocate(table, candidates, 0)
      ensures id.Ok? ==> id.value !in table && SafeId(id.value)
    {
      var attempt := 0;
      id := Err(IdCollision);
      while attempt < MAX_ATTEMPTS
        invariant attempt <= MAX_ATTEMPTS && id == Err(IdCollision)
        invariant Allocate(table, candidates, 0) == Allocate(table, candidates, attempt)
      {
        var candidate := candidates[attempt];
        if !SafeId(candidate) {
          return Err(InvalidIdFactory);
        }
        if candidate !in table {
          return Ok(candidate);
        }
        attempt := attempt + 1;
      }
    }

    method CreateTask(input: Input, candidates: seq<string>, now: int) returns (r: Result<Task>)
      requires |candidates| >= MAX_ATTEMPTS
      modifies this
      ensures (table, r) == Create(old(table), input, candidates, now)
    {
      hide InputOk, Allocate, SafeId;
      if input.title.None? || !InputOk(input) {
        return Err(InvalidRequest);
      }
      var id := AllocateId(candidates);
      if id.Err? {
        return Err(id.error);
      }
      var at := Timestamp(now, None);
      if at.Err? {
        return Err(at.error);
      }
      var goal := if input.goal.Some? then input.goal.value else "";
      var workspace := if input.workspace.Some? then input.workspace.value else "";
      var summary := if input.summary.Some? then input.summary.value else "";
      var plan := if input.plan.Some? then input.plan.value else [];
      var nextSteps := if input.nextSteps.Some? then input.nextSteps.value else [];
      var references := if input.references.Some? then input.references.value else [];
      var task := Task(id.value, input.title.value, Active, goal, workspace, summary, plan, nextSteps, references, 1,
          at.value, at.value, None, []);
      table := table[id.value := task];
      r := Ok(task);
    }

    /** The check a mutation makes when it arrives. */
    method Check(m: Mutation) returns (c: TaskStoreModel.Check)
      ensures c == Precheck(table, m)
      ensures c.Proceed? ==> m.id in table && table[m.id].revision == m.ifRevision
    {
      hide RequestOk;
      if !RequestOk(m) {
        return Refused(InvalidRequest);
      }
      if m.id !in table {
        return Refused(NotFound);
      }
      var current := table[m.id];
      if current.revision != m.ifRevision {
        return Refused(RevisionConflict);
      }
      if m.Transition? {
        if m.target == Active && current.status == Completed { return Refused(InvalidTransition); }
        if m.target == Paused && current.status == Completed { return Refused(InvalidTransition); }
        if current.status == m.target { return Unchanged(current); }
      }
      return Proceed;
    }

    /** The atomic update, which checks the revision and the transition again. */
    method Write(m: Mutation, now: int) returns (r: Result<Task>)
      modifies this
      ensures (table, r) == Commit(old(table), m, now)
    {
      if m.id !in table {
        return Err(NotFound);
      }
      var task := table[m.id];
      if task.revision != m.ifRevision {
        return Err(RevisionConflict);
      }
      if m.Transition? && task.status == Completed && m.target != Completed {
        return Err(InvalidTransition);
      }
      var at := Timestamp(now, Some(task.updatedAt));
      if at.Err? {
        return Err(at.error);
      }
      var next := task;
      match m {
        case Update(_, _, p) =>
          next := ApplyPatch(next, p);
        case AddCheckpoint(_, _, i) =>
          var entry := Checkpoint(task.revision + 1, at.value, Get(i.summary, ""), Get(i.nextSteps, []),
              Get(i.references, []));
          var entries := task.checkpoints + [entry];
          if |entries| > MAX_CHECKPOINTS { entries := entries[|entries| - MAX_CHECKPOINTS..]; }
          next := next.(summary := entry.summary, nextSteps := entry.nextSteps, references := entry.references,
              checkpoints := entries);
          if i.plan.Some? { next := next.(plan := i.plan.value); }
        case Transition(_, _, target) =>
          next := next.(status := target, completedAt := if target == Completed then Some(at.value) else None);
      }
      next := next.(revision := task.revision + 1, updatedAt := at.value);
      table := table[m.id := next];
      r := Ok(next);
    }

    static method ApplyPatch(task: Task, p: Input) returns (next: Task)
      ensures next == Patched(task, p, task.updatedAt).(revision := task.revision)
    {
      next := task;
      if p.title.Some? { next := next.(title := p.title.value); }
      if p.goal.Some? { next := next.(goal := p.goal.value); }
      if p.workspace.Some? { next := next.(workspace := p.workspace.value); }
      if p.summary.Some? { next := next.(summary := p.summary.value); }
      if p.plan.Some? { next := next.(plan := p.plan.value); }
      if p.nextSteps.Some? { next := next.(nextSteps := p.nextSteps.value); }
      if p.references.Some? { next := next.(references := p.references.value); }
    }
  }
}
