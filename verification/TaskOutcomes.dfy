/** What each task call answers and what it leaves in the record, field by field, and over runs:
    what every creation and every write that took effect stored. */
module TaskOutcomes {
  import opened Collections
  import opened JsText
  import opened TaskStoreModel
  import opened TaskStoreProofs

  // ------------------------------------------------------------------- limits

  predicate Within(items: seq<string>, count: nat, chars: nat) {
    |items| <= count && forall x :: x in items ==> |x| <= chars
  }

  /** What the arguments of a creation or an update may be. */
  ghost predicate Acceptable(i: Input) {
    && (i.title.Some? ==> Trim(i.title.value) != "" && |i.title.value| <= 200)
    && (i.goal.Some? ==> |i.goal.value| <= 4000)
    && (i.workspace.Some? ==> |i.workspace.value| <= 4096)
    && (i.summary.Some? ==> |i.summary.value| <= 12000)
    && (i.plan.Some? ==> Within(i.plan.value, 100, 1000))
    && (i.nextSteps.Some? ==> Within(i.nextSteps.value, 50, 1000))
    && (i.references.Some? ==> Within(i.references.value, 50, 1000))
  }

  lemma ListOkIs(l: seq<string>, count: nat, chars: nat)
    ensures ListOk(l, count, chars) <==> Within(l, count, chars)
  {
    if ListOk(l, count, chars) {
      forall x | x in l ensures |x| <= chars {
        var i :| 0 <= i < |l| && l[i] == x;
      }
    }
  }

  lemma InputOkIs(i: Input)
    ensures InputOk(i) <==> Acceptable(i)
  {
    hide ListOk, Within, Trim;
    ListOkIs(Get(i.plan, []), 100, 1000);
    ListOkIs(Get(i.nextSteps, []), 50, 1000);
    ListOkIs(Get(i.references, []), 50, 1000);
  }

  /** A letter, a digit, an underscore or a dash, by its code. */
  predicate Plain(c: char) {
    var n := c as int;
    65 <= n <= 90 || 97 <= n <= 122 || 48 <= n <= 57 || n == 95 || n == 45
  }

  lemma IdCharIs(c: char)
    ensures IdChar(c) <==> Plain(c)
  {
  }

  /** A task id is a fixed prefix and at least one letter, digit, underscore or dash. */
  lemma SafeIdIs(id: string)
    ensures SafeId(id) <==> |id| >= 6 && id[..5] == "task_" && forall c :: c in id[5..] ==> Plain(c)
  {
    hide IdChar, Plain;
    if |id| >= 6 {
      forall c ensures IdChar(c) <==> Plain(c) {
        IdCharIs(c);
      }
      if SafeId(id) {
        forall c | c in id[5..] ensures IdChar(c) {
          var i :| 0 <= i < |id[5..]| && id[5..][i] == c;
          assert id[i + 5] == c;
        }
      } else if id[..5] == "task_" {
        var i :| 5 <= i < |id| && !IdChar(id[i]);
        assert id[5..][i - 5] == id[i];
      }
    }
  }

  /** A call that names a task and its revision, and says something. */
  ghost predicate Sensible(m: Mutation) {
    && Trim(m.id) != "" && |m.id| <= 128 && SafeId(m.id) && 1 <= m.ifRevision <= 9007199254740991
    && match m
       case Update(_, _, p) =>
         && Acceptable(p)
         && (p.title.Some? || p.goal.Some? || p.workspace.Some? || p.summary.Some? || p.plan.Some?
             || p.nextSteps.Some? || p.references.Some?)
       case AddCheckpoint(_, _, i) =>
         && i.summary.Some? && Trim(i.summary.value) != "" && |i.summary.value| <= 12000
         && (i.plan.Some? ==> Within(i.plan.value, 100, 1000))
         && (i.nextSteps.Some? ==> Within(i.nextSteps.value, 50, 1000))
         && (i.references.Some? ==> Within(i.references.value, 50, 1000))
       case Transition(_, _, _) => true
  }

  lemma RequestOkIs(m: Mutation)
    ensures RequestOk(m) <==> Sensible(m)
  {
    hide ListOk, Within, Trim, Acceptable, InputOk, SafeId;
    match m
    case Update(_, _, p) => InputOkIs(p);
    case AddCheckpoint(_, _, i) =>
      ListOkIs(Get(i.plan, []), 100, 1000);
      ListOkIs(Get(i.nextSteps, []), 50, 1000);
      ListOkIs(Get(i.references, []), 50, 1000);
    case Transition(_, _, _) =>
  }

  // ------------------------------------------------------------------- reading

  predicate DateRange(t: int) { -8640000000000000 <= t <= 8640000000000000 }

  /** What a record has to be for the reader to accept it. */
  ghost predicate WellFormed(t: Task) {
    && Trim(t.id) != "" && |t.id| <= 128 && SafeId(t.id) && 1 <= t.revision <= 9007199254740991
    && DateRange(t.createdAt) && DateRange(t.updatedAt)
    && (match t.completedAt case Some(at) => t.status == Completed && DateRange(at) case None => t.status != Completed)
    && Acceptable(Input(Some(t.title), Some(t.goal), Some(t.workspace), Some(t.summary), Some(t.plan),
         Some(t.nextSteps),
                        Some(t.references)))
    && |t.checkpoints| <= 20
    && forall c :: c in t.checkpoints ==>
         && 2 <= c.revision <= t.revision && DateRange(c.at)
         && Trim(c.summary) != "" && |c.summary| <= 12000
         && Within(c.nextSteps, 50, 1000) && Within(c.references, 50, 1000)
  }

  lemma CheckpointOkIs(c: Checkpoint, revision: int)
    requires 1 <= revision <= MAX_SAFE
    ensures CheckpointOk(c, revision) <==>
              && 2 <= c.revision <= revision && DateRange(c.at)
              && Trim(c.summary) != "" && |c.summary| <= 12000
              && Within(c.nextSteps, 50, 1000) && Within(c.references, 50, 1000)
  {
    hide ListOk, Within, Trim;
    ListOkIs(c.nextSteps, 50, 1000);
    ListOkIs(c.references, 50, 1000);
  }

  /** The reader returns a well-formed record as it is and rejects any other. */
  lemma ReaderExactly(t: Task)
    ensures ParseStoredTask(t) == if WellFormed(t) then Ok(t) else Err(InvalidRecord)
  {
    hide CheckpointOk, ListOk, Within, Trim, SafeId, Acceptable, InputOk, DateRange;
    InputOkIs(
      Input(Some(t.title), Some(t.goal), Some(t.workspace), Some(t.summary), Some(t.plan), Some(t.nextSteps),
            Some(t.references)));
    FieldsAre(t);
    TimesAre(t);
    if 1 <= t.revision <= MAX_SAFE {
      forall c | c in t.checkpoints
        ensures CheckpointOk(c, t.revision) <==>
                  && 2 <= c.revision <= t.revision && DateRange(c.at)
                  && Trim(c.summary) != "" && |c.summary| <= 12000
                  && Within(c.nextSteps, 50, 1000) && Within(c.references, 50, 1000)
      {
        CheckpointOkIs(c, t.revision);
      }
      if forall i :: 0 <= i < |t.checkpoints| ==> CheckpointOk(t.checkpoints[i], t.revision) {
        forall c | c in t.checkpoints ensures CheckpointOk(c, t.revision) {
          var i :| 0 <= i < |t.checkpoints| && t.checkpoints[i] == c;
        }
      }
    }
  }

  lemma FieldsAre(t: Task)
    ensures FieldsOk(t) <==>
      InputOk(Input(Some(t.title), Some(t.goal), Some(t.workspace), Some(t.summary), Some(t.plan), Some(t.nextSteps),
                    Some(t.references)))
  {
    hide TitleOk, GoalOk, WorkspaceOk, SummaryOk, PlanOk, StepsOk, ReferencesOk;
  }

  lemma TimesAre(t: Task)
    ensures TimeOk(t.createdAt) <==> DateRange(t.createdAt)
    ensures TimeOk(t.updatedAt) <==> DateRange(t.updatedAt)
    ensures t.completedAt.Some? ==> (TimeOk(t.completedAt.value) <==> DateRange(t.completedAt.value))
  {
  }

  // ----------------------------------------------------------------- creation

  /** The k-th candidate is looked at: all before it are well formed and taken. */
  ghost predicate Reached(table: Table, candidates: seq<string>, k: nat)
    requires k < MAX_ATTEMPTS <= |candidates|
  {
    forall j :: 0 <= j < k ==> SafeId(candidates[j]) && candidates[j] in table
  }

  ghost predicate Usable(table: Table, candidates: seq<string>, k: nat)
    requires k < MAX_ATTEMPTS <= |candidates|
  {
    Reached(table, candidates, k) && SafeId(candidates[k]) && candidates[k] !in table
  }

  lemma {:induction false} AllocateExactly(table: Table, candidates: seq<string>, attempt: nat)
    requires attempt <= MAX_ATTEMPTS <= |candidates|
    requires forall j :: 0 <= j < attempt ==> SafeId(candidates[j]) && candidates[j] in table
    ensures var r := Allocate(table, candidates, attempt);
            && (r.Ok? <==> exists k: nat :: k < MAX_ATTEMPTS && Usable(table, candidates, k))
            && (forall k: nat :: k < MAX_ATTEMPTS && Usable(table, candidates, k) ==> r == Ok(candidates[k]))
            && (r.Err? ==> r.error == InvalidIdFactory || r.error == IdCollision)
            && (r == Err(InvalidIdFactory) <==>
                  exists k: nat :: k < MAX_ATTEMPTS && Reached(table, candidates, k) && !SafeId(candidates[k]))
    decreases MAX_ATTEMPTS - attempt
  {
    hide SafeId;
    if attempt < MAX_ATTEMPTS {
      assert Reached(table, candidates, attempt);
      if SafeId(candidates[attempt]) && candidates[attempt] in table {
        AllocateExactly(table, candidates, attempt + 1);
      } else if SafeId(candidates[attempt]) {
        assert Usable(table, candidates, attempt);
      }
    }
  }

  /** The record of a new task: what was given, and nothing else. */
  ghost predicate StoresGiven(t: Task, i: Input) {
    && i.title == Some(t.title) && t.status.Active?
    && t.goal == (if i.goal.Some? then i.goal.value else "")
    && t.workspace == (if i.workspace.Some? then i.workspace.value else "")
    && t.summary == (if i.summary.Some? then i.summary.value else "")
    && t.plan == (if i.plan.Some? then i.plan.value else [])
    && t.nextSteps == (if i.nextSteps.Some? then i.nextSteps.value else [])
    && t.references == (if i.references.Some? then i.references.value else [])
    && t.revision == 1 && t.completedAt == None && t.checkpoints == []
  }

  /** A creation succeeds exactly with a title, acceptable arguments, a usable candidate and a
      time in range; it stores what was given under the first usable candidate; otherwise it says
      what was wrong, and changes nothing. */
  lemma CreateExactly(table: Table, i: Input, candidates: seq<string>, now: int)
    requires |candidates| >= MAX_ATTEMPTS
    ensures var (after, r) := Create(table, i, candidates, now);
            var good := i.title.Some? && Acceptable(i);
            var found := exists k: nat :: k < MAX_ATTEMPTS && Usable(table, candidates, k);
            && (r.Ok? <==> good && found && now <= MAX_TIME)
            && (r == Err(InvalidRequest) <==> !good)
            && (r == Err(TimeOutOfRange) <==> good && found && now > MAX_TIME)
            && (r == Err(InvalidIdFactory) <==>
                  good && exists k: nat :: k < MAX_ATTEMPTS && Reached(table, candidates, k) && !SafeId(candidates[k]))
            && (r.Err? ==> after == table && r.error in {InvalidRequest, TimeOutOfRange, InvalidIdFactory, IdCollision})
            && (r.Ok? ==>
                  && after == table[r.value.id := r.value] && r.value.id !in table && StoresGiven(r.value, i)
                  && r.value.createdAt == r.value.updatedAt == (if now > 0 then now else 0)
                  && forall k: nat :: k < MAX_ATTEMPTS && Usable(table, candidates, k) ==> r.value.id == candidates[k])
  {
    hide Allocate, Usable, Reached, Acceptable, InputOk, SafeId;
    InputOkIs(i);
    AllocateExactly(table, candidates, 0);
    AllocatedIsFree(table, candidates, 0);
  }

  // ---------------------------------------------------------------- mutations

  /** The answer to a call when it arrives, before anything is written. */
  lemma PrecheckExactly(table: Table, m: Mutation)
    ensures var known := m.id in table;
            var current := known && table[m.id].revision == m.ifRevision;
            var reopens := current && m.Transition? && table[m.id].status.Completed? && !m.target.Completed?;
            var moot := current && m.Transition? && table[m.id].status == m.target;
            var r := Precheck(table, m);
            && (r == Refused(InvalidRequest) <==> !Sensible(m))
            && (r == Refused(NotFound) <==> Sensible(m) && !known)
            && (r == Refused(RevisionConflict) <==> Sensible(m) && known && !current)
            && (r == Refused(InvalidTransition) <==> Sensible(m) && reopens)
            && (r.Unchanged? <==> Sensible(m) && moot) && (r.Unchanged? ==> r.task == table[m.id])
            && (r == Proceed <==> Sensible(m) && current && !reopens && !moot)
  {
    hide RequestOk, Sensible;
    RequestOkIs(m);
  }

  predicate Given<T(==)>(o: Option<T>, before: T, after: T) { after == if o.Some? then o.value else before }

  /** What a write that took effect did to the record. */
  ghost predicate WriteSays(m: Mutation, a: Task, b: Task) {
    && b.id == a.id && b.createdAt == a.createdAt && b.revision == a.revision + 1
    && match m
       case Update(_, _, p) =>
         && Given(p.title, a.title, b.title) && Given(p.goal, a.goal, b.goal)
         && Given(p.workspace, a.workspace, b.workspace) && Given(p.summary, a.summary, b.summary)
         && Given(p.plan, a.plan, b.plan) && Given(p.nextSteps, a.nextSteps, b.nextSteps)
         && Given(p.references, a.references, b.references)
         && b.status == a.status && b.completedAt == a.completedAt && b.checkpoints == a.checkpoints
       case AddCheckpoint(_, _, i) =>
         && i.summary == Some(b.summary) && Given(i.plan, a.plan, b.plan)
         && Given(i.nextSteps, [], b.nextSteps) && Given(i.references, [], b.references)
         && b.title == a.title && b.goal == a.goal && b.workspace == a.workspace
         && b.status == a.status && b.completedAt == a.completedAt
         && var all := a.checkpoints + [Checkpoint(b.revision, b.updatedAt, b.summary, b.nextSteps, b.references)];
            b.checkpoints == if |all| > 20 then all[|all| - 20..] else all
       case Transition(_, _, target) =>
         && b.status == target && b.completedAt == (if target.Completed? then Some(b.updatedAt) else None)
         && b.title == a.title && b.goal == a.goal && b.workspace == a.workspace && b.summary == a.summary
         && b.plan == a.plan && b.nextSteps == a.nextSteps && b.references == a.references
         && b.checkpoints == a.checkpoints
  }

  /** A write is stamped with the time, or just after the previous stamp if the clock is not past
      it. */
  predicate Stamped(a: Task, b: Task, now: int) {
    b.updatedAt == if now > a.updatedAt then now else a.updatedAt + 1
  }

  lemma ChangeSays(t: Task, m: Mutation, now: int)
    requires RequestOk(m) && Change(t, m, now).Ok?
    ensures var u := Change(t, m, now).value; WriteSays(m, t, u) && Stamped(t, u, now)
  {
    hide InputOk, CallId, NonBlankText, StepsOk, ReferencesOk, PlanOk, IsEmpty;
  }

  /** The answer of the second step: the record that is then stored; no other record changes. */
  lemma FinishSays(w: World, caller: Caller, now: int)
    requires Inv(w) && caller in w.waiting
    ensures var x := w.waiting[caller];
            var id := x.mutation.id;
            var (after, r) := Commit(w.table, x.mutation, now);
            && id in w.table
            && FinishStep(w, caller, now).table == after
            && (if r.Ok? then
                  && after == w.table[id := r.value] && WriteSays(x.mutation, w.table[id], r.value)
                  && Stamped(w.table[id], r.value, now)
                  && FinishStep(w, caller, now).log == w.log + [Write(x.mutation, x.seen, w.table[id], r.value)]
                else after == w.table && FinishStep(w, caller, now).log == w.log)
            && (r == Err(RevisionConflict) <==> w.table[id] != x.seen)
            && (r == Err(TimeOutOfRange) <==> w.table[id] == x.seen && (now > MAX_TIME || x.seen.updatedAt >= MAX_TIME))
            && (r.Err? ==> r.error == RevisionConflict || r.error == TimeOutOfRange)
  {
    hide TableOk, LogOk, WriteSays, RequestOk;
    assert WaitingOk(w.table, w.waiting[caller]);
    var x := w.waiting[caller];
    if Change(w.table[x.mutation.id], x.mutation, now).Ok? {
      ChangeSays(w.table[x.mutation.id], x.mutation, now);
    }
  }

  // --------------------------------------------------------------------- runs

  lemma OnlyFinishLogs(w: World, e: Event, now: int)
    requires Enabled(w, e) && !e.Finish?
    ensures Next(w, e, now).log == w.log
  {
    hide Create, Precheck;
  }

  /** In every run, every write that took effect stored exactly what its call gave, at the time of
      the step that wrote it. */
  lemma {:induction false} EveryWriteSays(
      ws: seq<World>, events: seq<Event>, times: seq<int>, k: nat, i: nat) returns (n: nat)
    requires IsRun(ws, events, times) && k < |ws| && i < |ws[k].log|
    ensures n < k && events[n].Finish? && ws[n + 1].log == ws[n].log + [ws[k].log[i]]
    ensures var x := ws[k].log[i]; WriteSays(x.mutation, x.before, x.after) && Stamped(x.before, x.after, times[n])
  {
    hide Next, Enabled, Inv, WriteSays, Stamped;
    assert ws[0] == Start();
    var w, e, now := ws[k - 1], events[k - 1], times[k - 1];
    assert Enabled(w, e) && ws[k] == Next(w, e, now);
    RunInv(ws, events, times, k - 1);
    if e.Finish? {
      NextFinish(w, e, now);
      FinishSays(w, e.caller, now);
      if i < |w.log| {
        n := EveryWriteSays(ws, events, times, k - 1, i);
      } else {
        n := k - 1;
      }
    } else {
      OnlyFinishLogs(w, e, now);
      n := EveryWriteSays(ws, events, times, k - 1, i);
    }
  }

  lemma NextFinish(w: World, e: Event, now: int)
    requires Enabled(w, e) && e.Finish?
    ensures e.caller in w.waiting && Next(w, e, now) == FinishStep(w, e.caller, now)
  {
  }

  /** In every run, every task on record was created by one call, and the record it was born with
      stores exactly what that call gave. */
  lemma {:induction false} EveryBirthSays(
      ws: seq<World>, events: seq<Event>, times: seq<int>, k: nat, id: string) returns (n: nat)
    requires IsRun(ws, events, times) && k < |ws| && id in ws[k].birth
    ensures n < k && events[n].DoCreate? && id !in ws[n].birth && id in ws[n + 1].birth
    ensures ws[k].birth[id].id == id && StoresGiven(ws[k].birth[id], events[n].input)
    ensures ws[k].birth[id].createdAt == ws[k].birth[id].updatedAt == (if times[n] > 0 then times[n] else 0)
  {
    hide Next, Enabled, Inv, StoresGiven;
    assert ws[0] == Start();
    var w, e, now := ws[k - 1], events[k - 1], times[k - 1];
    assert Enabled(w, e) && ws[k] == Next(w, e, now);
    RunInv(ws, events, times, k - 1);
    BirthStep(w, e, now, id);
    if id in w.birth {
      n := EveryBirthSays(ws, events, times, k - 1, id);
    } else {
      n := k - 1;
    }
  }

  lemma BirthStep(w: World, e: Event, now: int, id: string)
    requires Inv(w) && Enabled(w, e) && id in Next(w, e, now).birth
    ensures var b := Next(w, e, now).birth[id];
            if id in w.birth then b == w.birth[id]
            else e.DoCreate? && b.id == id && StoresGiven(b, e.input)
                 && b.createdAt == b.updatedAt == (if now > 0 then now else 0)
  {
    hide TableOk, AllWaitingOk, StoresGiven, Create, Precheck, Commit, HistoryAfter;
    match e
    case DoCreate(input, candidates) => CreateExactly(w.table, input, candidates, now);
    case _ =>
  }
}
