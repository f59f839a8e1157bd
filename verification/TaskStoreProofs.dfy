/** Optimistic writes over any interleaving of checks and updates: who wins, what the winner
    overwrote, what a task's history looks like, and which stored records can be read back. */
module TaskStoreProofs {
  import opened Collections
  import opened JsText
  import opened TaskStoreModel

  type Caller = nat

  /** A caller between its check and its update: the mutation and the record it checked. */
  datatype Waiting = Waiting(mutation: Mutation, seen: Task)

  /** A mutation that took effect: what its caller had checked, what it found, what it left. */
  datatype Write = Write(mutation: Mutation, seen: Task, before: Task, after: Task)

  datatype World = World(
    table: Table, waiting: map<Caller, Waiting>, log: seq<Write>,
    full: map<string, seq<Checkpoint>>, birth: map<string, Task>)

  datatype Event =
    | DoCreate(input: Input, candidates: seq<string>)
    | Begin(caller: Caller, mutation: Mutation)
    | Finish(caller: Caller)

  predicate Enabled(w: World, e: Event) {
    match e
    case DoCreate(_, candidates) => |candidates| >= MAX_ATTEMPTS
    case Begin(caller, _) => caller !in w.waiting
    case Finish(caller) => caller in w.waiting
  }

  function CreateStep(w: World, input: Input, candidates: seq<string>, now: int): World
    requires |candidates| >= MAX_ATTEMPTS
  {
    var (table, r) := Create(w.table, input, candidates, now);
    if r.Ok? then w.(table := table, full := w.full[r.value.id := []], birth := w.birth[r.value.id := r.value]) else w
  }

  function BeginStep(w: World, caller: Caller, m: Mutation): World {
    if Precheck(w.table, m) == Proceed && m.id in w.table
        then w.(waiting := w.waiting[caller := Waiting(m, w.table[m.id])]) else w
  }

  function HistoryAfter(
      full: map<string, seq<Checkpoint>>, m: Mutation, before: Task, after: Task): map<string, seq<Checkpoint>> {
    if m.AddCheckpoint? && m.id in full
        then full[m.id := full[m.id] + [CheckpointOf(before, m.input, after.updatedAt)]] else full
  }

  function FinishStep(w: World, caller: Caller, now: int): World
    requires caller in w.waiting
  {
    var x := w.waiting[caller];
    var (table, r) := Commit(w.table, x.mutation, now);
    var rest := w.(waiting := w.waiting - {caller});
    if r.Err? || x.mutation.id !in w.table then rest
    else
      var before := w.table[x.mutation.id];
      rest.(table := table, log := w.log + [Write(x.mutation, x.seen, before, r.value)],
            full := HistoryAfter(w.full, x.mutation, before, r.value))
  }

  function Next(w: World, e: Event, now: int): World
    requires Enabled(w, e)
  {
    match e
    case DoCreate(input, candidates) => CreateStep(w, input, candidates, now)
    case Begin(caller, m) => BeginStep(w, caller, m)
    case Finish(caller) => FinishStep(w, caller, now)
  }

  // --------------------------------------------------------------- invariant

  /** A stored record is readable up to the length of its id and the size of its revision. */
  ghost predicate StoredOk(t: Task) {
    && SafeId(t.id) && 1 <= t.revision <= MAX_SAFE + 1
    && 0 <= t.createdAt <= t.updatedAt <= MAX_TIME
    && (t.status.Completed? <==> t.completedAt.Some?)
    && (t.completedAt.Some? ==> 0 <= t.completedAt.value <= t.updatedAt)
    && FieldsOk(t)
  }

  ghost predicate Rising(c: seq<Checkpoint>) {
    forall i, j :: 0 <= i < j < |c| ==> c[i].revision < c[j].revision
  }

  /** The full checkpoint history of a task, of which the record keeps the last twenty. */
  ghost predicate CheckpointsOk(t: Task, full: seq<Checkpoint>) {
    && Rising(full) && t.checkpoints == LastTwenty(full)
    && forall i :: 0 <= i < |full| ==>
         && 2 <= full[i].revision <= t.revision && 0 <= full[i].at <= t.updatedAt
         && NonBlankText(full[i].summary, 12000) && StepsOk(full[i].nextSteps) && ReferencesOk(full[i].references)
  }

  ghost predicate TableOk(table: Table, full: map<string, seq<Checkpoint>>) {
    && table.Keys == full.Keys
    && forall id :: id in table ==> table[id].id == id && StoredOk(table[id]) && CheckpointsOk(table[id], full[id])
  }

  /** What a waiting caller checked is an earlier record of the task, or the current one. */
  ghost predicate WaitingOk(table: Table, x: Waiting) {
    && RequestOk(x.mutation) && x.mutation.id in table && x.seen.revision == x.mutation.ifRevision
    && x.seen.revision <= table[x.mutation.id].revision
    && (x.seen.revision == table[x.mutation.id].revision ==> x.seen == table[x.mutation.id])
    && (x.mutation.Transition? ==>
         x.seen.status != x.mutation.target && MayTransition(x.seen.status, x.mutation.target))
  }

  ghost predicate AllWaitingOk(table: Table, waiting: map<Caller, Waiting>) {
    forall c :: c in waiting ==> WaitingOk(table, waiting[c])
  }

  /** One write: an atomic read and update of the record its caller had checked. */
  ghost predicate WriteOk(w: Write) {
    && w.seen == w.before && w.before.revision == w.mutation.ifRevision
    && w.after.revision == w.before.revision + 1
    && w.after.updatedAt > w.before.updatedAt
    && w.after.id == w.before.id && w.after.createdAt == w.before.createdAt
    && (w.before.status.Completed? ==> w.after.status.Completed? && w.after.completedAt == w.before.completedAt)
  }

  /** The record a task had after the first n writes. */
  ghost function RecordAfter(birth: map<string, Task>, log: seq<Write>, id: string): Task
    requires id in birth
  {
    if log == [] then birth[id]
    else if log[|log| - 1].mutation.id == id then log[|log| - 1].after
    else RecordAfter(birth, log[..|log| - 1], id)
  }

  ghost function Count(log: seq<Write>, id: string): nat {
    if log == [] then 0 else Count(log[..|log| - 1], id) + (if log[|log| - 1].mutation.id == id then 1 else 0)
  }

  /** The log is a linear history: each write starts from what the one before it on the same
      task left, the table holds the last, and revisions count the writes. */
  ghost predicate LogOk(table: Table, birth: map<string, Task>, log: seq<Write>) {
    && table.Keys == birth.Keys
    && (forall id :: id in table ==>
         table[id] == RecordAfter(birth, log, id) && table[id].revision == 1 + Count(log, id))
    && (forall i :: 0 <= i < |log| ==>
          WriteOk(log[i]) && log[i].mutation.id in birth
              && log[i].before == RecordAfter(birth, log[..i], log[i].mutation.id)
          && log[i].before.revision == 1 + Count(log[..i], log[i].mutation.id))
  }

  ghost predicate Inv(w: World) {
    && TableOk(w.table, w.full)
    && AllWaitingOk(w.table, w.waiting)
    && LogOk(w.table, w.birth, w.log)
  }

  // ----------------------------------------------------------------- one write

  lemma ChangeFacts(t: Task, m: Mutation, now: int)
    requires Change(t, m, now).Ok?
    ensures var u := Change(t, m, now).value;
            && t.revision == m.ifRevision && u.revision == t.revision + 1 && t.updatedAt < u.updatedAt <= MAX_TIME
            && u.id == t.id && u.createdAt == t.createdAt
            && (m.Transition? ==> u.status == m.target && MayTransition(t.status, m.target))
            && (!m.Transition? ==> u.status == t.status && u.completedAt == t.completedAt)
  {
  }

  lemma ChangeStored(t: Task, m: Mutation, now: int)
    requires StoredOk(t) && RequestOk(m) && Change(t, m, now).Ok?
    ensures StoredOk(Change(t, m, now).value)
  {
    hide Blank, ListOk, SafeId, CallId;
    EmptyListsOk();
  }

  lemma EmptyListsOk()
    ensures PlanOk([]) && StepsOk([]) && ReferencesOk([])
  {
  }

  lemma AppendRising(c: seq<Checkpoint>, x: Checkpoint, revision: int)
    requires Rising(c) && (forall i :: 0 <= i < |c| ==> c[i].revision <= revision) && x.revision == revision + 1
    ensures Rising(c + [x])
  {
  }

  lemma LastTwentyAppend(full: seq<Checkpoint>, x: Checkpoint)
    ensures LastTwenty(LastTwenty(full) + [x]) == LastTwenty(full + [x])
  {
  }

  lemma ChangeCheckpoints(t: Task, full: seq<Checkpoint>, m: Mutation, now: int)
    requires StoredOk(t) && CheckpointsOk(t, full) && RequestOk(m) && Change(t, m, now).Ok?
    ensures var u := Change(t, m, now).value;
            CheckpointsOk(u, if m.AddCheckpoint? then full + [CheckpointOf(t, m.input, u.updatedAt)] else full)
  {
    hide Blank, ListOk, SafeId, CallId, FieldsOk, LastTwenty;
    if m.AddCheckpoint? {
      var u := Change(t, m, now).value;
      var c := CheckpointOf(t, m.input, u.updatedAt);
      EmptyListsOk();
      AppendRising(full, c, t.revision);
      LastTwentyAppend(full, c);
    }
  }

  // -------------------------------------------------------------------- steps

  lemma {:induction false} AllocatedIsFree(table: Table, candidates: seq<string>, attempt: nat)
    requires attempt <= MAX_ATTEMPTS <= |candidates|
    ensures var r := Allocate(table, candidates, attempt);
            && (r.Ok? ==> SafeId(r.value) && r.value !in table
                          && exists i :: attempt <= i < MAX_ATTEMPTS && r.value == candidates[i])
            && (r == Err(IdCollision) <==>
                 forall i :: attempt <= i < MAX_ATTEMPTS ==> SafeId(candidates[i]) && candidates[i] in table)
    decreases MAX_ATTEMPTS - attempt
  {
    if attempt < MAX_ATTEMPTS && SafeId(candidates[attempt]) && candidates[attempt] in table {
      AllocatedIsFree(table, candidates, attempt + 1);
    }
  }

  lemma NewTaskOk(id: string, i: Input, at: int)
    requires SafeId(id) && i.title.Some? && InputOk(i) && 0 <= at <= MAX_TIME
    ensures StoredOk(NewTask(id, i, at)) && CheckpointsOk(NewTask(id, i, at), [])
  {
    hide Blank, SafeId;
  }

  lemma CreateInv(w: World, input: Input, candidates: seq<string>, now: int)
    requires Inv(w) && |candidates| >= MAX_ATTEMPTS
    ensures Inv(CreateStep(w, input, candidates, now))
  {
    hide StoredOk, CheckpointsOk, WaitingOk, LogOk, InputOk, Allocate, SafeId;
    var r := Create(w.table, input, candidates, now).1;
    if r.Ok? {
      AllocatedIsFree(w.table, candidates, 0);
      NewTaskOk(r.value.id, input, r.value.createdAt);
      CreateWaiting(w.table, w.waiting, r.value.id, r.value);
      CreateLog(w.table, w.birth, w.log, r.value.id, r.value);
    }
  }

  lemma CreateWaiting(table: Table, waiting: map<Caller, Waiting>, id: string, t: Task)
    requires AllWaitingOk(table, waiting) && id !in table
    ensures AllWaitingOk(table[id := t], waiting)
  {
    hide RequestOk, MayTransition;
  }

  lemma CreateLog(table: Table, birth: map<string, Task>, log: seq<Write>, id: string, t: Task)
    requires LogOk(table, birth, log) && id !in table && t.revision == 1
    ensures LogOk(table[id := t], birth[id := t], log)
  {
    hide WriteOk;
    var birth1 := birth[id := t];
    forall x, i | x in birth && 0 <= i <= |log|
        ensures RecordAfter(birth1, log[..i], x) == RecordAfter(birth, log[..i], x) {
      BirthGrows(birth, birth1, log[..i], x);
    }
    Unwritten(birth1, log, id);
    assert log[..|log|] == log;
  }

  lemma {:induction false} BirthGrows(birth: map<string, Task>, birth1: map<string, Task>, log: seq<Write>, id: string)
    requires id in birth && id in birth1 && birth1[id] == birth[id]
    ensures RecordAfter(birth1, log, id) == RecordAfter(birth, log, id)
  {
    if log != [] && log[|log| - 1].mutation.id != id {
      BirthGrows(birth, birth1, log[..|log| - 1], id);
    }
  }

  lemma {:induction false} Unwritten(birth: map<string, Task>, log: seq<Write>, id: string)
    requires id in birth && forall i :: 0 <= i < |log| ==> log[i].mutation.id != id
    ensures RecordAfter(birth, log, id) == birth[id] && Count(log, id) == 0
  {
    if log != [] {
      Unwritten(birth, log[..|log| - 1], id);
    }
  }

  lemma BeginInv(w: World, caller: Caller, m: Mutation)
    requires Inv(w)
    ensures Inv(BeginStep(w, caller, m))
  {
    hide TableOk, LogOk, RequestOk, MayTransition;
  }

  lemma FinishInv(w: World, caller: Caller, now: int)
    requires Inv(w) && caller in w.waiting
    ensures Inv(FinishStep(w, caller, now))
  {
    hide TableOk, LogOk, WaitingOk, Change, HistoryAfter;
    var x := w.waiting[caller];
    var m := x.mutation;
    assert AllWaitingOk(w.table, w.waiting - {caller});
    if m.id in w.table && Change(w.table[m.id], m, now).Ok? {
      var u := Change(w.table[m.id], m, now).value;
      WriterOk(w.table, x, now);
      FinishTable(w.table, w.full, m, now);
      FinishWaiting(w.table, w.waiting - {caller}, m, now);
      FinishLog(w.table, w.birth, w.log, Write(m, x.seen, w.table[m.id], u));
    }
  }

  /** The caller wrote to the very record it had checked. */
  lemma WriterOk(table: Table, x: Waiting, now: int)
    requires WaitingOk(table, x) && Change(table[x.mutation.id], x.mutation, now).Ok?
    ensures RequestOk(x.mutation)
    ensures WriteOk(Write(x.mutation, x.seen, table[x.mutation.id],
        Change(table[x.mutation.id], x.mutation, now).value))
  {
    ChangeFacts(table[x.mutation.id], x.mutation, now);
    hide Change, RequestOk;
  }

  lemma FinishTable(table: Table, full: map<string, seq<Checkpoint>>, m: Mutation, now: int)
    requires TableOk(table, full) && m.id in table && RequestOk(m) && Change(table[m.id], m, now).Ok?
    ensures TableOk(table[m.id := Change(table[m.id], m, now).value],
        HistoryAfter(full, m, table[m.id], Change(table[m.id], m, now).value))
  {
    hide StoredOk, CheckpointsOk, Change, RequestOk, CheckpointOf;
    ChangeFacts(table[m.id], m, now);
    ChangeStored(table[m.id], m, now);
    ChangeCheckpoints(table[m.id], full[m.id], m, now);
  }

  lemma FinishWaiting(table: Table, waiting: map<Caller, Waiting>, m: Mutation, now: int)
    requires AllWaitingOk(table, waiting) && m.id in table && Change(table[m.id], m, now).Ok?
    ensures AllWaitingOk(table[m.id := Change(table[m.id], m, now).value], waiting)
  {
    ChangeFacts(table[m.id], m, now);
    hide Change, RequestOk, MayTransition;
  }

  lemma FinishLog(table: Table, birth: map<string, Task>, log: seq<Write>, x: Write)
    requires LogOk(table, birth, log) && x.mutation.id in table && WriteOk(x) && x.before == table[x.mutation.id]
    ensures LogOk(table[x.mutation.id := x.after], birth, log + [x])
  {
    hide WriteOk;
    var more := log + [x];
    assert more[..|more| - 1] == log;
    forall i | 0 <= i < |more| ensures more[..i] == log[..i] {
    }
    assert log[..|log|] == log;
    forall id | id in table[x.mutation.id := x.after]
      ensures table[x.mutation.id := x.after][id] == RecordAfter(birth, more, id)
      ensures table[x.mutation.id := x.after][id].revision == 1 + Count(more, id)
    {
      assert x.after.revision == x.before.revision + 1 by { WriteRevision(x); }
    }
  }

  lemma WriteRevision(x: Write)
    requires WriteOk(x)
    ensures x.after.revision == x.before.revision + 1
  {
  }

  /** Every event keeps the invariant. */
  lemma StepInv(w: World, e: Event, now: int)
    requires Inv(w) && Enabled(w, e)
    ensures Inv(Next(w, e, now))
  {
    hide Inv, CreateStep, BeginStep, FinishStep;
    match e
    case DoCreate(input, candidates) => CreateInv(w, input, candidates, now);
    case Begin(caller, m) => BeginInv(w, caller, m);
    case Finish(caller) => FinishInv(w, caller, now);
  }

  // --------------------------------------------------------------------- runs

  function Start(): World { World(map[], map[], [], map[], map[]) }

  ghost predicate IsRun(ws: seq<World>, events: seq<Event>, times: seq<int>) {
    && |ws| == |events| + 1 && |times| == |events| && ws[0] == Start()
    && forall i :: 0 <= i < |events| ==> Enabled(ws[i], events[i]) && ws[i + 1] == Next(ws[i], events[i], times[i])
  }

  lemma {:induction false} RunInv(ws: seq<World>, events: seq<Event>, times: seq<int>, i: nat)
    requires IsRun(ws, events, times) && i < |ws|
    ensures Inv(ws[i])
  {
    hide Inv, Next, Enabled;
    if i == 0 {
      StartInv();
    } else {
      RunInv(ws, events, times, i - 1);
      StepInv(ws[i - 1], events[i - 1], times[i - 1]);
    }
  }

  lemma StartInv()
    ensures Inv(Start())
  {
  }

  // ------------------------------------------------------------------ results

  /** At most one mutation per task and expected revision takes effect. */
  lemma OneWinnerPerRevision(ws: seq<World>, events: seq<Event>, times: seq<int>, k: nat, i: nat, j: nat)
    requires IsRun(ws, events, times) && k < |ws| && i < |ws[k].log| && j < |ws[k].log|
    requires ws[k].log[i].mutation.id == ws[k].log[j].mutation.id
    requires ws[k].log[i].mutation.ifRevision == ws[k].log[j].mutation.ifRevision
    ensures i == j
  {
    hide Next, Enabled, IsRun, TableOk, AllWaitingOk;
    RunInv(ws, events, times, k);
    if i < j { CountRises(ws[k].log, i, j); }
    if j < i { CountRises(ws[k].log, j, i); }
  }

  lemma {:induction false} CountRises(log: seq<Write>, i: nat, j: nat)
    requires i < j <= |log|
    ensures Count(log[..i], log[i].mutation.id) < Count(log[..j], log[i].mutation.id)
  {
    assert log[..j][..j - 1] == log[..j - 1];
    if i < j - 1 {
      CountRises(log, i, j - 1);
    }
  }

  /** A mutation that takes effect overwrites exactly the record its caller had checked, in one
      step: the revision goes up by one and the time stamp strictly, whatever the clock does. */
  lemma WritesAreAtomic(ws: seq<World>, events: seq<Event>, times: seq<int>, k: nat, i: nat)
    requires IsRun(ws, events, times) && k < |ws| && i < |ws[k].log|
    ensures var x := ws[k].log[i];
            && x.mutation.id in ws[k].birth
                 && x.seen == x.before == RecordAfter(ws[k].birth, ws[k].log[..i], x.mutation.id)
            && x.after.revision == x.before.revision + 1 == x.mutation.ifRevision + 1
            && x.after.updatedAt > x.before.updatedAt
  {
    hide Next, Enabled, IsRun, TableOk, AllWaitingOk;
    RunInv(ws, events, times, k);
  }

  /** The record in the table is what the last write of the task left, and its revision is one
      more than the number of writes. */
  lemma RevisionsCountWrites(ws: seq<World>, events: seq<Event>, times: seq<int>, k: nat, id: string)
    requires IsRun(ws, events, times) && k < |ws| && id in ws[k].table
    ensures id in ws[k].birth && ws[k].table[id] == RecordAfter(ws[k].birth, ws[k].log, id)
    ensures ws[k].table[id].revision == 1 + Count(ws[k].log, id)
  {
    hide Next, Enabled, IsRun, TableOk, AllWaitingOk, WriteOk;
    RunInv(ws, events, times, k);
  }

  /** An update is refused exactly when the task has moved on since the check, or no time stamp
      is left. */
  lemma FinishExactly(w: World, caller: Caller, now: int)
    requires Inv(w) && caller in w.waiting
    ensures var m := w.waiting[caller].mutation;
            && m.id in w.table
            && (Commit(w.table, m, now).1.Ok? <==>
                 w.table[m.id] == w.waiting[caller].seen && Stamp(now, Some(w.table[m.id].updatedAt)).Ok?)
            && (Commit(w.table, m, now).1 == Err(RevisionConflict) <==> w.table[m.id] != w.waiting[caller].seen)
  {
    hide TableOk, LogOk, RequestOk;
    assert WaitingOk(w.table, w.waiting[caller]);
  }

  /** Stored checkpoints are the last twenty of the full history, revisions strictly rising. */
  lemma CheckpointsAreLastTwenty(ws: seq<World>, events: seq<Event>, times: seq<int>, k: nat, id: string)
    requires IsRun(ws, events, times) && k < |ws| && id in ws[k].table
    ensures id in ws[k].full && ws[k].table[id].checkpoints == LastTwenty(ws[k].full[id]) && Rising(ws[k].full[id])
  {
    hide Next, Enabled, IsRun, LogOk, AllWaitingOk, StoredOk, LastTwenty;
    RunInv(ws, events, times, k);
  }

  lemma FinishKeepsCompleted(w: World, caller: Caller, now: int, id: string)
    requires Inv(w) && caller in w.waiting && id in w.table && w.table[id].status.Completed?
    ensures var v := FinishStep(w, caller, now);
            id in v.table && v.table[id].status.Completed? && v.table[id].completedAt == w.table[id].completedAt
  {
    hide TableOk, LogOk, WaitingOk, Change, HistoryAfter;
    var x := w.waiting[caller];
    if x.mutation.id in w.table && Change(w.table[x.mutation.id], x.mutation, now).Ok? {
      WriterOk(w.table, x, now);
    }
  }

  lemma CreateKeepsOthers(w: World, input: Input, candidates: seq<string>, now: int, id: string)
    requires |candidates| >= MAX_ATTEMPTS && id in w.table
    ensures id in CreateStep(w, input, candidates, now).table
        && CreateStep(w, input, candidates, now).table[id] == w.table[id]
  {
    hide InputOk, Allocate, SafeId;
    AllocatedIsFree(w.table, candidates, 0);
  }

  lemma StepKeepsCompleted(w: World, e: Event, now: int, id: string)
    requires Inv(w) && Enabled(w, e) && id in w.table && w.table[id].status.Completed?
    ensures var v := Next(w, e, now);
            id in v.table && v.table[id].status.Completed? && v.table[id].completedAt == w.table[id].completedAt
  {
    hide Inv, CreateStep, FinishStep;
    match e
    case DoCreate(input, candidates) => CreateKeepsOthers(w, input, candidates, now, id);
    case Begin(caller, m) => hide Precheck;
    case Finish(caller) => FinishKeepsCompleted(w, caller, now, id);
  }

  /** Once completed, always completed, at the same time. */
  lemma {:induction false} CompletedForever(
      ws: seq<World>, events: seq<Event>, times: seq<int>, i: nat, j: nat, id: string)
    requires IsRun(ws, events, times) && i <= j < |ws| && id in ws[i].table && ws[i].table[id].status.Completed?
    ensures id in ws[j].table && ws[j].table[id].status.Completed?
        && ws[j].table[id].completedAt == ws[i].table[id].completedAt
    decreases j
  {
    hide Inv, Next, Enabled;
    if i < j {
      CompletedForever(ws, events, times, i, j - 1, id);
      RunInv(ws, events, times, j - 1);
      StepKeepsCompleted(ws[j - 1], events[j - 1], times[j - 1], id);
    }
  }

  /** The reader accepts a stored record, unchanged, exactly when its id has at most 128
      characters and its revision is still a safe integer. */
  lemma StoredIsReadable(ws: seq<World>, events: seq<Event>, times: seq<int>, k: nat, id: string)
    requires IsRun(ws, events, times) && k < |ws| && id in ws[k].table
    ensures ParseStoredTask(ws[k].table[id]) == Ok(ws[k].table[id]) <==>
        |id| <= ID_CHARS && ws[k].table[id].revision <= MAX_SAFE
  {
    hide Next, Enabled, IsRun, LogOk, AllWaitingOk, StoredOk, CheckpointsOk, Readable;
    RunInv(ws, events, times, k);
    RecordReadable(ws[k].table[id], ws[k].full[id]);
  }

  lemma RecordReadable(t: Task, full: seq<Checkpoint>)
    requires StoredOk(t) && CheckpointsOk(t, full)
    ensures Readable(t) <==> |t.id| <= ID_CHARS && t.revision <= MAX_SAFE
  {
    hide Blank, SafeId, FieldsOk, NonBlankText, StepsOk, ReferencesOk, LastTwenty;
    SafeIsNotBlank(t.id);
    LastTwentyIn(full);
    if t.revision <= MAX_SAFE {
      forall i | 0 <= i < |t.checkpoints| ensures CheckpointOk(t.checkpoints[i], t.revision) {
        assert t.checkpoints[i] in full;
      }
    }
  }

  lemma LastTwentyIn(full: seq<Checkpoint>)
    ensures |LastTwenty(full)| <= MAX_CHECKPOINTS
    ensures forall i :: 0 <= i < |LastTwenty(full)| ==> LastTwenty(full)[i] in full
  {
  }

  lemma SafeIsNotBlank(id: string)
    requires SafeId(id)
    ensures !Blank(id)
  {
    assert id[0] == 't' && !Space(id[0]);
    assert TrimStart(id) == id;
    TrimEndKeeps(id);
  }

  lemma {:induction false} TrimEndKeeps(s: string)
    requires s != "" && !Space(s[0])
    ensures TrimEnd(s) != ""
  {
    if Space(s[|s| - 1]) {
      TrimEndKeeps(s[..|s| - 1]);
    }
  }

  /** The revision that breaks it: a write expecting the largest safe revision takes effect, its
      record cannot be read back, and no request for the task is ever accepted again. */
  lemma LastRevision(w: World, m: Mutation, t: Task, now: int, next: Mutation)
    requires RequestOk(m) && m.id in w.table && w.table[m.id] == t && t.revision == MAX_SAFE && m.ifRevision == MAX_SAFE
    requires m.Update? && 0 <= t.updatedAt < MAX_TIME && now <= MAX_TIME
    ensures var (table, r) := Commit(w.table, m, now);
            && Precheck(w.table, m) == Proceed && r.Ok? && table[m.id] == r.value
            && ParseStoredTask(r.value) == Err(InvalidRecord)
            && (next.id == m.id ==> Precheck(table, next).Refused?)
  {
    hide InputOk, CallId, FieldsOk;
  }
}
