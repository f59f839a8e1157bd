/** Runs of the controller together with the message queue and the task store: automatic
    continuation is paid for by task progress, and ends for good when it stops. */
module ContinuationProofs {
  import opened Collections
  import opened ContinuationModel
  import Q = BridgeQueueModel
  import QP = BridgeQueueProofs
  import B = BridgeTables
  import T = TaskStoreModel
  import TP = TaskStoreProofs

  /** One automatic message. */
  datatype Sent = Sent(arming: nat, id: Q.MsgId, seed: bool)

  /** How often the controller was armed, how many writes the task had had at the last arming,
      and every automatic message enqueued. */
  datatype History = History(armings: nat, writesAtArming: nat, sent: seq<Sent>)

  datatype World = World(queue: QP.World, contacts: B.Tables, tasks: TP.World, ctl: Ctl, hist: History)

  datatype Event =
    | Queue(op: Q_Op)
    | Contacts(contacts: B.Tables)
    | Tasks(event: TP.Event)
    | Arm(args: Arming, armId: Q.MsgId)
    | Observe(observation: Observation, sendId: Q.MsgId)

  type Q_Op = QP.Op

  function EnvOf(w: World, now: int): Env { Env(w.queue.ms, w.contacts, w.tasks.table, now) }

  /** Contact tables hold what the bridge accepts as a host. */
  predicate HostsOk(t: B.Tables) {
    && (forall r :: r in t.companions ==> r.host.Some? ==> |r.host.value| <= Q.MAX_ID_CHARS)
    && (forall r :: r in t.observers ==> r.host.Some? ==> |r.host.value| <= Q.MAX_ID_CHARS)
  }

  /** Others enqueue typed messages only; contacts may change in any way. */
  predicate Enabled(w: World, e: Event) {
    match e
    case Queue(op) => op.DoEnqueue? ==> op.id !in w.queue.at && op.source.Gui?
    case Contacts(t) => HostsOk(t)
    case Tasks(event) => TP.Enabled(w.tasks, event)
    case Arm(_, id) => id !in w.queue.at
    case Observe(_, id) => id !in w.queue.at && (w.ctl.enabled ==> w.ctl.task.Some?)
  }

  /** The queue after a controller call, which enqueued a message if id is now in it. */
  function QueueAfter(q: QP.World, after: seq<Q.Message>, enqueued: bool, id: Q.MsgId): QP.World {
    if enqueued then QP.World(after, q.at[id := q.next], q.next + 1) else q.(ms := after)
  }

  ghost function Writes(tasks: TP.World, id: string): nat { TP.Count(tasks.log, id) }

  predicate ArmsOk(w: World, a: Arming, now: int) { a.enabled && ArmError(EnvOf(w, now), a).None? }

  /** The seed was enqueued. */
  predicate Seeds(w: World, a: Arming, id: Q.MsgId, now: int) {
    ArmsOk(w, a, now) && a.start && Configure(w.ctl, EnvOf(w, now), a, id).2.Done?
  }

  ghost function ArmStep(w: World, a: Arming, id: Q.MsgId, now: int): World {
    var (ctl, after, result) := Configure(w.ctl, EnvOf(w, now), a, id);
    var seeds := Seeds(w, a, id, now);
    var armings := if ArmsOk(w, a, now) then w.hist.armings + 1 else w.hist.armings;
    w.(ctl := ctl, queue := QueueAfter(w.queue, after, seeds, id),
       hist := History(armings,
                       if ArmsOk(w, a, now) then Writes(w.tasks, a.task.value) else w.hist.writesAtArming,
                       if seeds then w.hist.sent + [Sent(armings, id, true)] else w.hist.sent))
  }

  predicate Sends(w: World, e: Observation, id: Q.MsgId, now: int)
    requires w.ctl.enabled ==> w.ctl.task.Some?
  {
    OnEvent(w.ctl, EnvOf(w, now), e, id).0.count > w.ctl.count
  }

  ghost function ObserveStep(w: World, e: Observation, id: Q.MsgId, now: int): World
    requires w.ctl.enabled ==> w.ctl.task.Some?
  {
    var (ctl, after) := OnEvent(w.ctl, EnvOf(w, now), e, id);
    var sends := Sends(w, e, id, now);
    w.(ctl := ctl, queue := QueueAfter(w.queue, after, sends, id),
       hist := if sends then w.hist.(sent := w.hist.sent + [Sent(w.hist.armings, id, false)]) else w.hist)
  }

  ghost function Next(w: World, e: Event, now: int): World
    requires Enabled(w, e)
  {
    match e
    case Queue(op) => w.(queue := QP.Next(w.queue, op, now))
    case Contacts(t) => w.(contacts := t)
    case Tasks(event) => w.(tasks := TP.Next(w.tasks, event, now))
    case Arm(a, id) => ArmStep(w, a, id, now)
    case Observe(e, id) => ObserveStep(w, e, id, now)
  }

  // --------------------------------------------------------------- invariant

  predicate Auto(m: Q.Message) { Q.Active(m) && !m.source.Gui? }

  function CountAuto(ms: seq<Q.Message>): nat {
    if ms == [] then 0 else (if Auto(ms[0]) then 1 else 0) + CountAuto(ms[1..])
  }

  /** The count is covered by the cap and by the writes of the bound task since arming. */
  ghost predicate PaidFor(c: Ctl, tasks: TP.World, hist: History) {
    && (c.enabled ==> c.task.Some?)
    && (c.cap.Some? ==> c.count <= c.cap.value)
    && (c.task.Some? ==>
          && c.task.value in tasks.table
          && 1 + hist.writesAtArming + c.count <= c.lastRevision <= tasks.table[c.task.value].revision)
    && (c.task.None? ==> c.count == 0)
    && (c.host.Some? ==> |c.host.value| <= Q.MAX_ID_CHARS)
  }

  function Continuations(sent: seq<Sent>, arming: nat): nat {
    if sent == [] then 0
    else
      Continuations(sent[..|sent| - 1], arming)
          + (if !sent[|sent| - 1].seed && sent[|sent| - 1].arming == arming then 1 else 0)
  }

  ghost predicate SentOk(c: Ctl, hist: History) {
    && (forall i :: 0 <= i < |hist.sent| ==> hist.sent[i].arming <= hist.armings)
    && c.count == Continuations(hist.sent, hist.armings)
  }

  ghost predicate Inv(w: World) {
    && QP.WorldInv(w.queue)
    && TP.Inv(w.tasks)
    && HostsOk(w.contacts)
    && PaidFor(w.ctl, w.tasks, w.hist)
    && SentOk(w.ctl, w.hist)
    && CountAuto(w.queue.ms) <= 1
  }

  // ---------------------------------------------------------- counting the auto

  lemma {:induction false} AutoPlus(a: seq<Q.Message>, b: seq<Q.Message>)
    ensures CountAuto(a + b) == CountAuto(a) + CountAuto(b)
  {
    if a == [] {
      assert a + b == b;
    } else {
      assert (a + b)[1..] == a[1..] + b;
      AutoPlus(a[1..], b);
    }
  }

  lemma {:induction false} AutoIsActive(ms: seq<Q.Message>)
    ensures CountAuto(ms) == CountAuto(Q.ActiveOnly(ms))
  {
    if ms != [] {
      AutoIsActive(ms[1..]);
      AutoPlus(if Q.Active(ms[0]) then [ms[0]] else [], Q.ActiveOnly(ms[1..]));
    }
  }

  lemma {:induction false} AutoShrinks(ms: seq<Q.Message>, after: seq<Q.Message>)
    requires |after| == |ms| && forall i :: 0 <= i < |ms| ==> Auto(after[i]) ==> Auto(ms[i])
    ensures CountAuto(after) <= CountAuto(ms)
  {
    if ms != [] {
      AutoShrinks(ms[1..], after[1..]);
    }
  }

  lemma ReleaseAuto(ms: seq<Q.Message>, now: int)
    ensures CountAuto(Q.Release(ms, now)) <= CountAuto(ms)
  {
    AutoShrinks(ms, Q.Release(ms, now));
  }

  lemma EnqueueAuto(
      at: QP.Serials, ms: seq<Q.Message>, id: Q.MsgId, text: Q.Text, source: Q.Source, target: Option<string>,
      now: int, serial: nat)
    requires QP.Inv(at, ms) && id !in at && forall x :: x in at ==> at[x] < serial
    ensures var (after, reply) := Q.Enqueue(ms, id, text, source, target, now);
            CountAuto(after) == CountAuto(ms) + (if reply.Ok? && !source.Gui? then 1 else 0)
  {
    QP.EnqueueInv(at, ms, id, text, source, target, now, serial);
    var (after, reply) := Q.Enqueue(ms, id, text, source, target, now);
    if reply.Ok? {
      AutoIsActive(after);
      AutoIsActive(ms);
      AutoPlus(Q.ActiveOnly(ms), [reply.value]);
    }
  }

  lemma PollAuto(ms: seq<Q.Message>, client: string, host: Option<string>, now: int)
    ensures CountAuto(Q.Poll(ms, client, host, now).0) <= CountAuto(ms)
  {
    hide Q.RequireNonEmpty, Q.OptionalText, Q.Choose;
    AutoShrinks(ms, Q.Poll(ms, client, host, now).0);
  }

  lemma BeginAuto(ms: seq<Q.Message>, client: string, id: string, host: Option<string>, now: int)
    ensures CountAuto(Q.BeginSend(ms, client, id, host, now).0) <= CountAuto(ms)
  {
    hide Q.RequireNonEmpty, Q.OptionalText;
    AutoShrinks(ms, Q.BeginSend(ms, client, id, host, now).0);
  }

  lemma AckAuto(
      ms: seq<Q.Message>, client: string, id: string, host: Option<string>, sent: bool, error: Option<string>,
      now: int)
    ensures CountAuto(Q.Ack(ms, client, id, host, sent, error, now).0) <= CountAuto(ms)
  {
    hide Q.RequireNonEmpty, Q.OptionalText;
    AutoShrinks(ms, Q.Ack(ms, client, id, host, sent, error, now).0);
  }

  lemma QueueAuto(q: QP.World, op: QP.Op, now: int)
    requires QP.WorldInv(q) && (op.DoEnqueue? ==> op.id !in q.at && op.source.Gui?)
    ensures CountAuto(QP.Next(q, op, now).ms) <= CountAuto(q.ms)
  {
    hide Q.Poll, Q.BeginSend, Q.Ack, Q.Enqueue, Q.Release, QP.Inv;
    match op
    case DoEnqueue(id, text, source, target) => EnqueueAuto(q.at, q.ms, id, text, source, target, now, q.next);
    case DoPoll(client, host) => PollAuto(q.ms, client, host, now);
    case DoBegin(client, id, host) => BeginAuto(q.ms, client, id, host, now);
    case DoAck(client, id, host, sent, error) => AckAuto(q.ms, client, id, host, sent, error, now);
    case DoStatus => ReleaseAuto(q.ms, now);
  }

  lemma ReleaseTwice(ms: seq<Q.Message>, now: int)
    ensures Q.Release(Q.Release(ms, now), now) == Q.Release(ms, now)
  {
  }

  // -------------------------------------------------------- what one event does

  /** Everything that has to hold for an event to send one more message. */
  ghost predicate Continues(c: Ctl, env: Env, e: Observation) {
    && Admit(c, env, e).Accepted? && e.event == B.TurnCompleted
    && var bound := Admit(c, env, e).ctl;
       && TurnKey(e).Some? && TurnKey(e) != bound.lastContinued
       && CompanionOnline(env, c.host) && ObserverOnline(env, bound.observer)
            && !Degraded(LastEvent(env, bound.observer))
       && Q.ActiveOnly(Snapshot(env)) == []
       && c.task.Some?
       && var task := ReadTask(env.tasks, c.task.value);
          && task.Some? && task.value.status.Active? && task.value.revision > c.lastRevision
          && (c.cap.Some? ==> c.count < c.cap.value)
  }

  /** What stays the same when nothing is sent. */
  ghost predicate Quiet(c: Ctl, c1: Ctl, env: Env, after: seq<Q.Message>) {
    && c1.count == c.count && c1.task == c.task && c1.cap == c.cap && c1.host == c.host
    && (c1.enabled ==> c.enabled)
    && (after == env.messages || after == Snapshot(env))
    && (c1.lastRevision == c.lastRevision
        || (c.task.Some? && ReadTask(env.tasks, c.task.value).Some?
             && c1.lastRevision == ReadTask(env.tasks, c.task.value).value.revision > c.lastRevision))
  }

  ghost predicate SentOne(c: Ctl, c1: Ctl, env: Env, after: seq<Q.Message>, id: Q.MsgId) {
    && c.enabled && c1.enabled && c1.count == c.count + 1 && c1.task == c.task && c1.cap == c.cap && c1.host == c.host
    && c.task.Some? && ReadTask(env.tasks, c.task.value).Some?
         && c1.lastRevision == ReadTask(env.tasks, c.task.value).value.revision
    && var text := Q.Continue(c.task.value, c.count + 1, c.cap);
       var enqueued := Q.Enqueue(Snapshot(env), id, text, Q.AutoContinue, c.host, env.now);
       enqueued.1.Ok? && after == enqueued.0
  }

  /** An accepted completion of a turn that has not been answered already. */
  ghost predicate CompletesTurn(c: Ctl, env: Env, e: Observation) {
    && Admit(c, env, e).Accepted? && e.event == B.TurnCompleted
    && !(TurnKey(e).Some? && TurnKey(e) == c.lastContinued)
  }

  lemma EmptyEnqueue(ms: seq<Q.Message>, id: Q.MsgId, text: Q.Text, source: Q.Source, host: Option<string>, now: int)
    requires Q.ActiveOnly(ms) == [] && !text.Typed? && (host.Some? ==> |host.value| <= Q.MAX_ID_CHARS)
    ensures Q.Enqueue(ms, id, text, source, host, now).1.Ok?
  {
  }

  lemma ContinueEffect(c: Ctl, env: Env, key: string, id: Q.MsgId)
    requires c.enabled && c.task.Some? && (c.host.Some? ==> |c.host.value| <= Q.MAX_ID_CHARS)
    ensures var (c1, after) := Continue(c, env, key, id);
            if Obstacle(c, env).None? && (c.cap.Some? ==> c.count < c.cap.value)
                then SentOne(c, c1, env, after, id) && c1.lastContinued == Some(key)
            else Quiet(c, c1, env, after) && !c1.enabled
  {
    hide B.ObserverStatus, B.CompanionForHost, Q.Release, Q.Enqueue, T.CallId, CompanionOnline, ObserverOnline,
      LastEvent;
    if Obstacle(c, env).None? {
      EmptyEnqueue(Snapshot(env), id, Q.Continue(c.task.value, c.count + 1, c.cap), Q.AutoContinue, c.host, env.now);
    }
  }

  /** Admission only changes the bound observer and the last decision. */
  lemma AdmittedState(c: Ctl, env: Env, e: Observation)
    requires Admit(c, env, e).Accepted?
    ensures var b := Admit(c, env, e).ctl;
            && c.enabled && b == c.(observer := b.observer, decision := b.decision, decidedAt := b.decidedAt)
  {
    hide StartTakeover, CompletionTakeover, ObserverOnline, LastEvent;
  }

  /** The conditions for sending, as the search for an obstacle checks them. */
  lemma ContinuesMeansNoObstacle(c: Ctl, env: Env, e: Observation, looked: seq<Q.Message>)
    requires (c.enabled ==> c.task.Some?) && (looked == env.messages || looked == Snapshot(env))
    ensures Continues(c, env, e) <==>
            && Admit(c, env, e).Accepted? && e.event == B.TurnCompleted && TurnKey(e).Some?
                 && TurnKey(e) != c.lastContinued
            && Admit(c, env, e).ctl.task.Some? && Obstacle(Admit(c, env, e).ctl, env.(messages := looked)).None?
            && (c.cap.Some? ==> c.count < c.cap.value)
  {
    ReleaseTwice(env.messages, env.now);
    if Admit(c, env, e).Accepted? {
      AdmittedState(c, env, e);
      var b := Admit(c, env, e).ctl;
      LookupsIgnoreMessages(env, env.(messages := looked), b);
      hide Admit, Q.Release, CompanionOnline, ObserverOnline, LastEvent, T.CallId, Q.ActiveOnly;
    } else {
      hide Admit;
    }
  }

  /** An event sends one message exactly when every condition holds; an accepted completed turn
      of an unseen key that does not is answered by stopping. */
  lemma EventEffect(c: Ctl, env: Env, e: Observation, id: Q.MsgId)
    requires (c.enabled ==> c.task.Some?) && (c.host.Some? ==> |c.host.value| <= Q.MAX_ID_CHARS)
    ensures var (c1, after) := OnEvent(c, env, e, id);
            && (Continues(c, env, e) ==> SentOne(c, c1, env, after, id) && c1.lastContinued == TurnKey(e))
            && (!Continues(c, env, e) ==> Quiet(c, c1, env, after))
            && (CompletesTurn(c, env, e) && !Continues(c, env, e) ==> !c1.enabled)
  {
    hide Continues, Admit, Obstacle, Continue, Q.Release, Q.Enqueue, T.CallId;
    var looked := if AdmissionAsksHealth(c, e) then Snapshot(env) else env.messages;
    var env1 := env.(messages := looked);
    ReleaseTwice(env.messages, env.now);
    ContinuesMeansNoObstacle(c, env, e, looked);
    if Admit(c, env, e).Accepted? {
      AdmittedState(c, env, e);
      var b := Admit(c, env, e).ctl;
      if e.event == B.TurnCompleted && TurnKey(e).Some? && TurnKey(e) != b.lastContinued {
        ContinueEffect(b, env1, TurnKey(e).value, id);
      }
    }
  }

  lemma LookupsIgnoreMessages(env: Env, env1: Env, c: Ctl)
    requires env1 == env.(messages := env1.messages) && Snapshot(env1) == Snapshot(env)
    ensures CompanionOnline(env1, c.host) == CompanionOnline(env, c.host)
    ensures ObserverOnline(env1, c.observer) == ObserverOnline(env, c.observer)
        && LastEvent(env1, c.observer) == LastEvent(env, c.observer)
  {
  }

  // -------------------------------------------------------------------- steps

  lemma CandidateHost(t: B.Tables, conversation: string)
    requires HostsOk(t) && B.ObserverForConversation(t, conversation).Some?
    ensures var host := B.ObserverForConversation(t, conversation).value.host;
            host.Some? ==> |host.value| <= Q.MAX_ID_CHARS
  {
    B.LookupIsFreshest(t.observers, (r: B.ObserverRow) => r.lastSeen,
        (r: B.ObserverRow) => r.conversation == Some(conversation));
  }

  lemma RevisionIsWrites(tasks: TP.World, id: string)
    requires TP.Inv(tasks) && id in tasks.table
    ensures tasks.table[id].revision == 1 + Writes(tasks, id)
  {
    hide TP.TableOk, TP.AllWaitingOk, TP.WriteOk;
  }

  lemma {:induction false} NothingSentYet(sent: seq<Sent>, arming: nat)
    requires forall i :: 0 <= i < |sent| ==> sent[i].arming < arming
    ensures Continuations(sent, arming) == 0
  {
    if sent != [] { NothingSentYet(sent[..|sent| - 1], arming); }
  }

  lemma Appended(sent: seq<Sent>, x: Sent, arming: nat)
    ensures Continuations(sent + [x], arming)
        == Continuations(sent, arming) + (if !x.seed && x.arming == arming then 1 else 0)
  {
    assert (sent + [x])[..|sent|] == sent;
  }

  /** What arming does when it goes through. */
  lemma ArmEffect(c: Ctl, env: Env, a: Arming, id: Q.MsgId)
    requires a.enabled && ArmError(env, a).None? && HostsOk(env.contacts)
    ensures var (c1, after, result) := Configure(c, env, a, id);
            && c1 == ArmedState(env, a) && result.Done?
            && a.task.Some? && ReadTask(env.tasks, a.task.value).Some? && c1.task == a.task && c1.count == 0
            && c1.lastRevision == ReadTask(env.tasks, a.task.value).value.revision
            && (c1.host.Some? ==> |c1.host.value| <= Q.MAX_ID_CHARS) && (c1.cap.Some? ==> 1 <= c1.cap.value)
            && Q.ActiveOnly(Snapshot(env)) == []
            && (!a.start ==> after == Snapshot(env))
            && (a.start ==>
                 var enqueued := Q.Enqueue(Snapshot(env), id, Q.Seed(a.task.value), Q.AutoSeed, c1.host, env.now);
                 enqueued.1.Ok? && after == enqueued.0)
  {
    CandidateHost(env.contacts, a.conversation.value);
    hide B.ObserverStatus, B.CompanionForHost, B.ObserverForConversation, Q.Release, Q.Enqueue, T.CallId,
      CompanionOnline, ObserverOnline, LastEvent, HostsOk;
    EmptyEnqueue(Snapshot(env), id, Q.Seed(a.task.value), Q.AutoSeed, ArmedState(env, a).host, env.now);
  }

  /** A queue that was empty of active messages holds one automatic message afterwards. */
  lemma OneAuto(q: QP.World, now: int, id: Q.MsgId, text: Q.Text, source: Q.Source, host: Option<string>)
    requires QP.WorldInv(q) && id !in q.at && Q.ActiveOnly(Q.Release(q.ms, now)) == []
    requires Q.Enqueue(Q.Release(q.ms, now), id, text, source, host, now).1.Ok?
    ensures var after := Q.Enqueue(Q.Release(q.ms, now), id, text, source, host, now).0;
            QP.WorldInv(QueueAfter(q, after, true, id)) && CountAuto(after) <= 1
  {
    hide Q.Enqueue, Q.Release, QP.Inv;
    QP.ReleaseInv(q.at, q.ms, now);
    QP.EnqueueInv(q.at, Q.Release(q.ms, now), id, text, source, host, now, q.next);
    EnqueueAuto(q.at, Q.Release(q.ms, now), id, text, source, host, now, q.next);
    AutoIsActive(Q.Release(q.ms, now));
  }

  lemma ReleasedQueue(q: QP.World, now: int)
    requires QP.WorldInv(q) && CountAuto(q.ms) <= 1
    ensures QP.WorldInv(q.(ms := Q.Release(q.ms, now))) && CountAuto(Q.Release(q.ms, now)) <= 1
  {
    hide Q.Release, QP.Inv;
    QP.ReleaseInv(q.at, q.ms, now);
    ReleaseAuto(q.ms, now);
  }

  lemma ArmInv(w: World, a: Arming, id: Q.MsgId, now: int)
    requires Inv(w) && id !in w.queue.at
    ensures Inv(ArmStep(w, a, id, now))
  {
    hide QP.WorldInv, TP.Inv, HostsOk, Q.Release, Q.Enqueue, ArmError, AsksHealth, ArmedState, CountAuto;
    var env := EnvOf(w, now);
    ReleasedQueue(w.queue, now);
    if ArmsOk(w, a, now) {
      ArmEffect(w.ctl, env, a, id);
      hide Configure;
      RevisionIsWrites(w.tasks, a.task.value);
      NothingSentYet(w.hist.sent, w.hist.armings + 1);
      Appended(w.hist.sent, Sent(w.hist.armings + 1, id, true), w.hist.armings + 1);
      if a.start {
        OneAuto(w.queue, now, id, Q.Seed(a.task.value), Q.AutoSeed, ArmedState(env, a).host);
      }
    }
  }

  lemma ObserveInv(w: World, e: Observation, id: Q.MsgId, now: int)
    requires Inv(w) && id !in w.queue.at
    ensures Inv(ObserveStep(w, e, id, now))
  {
    hide QP.WorldInv, TP.Inv, HostsOk, Q.Release, Q.Enqueue, OnEvent, Continues, CompletesTurn, CountAuto;
    var env := EnvOf(w, now);
    ReleasedQueue(w.queue, now);
    EventEffect(w.ctl, env, e, id);
    if Continues(w.ctl, env, e) {
      ContinuesMeans(w.ctl, env, e);
      OneAuto(w.queue, now, id, Q.Continue(w.ctl.task.value, w.ctl.count + 1, w.ctl.cap), Q.AutoContinue, w.ctl.host);
      Appended(w.hist.sent, Sent(w.hist.armings, id, false), w.hist.armings);
    }
  }

  lemma ContinuesMeans(c: Ctl, env: Env, e: Observation)
    requires Continues(c, env, e)
    ensures Q.ActiveOnly(Snapshot(env)) == [] && c.task.Some?
    ensures var task := ReadTask(env.tasks, c.task.value); task.Some? && task.value.revision > c.lastRevision
    ensures c.cap.Some? ==> c.count < c.cap.value
  {
    hide Admit, Snapshot, CompanionOnline, ObserverOnline, T.CallId;
  }

  lemma FinishAdvances(tasks: TP.World, caller: TP.Caller, now: int, id: string)
    requires TP.Inv(tasks) && caller in tasks.waiting && id in tasks.table
    ensures var after := TP.FinishStep(tasks, caller, now);
            id in after.table && after.table[id].revision >= tasks.table[id].revision
  {
    hide TP.TableOk, TP.LogOk, TP.AllWaitingOk, T.Change, TP.HistoryAfter;
    var m := tasks.waiting[caller].mutation;
    if m.id in tasks.table && T.Change(tasks.table[m.id], m, now).Ok? {
      TP.ChangeFacts(tasks.table[m.id], m, now);
    }
  }

  /** Task revisions only rise. */
  lemma TasksAdvance(tasks: TP.World, event: TP.Event, now: int, id: string)
    requires TP.Inv(tasks) && TP.Enabled(tasks, event) && id in tasks.table
    ensures var after := TP.Next(tasks, event, now);
            id in after.table && after.table[id].revision >= tasks.table[id].revision
  {
    hide TP.Inv, TP.CreateStep, TP.FinishStep;
    match event
    case DoCreate(input, candidates) => TP.CreateKeepsOthers(tasks, input, candidates, now, id);
    case Begin(caller, m) => hide T.Precheck;
    case Finish(caller) => FinishAdvances(tasks, caller, now, id);
  }

  lemma TasksInv(w: World, event: TP.Event, now: int)
    requires Inv(w) && TP.Enabled(w.tasks, event)
    ensures Inv(w.(tasks := TP.Next(w.tasks, event, now)))
  {
    hide QP.WorldInv, TP.Inv, TP.Next, TP.Enabled, HostsOk, CountAuto, SentOk;
    TP.StepInv(w.tasks, event, now);
    if w.ctl.task.Some? {
      TasksAdvance(w.tasks, event, now, w.ctl.task.value);
    }
  }

  /** Every event keeps the invariant. */
  lemma StepInv(w: World, e: Event, now: int)
    requires Inv(w) && Enabled(w, e)
    ensures Inv(Next(w, e, now))
  {
    match e
    case Queue(op) =>
      hide QP.WorldInv, TP.Inv, QP.Next, HostsOk, CountAuto, PaidFor, SentOk;
      QP.StepInv(w.queue, op, now);
      QueueAuto(w.queue, op, now);
    case Contacts(t) => hide QP.WorldInv, TP.Inv, CountAuto, PaidFor, SentOk;
    case Tasks(event) =>
      hide Inv, TP.Next, TP.Enabled;
      TasksInv(w, event, now);
    case Arm(a, id) =>
      hide Inv, ArmStep;
      ArmInv(w, a, id, now);
    case Observe(o, id) =>
      hide Inv, ObserveStep;
      ObserveInv(w, o, id, now);
  }

  // --------------------------------------------------------------------- runs

  function Start(contacts: B.Tables): World {
    World(QP.World([], map[], 0), contacts, TP.Start(), Fresh, History(0, 0, []))
  }

  ghost predicate IsRun(ws: seq<World>, events: seq<Event>, times: seq<int>) {
    && |ws| == |events| + 1 && |times| == |events|
    && (exists t :: HostsOk(t) && ws[0] == Start(t))
    && forall i :: 0 <= i < |events| ==> Enabled(ws[i], events[i]) && ws[i + 1] == Next(ws[i], events[i], times[i])
  }

  lemma StartInv(t: B.Tables)
    requires HostsOk(t)
    ensures Inv(Start(t))
  {
    TP.StartInv();
    assert Q.ActiveOnly([]) == [];
    hide TP.Inv;
  }

  lemma {:induction false} RunInv(ws: seq<World>, events: seq<Event>, times: seq<int>, i: nat)
    requires IsRun(ws, events, times) && i < |ws|
    ensures Inv(ws[i])
  {
    hide Inv, Next, Enabled, Start, HostsOk;
    if i == 0 {
      var t :| HostsOk(t) && ws[0] == Start(t);
      StartInv(t);
    } else {
      RunInv(ws, events, times, i - 1);
      StepInv(ws[i - 1], events[i - 1], times[i - 1]);
    }
  }

  /** In every run, the number of continuations is at most the cap and at most the number of
      writes of the bound task since it was armed, and it counts the messages sent since then. */
  lemma PaidForByProgress(ws: seq<World>, events: seq<Event>, times: seq<int>, i: nat)
    requires IsRun(ws, events, times) && i < |ws|
    ensures var w := ws[i];
            && (w.ctl.cap.Some? ==> w.ctl.count <= w.ctl.cap.value)
            && (w.ctl.task.Some? ==> w.ctl.count <= Writes(w.tasks, w.ctl.task.value) - w.hist.writesAtArming)
            && w.ctl.count == Continuations(w.hist.sent, w.hist.armings)
  {
    hide Next, Enabled, IsRun, QP.WorldInv, TP.Inv, HostsOk;
    RunInv(ws, events, times, i);
    if ws[i].ctl.task.Some? {
      RevisionIsWrites(ws[i].tasks, ws[i].ctl.task.value);
    }
  }

  /** At most one automatic message is active in any state. */
  lemma OneAutomaticMessage(ws: seq<World>, events: seq<Event>, times: seq<int>, i: nat)
    requires IsRun(ws, events, times) && i < |ws|
    ensures CountAuto(ws[i].queue.ms) <= 1
  {
    hide Next, Enabled, IsRun, QP.WorldInv, TP.Inv, HostsOk;
    RunInv(ws, events, times, i);
  }

  /** An accepted completion of a new turn either raises the count by one or stops. */
  lemma EveryTurnSettles(ws: seq<World>, events: seq<Event>, times: seq<int>, i: nat)
    requires IsRun(ws, events, times) && i < |events| && events[i].Observe?
    requires CompletesTurn(ws[i].ctl, EnvOf(ws[i], times[i]), events[i].observation)
    ensures ws[i + 1].ctl.count == ws[i].ctl.count + 1 || !ws[i + 1].ctl.enabled
    ensures ws[i + 1].ctl.count == ws[i].ctl.count + 1 <==>
        Continues(ws[i].ctl, EnvOf(ws[i], times[i]), events[i].observation)
  {
    hide CompletesTurn, Continues, OnEvent, QP.WorldInv, TP.Inv, HostsOk, Q.Enqueue;
    RunInv(ws, events, times, i);
    EventEffect(ws[i].ctl, EnvOf(ws[i], times[i]), events[i].observation, events[i].sendId);
  }

  /** While stopped, only arming again changes what has been sent, or enables the controller. */
  lemma {:induction false} NothingAfterStop(ws: seq<World>, events: seq<Event>, times: seq<int>, i: nat, j: nat)
    requires IsRun(ws, events, times) && i <= j < |ws| && !ws[i].ctl.enabled
    requires forall k :: i <= k < j ==> events[k].Arm? ==> !ArmsOk(ws[k], events[k].args, times[k])
    ensures !ws[j].ctl.enabled && ws[j].hist.sent == ws[i].hist.sent
    decreases j
  {
    if i < j {
      hide Enabled, ArmError, OnEvent, HostsOk, Q.Enqueue, Q.Release;
      NothingAfterStop(ws, events, times, i, j - 1);
      var w, e, now := ws[j - 1], events[j - 1], times[j - 1];
      assert ws[j] == Next(w, e, now);
      assert Enabled(w, e);
      match e {
        case Observe(o, id) => StoppedIgnores(w.ctl, EnvOf(w, now), o, id);
        case Queue(op) => hide QP.Next;
        case Contacts(t) =>
        case Tasks(event) => hide TP.Next;
        case Arm(a, id) =>
      }
    }
  }

  lemma StoppedIgnores(c: Ctl, env: Env, e: Observation, id: Q.MsgId)
    requires !c.enabled
    ensures OnEvent(c, env, e, id) == (c, env.messages)
  {
  }
}
