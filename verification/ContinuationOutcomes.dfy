/** What the continuation controller makes of an event, stated on the event and the tables alone:
    whose events count, which one takes over, which reason stops it, and what it then records. */
module ContinuationOutcomes {
  import opened Collections
  import opened ContinuationModel
  import opened ContinuationProofs
  import Q = BridgeQueueModel
  import QP = BridgeQueueProofs
  import L = BridgeQueueLives
  import B = BridgeTables
  import T = TaskStoreModel
  import TP = TaskStoreProofs

  // ---------------------------------------------------------------- conditions

  /** Heard of within the last fifteen seconds. */
  predicate ObserverWell(env: Env, observer: string) {
    var row := B.ObserverStatus(env.contacts, observer);
    row.Some? && row.value.lastSeen >= env.now - 15000
  }

  /** The companion of the bound host, or without one the companion heard of last. */
  predicate CompanionWell(env: Env, host: Option<string>) {
    var row := if host.Some? then B.CompanionForHost(env.contacts, host.value) else env.contacts.companion;
    row.Some? && row.value.lastSeen >= env.now - 15000
  }

  predicate LastWas(env: Env, observer: string, kinds: set<B.EventType>) {
    var row := B.ObserverStatus(env.contacts, observer);
    row.Some? && row.value.lastEvent.Some? && row.value.lastEvent.value in kinds
  }

  const FAULTS: set<B.EventType> := {B.BridgeDegraded, B.ErrorEvent, B.Blocked}

  predicate SameConversation(c: Ctl, e: Observation) { e.conversation == Some(c.conversation) }

  /** The first turn started since arming that the bound observer has not reported anything
      about. */
  predicate StartsTurn(c: Ctl, env: Env, e: Observation) {
    var bound := B.ObserverStatus(env.contacts, c.observer);
    && e.event == B.TurnStarted && e.at >= c.armedAt
    && (bound.None? || bound.value.lastEventAt.None? || bound.value.lastEventAt.value <= c.armedAt)
  }

  /** The completion of a turn that the bound observer saw start. */
  predicate CompletesStarted(c: Ctl, env: Env, e: Observation) {
    var bound := B.ObserverStatus(env.contacts, c.observer);
    && e.event == B.TurnCompleted && e.at >= c.armedAt
    && bound.Some? && bound.value.lastEvent == Some(B.TurnStarted)
    && bound.value.lastEventAt.Some? && bound.value.lastEventAt.value <= e.at
  }

  /** Another observer of the conversation, on the bound host and in good health, whose event
      counts: the bound observer is not well, or misses this turn. */
  predicate TakesOver(c: Ctl, env: Env, e: Observation) {
    && c.enabled && SameConversation(c, e) && e.observer != c.observer
    && (c.host.None? || (e.host == c.host && e.host != Some("")))
    && ObserverWell(env, e.observer) && !LastWas(env, e.observer, FAULTS)
    && (!ObserverWell(env, c.observer) || StartsTurn(c, env, e) || CompletesStarted(c, env, e))
  }

  predicate ActedOn(c: Ctl, env: Env, e: Observation) {
    c.enabled && ((SameConversation(c, e) && e.observer == c.observer) || TakesOver(c, env, e))
  }

  /** The bound observer reports another conversation. */
  predicate Leaves(c: Ctl, e: Observation) {
    c.enabled && e.observer == c.observer && !SameConversation(c, e)
  }

  lemma StartIs(c: Ctl, env: Env, e: Observation)
    ensures StartTakeover(c, env, e) <==> StartsTurn(c, env, e)
    ensures CompletionTakeover(c, env, e) <==> CompletesStarted(c, env, e)
  {
    hide B.ObserverStatus;
  }

  lemma HealthIs(env: Env, observer: string, host: Option<string>)
    ensures ObserverOnline(env, observer) <==> ObserverWell(env, observer)
    ensures CompanionOnline(env, host) <==> CompanionWell(env, host)
    ensures DegradedOrBlocked(LastEvent(env, observer)) <==> LastWas(env, observer, FAULTS)
    ensures Degraded(LastEvent(env, observer)) <==> LastWas(env, observer, {B.BridgeDegraded, B.ErrorEvent})
  {
    hide B.ObserverStatus, B.CompanionForHost;
  }

  // ---------------------------------------------------------------- admission

  /** Which events count, and what a takeover changes: the observer, the decision and its time. */
  lemma AdmitExactly(c: Ctl, env: Env, e: Observation)
    ensures var r := Admit(c, env, e);
            && (r.Halts? <==> Leaves(c, e)) && (r.Halts? ==> r.reason == ConversationChanged)
            && (r.Accepted? <==> ActedOn(c, env, e))
            && (r.Accepted? && e.observer == c.observer ==> r.ctl == c)
            && (r.Accepted? && e.observer != c.observer ==>
                  var b := r.ctl;
                  && b == c.(observer := e.observer, decision := b.decision, decidedAt := env.now)
                  && b.decision == (if StartsTurn(c, env, e) then TurnRebound
                                    else if CompletesStarted(c, env, e) then CompletionRebound
                                    else ObserverRebound))
  {
    hide ObserverOnline, ObserverWell, LastEvent, LastWas, StartTakeover, CompletionTakeover, StartsTurn,
      CompletesStarted,
      DegradedOrBlocked;
    StartIs(c, env, e);
    HealthIs(env, e.observer, c.host);
    HealthIs(env, c.observer, c.host);
  }

  // ----------------------------------------------------------------- the event

  /** This call stopped the controller, for this reason, now; the rest of it is as c says. */
  predicate StoppedFor(c: Ctl, c1: Ctl, reason: Reason, now: int) {
    c1 == c.(enabled := false, decision := Stopped, decidedAt := now, reason := Some(reason))
  }

  /** The controller with the event's observer bound. */
  function Bound(c: Ctl, env: Env, e: Observation): Ctl {
    if e.observer == c.observer then c
    else
      c.(observer := e.observer, decidedAt := env.now,
         decision := if StartsTurn(c, env, e) then TurnRebound
                     else if CompletesStarted(c, env, e) then CompletionRebound else ObserverRebound)
  }

  predicate Keyed(e: Observation) { e.turnKey.Some? && 1 <= |e.turnKey.value| <= 256 }

  /** An event that counts and completes a turn that has not been answered yet. */
  predicate NewTurn(c: Ctl, env: Env, e: Observation) {
    ActedOn(c, env, e) && e.event == B.TurnCompleted && Keyed(e) && e.turnKey != c.lastContinued
  }

  predicate QueueBusy(env: Env) { exists m :: m in env.messages && Q.Active(m) }

  /** The first thing wrong with going on, if anything. */
  predicate Blocks(c: Ctl, env: Env, e: Observation, reason: Reason) {
    var task := if c.task.Some? then ReadTask(env.tasks, c.task.value) else None;
    match reason
    case CompanionUnhealthy => !CompanionWell(env, c.host)
    case ObserverUnhealthy => CompanionWell(env, c.host) && !ObserverWell(env, e.observer)
    case ObserverDegraded => Healthy(c, env, e) && LastWas(env, e.observer, {B.BridgeDegraded, B.ErrorEvent})
    case QueueNotEmpty => Sound(c, env, e) && QueueBusy(env)
    case TaskUnavailable => Sound(c, env, e) && !QueueBusy(env) && task.None?
    case TaskCompleted => Sound(c, env, e) && !QueueBusy(env) && task.Some? && task.value.status.Completed?
    case TaskPaused => Sound(c, env, e) && !QueueBusy(env) && task.Some? && task.value.status.Paused?
    case TaskNotAdvanced =>
      Sound(c, env, e) && !QueueBusy(env) && task.Some? && task.value.status.Active?
      && task.value.revision <= c.lastRevision
    case CapReached => Advanced(c, env, e) && c.cap.Some? && c.cap.value <= c.count
    case _ => false
  }

  predicate Healthy(c: Ctl, env: Env, e: Observation) { CompanionWell(env, c.host) && ObserverWell(env, e.observer) }

  predicate Sound(c: Ctl, env: Env, e: Observation) {
    Healthy(c, env, e) && !LastWas(env, e.observer, {B.BridgeDegraded, B.ErrorEvent})
  }

  /** Everything is well, and the task has been written since the last continuation. */
  predicate Advanced(c: Ctl, env: Env, e: Observation) {
    && Sound(c, env, e) && !QueueBusy(env) && c.task.Some? && ReadTask(env.tasks, c.task.value).Some?
    && var task := ReadTask(env.tasks, c.task.value).value;
       task.status.Active? && task.revision > c.lastRevision
  }

  lemma BusyIs(env: Env)
    ensures QueueBusy(env) <==> Q.ActiveOnly(Snapshot(env)) != []
    ensures QueueBusy(env.(messages := Snapshot(env))) <==> QueueBusy(env)
  {
    hide Q.Release;
    QP.ReleaseActive(env.messages, env.now);
    ActiveMember(env.messages);
    ReleaseTwice(env.messages, env.now);
    QP.ReleaseActive(Snapshot(env), env.now);
    ActiveMember(Snapshot(env));
  }

  lemma ActiveMember(ms: seq<Q.Message>)
    ensures Q.ActiveOnly(ms) != [] <==> exists m :: m in ms && Q.Active(m)
  {
    if Q.ActiveOnly(ms) != [] {
      var m := Q.ActiveOnly(ms)[0];
      QP.FilterMembers(ms, m);
      assert m in Q.ActiveOnly(ms);
    }
    if m :| m in ms && Q.Active(m) {
      QP.FilterMembers(ms, m);
    }
  }

  /** What is left of a new turn if something blocks it. */
  predicate TurnStops(c: Ctl, env: Env, e: Observation, c1: Ctl, reason: Reason) {
    var seen := Bound(c, env, e).(lastObserved := e.turnKey);
    StoppedFor(
      if reason == CapReached && c.task.Some? && ReadTask(env.tasks, c.task.value).Some?
        then seen.(lastRevision := ReadTask(env.tasks, c.task.value).value.revision) else seen,
      c1, reason, env.now)
  }

  /** One more message was sent for a new turn. */
  predicate TurnContinues(c: Ctl, env: Env, e: Observation, c1: Ctl) {
    && Advanced(c, env, e)
    && c1 == Bound(c, env, e).(
         lastObserved := e.turnKey, lastContinued := e.turnKey, count := c.count + 1,
         lastRevision := ReadTask(env.tasks, c.task.value).value.revision,
         decision := ContinuationEnqueued, decidedAt := env.now, reason := None)
  }

  /** The search for an obstacle finds the first thing that blocks. */
  lemma ObstacleIs(c: Ctl, env: Env, e: Observation, looked: seq<Q.Message>)
    requires c.task.Some? && (looked == env.messages || looked == Snapshot(env))
    ensures var b, env1 := Bound(c, env, e).(lastObserved := e.turnKey), env.(messages := looked);
            && Snapshot(env1) == Snapshot(env)
            && (Obstacle(b, env1).Some? ==> Blocks(c, env, e, Obstacle(b, env1).value))
            && (Obstacle(b, env1).None? <==> Advanced(c, env, e))
            && (Obstacle(b, env1).None? ==> Q.ActiveOnly(Snapshot(env)) == [])
  {
    hide ObserverOnline, ObserverWell, CompanionOnline, CompanionWell, LastEvent, LastWas, Degraded, QueueBusy,
      StartsTurn,
      CompletesStarted, ReadTask, Q.ActiveOnly, Snapshot;
    var env1 := env.(messages := looked);
    SnapshotAgain(env, env1);
    LookupsIgnoreMessages(env, env1, Bound(c, env, e));
    HealthIs(env, e.observer, c.host);
    BusyIs(env);
  }

  lemma AdvancedBlocks(c: Ctl, env: Env, e: Observation, reason: Reason)
    requires Advanced(c, env, e)
    ensures Blocks(c, env, e, reason) <==> reason == CapReached && c.cap.Some? && c.cap.value <= c.count
  {
    hide ObserverWell, CompanionWell, LastWas, QueueBusy, ReadTask;
  }

  lemma BoundKeeps(c: Ctl, env: Env, e: Observation)
    ensures var b := Bound(c, env, e);
            && b.enabled == c.enabled && b.task == c.task && b.host == c.host && b.cap == c.cap && b.count == c.count
            && b.lastRevision == c.lastRevision && b.lastContinued == c.lastContinued
  {
    hide StartsTurn, CompletesStarted;
  }

  /** A new turn stops for the first thing that blocks it, or else is continued. */
  lemma TurnExactly(c: Ctl, env: Env, e: Observation, looked: seq<Q.Message>, id: Q.MsgId)
    requires c.enabled && c.task.Some? && (c.host.Some? ==> |c.host.value| <= Q.MAX_ID_CHARS) && e.turnKey.Some?
    requires looked == env.messages || looked == Snapshot(env)
    ensures var (c1, after) := Continue(Bound(c, env, e), env.(messages := looked), e.turnKey.value, id);
            && (forall reason :: Blocks(c, env, e, reason) ==>
                 TurnStops(c, env, e, c1, reason) && after == Snapshot(env))
            && ((forall reason :: !Blocks(c, env, e, reason)) ==> TurnContinues(c, env, e, c1))
  {
    hide Q.Enqueue, Obstacle, Advanced, Blocks, ReadTask, Bound, Snapshot, Q.ActiveOnly;
    BoundKeeps(c, env, e);
    ObstacleIs(c, env, e, looked);
    var env1 := env.(messages := looked);
    var obstacle := Obstacle(Bound(c, env, e).(lastObserved := e.turnKey), env1);
    if obstacle.Some? {
      forall reason | Blocks(c, env, e, reason) ensures reason == obstacle.value {
        BlocksOnce(c, env, e, obstacle.value, reason);
      }
      NotAdvanced(c, env, e, obstacle.value);
    } else {
      TaskThere(c, env, e);
      forall reason ensures Blocks(c, env, e, reason) <==>
          reason == CapReached && c.cap.Some? && c.cap.value <= c.count {
        AdvancedBlocks(c, env, e, reason);
      }
      assert Blocks(c, env, e, CapReached) <==> c.cap.Some? && c.cap.value <= c.count;
      assert e.turnKey == Some(e.turnKey.value);
      EmptyEnqueue(Snapshot(env), id, Q.Continue(c.task.value, c.count + 1, c.cap), Q.AutoContinue, c.host, env.now);
    }
  }

  lemma TaskThere(c: Ctl, env: Env, e: Observation)
    requires Advanced(c, env, e)
    ensures c.task.Some? && ReadTask(env.tasks, c.task.value).Some?
  {
    hide ObserverWell, CompanionWell, LastWas, QueueBusy, ReadTask;
  }

  lemma NotAdvanced(c: Ctl, env: Env, e: Observation, reason: Reason)
    requires Blocks(c, env, e, reason) && !Advanced(c, env, e)
    ensures reason != CapReached
  {
    hide Advanced;
  }

  lemma SnapshotAgain(env: Env, env1: Env)
    requires env1 == env.(messages := env1.messages)
        && (env1.messages == env.messages || env1.messages == Snapshot(env))
    ensures Snapshot(env1) == Snapshot(env)
  {
    ReleaseTwice(env.messages, env.now);
  }

  /** Whose claims are looked at: any event of the conversation by another observer, and any new
      turn, release the claims that have run out. */
  predicate LooksAround(c: Ctl, env: Env, e: Observation) {
    (c.enabled && SameConversation(c, e) && e.observer != c.observer) || NewTurn(c, env, e)
  }

  /** For every event: whether it is ignored, taken over with, what it stops the controller for,
      and what it records. */
  lemma EventExactly(c: Ctl, env: Env, e: Observation, id: Q.MsgId)
    requires (c.enabled ==> c.task.Some?) && (c.host.Some? ==> |c.host.value| <= Q.MAX_ID_CHARS)
    ensures var c1 := OnEvent(c, env, e, id).0;
            var b := Bound(c, env, e);
            && (!ActedOn(c, env, e) && !Leaves(c, e) ==> c1 == c)
            && (Leaves(c, e) ==> StoppedFor(c, c1, ConversationChanged, env.now))
            && (ActedOn(c, env, e) && e.event in FAULTS ==> StoppedFor(b, c1, ObserverFault(e.event), env.now))
            && (ActedOn(c, env, e) && e.event !in FAULTS && e.event != B.TurnCompleted ==> c1 == b)
            && (ActedOn(c, env, e) && e.event == B.TurnCompleted && !Keyed(e) ==>
                  StoppedFor(b, c1, TurnIdentityMissing, env.now))
            && (ActedOn(c, env, e) && e.event == B.TurnCompleted && Keyed(e) && e.turnKey == c.lastContinued ==>
                  c1 == b.(lastObserved := e.turnKey, decision := DuplicateIgnored, decidedAt := env.now))
            && (NewTurn(c, env, e) ==>
                  && (forall reason :: Blocks(c, env, e, reason) ==> TurnStops(c, env, e, c1, reason))
                  && ((forall reason :: !Blocks(c, env, e, reason)) ==> TurnContinues(c, env, e, c1)))
  {
    hide Admit, ActedOn, Leaves, Continue, Blocks, TurnStops, TurnContinues, Bound, Snapshot;
    AdmitExactly(c, env, e);
    if ActedOn(c, env, e) {
      BoundIs(c, env, e);
    }
    if NewTurn(c, env, e) {
      TurnExactly(c, env, e, if AdmissionAsksHealth(c, e) then Snapshot(env) else env.messages, id);
    }
  }

  lemma BoundIs(c: Ctl, env: Env, e: Observation)
    requires ActedOn(c, env, e)
    ensures c.enabled && Admit(c, env, e) == Accepted(Bound(c, env, e))
    ensures Bound(c, env, e).lastContinued == c.lastContinued
  {
    hide Admit, ObserverWell, LastWas, StartsTurn, CompletesStarted;
    AdmitExactly(c, env, e);
  }

  /** An enabled controller is stopped by an event exactly for these reasons. */
  lemma StopsExactly(c: Ctl, env: Env, e: Observation, id: Q.MsgId, reason: Reason)
    requires c.enabled && c.task.Some? && (c.host.Some? ==> |c.host.value| <= Q.MAX_ID_CHARS)
    ensures var c1 := OnEvent(c, env, e, id).0;
            !c1.enabled && c1.reason == Some(reason) <==>
              || (Leaves(c, e) && reason == ConversationChanged)
              || (ActedOn(c, env, e) && e.event in FAULTS && reason == ObserverFault(e.event))
              || (ActedOn(c, env, e) && e.event == B.TurnCompleted && !Keyed(e) && reason == TurnIdentityMissing)
              || (NewTurn(c, env, e) && Blocks(c, env, e, reason))
  {
    hide OnEvent, ActedOn, Blocks;
    EventExactly(c, env, e, id);
    BoundEnabled(c, env, e);
    if Leaves(c, e) && ActedOn(c, env, e) { LeavesNotActed(c, env, e); }
    if NewTurn(c, env, e) && exists r :: Blocks(c, env, e, r) {
      var r :| Blocks(c, env, e, r);
      BlocksOnce(c, env, e, r, reason);
    }
  }

  lemma BoundEnabled(c: Ctl, env: Env, e: Observation)
    ensures Bound(c, env, e).enabled == c.enabled
  {
    hide StartsTurn, CompletesStarted;
  }

  lemma LeavesNotActed(c: Ctl, env: Env, e: Observation)
    ensures !(Leaves(c, e) && ActedOn(c, env, e))
  {
    hide ObserverWell, LastWas, StartsTurn, CompletesStarted;
  }

  /** At most one thing is the first to block. */
  lemma BlocksOnce(c: Ctl, env: Env, e: Observation, r: Reason, reason: Reason)
    requires Blocks(c, env, e, r)
    ensures Blocks(c, env, e, reason) ==> r == reason
  {
    hide ObserverWell, CompanionWell, LastWas, QueueBusy, ReadTask;
  }

  /** The queue after an event: a continued turn leaves one active message, addressed to the bound
      host and naming the task, the count and the cap; anything else leaves the messages as they
      are, but for leases that have run out. */
  lemma MessagesExactly(c: Ctl, env: Env, e: Observation, id: Q.MsgId)
    requires (c.enabled ==> c.task.Some?) && (c.host.Some? ==> |c.host.value| <= Q.MAX_ID_CHARS)
    ensures var (c1, after) := OnEvent(c, env, e, id);
            if NewTurn(c, env, e) && (forall reason :: !Blocks(c, env, e, reason)) then
              && c.task.Some? && |Q.ActiveOnly(after)| == 1
              && L.Enqueued(
                   Q.ActiveOnly(after)[0],
                   QP.DoEnqueue(id, Q.Continue(c.task.value, c.count + 1, c.cap), Q.AutoContinue, c.host), env.now)
            else after == if LooksAround(c, env, e) then Snapshot(env) else env.messages
  {
    hide Admit, ActedOn, Leaves, Blocks, TurnStops, Bound, Snapshot, Q.Enqueue, Q.ActiveOnly, Continues;
    AdmitExactly(c, env, e);
    EventExactly(c, env, e, id);
    EventEffect(c, env, e, id);
    if ActedOn(c, env, e) {
      BoundIs(c, env, e);
    }
    if NewTurn(c, env, e) {
      BusyIs(env);
      TurnExactly(c, env, e, if AdmissionAsksHealth(c, e) then Snapshot(env) else env.messages, id);
      if forall reason :: !Blocks(c, env, e, reason) {
        L.EnqueueExactly(
          Snapshot(env), id, Q.Continue(c.task.value, c.count + 1, c.cap), Q.AutoContinue, c.host, env.now);
      } else {
        var reason :| Blocks(c, env, e, reason);
      }
    }
  }

  // -------------------------------------------------------------------- arming

  /** The task service reads any task on record whose id has at most 128 characters. */
  lemma ReadTaskIs(tasks: T.Table, id: string)
    ensures ReadTask(tasks, id) == if T.SafeId(id) && |id| <= 128 && id in tasks then Some(tasks[id]) else None
  {
    if T.SafeId(id) {
      TP.SafeIsNotBlank(id);
    }
    hide T.SafeId;
  }

  /** The task can be read and is active. */
  predicate TaskReady(env: Env, a: Arming) {
    a.task.Some? && ReadTask(env.tasks, a.task.value).Some? && ReadTask(env.tasks, a.task.value).value.status.Active?
  }

  /** An observer of the conversation is bound by arming: the one heard of last. */
  predicate Found(env: Env, a: Arming) {
    && a.conversation.Some? && 1 <= |a.conversation.value| <= 512
    && B.ObserverForConversation(env.contacts, a.conversation.value).Some?
  }

  function Candidate(env: Env, a: Arming): B.ObserverRow
    requires Found(env, a)
  {
    B.ObserverForConversation(env.contacts, a.conversation.value).value
  }

  predicate ObserverReady(env: Env, a: Arming) {
    && Found(env, a)
    && var row := Candidate(env, a);
       && CompanionWell(env, if row.host == Some("") then None else row.host)
       && ObserverWell(env, row.observer) && !LastWas(env, row.observer, FAULTS) && 1 <= |row.observer| <= 512
  }

  predicate GoodRequest(a: Arming) {
    a.task.Some? && T.SafeId(a.task.value) && (a.cap.Some? ==> 1 <= a.cap.value <= 100)
  }

  /** The state an accepted call to arm leaves. */
  predicate ArmedFor(env: Env, a: Arming, c1: Ctl)
    requires Found(env, a) && TaskReady(env, a)
  {
    var row := Candidate(env, a);
    && c1.enabled && c1.task == a.task && Some(c1.conversation) == a.conversation && c1.observer == row.observer
    && c1.host == (if row.host == Some("") then None else row.host) && c1.armedAt == env.now && c1.count == 0
    && (if a.cap.None? then c1.cap == None else c1.cap.Some? && c1.cap.value == a.cap.value)
    && c1.lastRevision == ReadTask(env.tasks, a.task.value).value.revision
    && c1.lastObserved == None && c1.lastContinued == None && c1.reason == None && c1.decidedAt == env.now
    && c1.decision == (if a.start then SeedEnqueued else Armed)
  }

  /** Disabling stops. Arming fails with the first thing that is wrong, changing nothing of the
      controller, or else arms; with start it also sends the seed message. */
  lemma ArmExactly(c: Ctl, env: Env, a: Arming, id: Q.MsgId)
    requires HostsOk(env.contacts)
    ensures var (c1, after, r) := Configure(c, env, a, id);
            var ready := GoodRequest(a) && TaskReady(env, a) && ObserverReady(env, a);
            && (!a.enabled ==> StoppedFor(c, c1, DisabledByUser, env.now) && after == env.messages && r == Done)
            && (a.enabled ==>
                  && (r == Failed(InvalidRequest) <==> !GoodRequest(a))
                  && (r == Failed(TaskUnavailableError) <==>
                        GoodRequest(a) && ReadTask(env.tasks, a.task.value).None?)
                  && (r == Failed(TaskNotActive) <==>
                        GoodRequest(a) && ReadTask(env.tasks, a.task.value).Some? && !TaskReady(env, a))
                  && (r == Failed(NotReady) <==> GoodRequest(a) && TaskReady(env, a) && !ObserverReady(env, a))
                  && (r == Failed(QueueNotEmptyError) <==> ready && QueueBusy(env))
                  && (r == Done <==> ready && !QueueBusy(env))
                  && (r != Done ==>
                        && c1 == c
                        && after == if GoodRequest(a) && TaskReady(env, a) && Found(env, a) then Snapshot(env)
                                    else env.messages)
                  && (r == Done ==> ArmedFor(env, a, c1))
                  && (r == Done && !a.start ==> after == Snapshot(env))
                  && (r == Done && a.start ==>
                        && |Q.ActiveOnly(after)| == 1
                        && L.Enqueued(
                             Q.ActiveOnly(after)[0], QP.DoEnqueue(id, Q.Seed(a.task.value), Q.AutoSeed, c1.host),
                                 env.now)))
  {
    hide ObserverOnline, ObserverWell, CompanionOnline, CompanionWell, LastEvent, LastWas, DegradedOrBlocked, QueueBusy,
      ReadTask, Q.ActiveOnly, Snapshot, Q.Enqueue, T.SafeId, B.ObserverForConversation, HostsOk;
    BusyIs(env);
    if Found(env, a) {
      var row := Candidate(env, a);
      HealthIs(env, row.observer, NonEmptyHost(row.host));
      CandidateHost(env.contacts, a.conversation.value);
    }
    if a.enabled && ArmError(env, a).None? && a.start {
      var host := ArmedState(env, a).host;
      EmptyEnqueue(Snapshot(env), id, Q.Seed(a.task.value), Q.AutoSeed, host, env.now);
      L.EnqueueExactly(Snapshot(env), id, Q.Seed(a.task.value), Q.AutoSeed, host, env.now);
    }
  }
}
