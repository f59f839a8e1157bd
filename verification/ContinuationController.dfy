/** The continuation controller object, over the bridge store and the task store. */
module ContinuationController {
  import opened Collections
  import opened ContinuationModel
  import Q = BridgeQueueModel
  import QP = BridgeQueueProofs
  import B = BridgeTables
  import T = TaskStoreModel
  import P = ContinuationProofs
  import BridgeStore
  import TaskStore

  class Controller {
    const store: BridgeStore.ChatGPTWebBridgeStore
    const tasks: TaskStore.Store
    var state: Ctl

    constructor (store: BridgeStore.ChatGPTWebBridgeStore, tasks: TaskStore.Store)
      ensures this.store == store && this.tasks == tasks && state == Fresh
    {
      this.store, this.tasks, state := store, tasks, Fresh;
    }

    /** What a call can see. */
    ghost function Env(now: int): Env
      reads this, store, tasks
    {
      ContinuationModel.Env(store.messages, store.Contacts(), tasks.table, now)
    }

    /** A valid controller has a task while it is enabled. */
    ghost predicate Valid()
      reads this, store
    {
      store.Valid() && (state.enabled ==> state.task.Some?)
    }

    method StopWith(reason: Reason, now: int)
      modifies this
      ensures state == Stop(old(state), reason, now)
    {
      state := state.(enabled := false);
      state := state.(decision := Stopped);
      state := state.(decidedAt := now);
      state := state.(reason := Some(reason));
    }

    method Healthy(host: Option<string>, observer: string, now: int)
      returns (companionOnline: bool, observerOnline: bool, lastEvent: Option<B.EventType>)
      requires store.Valid()
      modifies store`messages
      ensures store.Valid() && store.messages == Q.Release(old(store.messages), now)
      ensures companionOnline == CompanionOnline(old(Env(now)), host)
      ensures observerOnline == ObserverOnline(old(Env(now)), observer)
          && lastEvent == LastEvent(old(Env(now)), observer)
    {
      hide QP.WorldInv, Q.Release;
      store.ReleaseExpiredClaims(now);
      var companion := if host.None? then store.companion else B.CompanionForHost(store.Contacts(), host.value);
      companionOnline := companion.Some? && now - companion.value.lastSeen <= HEALTH_TTL_MS;
      var row := B.ObserverStatus(store.Contacts(), observer);
      observerOnline := row.Some? && now - row.value.lastSeen <= HEALTH_TTL_MS;
      lastEvent := if row.Some? then row.value.lastEvent else None;
    }

    /** The checks of arming, with the observer and host found. */
    method CheckArming(a: Arming, now: int)
      returns (error: Option<Error>, observer: string, host: Option<string>, revision: int)
      requires store.Valid()
      modifies store`messages
      ensures store.Valid() && error == ArmError(old(Env(now)), a)
      ensures store.messages == if AsksHealth(old(Env(now)), a) then Snapshot(old(Env(now))) else old(store.messages)
      ensures error.None? ==> AsksHealth(old(Env(now)), a)
      ensures error.None? ==> (observer, host, revision) == Found(ArmedState(old(Env(now)), a))
    {
      hide QP.WorldInv, Q.Release, T.CallId, T.SafeId, B.ObserverForConversation, B.ObserverStatus,
        B.CompanionForHost, CompanionOnline, ObserverOnline, LastEvent;
      error, observer, host, revision := None, "", None, 0;
      if a.task.None? || !T.SafeId(a.task.value) || (a.cap.Some? && (a.cap.value < 1 || a.cap.value > MAX_CAP)) {
        return Some(InvalidRequest), observer, host, revision;
      }
      var task := ReadTask(tasks.table, a.task.value);
      if task.None? {
        return Some(TaskUnavailableError), observer, host, revision;
      }
      if task.value.status != T.Active {
        return Some(TaskNotActive), observer, host, revision;
      }
      if a.conversation.None? || |a.conversation.value| < 1 || |a.conversation.value| > MAX_CONVERSATION {
        return Some(NotReady), observer, host, revision;
      }
      var candidate := B.ObserverForConversation(store.Contacts(), a.conversation.value);
      if candidate.None? {
        return Some(NotReady), observer, host, revision;
      }
      observer, host, revision := candidate.value.observer, NonEmptyHost(candidate.value.host), task.value.revision;
      var companionOnline, observerOnline, lastEvent := Healthy(host, observer, now);
      if !companionOnline || !observerOnline || DegradedOrBlocked(lastEvent) || |observer| < 1
          || |observer| > MAX_CONVERSATION {
        return Some(NotReady), observer, host, revision;
      }
      var active, settled := store.Split();
      if active != [] {
        return Some(QueueNotEmptyError), observer, host, revision;
      }
    }

    method ConfigureWith(a: Arming, id: Q.MsgId, now: int) returns (result: Result)
      requires Valid() && id !in store.at
      modifies this, store`messages, store`at, store`next
      ensures Valid()
      ensures (state, store.messages, result) == Configure(old(state), old(Env(now)), a, id)
    {
      hide QP.WorldInv, Q.Release, Q.Enqueue, ArmError, AsksHealth, B.ObserverForConversation, T.CallId, T.SafeId;
      ghost var env := Env(now);
      if !a.enabled {
        StopWith(DisabledByUser, now);
        result := Done;
      } else {
        var error, observer, host, revision := CheckArming(a, now);
        if error.Some? {
          result := Failed(error.value);
        } else {
          ArmedHasTask(env, a);
          state := Ctl(true, a.task, observer, a.conversation.value, host, now, 0,
                       if a.cap.Some? then Some(a.cap.value as nat) else None, revision, None, None,
                       if a.start then SeedEnqueued else Armed, now, None);
          assert state == ArmedState(env, a);
          result := Done;
          if a.start {
            var reply := store.Enqueue(id, Q.Seed(a.task.value), Q.AutoSeed, host, now);
            if reply.Err? {
              state := state.(enabled := false, decision := Stopped, reason := Some(SeedEnqueueFailed));
              result := Failed(EnqueueFailedError);
            }
          }
        }
      }
    }

    /** Whether the event is to be acted on; binds another observer when it takes over. */
    method AdmitEvent(e: Observation, now: int) returns (admitted: bool)
      requires Valid()
      modifies this, store`messages
      ensures Valid()
      ensures store.messages == if AdmissionAsksHealth(old(state), e) then Snapshot(old(Env(now)))
          else old(store.messages)
      ensures match Admit(old(state), old(Env(now)), e)
              case Ignored => !admitted && state == old(state)
              case Halts(reason) => !admitted && state == Stop(old(state), reason, now)
              case Accepted(ctl) => admitted && state == ctl
    {
      hide QP.WorldInv, Q.Release, CompanionOnline, ObserverOnline, LastEvent;
      admitted := false;
      if !state.enabled {
        return;
      }
      if e.conversation != Some(state.conversation) {
        if e.observer == state.observer { StopWith(ConversationChanged, now); }
        return;
      }
      if e.observer == state.observer {
        return true;
      }
      ghost var env := Env(now);
      var companionOnline, boundOnline, boundEvent := Healthy(state.host, state.observer, now);
      if state.host.Some? && NonEmptyHost(e.host) != state.host {
        return;
      }
      var again, candidateOnline, candidateEvent := HealthyAgain(env, state.host, e.observer, now);
      if !candidateOnline || DegradedOrBlocked(candidateEvent) {
        return;
      }
      var bound := B.ObserverStatus(store.Contacts(), state.observer);
      var starts := e.event == B.TurnStarted && e.at >= state.armedAt
                    && !(bound.Some? && bound.value.lastEventAt.Some? && bound.value.lastEventAt.value > state.armedAt);
      var completes := e.event == B.TurnCompleted && bound.Some? && bound.value.lastEvent == Some(B.TurnStarted)
                       && bound.value.lastEventAt.Some? && e.at >= state.armedAt
                            && e.at >= bound.value.lastEventAt.value;
      if boundOnline && !starts && !completes {
        return;
      }
      state := state.(observer := e.observer);
      state := state.(decision := if starts then TurnRebound else if completes then CompletionRebound
          else ObserverRebound);
      state := state.(decidedAt := now);
      admitted := true;
    }

    /** The health seen from a store whose old claims were already released in this call. */
    method HealthyAgain(ghost env: Env, host: Option<string>, observer: string, now: int)
      returns (companionOnline: bool, observerOnline: bool, lastEvent: Option<B.EventType>)
      requires store.Valid() && env.now == now && env.contacts == store.Contacts() && env.tasks == tasks.table
      requires store.messages == env.messages || store.messages == Snapshot(env)
      modifies store`messages
      ensures store.Valid() && store.messages == Snapshot(env)
      ensures companionOnline == CompanionOnline(env, host)
      ensures observerOnline == ObserverOnline(env, observer) && lastEvent == LastEvent(env, observer)
    {
      P.ReleaseTwice(env.messages, now);
      hide QP.WorldInv, Q.Release;
      companionOnline, observerOnline, lastEvent := Healthy(host, observer, now);
    }

    method OnObserverEvent(e: Observation, id: Q.MsgId, now: int)
      requires Valid() && id !in store.at
      modifies this, store`messages, store`at, store`next
      ensures Valid()
      ensures (state, store.messages) == OnEvent(old(state), old(Env(now)), e, id)
    {
      hide QP.WorldInv, Q.Release, Q.Enqueue, Admit, Continue, CompanionOnline, ObserverOnline, LastEvent;
      ghost var before, env := state, Env(now);
      AdmittedHasTask(state, env, e);
      var admitted := AdmitEvent(e, now);
      if admitted {
        if DegradedOrBlocked(Some(e.event)) {
          StopWith(ObserverFault(e.event), now);
        } else if e.event == B.TurnCompleted {
          var key := TurnKey(e);
          if key.None? {
            StopWith(TurnIdentityMissing, now);
          } else if key == state.lastContinued {
            state := state.(lastObserved := key, decision := DuplicateIgnored, decidedAt := now);
          } else {
            ContinueTurn(key.value, id, now);
          }
        }
      }
    }

    /** A completed turn that has not been answered yet. */
    method ContinueTurn(key: string, id: Q.MsgId, now: int)
      requires Valid() && state.enabled && id !in store.at
      modifies this, store`messages, store`at, store`next
      ensures Valid()
      ensures (state, store.messages) == Continue(old(state), old(Env(now)), key, id)
    {
      hide QP.WorldInv, Q.Release, Q.Enqueue, CompanionOnline, ObserverOnline, LastEvent, T.CallId;
      state := state.(lastObserved := Some(key));
      var companionOnline, observerOnline, lastEvent := Healthy(state.host, state.observer, now);
      var active, settled := store.Split();
      var task := ReadTask(tasks.table, state.task.value);
      if !companionOnline {
        StopWith(CompanionUnhealthy, now);
      } else if !observerOnline {
        StopWith(ObserverUnhealthy, now);
      } else if Degraded(lastEvent) {
        StopWith(ObserverDegraded, now);
      } else if active != [] {
        StopWith(QueueNotEmpty, now);
      } else if task.None? {
        StopWith(TaskUnavailable, now);
      } else if task.value.status == T.Completed {
        StopWith(TaskCompleted, now);
      } else if task.value.status == T.Paused {
        StopWith(TaskPaused, now);
      } else if task.value.revision <= state.lastRevision {
        StopWith(TaskNotAdvanced, now);
      } else {
        state := state.(lastRevision := task.value.revision);
        if state.cap.Some? && state.count >= state.cap.value {
          StopWith(CapReached, now);
        } else {
          var next := state.count + 1;
          var reply := store.Enqueue(id, Q.Continue(state.task.value, next, state.cap), Q.AutoContinue, state.host,
              now);
          if reply.Err? {
            StopWith(EnqueueFailed, now);
          } else {
            state := state.(lastContinued := Some(key));
            state := state.(count := next);
            state := state.(decision := ContinuationEnqueued);
            state := state.(decidedAt := now);
            state := state.(reason := None);
          }
        }
      }
    }
  }

  ghost function Found(c: Ctl): (string, Option<string>, int) { (c.observer, c.host, c.lastRevision) }

  lemma ArmedHasTask(env: ContinuationModel.Env, a: Arming)
    requires ArmError(env, a).None?
    ensures a.task.Some? && a.conversation.Some? && (a.cap.Some? ==> a.cap.value >= 1)
    ensures ReadTask(env.tasks, a.task.value).Some?
        && B.ObserverForConversation(env.contacts, a.conversation.value).Some?
  {
  }

  lemma AdmittedHasTask(c: Ctl, env: ContinuationModel.Env, e: Observation)
    ensures Admit(c, env, e).Accepted? ==>
        c.enabled && Admit(c, env, e).ctl.enabled && Admit(c, env, e).ctl.task == c.task
  {
  }
}
