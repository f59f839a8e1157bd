/** The continuation controller: arming it for a task and a conversation, and deciding on every
    observed turn whether to send one more automatic message or to stop. */
module ContinuationModel {
  import opened Collections
  import Q = BridgeQueueModel
  import B = BridgeTables
  import T = TaskStoreModel

  const HEALTH_TTL_MS: int := 15000
  const MAX_CONVERSATION: nat := 512
  const MAX_TURN_KEY: nat := 256
  const MAX_CAP: int := 100

  datatype Decision =
    | Disabled | Armed | SeedEnqueued | Stopped | TurnRebound | CompletionRebound
    | ObserverRebound | DuplicateIgnored | ContinuationEnqueued

  datatype Reason =
    | DisabledByUser | SeedEnqueueFailed | ConversationChanged | ObserverFault(event: B.EventType) | TurnIdentityMissing
    | CompanionUnhealthy | ObserverUnhealthy | ObserverDegraded | QueueNotEmpty | TaskUnavailable
    | TaskCompleted | TaskPaused | TaskNotAdvanced | CapReached | EnqueueFailed

  datatype Error =
    | InvalidRequest | TaskUnavailableError | TaskNotActive | NotReady | QueueNotEmptyError | EnqueueFailedError

  datatype Result = Done | Failed(error: Error)

  datatype Ctl = Ctl(
    enabled: bool, task: Option<string>, observer: string, conversation: string, host: Option<string>, armedAt: int,
    count: nat, cap: Option<nat>, lastRevision: int, lastObserved: Option<string>, lastContinued: Option<string>,
    decision: Decision, decidedAt: int, reason: Option<Reason>)

  /** An event as an observer published it. */
  datatype Observation = Observation(
    observer: string, at: int, event: B.EventType, conversation: Option<string>, host: Option<string>,
        turnKey: Option<string>)

  datatype Arming = Arming(
    enabled: bool, task: Option<string>, conversation: Option<string>, start: bool, cap: Option<int>)

  /** The environment of a call: the bridge messages, its contact tables, the task table and
      the time. */
  datatype Env = Env(messages: seq<Q.Message>, contacts: B.Tables, tasks: T.Table, now: int)

  const Fresh: Ctl := Ctl(false, None, "", "", None, 0, 0, None, 0, None, None, Disabled, 0, None)

  // ------------------------------------------------------------------- health

  predicate Degraded(e: Option<B.EventType>) {
    e == Some(B.BridgeDegraded) || e == Some(B.ErrorEvent)
  }

  predicate DegradedOrBlocked(e: Option<B.EventType>) { Degraded(e) || e == Some(B.Blocked) }

  /** Asking for the health also releases the claims whose lease has run out. */
  function Snapshot(env: Env): seq<Q.Message> { Q.Release(env.messages, env.now) }

  predicate CompanionOnline(env: Env, host: Option<string>) {
    var row := if host.None? then env.contacts.companion else B.CompanionForHost(env.contacts, host.value);
    row.Some? && env.now - row.value.lastSeen <= HEALTH_TTL_MS
  }

  predicate ObserverOnline(env: Env, observer: string) {
    var row := B.ObserverStatus(env.contacts, observer);
    row.Some? && env.now - row.value.lastSeen <= HEALTH_TTL_MS
  }

  function LastEvent(env: Env, observer: string): Option<B.EventType> {
    var row := B.ObserverStatus(env.contacts, observer);
    if row.Some? then row.value.lastEvent else None
  }

  function NonEmptyHost(host: Option<string>): Option<string> {
    if host.Some? && host.value != "" then host else None
  }

  /** The read-only task service. */
  function ReadTask(tasks: T.Table, id: string): Option<T.Task> {
    if T.CallId(id) && id in tasks then Some(tasks[id]) else None
  }

  // ------------------------------------------------------------------ stopping

  function Stop(c: Ctl, reason: Reason, now: int): Ctl {
    c.(enabled := false, decision := Stopped, decidedAt := now, reason := Some(reason))
  }

  // -------------------------------------------------------------------- arming

  /** Everything arming checks, in order. */
  function ArmError(env: Env, a: Arming): Option<Error> {
    if a.task.None? || !T.SafeId(a.task.value) then Some(InvalidRequest)
    else if a.cap.Some? && !(1 <= a.cap.value <= MAX_CAP) then Some(InvalidRequest)
    else
      var task := ReadTask(env.tasks, a.task.value);
      if task.None? then Some(TaskUnavailableError)
      else if !task.value.status.Active? then Some(TaskNotActive)
      else if a.conversation.None? || !(1 <= |a.conversation.value| <= MAX_CONVERSATION) then Some(NotReady)
      else
        var candidate := B.ObserverForConversation(env.contacts, a.conversation.value);
        if candidate.None? then Some(NotReady)
        else
          var observer := candidate.value.observer;
          if !CompanionOnline(env, NonEmptyHost(candidate.value.host)) then Some(NotReady)
          else if !ObserverOnline(env, observer) then Some(NotReady)
          else if DegradedOrBlocked(LastEvent(env, observer)) then Some(NotReady)
          else if !(1 <= |observer| <= MAX_CONVERSATION) then Some(NotReady)
          else if Q.ActiveOnly(Snapshot(env)) != [] then Some(QueueNotEmptyError)
          else None
  }

  /** Whether arming gets as far as asking for the health, which releases old claims. */
  predicate AsksHealth(env: Env, a: Arming) {
    && a.task.Some? && T.SafeId(a.task.value) && (a.cap.Some? ==> 1 <= a.cap.value <= MAX_CAP)
    && ReadTask(env.tasks, a.task.value).Some? && ReadTask(env.tasks, a.task.value).value.status.Active?
    && a.conversation.Some? && 1 <= |a.conversation.value| <= MAX_CONVERSATION
    && B.ObserverForConversation(env.contacts, a.conversation.value).Some?
  }

  function ArmedState(env: Env, a: Arming): Ctl
    requires ArmError(env, a).None?
  {
    var candidate := B.ObserverForConversation(env.contacts, a.conversation.value).value;
    Ctl(true, a.task, candidate.observer, a.conversation.value, NonEmptyHost(candidate.host), env.now,
        0, if a.cap.Some? then Some(a.cap.value as nat) else None,
        ReadTask(env.tasks, a.task.value).value.revision, None, None,
        if a.start then SeedEnqueued else Armed, env.now, None)
  }

  /** Arm, and with start also enqueue the seed turn. The message id is drawn by the bridge. */
  function Configure(c: Ctl, env: Env, a: Arming, id: Q.MsgId): (Ctl, seq<Q.Message>, Result) {
    if !a.enabled then (Stop(c, DisabledByUser, env.now), env.messages, Done)
    else if ArmError(env, a).Some? then
      (c, if AsksHealth(env, a) then Snapshot(env) else env.messages, Failed(ArmError(env, a).value))
    else
      var armed := ArmedState(env, a);
      if !a.start then (armed, Snapshot(env), Done)
      else
        var (after, reply) := Q.Enqueue(Snapshot(env), id, Q.Seed(a.task.value), Q.AutoSeed, armed.host, env.now);
        if reply.Err? then
          (armed.(enabled := false, decision := Stopped, reason := Some(SeedEnqueueFailed)), after,
              Failed(EnqueueFailedError))
        else (armed, after, Done)
  }

  // ----------------------------------------------------------------- observing

  /** What an event does before its type is looked at: it is ignored, it stops the controller,
      or it is accepted, possibly after another observer of the conversation has taken over. */
  datatype Admission = Ignored | Halts(reason: Reason) | Accepted(ctl: Ctl)

  predicate StartTakeover(c: Ctl, env: Env, e: Observation) {
    var bound := B.ObserverStatus(env.contacts, c.observer);
    && e.event == B.TurnStarted && e.at >= c.armedAt
    && !(bound.Some? && bound.value.lastEventAt.Some? && bound.value.lastEventAt.value > c.armedAt)
  }

  predicate CompletionTakeover(c: Ctl, env: Env, e: Observation) {
    var bound := B.ObserverStatus(env.contacts, c.observer);
    && e.event == B.TurnCompleted && bound.Some? && bound.value.lastEvent == Some(B.TurnStarted)
    && bound.value.lastEventAt.Some? && e.at >= c.armedAt && e.at >= bound.value.lastEventAt.value
  }

  function Admit(c: Ctl, env: Env, e: Observation): Admission {
    if !c.enabled then Ignored
    else if e.conversation != Some(c.conversation) then
      (if e.observer == c.observer then Halts(ConversationChanged) else Ignored)
    else if e.observer == c.observer then Accepted(c)
    else if c.host.Some? && NonEmptyHost(e.host) != c.host then Ignored
    else if !ObserverOnline(env, e.observer) || DegradedOrBlocked(LastEvent(env, e.observer)) then Ignored
    else
      var starts, completes := StartTakeover(c, env, e), CompletionTakeover(c, env, e);
      if ObserverOnline(env, c.observer) && !starts && !completes then Ignored
      else
        Accepted(c.(observer := e.observer,
                    decision := if starts then TurnRebound else if completes then CompletionRebound
                        else ObserverRebound,
                    decidedAt := env.now))
  }

  /** Whether judging the event asks for the health of any observer. */
  predicate AdmissionAsksHealth(c: Ctl, e: Observation) {
    c.enabled && e.conversation == Some(c.conversation) && e.observer != c.observer
  }

  function TurnKey(e: Observation): Option<string> {
    if e.turnKey.Some? && 1 <= |e.turnKey.value| <= MAX_TURN_KEY then e.turnKey else None
  }

  /** The reasons not to continue, in the order they are looked for. */
  function Obstacle(c: Ctl, env: Env): Option<Reason>
    requires c.task.Some?
  {
    if !CompanionOnline(env, c.host) then Some(CompanionUnhealthy)
    else if !ObserverOnline(env, c.observer) then Some(ObserverUnhealthy)
    else if Degraded(LastEvent(env, c.observer)) then Some(ObserverDegraded)
    else if Q.ActiveOnly(Snapshot(env)) != [] then Some(QueueNotEmpty)
    else
      var task := ReadTask(env.tasks, c.task.value);
      if task.None? then Some(TaskUnavailable)
      else if task.value.status.Completed? then Some(TaskCompleted)
      else if task.value.status.Paused? then Some(TaskPaused)
      else if task.value.revision <= c.lastRevision then Some(TaskNotAdvanced)
      else None
  }

  /** A completed turn of an unseen key: one more message, or a stop. */
  function Continue(c: Ctl, env: Env, key: string, id: Q.MsgId): (Ctl, seq<Q.Message>)
    requires c.task.Some?
  {
    var seen := c.(lastObserved := Some(key));
    var obstacle := Obstacle(seen, env);
    if obstacle.Some? then (Stop(seen, obstacle.value, env.now), Snapshot(env))
    else
      var task := ReadTask(env.tasks, c.task.value).value;
      var advanced := seen.(lastRevision := task.revision);
      if c.cap.Some? && c.count >= c.cap.value then (Stop(advanced, CapReached, env.now), Snapshot(env))
      else
        var (after, reply) := Q.Enqueue(Snapshot(env), id, Q.Continue(c.task.value, c.count + 1, c.cap),
            Q.AutoContinue, c.host, env.now);
        if reply.Err? then (Stop(advanced, EnqueueFailed, env.now), after)
        else
          (advanced.(lastContinued := Some(key), count := c.count + 1, decision := ContinuationEnqueued,
              decidedAt := env.now, reason := None), after)
  }

  function OnEvent(c: Ctl, env: Env, e: Observation, id: Q.MsgId): (Ctl, seq<Q.Message>)
    requires c.enabled ==> c.task.Some?
  {
    var looked := if AdmissionAsksHealth(c, e) then Snapshot(env) else env.messages;
    match Admit(c, env, e)
    case Ignored => (c, looked)
    case Halts(reason) => (Stop(c, reason, env.now), looked)
    case Accepted(bound) =>
      if DegradedOrBlocked(Some(e.event)) then (Stop(bound, ObserverFault(e.event), env.now), looked)
      else if e.event != B.TurnCompleted then (bound, looked)
      else
        var key := TurnKey(e);
        if key.None? then (Stop(bound, TurnIdentityMissing, env.now), looked)
        else if key == bound.lastContinued then
          (bound.(lastObserved := key, decision := DuplicateIgnored, decidedAt := env.now), looked)
        else Continue(bound, env.(messages := looked), key.value, id)
  }
}
