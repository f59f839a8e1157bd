/** The remote-worker job controller as a state machine. Every operation that the
    controller performs without giving up control is one function on its state. Objects that
    the program shares by reference (a machine's runtime record, a job's pending record) are
    kept under identities of their own, so that a record stays reachable through a closure
    after the map that held it has moved on. */
module RemoteWorkerModel {
  import opened Collections
  import opened MachineNames
  import opened RemoteWorkerProfile
  import opened JsText

  type Token = nat
  type JobId = nat
  type PollId = nat
  type InviteCode = nat
  type RuntimeId = nat

  const MAX_INVITES: nat := 32
  const MAX_WORKDIR: nat := 4096
  const MIN_TTL: int := 60
  const MAX_TTL: int := 86400
  const MIN_JOB_TIMEOUT: int := 1000
  const MIN_GRACE: int := 30000

  datatype Config = Config(
    publicBaseUrl: string, maxPending: nat, heartbeat: nat, offlineAfter: nat, defaultTimeout: nat, maxTimeout: int)

  datatype Invite = Invite(name: Option<string>, workdir: Option<string>, expiresAt: int)

  datatype Worker = Worker(token: Token, workdir: string, capabilities: seq<string>, info: InfoMap)

  datatype Runtime = Runtime(lastSeen: int, queue: seq<JobId>, waiters: seq<PollId>)

  datatype Wake = JobReady | TimedOut | WasRevoked

  /** A long poll that has not returned yet: the machine name it captured before parking. */
  datatype Poll = Poll(name: string, token: Token, runtime: RuntimeId, wake: Option<Wake>)

  /** How the record of a job's caller was closed. The caller hears of it, except when a
      malformed result closed it. */
  datatype Settlement = ByResult(token: Token) | ByRevocation | ByTimeout | ByAbort | Unanswered

  /** A reported outcome: a value, an error object, or an error that is not an object. */
  datatype Report = Value | Failure | Malformed

  datatype Delivery = Delivery(poll: PollId, token: Token)

  /** One dispatched job's pending record. The last three fields are history that no
      operation reads: the identity the job was dispatched to, every poll that returned the
      job, and every settlement of its caller. */
  datatype Job = Job(
    machine: string,
    runtime: RuntimeId,
    claimed: bool,
    cancelled: bool,
    settled: bool,
    due: int,
    armed: bool,
    grace: Option<int>,
    owner: Token,
    deliveries: seq<Delivery>,
    settlements: seq<Settlement>)

  /** The registered machines: the stored table and the map from identity to name. `used`
      is history: every identity ever issued. */
  datatype Identities = Identities(table: map<string, Worker>, tokens: map<Token, string>, used: set<Token>)

  /** Pending invites, with the history of those created and redeemed. */
  datatype InviteBook = InviteBook(invites: map<InviteCode, Invite>, issued: set<InviteCode>, redeemed: seq<InviteCode>)

  /** The runtime records and the map from names to them. Records are never deallocated:
      closures may still hold them. */
  datatype Memory = Memory(runtime: map<string, RuntimeId>, runtimes: map<RuntimeId, Runtime>, next: nat)

  /** The keys of the pending map, and every job record ever created. */
  datatype Work = Work(pending: set<JobId>, jobs: map<JobId, Job>)

  /** Polls that have not returned, and (history) every poll identifier used. */
  datatype PollTable = PollTable(open: map<PollId, Poll>, used: set<PollId>)

  datatype State = State(
    cfg: Config, now: int, ids: Identities, book: InviteBook, mem: Memory, work: Work, polls: PollTable)

  datatype ErrorCode =
    | ConfigurationError | InvalidRequest | InvalidInvite | Conflict
    | NotFound | Unauthorized | Forbidden | Offline | ResourceLimit

  datatype Response =
    | Done
    | Failed(code: ErrorCode)
    | Invited
    | Joined(name: string)
    | Delivered(job: JobId)
    | Parked
    | NoJob
    | Beat(cancelled: bool)
    | Accepted
    | NotAccepted
    | Dispatched

  function Grace(cfg: Config): int {
    if 2 * cfg.heartbeat > MIN_GRACE then 2 * cfg.heartbeat else MIN_GRACE
  }

  // ------------------------------------------------------------ shared steps

  function RuntimeFor(m: Memory, name: string): Memory {
    if name in m.runtime then m
    else Memory(m.runtime[name := m.next], m.runtimes[m.next := Runtime(0, [], [])], m.next + 1)
  }

  /** The runtime record a name leads to. */
  function RuntimeOf(m: Memory, name: string): Runtime {
    if name in m.runtime && m.runtime[name] in m.runtimes then m.runtimes[m.runtime[name]]
    else Runtime(0, [], [])
  }

  function SetRuntime(m: Memory, name: string, r: Runtime): Memory {
    if name in m.runtime then m.(runtimes := m.runtimes[m.runtime[name] := r]) else m
  }

  function MarkSeen(m: Memory, name: string, now: int): Memory {
    var m1 := RuntimeFor(m, name);
    SetRuntime(m1, name, RuntimeOf(m1, name).(lastSeen := now))
  }

  predicate Online(s: State, name: string) {
    var seen := RuntimeOf(s.mem, name).lastSeen;
    seen != 0 && s.now - seen <= s.cfg.offlineAfter
  }

  predicate Live(w: Work, j: JobId) {
    j in w.pending && j in w.jobs && !w.jobs[j].cancelled
  }

  function SkipDead(w: Work, q: seq<JobId>): seq<JobId> {
    if q == [] || Live(w, q[0]) then q else SkipDead(w, q[1..])
  }

  /** Take the first live job off a machine's queue, dropping dead entries before it. */
  function TakeQueued(m0: Memory, w: Work, name: string, poll: PollId, token: Token): (Memory, Work, Option<JobId>) {
    var m := RuntimeFor(m0, name);
    var q := SkipDead(w, RuntimeOf(m, name).queue);
    if q == [] then (SetRuntime(m, name, RuntimeOf(m, name).(queue := [])), w, None)
    else
      var m1 := SetRuntime(m, name, RuntimeOf(m, name).(queue := q[1..]));
      if q[0] in w.jobs then (m1, Claim(w, q[0], Delivery(poll, token)), Some(q[0])) else (m1, w, None)
  }

  function Claim(w: Work, j: JobId, d: Delivery): Work
    requires j in w.jobs
  {
    w.(jobs := w.jobs[j := w.jobs[j].(claimed := true, deliveries := w.jobs[j].deliveries + [d])])
  }

  /** Resolve the longest-parked poll of a machine. */
  function WakeWorker(m: Memory, t: PollTable, name: string): (Memory, PollTable) {
    var r := RuntimeOf(m, name);
    if r.waiters == [] || r.waiters[0] !in t.open then (m, t)
    else (SetRuntime(m, name, r.(waiters := r.waiters[1..])), Resolve(t, r.waiters[0], JobReady))
  }

  function Resolve(t: PollTable, p: PollId, wake: Wake): PollTable
    requires p in t.open
  {
    t.(open := t.open[p := t.open[p].(wake := Some(wake))])
  }

  /** Remove a job from the pending map, leaving its record as given. */
  function Forget(w: Work, j: JobId, job: Job): Work {
    Work(w.pending - {j}, w.jobs[j := job])
  }

  /** The `cancel` closure of a dispatched job. It works on the runtime record captured at
      dispatch, not on the one the machine's name leads to now. */
  function Cancel(m: Memory, w: Work, j: JobId, how: Settlement): (Memory, Work)
    requires j in w.jobs
  {
    var job := w.jobs[j];
    if job.settled then (m, w)
    else
      var done := job.(cancelled := true, settled := true, settlements := job.settlements + [how]);
      if job.claimed then (m, w.(jobs := w.jobs[j := done]))
      else (Unqueue(m, job.runtime, j), Forget(w, j, done.(armed := false)))
  }

  function Unqueue(m: Memory, r: RuntimeId, j: JobId): Memory {
    if r in m.runtimes
    then m.(runtimes := m.runtimes[r := m.runtimes[r].(queue := Without(m.runtimes[r].queue, j))])
    else m
  }

  function PendingOf(w: Work, name: string): set<JobId> {
    set j | j in w.pending && j in w.jobs && w.jobs[j].machine == name && !w.jobs[j].cancelled
  }

  function PruneInvites(b: InviteBook, now: int): InviteBook {
    b.(invites := map c | c in b.invites && b.invites[c].expiresAt > now :: b.invites[c])
  }

  predicate ValidWorkdir(w: string) {
    0 < |w| <= MAX_WORKDIR
  }

  // -------------------------------------------------------------- operations

  function CreateInvite(
      s0: State, name: Option<string>, workdir: Option<string>, ttl: int, code: InviteCode): (State, Response) {
    var b := PruneInvites(s0.book, s0.now);
    var s := s0.(book := b);
    if s0.cfg.publicBaseUrl == "" then (s0, Failed(ConfigurationError))
    else if |b.invites| >= MAX_INVITES then (s, Failed(ResourceLimit))
    else if name.Some? && !ValidName(name.value) then (s, Failed(InvalidRequest))
    else if workdir.Some? && !ValidWorkdir(workdir.value) then (s, Failed(InvalidRequest))
    else if ttl < MIN_TTL || ttl > MAX_TTL then (s, Failed(InvalidRequest))
    else if name.Some? && name.value in s.ids.table then (s, Failed(Conflict))
    else (s.(book := AddInvite(b, code, Invite(name, workdir, s.now + ttl * 1000))), Invited)
  }

  function AddInvite(b: InviteBook, code: InviteCode, invite: Invite): InviteBook {
    b.(invites := b.invites[code := invite], issued := b.issued + {code})
  }

  /** The name a joining machine gives, trimmed; an empty one counts as none. */
  function GivenName(name: Option<string>): Option<string> {
    if name == Some("") then None
    else if name.Some? && |name.value| <= MAX_NAME then Some(Trim(name.value))
    else name
  }

  /** The name a registration asks for, before any collision handling. */
  function WantedName(invite: Invite, requested: Option<string>, profile: Profile): string {
    if requested.Some? then requested.value
    else if invite.name.Some? then invite.name.value
    else DefaultName(InfoText(profile.info, "user"), InfoText(profile.info, "hostname"))
  }

  function ChosenName(table: map<string, Worker>, wanted: string): string {
    if wanted in table then Candidate(wanted, NextFree(table.Keys, wanted, 2)) else wanted
  }

  function WorkdirOf(invite: Invite, workdir: Option<string>): string {
    if workdir.Some? then workdir.value else if invite.workdir.Some? then invite.workdir.value else ""
  }

  /** The error a registration with a live invite ends in, if any. */
  function RegisterError(
      ids: Identities, invite: Invite, requested: Option<string>, profile: Profile, workdir: Option<string>)
      : (r: Option<ErrorCode>)
    ensures r.None? ==> ValidCapabilities(profile.capabilities)
  {
    if requested.Some? && !ValidName(requested.value) then Some(InvalidRequest)
    else if invite.name.Some? && requested.Some? && invite.name != requested then Some(InvalidInvite)
    else if !ValidInfo(profile.info) then Some(InvalidRequest)
    else if WantedName(invite, requested, profile) in ids.table && (requested.Some? || invite.name.Some?)
        then Some(Conflict)
    else if !ValidWorkdir(WorkdirOf(invite, workdir)) then Some(InvalidRequest)
    else if !ValidCapabilities(profile.capabilities) then Some(InvalidRequest)
    else None
  }

  function Register(
    s0: State, code: InviteCode, given: Option<string>, profile: Profile, workdir: Option<string>, token: Token)
    : (State, Response)
  {
    var requested := GivenName(given);
    var b := PruneInvites(s0.book, s0.now);
    var s := s0.(book := b);
    if !Supported(profile.version) then (s0, Failed(InvalidRequest))
    else if code !in b.invites then (s, Failed(InvalidInvite))
    else
      var invite := b.invites[code];
      var error := RegisterError(s.ids, invite, requested, profile, workdir);
      if error.Some? then (s, Failed(error.value))
      else
        var name := ChosenName(s.ids.table, WantedName(invite, requested, profile));
        (s.(book := Redeem(b, code),
            ids := AddMachine(s.ids, name, NewWorker(token, invite, profile, workdir)),
            mem := NewRuntime(s.mem, name, s.now)),
         Joined(name))
  }

  function NewWorker(token: Token, invite: Invite, profile: Profile, workdir: Option<string>): (r: Worker)
    requires ValidCapabilities(profile.capabilities)
    ensures r.token == token
  {
    Worker(token, WorkdirOf(invite, workdir), CapabilitiesOf(profile.capabilities), InfoOf(profile.info))
  }

  function Redeem(b: InviteBook, code: InviteCode): InviteBook {
    b.(invites := b.invites - {code}, redeemed := b.redeemed + [code])
  }

  function AddMachine(ids: Identities, name: string, worker: Worker): Identities {
    Identities(ids.table[name := worker], ids.tokens[worker.token := name], ids.used + {worker.token})
  }

  function NewRuntime(m: Memory, name: string, now: int): Memory {
    Memory(m.runtime[name := m.next], m.runtimes[m.next := Runtime(now, [], [])], m.next + 1)
  }

  /** The machine a bearer token authenticates. */
  function Authenticate(ids: Identities, token: Token): (r: Option<ErrorCode>)
    ensures r == None ==> token in ids.tokens && ids.tokens[token] in ids.table
  {
    if token !in ids.tokens then Some(Unauthorized)
    else if ids.tokens[token] !in ids.table then Some(NotFound)
    else None
  }

  /** The record of a resuming machine: what it does not state stays as it is. */
  function ResumedWorker(w: Worker, workdir: Option<string>, profile: Profile): (r: Worker)
    requires ValidCapabilities(profile.capabilities)
    ensures r.token == w.token
  {
    Worker(w.token,
           if workdir.Some? then workdir.value else w.workdir,
           if profile.capabilities.NoCapabilities? then w.capabilities else CapabilitiesOf(profile.capabilities),
           if profile.info.NoInfo? then w.info else InfoOf(profile.info))
  }

  function Resume(s: State, token: Token, workdir: Option<string>, profile: Profile): (State, Response) {
    var error := Authenticate(s.ids, token);
    if error.Some? then (s, Failed(error.value))
    else if !Supported(profile.version) then (s, Failed(InvalidRequest))
    else if workdir.Some? && !ValidWorkdir(workdir.value) then (s, Failed(InvalidRequest))
    else if !ValidCapabilities(profile.capabilities) || !ValidInfo(profile.info) then (s, Failed(InvalidRequest))
    else
      var name := s.ids.tokens[token];
      var worker := ResumedWorker(s.ids.table[name], workdir, profile);
      (s.(ids := s.ids.(table := s.ids.table[name := worker]), mem := MarkSeen(s.mem, name, s.now)), Joined(name))
  }

  function Rename(s: State, oldName: string, newName: string): (State, Response) {
    if !ValidName(oldName) || !ValidName(newName) then (s, Failed(InvalidRequest))
    else if oldName == newName then (s, Done)
    else if newName in s.ids.table then (s, Failed(Conflict))
    else if oldName !in s.ids.table then (s, Failed(NotFound))
    else
      (s.(ids := RenameMachine(s.ids, oldName, newName),
          mem := MoveRuntime(RuntimeFor(s.mem, oldName), oldName, newName),
          work := RenameJobs(s.work, oldName, newName)),
       Done)
  }

  function RenameMachine(ids: Identities, oldName: string, newName: string): Identities
    requires oldName in ids.table
  {
    var worker := ids.table[oldName];
    ids.(table := (ids.table - {oldName})[newName := worker], tokens := ids.tokens[worker.token := newName])
  }

  function MoveRuntime(m: Memory, oldName: string, newName: string): Memory
    requires oldName in m.runtime
  {
    m.(runtime := (m.runtime - {oldName})[newName := m.runtime[oldName]])
  }

  function RenameJobs(w: Work, oldName: string, newName: string): Work {
    w.(jobs := map j | j in w.jobs ::
      if j in w.pending && w.jobs[j].machine == oldName then w.jobs[j].(machine := newName) else w.jobs[j])
  }

  function Revoke(s: State, name: string): (State, Response) {
    if !ValidName(name) then (s, Failed(InvalidRequest))
    else if name !in s.ids.table then (s, Failed(NotFound))
    else
      (s.(ids := RemoveMachine(s.ids, name),
          mem := DropRuntime(s.mem, name),
          work := RevokeJobs(s.work, name),
          polls := RevokePolls(s.polls, RuntimeOf(s.mem, name).waiters)),
       Done)
  }

  function RemoveMachine(ids: Identities, name: string): Identities
    requires name in ids.table
  {
    ids.(table := ids.table - {name}, tokens := ids.tokens - {ids.table[name].token})
  }

  function DropRuntime(m: Memory, name: string): Memory {
    var m1 := SetRuntime(m, name, RuntimeOf(m, name).(waiters := []));
    m1.(runtime := m1.runtime - {name})
  }

  function RevokePolls(t: PollTable, waiters: seq<PollId>): PollTable {
    t.(open := map p | p in t.open :: if p in waiters then t.open[p].(wake := Some(WasRevoked)) else t.open[p])
  }

  predicate JobOf(w: Work, j: JobId, name: string) {
    j in w.pending && j in w.jobs && w.jobs[j].machine == name
  }

  function RevokeJobs(w: Work, name: string): Work {
    Work(set j | j in w.pending && !JobOf(w, j, name),
         map j | j in w.jobs :: if JobOf(w, j, name) then RevokedJob(w.jobs[j]) else w.jobs[j])
  }

  function RevokedJob(job: Job): Job {
    if job.settled then job.(armed := false)
    else job.(armed := false, settled := true, settlements := job.settlements + [ByRevocation])
  }

  /** First part of a poll: return a queued job, or park. */
  function PollStart(s0: State, token: Token, p: PollId, v: Version): (State, Response) {
    var error := Authenticate(s0.ids, token);
    if error.Some? then (s0, Failed(error.value))
    else if !Supported(v) then (s0, Failed(InvalidRequest))
    else
      var name := s0.ids.tokens[token];
      var polls := s0.polls.(used := s0.polls.used + {p});
      var (mem, work, taken) := TakeQueued(MarkSeen(s0.mem, name, s0.now), s0.work, name, p, token);
      var s := s0.(mem := mem, work := work, polls := polls);
      if taken.Some? then (s, Delivered(taken.value))
      else
        var (mem1, polls1) := Park(mem, polls, name, token, p);
        (s.(mem := mem1, polls := polls1), Parked)
  }

  function Park(m: Memory, t: PollTable, name: string, token: Token, p: PollId): (Memory, PollTable) {
    if name !in m.runtime then (m, t)
    else
      var r := RuntimeOf(m, name);
      (SetRuntime(m, name, r.(waiters := r.waiters + [p])),
          t.(open := t.open[p := Poll(name, token, m.runtime[name], None)]))
  }

  /** The poll's own timer. */
  function PollTimeout(s: State, p: PollId): State
    requires p in s.polls.open
  {
    s.(polls := Resolve(s.polls, p, TimedOut), mem := Unwait(s.mem, s.polls.open[p].runtime, p))
  }

  function Unwait(m: Memory, r: RuntimeId, p: PollId): Memory {
    if r in m.runtimes
    then m.(runtimes := m.runtimes[r := m.runtimes[r].(waiters := Without(m.runtimes[r].waiters, p))])
    else m
  }

  /** Last part of a parked poll, under the name captured before parking. */
  function PollResume(s0: State, p: PollId): (State, Response)
    requires p in s0.polls.open
  {
    var poll := s0.polls.open[p];
    var s := s0.(mem := MarkSeen(s0.mem, poll.name, s0.now), polls := s0.polls.(open := s0.polls.open - {p}));
    if poll.wake == Some(WasRevoked) then (s, Failed(Unauthorized))
    else
      var (mem, work, taken) := TakeQueued(s.mem, s.work, poll.name, p, poll.token);
      (s.(mem := mem, work := work), if taken.Some? then Delivered(taken.value) else NoJob)
  }

  function Heartbeat(s: State, token: Token, j: JobId): (State, Response) {
    var error := Authenticate(s.ids, token);
    if error.Some? then (s, Failed(error.value))
    else
      var name := s.ids.tokens[token];
      (s.(mem := MarkSeen(s.mem, name, s.now)), Beat(JobOf(s.work, j, name) && s.work.jobs[j].cancelled))
  }

  /** A malformed error is refused only after the job's record has been closed. */
  function SubmitResult(s0: State, token: Token, j: JobId, report: Report): (State, Response) {
    var error := Authenticate(s0.ids, token);
    if error.Some? then (s0, Failed(error.value))
    else
      var name := s0.ids.tokens[token];
      var s := s0.(mem := MarkSeen(s0.mem, name, s0.now));
      if j !in s.work.pending || j !in s.work.jobs then (s, NotAccepted)
      else if s.work.jobs[j].machine != name then (s, Failed(Forbidden))
      else
        var job := s.work.jobs[j];
        if job.cancelled || job.settled then (s.(work := Forget(s.work, j, job.(armed := false))), NotAccepted)
        else
          (s.(work := Forget(s.work, j, ResultJob(job, token, report))),
              if report.Malformed? then Failed(InvalidRequest) else Accepted)
  }

  function ResultJob(job: Job, token: Token, report: Report): Job {
    job.(armed := false, settled := true,
        settlements := job.settlements + [if report.Malformed? then Unanswered else ByResult(token)])
  }

  function Dispatch(s0: State, name: string, timeout: Option<int>, aborted: bool, j: JobId): (State, Response) {
    if !ValidName(name) then (s0, Failed(InvalidRequest))
    else if name !in s0.ids.table then (s0, Failed(NotFound))
    else
      var s := s0.(mem := RuntimeFor(s0.mem, name));
      if !Online(s, name) then (s, Failed(Offline))
      else if |RuntimeOf(s.mem, name).queue| >= s.cfg.maxPending || |PendingOf(s.work, name)| >= s.cfg.maxPending then
        (s, Failed(ResourceLimit))
      else if timeout.Some? && (timeout.value < MIN_JOB_TIMEOUT || timeout.value > s.cfg.maxTimeout) then
        (s, Failed(InvalidRequest))
      else
        var ms := if timeout.Some? then timeout.value else s.cfg.defaultTimeout;
        var job := NewJob(name, s.mem.runtime[name], s.now + ms, s.ids.table[name].token);
        var work := AddJob(s.work, j, job);
        var (mem, polls) := WakeWorker(Push(s.mem, name, j), s.polls, name);
        var (mem1, work1) := if aborted then Cancel(mem, work, j, ByAbort) else (mem, work);
        (s.(mem := mem1, work := work1, polls := polls), Dispatched)
  }

  function NewJob(machine: string, runtime: RuntimeId, due: int, owner: Token): Job {
    Job(machine, runtime, false, false, false, due, true, None, owner, [], [])
  }

  function AddJob(w: Work, j: JobId, job: Job): (r: Work)
    ensures j in r.jobs
  {
    Work(w.pending + {j}, w.jobs[j := job])
  }

  function Push(m: Memory, name: string, j: JobId): Memory {
    SetRuntime(m, name, RuntimeOf(m, name).(queue := RuntimeOf(m, name).queue + [j]))
  }

  function Abort(s: State, j: JobId): State
    requires j in s.work.jobs
  {
    var (mem, work) := Cancel(s.mem, s.work, j, ByAbort);
    s.(mem := mem, work := work)
  }

  /** The expiry timer of a job. */
  function Expire(s: State, j: JobId): State
    requires j in s.work.jobs
  {
    var (mem, work) := Cancel(s.mem, SetJob(s.work, j, s.work.jobs[j].(armed := false)), j, ByTimeout);
    s.(mem := mem,
       work := if work.jobs[j].claimed then SetJob(work, j, work.jobs[j].(grace := Some(s.now + Grace(s.cfg))))
           else work)
  }

  function SetJob(w: Work, j: JobId, job: Job): Work {
    w.(jobs := w.jobs[j := job])
  }

  /** The second timer of a claimed job: forget it. */
  function GraceOver(s: State, j: JobId): State
    requires j in s.work.jobs
  {
    s.(work := Forget(s.work, j, s.work.jobs[j].(grace := None)))
  }

  // -------------------------------------------------------------------- runs

  datatype Event =
    | EvCreateInvite(name: Option<string>, workdir: Option<string>, ttl: int, code: InviteCode)
    | EvRegister(
      code: InviteCode, requested: Option<string>, profile: Profile, workdir: Option<string>, token: Token)
    | EvResume(token: Token, workdir: Option<string>, profile: Profile)
    | EvRename(oldName: string, newName: string)
    | EvRevoke(machine: string)
    | EvPollStart(token: Token, poll: PollId, version: Version)
    | EvPollTimeout(poll: PollId)
    | EvPollResume(poll: PollId)
    | EvHeartbeat(token: Token, job: JobId)
    | EvSubmit(token: Token, job: JobId, report: Report)
    | EvDispatch(machine: string, timeout: Option<int>, aborted: bool, job: JobId)
    | EvAbort(job: JobId)
    | EvExpire(job: JobId)
    | EvGraceOver(job: JobId)
    | EvTick(time: int)

  /** What the environment guarantees: random identifiers are new, timers fire only when
      armed and due, only parked polls time out, only resolved polls resume. */
  predicate Enabled(s: State, e: Event) {
    match e
    case EvCreateInvite(_, _, _, code) => code !in s.book.issued
    case EvRegister(_, _, _, _, token) => token !in s.ids.used && |s.ids.table| <= MAX_TABLE
    case EvPollStart(_, p, _) => p !in s.polls.used
    case EvPollTimeout(p) => p in s.polls.open && s.polls.open[p].wake == None
    case EvPollResume(p) => p in s.polls.open && s.polls.open[p].wake != None
    case EvDispatch(_, _, _, j) => j !in s.work.jobs
    case EvAbort(j) => j in s.work.jobs
    case EvExpire(j) => j in s.work.jobs && s.work.jobs[j].armed && s.work.jobs[j].due <= s.now
    case EvGraceOver(j) => j in s.work.jobs && s.work.jobs[j].grace.Some? && s.work.jobs[j].grace.value <= s.now
    case EvTick(t) => s.now <= t
    case _ => true
  }

  function Apply(s: State, e: Event): State
    requires Enabled(s, e)
  {
    match e
    case EvCreateInvite(name, workdir, ttl, code) => CreateInvite(s, name, workdir, ttl, code).0
    case EvRegister(code, requested, profile, workdir, token) =>
      Register(s, code, requested, profile, workdir, token).0
    case EvResume(token, workdir, profile) => Resume(s, token, workdir, profile).0
    case EvRename(o, n) => Rename(s, o, n).0
    case EvRevoke(m) => Revoke(s, m).0
    case EvPollStart(token, p, v) => PollStart(s, token, p, v).0
    case EvPollTimeout(p) => PollTimeout(s, p)
    case EvPollResume(p) => PollResume(s, p).0
    case EvHeartbeat(token, j) => Heartbeat(s, token, j).0
    case EvSubmit(token, j, report) => SubmitResult(s, token, j, report).0
    case EvDispatch(m, timeout, aborted, j) => Dispatch(s, m, timeout, aborted, j).0
    case EvAbort(j) => Abort(s, j)
    case EvExpire(j) => Expire(s, j)
    case EvGraceOver(j) => GraceOver(s, j)
    case EvTick(t) => s.(now := t)
  }

  /** A controller just built over a stored table of workers. */
  predicate Initial(s: State) {
    && s.book == InviteBook(map[], {}, []) && s.work == Work({}, map[]) && s.polls == PollTable(map[], {})
    && s.ids.used == s.ids.tokens.Keys
    && s.mem.runtime.Keys == s.ids.table.Keys
    && (forall n :: n in s.ids.table ==>
         ValidName(n) && s.ids.table[n].token in s.ids.tokens && s.ids.tokens[s.ids.table[n].token] == n)
    && (forall t :: t in s.ids.tokens ==> s.ids.tokens[t] in s.ids.table && s.ids.table[s.ids.tokens[t]].token == t)
    && (forall n :: n in s.mem.runtime ==> s.mem.runtime[n] in s.mem.runtimes)
    && (forall n, m :: n in s.mem.runtime && m in s.mem.runtime && s.mem.runtime[n] == s.mem.runtime[m] ==> n == m)
    && (forall r :: r in s.mem.runtimes ==> r < s.mem.next && s.mem.runtimes[r] == Runtime(0, [], []))
  }

  ghost predicate IsRun(states: seq<State>, events: seq<Event>) {
    && |states| == |events| + 1
    && Initial(states[0])
    && forall i :: 0 <= i < |events| ==> Enabled(states[i], events[i]) && states[i + 1] == Apply(states[i], events[i])
  }
}
