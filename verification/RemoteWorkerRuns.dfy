/** Runs of the remote-worker controller, step by step from its start, that reach what the
    properties except: a lost wake-up, a caller that never hears of its job, and a job handed to
    a machine it was not dispatched to. */
module RemoteWorkerRuns {
  import opened Collections
  import opened MachineNames
  import opened RemoteWorkerProfile
  import opened RemoteWorkerModel
  import opened RemoteWorkerProofs
  import opened RemoteWorkerProperties
  import opened RemoteWorkerProgress
  import opened RemoteWorkerDelivery

  const MACHINE: string := "pi"
  const OTHER: string := "nas"
  const TOKEN: Token := 7

  /** A controller started over a table of one machine, at a time after zero. */
  function OneMachine(cfg: Config, now: int): State {
    State(cfg, now, Identities(map[MACHINE := Worker(TOKEN, "/", [], map[])], map[TOKEN := MACHINE], {TOKEN}),
          InviteBook(map[], {}, []), Memory(map[MACHINE := 0], map[0 := Runtime(0, [], [])], 1),
          Work({}, map[]), PollTable(map[], {}))
  }

  lemma NamesAreValid()
    ensures ValidName(MACHINE) && ValidName(OTHER) && MACHINE != OTHER
  {
    assert MACHINE[0] == 'p' && MACHINE[1] == 'i';
    assert OTHER[0] == 'n' && OTHER[1] == 'a' && OTHER[2] == 's';
  }

  lemma OneMachineIsInitial(cfg: Config, now: int)
    ensures Initial(OneMachine(cfg, now))
  {
    hide ValidName;
    NamesAreValid();
  }

  /** A machine whose queue is empty parks its poll. */
  lemma PollParks(s: State, name: string, token: Token, p: PollId, v: Version, r: RuntimeId)
    requires token in s.ids.tokens && s.ids.tokens[token] == name && name in s.ids.table && Supported(v)
    requires name in s.mem.runtime && s.mem.runtime[name] == r && r in s.mem.runtimes && s.mem.runtimes[r].queue == []
    ensures var (s1, answer) := PollStart(s, token, p, v);
            && answer == Parked && s1.work == s.work && s1.ids == s.ids && s1.cfg == s.cfg && s1.now == s.now
                 && s1.book == s.book
            && s1.mem == s.mem.(runtimes := s.mem.runtimes[r := Runtime(s.now, [], s.mem.runtimes[r].waiters + [p])])
            && s1.polls == PollTable(s.polls.open[p := Poll(name, token, r, None)], s.polls.used + {p})
  {
    var m := MarkSeen(s.mem, name, s.now);
    assert m == s.mem.(runtimes := s.mem.runtimes[r := s.mem.runtimes[r].(lastSeen := s.now)]);
    assert m.runtimes[r := m.runtimes[r].(queue := [])] == m.runtimes;
    assert TakeQueued(m, s.work, name, p, token) == (m, s.work, None);
  }

  /** The state after two polls of the machine have parked. */
  function Waiting(cfg: Config, now: int): State {
    OneMachine(cfg, now).(
      mem := Memory(map[MACHINE := 0], map[0 := Runtime(now, [], [0, 1])], 1),
      polls := PollTable(map[0 := Poll(MACHINE, TOKEN, 0, None), 1 := Poll(MACHINE, TOKEN, 0, None)], {0, 1}))
  }

  /** The state after one poll of the machine has parked. */
  function WaitingOne(cfg: Config, now: int): State {
    OneMachine(cfg, now).(
      mem := Memory(map[MACHINE := 0], map[0 := Runtime(now, [], [0])], 1),
      polls := PollTable(map[0 := Poll(MACHINE, TOKEN, 0, None)], {0}))
  }

  lemma PollsPark(cfg: Config, now: int)
    ensures PollStart(OneMachine(cfg, now), TOKEN, 0, Unstated).0 == WaitingOne(cfg, now)
    ensures PollStart(WaitingOne(cfg, now), TOKEN, 1, Unstated).0 == Waiting(cfg, now)
  {
    hide PollStart;
    var s, s1 := OneMachine(cfg, now), WaitingOne(cfg, now);
    PollParks(s, MACHINE, TOKEN, 0, Unstated, 0);
    var none: seq<PollId> := [];
    assert none + [0] == [0] && [0] + [1] == [0, 1];
    assert s.mem.runtimes[0 := Runtime(now, [], none + [0])] == s1.mem.runtimes;
    assert s.polls.open[0 := Poll(MACHINE, TOKEN, 0, None)] == s1.polls.open;
    PollParks(s1, MACHINE, TOKEN, 1, Unstated, 0);
    assert s1.mem.runtimes[0 := Runtime(now, [], [0] + [1])] == Waiting(cfg, now).mem.runtimes;
    assert s1.polls.open[1 := Poll(MACHINE, TOKEN, 0, None)] == Waiting(cfg, now).polls.open;
  }

  lemma WakeupFacts(cfg: Config, now: int)
    requires cfg.maxPending > 0 && now > 0
    ensures var s := Waiting(cfg, now);
            && Online(s, MACHINE) && PendingOf(s.work, MACHINE) == {} && Signalled(s.polls, 0) == {}
            && RuntimeOf(s.mem, MACHINE) == Runtime(now, [], [0, 1])
            && Named(s.mem, s.polls) && WakeInv(s)
  {
  }

  /** Two polls park, the machine is renamed, a job is dispatched under the new name, and the
      woken poll resumes: that resumption tips, and the job is left beside the other poll. */
  lemma LostWakeup(cfg: Config, now: int) returns (states: seq<State>, events: seq<Event>)
    requires cfg.maxPending > 0 && now > 0
    ensures events == [EvPollStart(TOKEN, 0, Unstated), EvPollStart(TOKEN, 1, Unstated), EvRename(MACHINE, OTHER),
        EvDispatch(OTHER, None, false, 0), EvPollResume(0)]
    ensures IsRun(states, events) && states[0] == OneMachine(cfg, now)
    ensures ResumesTipping(states[4], events[4]) && !Awake(states[5].mem, states[5].polls)
    ensures RuntimeOf(states[5].mem, OTHER).queue == [0] && RuntimeOf(states[5].mem, OTHER).waiters != []
    ensures OTHER in states[5].mem.runtime && Signalled(states[5].polls, states[5].mem.runtime[OTHER]) == {}
  {
    hide ValidName, PollStart, Rename, Dispatch, PollResume, Signalled, Online, PendingOf, RuntimeOf, Named, WakeInv,
      Awake, Tips, Initial, Inv, OneMachine, Waiting, WaitingOne;
    NamesAreValid();
    OneMachineIsInitial(cfg, now);
    PollsPark(cfg, now);
    WakeupFacts(cfg, now);
    var s0, s1, s2 := OneMachine(cfg, now), WaitingOne(cfg, now), Waiting(cfg, now);
    NothingDispatched(cfg, now);
    var s3 := Rename(s2, MACHINE, OTHER).0;
    var s4 := Dispatch(s3, OTHER, None, false, 0).0;
    InitialInv(s0);
    StepInv(s0, EvPollStart(TOKEN, 0, Unstated));
    StepInv(s1, EvPollStart(TOKEN, 1, Unstated));
    RenameLosesWakeup(s2, MACHINE, OTHER, 0, 0);
    var s5 := PollResume(s4, 0).0;
    NobodyLooks(s5.mem, s5.polls, OTHER);
    events := [EvPollStart(TOKEN, 0, Unstated), EvPollStart(TOKEN, 1, Unstated), EvRename(MACHINE, OTHER),
        EvDispatch(OTHER, None, false, 0), EvPollResume(0)];
    states := [s0, s1, s2, s3, s4, s5];
    WakeupsKeptExactly(states, events, 5);
  }

  lemma NothingDispatched(cfg: Config, now: int)
    ensures OneMachine(cfg, now).polls.used == {} && WaitingOne(cfg, now).polls.used == {0}
    ensures var s := Waiting(cfg, now);
            && Rename(s, MACHINE, OTHER).0.work.jobs == map[] && s.work.jobs == map[] && s.cfg == cfg
            && MACHINE in s.ids.table && OTHER !in s.ids.table && MACHINE in s.mem.runtime
                 && s.mem.runtime[MACHINE] == 0
  {
    hide ValidName;
    NamesAreValid();
  }

  lemma NobodyLooks(m: Memory, t: PollTable, name: string)
    requires name in m.runtime && RuntimeOf(m, name).queue != [] && RuntimeOf(m, name).waiters != []
        && Signalled(t, m.runtime[name]) == {}
    ensures !Awake(m, t)
  {
    hide Signalled;
  }

  lemma OneWaiting(cfg: Config, now: int)
    requires cfg.maxPending > 0 && now > 0
    ensures var s := WaitingOne(cfg, now);
            && Online(s, MACHINE) && PendingOf(s.work, MACHINE) == {} && s.cfg == cfg && 0 !in s.work.jobs
            && s.mem == Memory(map[MACHINE := 0], map[0 := Runtime(now, [], [0])], 1) && s.work == Work({}, map[])
            && s.polls.open == map[0 := Poll(MACHINE, TOKEN, 0, None)]
            && s.ids == Identities(map[MACHINE := Worker(TOKEN, "/", [], map[])], map[TOKEN := MACHINE], {TOKEN})
  {
  }

  /** A resumed poll returns the one live job under its captured name, claimed. */
  lemma ResumeDelivers(s: State, name: string, token: Token, p: PollId, r: RuntimeId, j: JobId)
    requires p in s.polls.open && s.polls.open[p].wake != Some(WasRevoked)
    requires s.polls.open[p].name == name && s.polls.open[p].token == token
    requires name in s.mem.runtime && s.mem.runtime[name] == r && r in s.mem.runtimes && s.mem.runtimes[r].queue == [j]
    requires Live(s.work, j)
    ensures var (s1, answer) := PollResume(s, p);
            answer == Delivered(j) && s1.ids == s.ids && s1.work == Claim(s.work, j, Delivery(p, token))
  {
    var m := MarkSeen(s.mem, name, s.now);
    assert m.runtimes[r].queue == [j] && m.runtime == s.mem.runtime;
    assert SkipDead(s.work, [j]) == [j];
  }

  lemma FreshJobIsLive(w: Work, name: string, r: RuntimeId, due: int, token: Token, d: Delivery)
    requires w == AddJob(Work({}, map[]), 0, NewJob(name, r, due, token))
    ensures Live(w, 0)
    ensures var w1 := Claim(w, 0, d);
        JobOf(w1, 0, name) && !w1.jobs[0].cancelled && !w1.jobs[0].settled && w1.jobs[0].claimed
  {
  }

  lemma MalformedSilences(s: State, token: Token, name: string, j: JobId)
    requires token in s.ids.tokens && s.ids.tokens[token] == name && name in s.ids.table
    requires JobOf(s.work, j, name) && !s.work.jobs[j].cancelled && !s.work.jobs[j].settled
    ensures var (s1, answer) := SubmitResult(s, token, j, Malformed);
            && Silenced(s, EvSubmit(token, j, Malformed)) == {j} && answer == Failed(InvalidRequest)
            && j in s1.work.jobs && Unanswered in s1.work.jobs[j].settlements
  {
    hide MarkSeen;
    SilencedIsUnanswered(s, token, j, Malformed);
  }

  /** A poll parks, a job is dispatched and delivered to it, and the machine answers with an
      error that is not an object: the job is closed and its caller is not told. */
  lemma SilencedCaller(cfg: Config, now: int) returns (states: seq<State>, events: seq<Event>)
    requires cfg.maxPending > 0 && now > 0
    ensures events == [EvPollStart(TOKEN, 0, Unstated), EvDispatch(MACHINE, None, false, 0), EvPollResume(0),
        EvSubmit(TOKEN, 0, Malformed)]
    ensures IsRun(states, events) && states[0] == OneMachine(cfg, now)
    ensures PollResume(states[2], 0).1 == Delivered(0)
    ensures Silenced(states[3], events[3]) == {0}
        && SubmitResult(states[3], TOKEN, 0, Malformed).1 == Failed(InvalidRequest)
    ensures 0 in states[4].work.jobs && Unanswered in states[4].work.jobs[0].settlements
  {
    hide ValidName, PollStart, Dispatch, PollResume, SubmitResult, Online, PendingOf, Initial, OneMachine, Waiting,
      WaitingOne, Claim, AddJob, Silenced, JobOf;
    NamesAreValid();
    OneMachineIsInitial(cfg, now);
    PollsPark(cfg, now);
    NothingDispatched(cfg, now);
    OneWaiting(cfg, now);
    var s0, s1 := OneMachine(cfg, now), WaitingOne(cfg, now);
    DispatchWakesFirst(s1, MACHINE, 0, 0, 0);
    var s2 := Dispatch(s1, MACHINE, None, false, 0).0;
    FreshJobIsLive(s2.work, MACHINE, 0, s1.now + cfg.defaultTimeout, TOKEN, Delivery(0, TOKEN));
    ResumeDelivers(s2, MACHINE, TOKEN, 0, 0, 0);
    var s3 := PollResume(s2, 0).0;
    MalformedSilences(s3, TOKEN, MACHINE, 0);
    var s4 := SubmitResult(s3, TOKEN, 0, Malformed).0;
    events := [EvPollStart(TOKEN, 0, Unstated), EvDispatch(MACHINE, None, false, 0), EvPollResume(0),
        EvSubmit(TOKEN, 0, Malformed)];
    states := [s0, s1, s2, s3, s4];
  }

  const OLD: string := "old"
  const TOKEN2: Token := 8

  lemma OldIsValid()
    ensures ValidName(OLD) && OLD != MACHINE && OLD != OTHER
  {
    assert OLD[0] == 'o' && OLD[1] == 'l' && OLD[2] == 'd';
  }

  /** Two machines under given names, with their runtime records and the polls. */
  function TwoMachines(
      cfg: Config, now: int, first: string, second: string, a: Runtime, b: Runtime, polls: PollTable): State {
    State(cfg, now,
          Identities(map[first := Worker(TOKEN, "/", [], map[]), second := Worker(TOKEN2, "/", [], map[])],
                     map[TOKEN := first, TOKEN2 := second], {TOKEN, TOKEN2}),
          InviteBook(map[], {}, []), Memory(map[first := 0, second := 1], map[0 := a, 1 := b], 2),
          Work({}, map[]), polls)
  }

  const NONE: Runtime := Runtime(0, [], [])

  lemma TwoMachinesIsInitial(cfg: Config, now: int)
    ensures Initial(TwoMachines(cfg, now, MACHINE, OTHER, NONE, NONE, PollTable(map[], {})))
  {
    hide ValidName;
    NamesAreValid();
  }

  const PARKED: PollTable := PollTable(map[0 := Poll(MACHINE, TOKEN, 0, None)], {0})

  lemma FirstParks(cfg: Config, now: int)
    ensures PollStart(TwoMachines(cfg, now, MACHINE, OTHER, NONE, NONE, PollTable(map[], {})), TOKEN, 0, Unstated).0
            == TwoMachines(cfg, now, MACHINE, OTHER, Runtime(now, [], [0]), NONE, PARKED)
  {
    hide PollStart, ValidName;
    NamesAreValid();
    var s := TwoMachines(cfg, now, MACHINE, OTHER, NONE, NONE, PollTable(map[], {}));
    PollParks(s, MACHINE, TOKEN, 0, Unstated, 0);
    var none: seq<PollId> := [];
    assert none + [0] == [0];
    assert s.mem.runtimes[0 := Runtime(now, [], [0])] == map[0 := Runtime(now, [], [0]), 1 := NONE];
    assert s.polls.open[0 := Poll(MACHINE, TOKEN, 0, None)] == PARKED.open && s.polls.used + {0} == PARKED.used;
  }

  lemma SecondResumes(cfg: Config, now: int, a: Runtime, polls: PollTable)
    ensures Resume(TwoMachines(cfg, now, MACHINE, OTHER, a, NONE, polls), TOKEN2, None, PLAIN).0
            == TwoMachines(cfg, now, MACHINE, OTHER, a, Runtime(now, [], []), polls)
  {
    hide ValidName;
    NamesAreValid();
    var s := TwoMachines(cfg, now, MACHINE, OTHER, a, NONE, polls);
    assert s.ids.table[OTHER := s.ids.table[OTHER]] == s.ids.table;
    assert s.mem.runtimes[1 := Runtime(now, [], [])] == map[0 := a, 1 := Runtime(now, [], [])];
  }

  lemma RenamesFirst(
      cfg: Config, now: int, first: string, second: string, newName: string, a: Runtime, b: Runtime, polls: PollTable)
    requires ValidName(first) && ValidName(newName) && first != second && newName != first && newName != second
    ensures Rename(TwoMachines(cfg, now, first, second, a, b, polls), first, newName).0
            == TwoMachines(cfg, now, newName, second, a, b, polls)
  {
    hide ValidName;
    var s := TwoMachines(cfg, now, first, second, a, b, polls);
    assert (s.ids.table - {first})[newName := s.ids.table[first]]
        == map[newName := Worker(TOKEN, "/", [], map[]), second := Worker(TOKEN2, "/", [], map[])];
    assert s.ids.tokens[TOKEN := newName] == map[TOKEN := newName, TOKEN2 := second];
    assert (s.mem.runtime - {first})[newName := 0] == map[newName := 0, second := 1];
    assert RenameJobs(s.work, first, newName) == s.work;
  }

  lemma RenamesSecond(
      cfg: Config, now: int, first: string, second: string, newName: string, a: Runtime, b: Runtime, polls: PollTable)
    requires ValidName(second) && ValidName(newName) && first != second && newName != first && newName != second
    ensures Rename(TwoMachines(cfg, now, first, second, a, b, polls), second, newName).0
            == TwoMachines(cfg, now, first, newName, a, b, polls)
  {
    hide ValidName;
    var s := TwoMachines(cfg, now, first, second, a, b, polls);
    assert (s.ids.table - {second})[newName := s.ids.table[second]]
        == map[first := Worker(TOKEN, "/", [], map[]), newName := Worker(TOKEN2, "/", [], map[])];
    assert s.ids.tokens[TOKEN2 := newName] == map[TOKEN := first, TOKEN2 := newName];
    assert (s.mem.runtime - {second})[newName := 1] == map[first := 0, newName := 1];
    assert RenameJobs(s.work, second, newName) == s.work;
  }

  /** A job for a machine with nobody waiting. */
  lemma DispatchQueues(s: State, name: string, j: JobId, r: RuntimeId)
    requires ValidName(name) && name in s.ids.table && name in s.mem.runtime && s.mem.runtime[name] == r
        && r in s.mem.runtimes
    requires Online(s, name) && s.cfg.maxPending > 0 && PendingOf(s.work, name) == {}
        && s.mem.runtimes[r].queue == [] && s.mem.runtimes[r].waiters == []
    ensures var (s1, answer) := Dispatch(s, name, None, false, j);
            && answer == Dispatched && s1.polls == s.polls && s1.now == s.now && s1.ids == s.ids && s1.cfg == s.cfg
            && s1.work == AddJob(s.work, j, NewJob(name, r, s.now + s.cfg.defaultTimeout, s.ids.table[name].token))
            && s1.mem == s.mem.(runtimes := s.mem.runtimes[r := s.mem.runtimes[r].(queue := [j])])
  {
    hide ValidName, PendingOf;
    var m1 := Push(s.mem, name, j);
    assert m1.runtimes[r] == s.mem.runtimes[r].(queue := [j]);
  }

  lemma TwoFacts(cfg: Config, now: int)
    requires now > 0
    ensures var s := TwoMachines(cfg, now, OLD, MACHINE, Runtime(now, [], [0]), Runtime(now, [], []), PARKED);
            && Online(s, MACHINE) && PendingOf(s.work, MACHINE) == {} && s.cfg == cfg && s.work == Work({}, map[])
            && MACHINE in s.ids.table && s.ids.table[MACHINE].token == TOKEN2 && MACHINE in s.mem.runtime
                 && s.mem.runtime[MACHINE] == 1
            && s.mem.runtimes == map[0 := Runtime(now, [], [0]), 1 := Runtime(now, [], [])] && s.polls == PARKED
            && s.ids.tokens == map[TOKEN := OLD, TOKEN2 := MACHINE]
  {
    hide ValidName;
    OldIsValid();
  }

  lemma FreshTimeout(s: State)
    requires 0 in s.polls.open && 0 in s.mem.runtimes && 1 in s.mem.runtimes
        && s.polls.open[0] == Poll(MACHINE, TOKEN, 0, None)
    ensures var s1 := PollTimeout(s, 0);
            && s1.polls.open == s.polls.open[0 := Poll(MACHINE, TOKEN, 0, Some(TimedOut))] && s1.ids == s.ids
                 && s1.work == s.work
            && s1.mem.runtime == s.mem.runtime && 1 in s1.mem.runtimes && s1.mem.runtimes[1] == s.mem.runtimes[1]
  {
    hide Without;
  }

  lemma DeliveredAbroad(w: Work, name: string, due: int)
    requires w == AddJob(Work({}, map[]), 0, NewJob(name, 1, due, TOKEN2))
    ensures Live(w, 0)
    ensures var w1 := Claim(w, 0, Delivery(0, TOKEN));
            0 in w1.jobs && w1.jobs[0].owner == TOKEN2 && w1.jobs[0].deliveries == [Delivery(0, TOKEN)] && !Own(w1)
  {
    var job := Claim(w, 0, Delivery(0, TOKEN)).jobs[0];
    assert job.deliveries[0].token != job.owner;
    assert !OwnJob(job);
  }

  /** A machine polls and is renamed, a second one takes over its name and is given a job, and
      the poll, timing out, returns that job to the first machine. */
  lemma ForeignDelivery(cfg: Config, now: int) returns (states: seq<State>, events: seq<Event>)
    requires cfg.maxPending > 0 && now > 0
    ensures events == [EvPollStart(TOKEN, 0, Unstated), EvResume(TOKEN2, None, PLAIN), EvRename(MACHINE, OLD),
        EvRename(OTHER, MACHINE), EvDispatch(MACHINE, None, false, 0), EvPollTimeout(0), EvPollResume(0)]
    ensures IsRun(states, events)
    ensures PollResume(states[6], 0).1 == Delivered(0) && Strays(states[6], events[6])
    ensures 0 in states[7].work.jobs && states[7].work.jobs[0].owner == TOKEN2
        && states[7].work.jobs[0].deliveries == [Delivery(0, TOKEN)]
    ensures !Own(states[7].work)
  {
    hide ValidName, PollStart, Resume, Rename, Dispatch, PollTimeout, PollResume, Online, PendingOf, Initial,
      TwoMachines, Claim, AddJob, Own, Strays;
    NamesAreValid();
    OldIsValid();
    TwoMachinesIsInitial(cfg, now);
    FirstParks(cfg, now);
    var parked, seen := Runtime(now, [], [0]), Runtime(now, [], []);
    SecondResumes(cfg, now, parked, PARKED);
    RenamesFirst(cfg, now, MACHINE, OTHER, OLD, parked, seen, PARKED);
    RenamesSecond(cfg, now, OLD, OTHER, MACHINE, parked, seen, PARKED);
    var s0 := TwoMachines(cfg, now, MACHINE, OTHER, NONE, NONE, PollTable(map[], {}));
    var s1 := TwoMachines(cfg, now, MACHINE, OTHER, parked, NONE, PARKED);
    var s2 := TwoMachines(cfg, now, MACHINE, OTHER, parked, seen, PARKED);
    var s3 := TwoMachines(cfg, now, OLD, OTHER, parked, seen, PARKED);
    var s4 := TwoMachines(cfg, now, OLD, MACHINE, parked, seen, PARKED);
    TwoFacts(cfg, now);
    NoPolls(cfg, now);
    DispatchQueues(s4, MACHINE, 0, 1);
    var s5 := Dispatch(s4, MACHINE, None, false, 0).0;
    FreshTimeout(s5);
    var s6 := PollTimeout(s5, 0);
    DeliveredAbroad(s6.work, MACHINE, s4.now + cfg.defaultTimeout);
    ResumeDelivers(s6, MACHINE, TOKEN, 0, 1, 0);
    var s7 := PollResume(s6, 0).0;
    events := [EvPollStart(TOKEN, 0, Unstated), EvResume(TOKEN2, None, PLAIN), EvRename(MACHINE, OLD),
        EvRename(OTHER, MACHINE), EvDispatch(MACHINE, None, false, 0), EvPollTimeout(0), EvPollResume(0)];
    states := [s0, s1, s2, s3, s4, s5, s6, s7];
    forall k | 0 <= k < 6 ensures !Strays(states[k], events[k]) {
      OnlyResumptionsStray(states[k], events[k]);
    }
    DeliveredToOwnerExactly(states, events, 7);
  }

  lemma NoPolls(cfg: Config, now: int)
    ensures TwoMachines(cfg, now, MACHINE, OTHER, NONE, NONE, PollTable(map[], {})).polls == PollTable(map[], {})
  {
  }
}
