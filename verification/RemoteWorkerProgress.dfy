/** Two promises about waiting in the remote-worker controller: no job waits beside a parked
    poll, and no job stays pending long after its expiry. */
module RemoteWorkerProgress {
  import opened Collections
  import opened MachineNames
  import opened RemoteWorkerProfile
  import opened RemoteWorkerModel
  import opened RemoteWorkerProofs
  import opened RemoteWorkerProperties

  // ----------------------------------------------------------------- wake-up

  /** Polls that were resolved on a runtime record and have not resumed yet. */
  ghost function Signalled(t: PollTable, r: RuntimeId): set<PollId> {
    set p | p in t.open && t.open[p].runtime == r && t.open[p].wake != None
  }

  /** Beside a parked poll, a queue is no longer than the polls about to look at it. */
  ghost predicate Awake(m: Memory, t: PollTable) {
    forall n :: n in m.runtime && m.runtime[n] in m.runtimes && m.runtimes[m.runtime[n]].waiters != [] ==>
      |m.runtimes[m.runtime[n]].queue| <= |Signalled(t, m.runtime[n])|
  }

  /** A record whose polls were told of a revocation is no machine's. */
  ghost predicate Told(m: Memory, t: PollTable) {
    forall p, n :: p in t.open && n in m.runtime && m.runtime[n] == t.open[p].runtime ==>
        t.open[p].wake != Some(WasRevoked)
  }

  /** An outstanding poll whose runtime record is still some machine's captured that
      machine's name. */
  ghost predicate Named(m: Memory, t: PollTable) {
    forall p, n :: p in t.open && n in m.runtime && m.runtime[n] == t.open[p].runtime ==> t.open[p].name == n
  }

  ghost predicate Names(named: bool, m: Memory, t: PollTable) {
    Told(m, t) && (named ==> Named(m, t))
  }

  ghost predicate Woken(named: bool, s: State) {
    Awake(s.mem, s.polls) && Names(named, s.mem, s.polls)
  }

  ghost predicate WakeInv(s: State) {
    Awake(s.mem, s.polls) && Told(s.mem, s.polls)
  }

  /** Resuming this poll loses a wake-up: its captured name no longer leads to the record it
      was parked on, that record is still some machine's, and its queue needs every signalled
      poll to look at it. */
  ghost predicate Tips(m: Memory, t: PollTable, p: PollId) {
    && p in t.open
    && var r := t.open[p].runtime;
    && (t.open[p].name in m.runtime ==> m.runtime[t.open[p].name] != r)
    && r in m.runtime.Values && r in m.runtimes && m.runtimes[r].waiters != []
    && |m.runtimes[r].queue| == |Signalled(t, r)|
  }

  /** A poll is outstanding on the machine's runtime record. */
  ghost predicate Watched(s: State, name: string) {
    name in s.mem.runtime && exists p :: p in s.polls.open && s.polls.open[p].runtime == s.mem.runtime[name]
  }

  ghost predicate RenamesWatched(s: State, e: Event) {
    e.EvRename? && Rename(s, e.oldName, e.newName).0 != s && Watched(s, e.oldName)
  }

  lemma InitialWake(s: State)
    requires Initial(s)
    ensures WakeInv(s) && Named(s.mem, s.polls)
  {
  }

  lemma AwakeKept(m: Memory, m1: Memory, t: PollTable)
    requires Awake(m, t)
    requires forall n :: n in m1.runtime && m1.runtime[n] in m1.runtimes ==>
      m1.runtimes[m1.runtime[n]].waiters == [] ||
      (n in m.runtime && m1.runtime[n] == m.runtime[n] && m.runtime[n] in m.runtimes
       && m.runtimes[m.runtime[n]].waiters != []
            && |m1.runtimes[m.runtime[n]].queue| <= |m.runtimes[m.runtime[n]].queue|)
    ensures Awake(m1, t)
  {
    hide Signalled;
  }

  lemma NamesKept(named: bool, m: Memory, m1: Memory, t: PollTable)
    requires Names(named, m, t) && PollsOk(m, t)
    requires forall n :: n in m1.runtime ==>
        m1.runtime[n] !in m.runtimes || (n in m.runtime && m1.runtime[n] == m.runtime[n])
    ensures Names(named, m1, t)
  {
    hide NoDup;
  }

  lemma MarkSeenWake(named: bool, ids: Identities, m: Memory, t: PollTable, name: string, now: int)
    requires Registry(ids, m) && PollsOk(m, t) && Awake(m, t) && Names(named, m, t)
    ensures Awake(MarkSeen(m, name, now), t) && Names(named, MarkSeen(m, name, now), t)
  {
    hide Awake, Names, Told, Named, Registry, PollsOk, RuntimeFor, MarkSeen;
    var m0, m1 := RuntimeFor(m, name), MarkSeen(m, name, now);
    RuntimeExists(ids, m, name);
    RuntimeForFrame(m, name);
    AwakeKept(m, m0, t);
    NamesKept(named, m, m0, t);
    RuntimeForRegistry(ids, m, name);
    RuntimeExists(ids, m0, name);
    PollsKept(m, m0, t);
    MarkSeenTwice(m, name, now);
    MarkSeenFrame(m0, name, now);
    AwakeKept(m0, m1, t);
    NamesKept(named, m0, m1, t);
  }

  lemma TakeQueuedWake(named: bool, m: Memory, t: PollTable, w: Work, name: string, p: PollId, token: Token)
    requires PollsOk(m, t) && Awake(m, t) && Names(named, m, t) && name in m.runtime && m.runtime[name] in m.runtimes
    requires forall n :: n in m.runtime && m.runtime[n] == m.runtime[name] ==> n == name
    ensures var m1 := TakeQueued(m, w, name, p, token).0; Awake(m1, t) && Names(named, m1, t)
  {
    hide Awake, Names, Told, Named, PollsOk, TakeQueued, SkipDead;
    var m1 := TakeQueued(m, w, name, p, token).0;
    TakeQueuedFrame(m, w, name, p, token);
    SkipDeadIsSuffix(w, m.runtimes[m.runtime[name]].queue);
    AwakeKept(m, m1, t);
    NamesKept(named, m, m1, t);
  }

  lemma CancelWake(named: bool, m: Memory, t: PollTable, w: Work, j: JobId, how: Settlement)
    requires PollsOk(m, t) && Awake(m, t) && Names(named, m, t) && j in w.jobs
    ensures var m1 := Cancel(m, w, j, how).0; Awake(m1, t) && Names(named, m1, t)
  {
    hide Awake, Names, Told, Named, PollsOk, Unqueue, Without;
    var m1 := Cancel(m, w, j, how).0;
    UnqueueFrame(m, w.jobs[j].runtime, j);
    AwakeKept(m, m1, t);
    NamesKept(named, m, m1, t);
  }

  /** Resolving a parked poll adds it to the polls about to look. */
  lemma ResolveSignals(t: PollTable, p: PollId, wake: Wake, r: RuntimeId)
    requires p in t.open && t.open[p].wake == None
    ensures Signalled(Resolve(t, p, wake), r) ==
        if t.open[p].runtime == r then Signalled(t, r) + {p} else Signalled(t, r)
    ensures p !in Signalled(t, r)
  {
  }

  lemma ResolveNames(named: bool, m: Memory, t: PollTable, p: PollId, wake: Wake)
    requires Names(named, m, t) && p in t.open && wake != WasRevoked
    ensures Names(named, m, Resolve(t, p, wake))
  {
  }

  lemma PushWake(named: bool, m: Memory, t: PollTable, name: string, j: JobId)
    requires PollsOk(m, t) && Awake(m, t) && Names(named, m, t) && name in m.runtime && m.runtime[name] in m.runtimes
    requires forall n :: n in m.runtime && m.runtime[n] == m.runtime[name] ==> n == name
    ensures var (m1, t1) := WakeWorker(Push(m, name, j), t, name); Awake(m1, t1) && Names(named, m1, t1)
  {
    hide Names, Told, Named, PollsOk, Push, NoDup, Signalled;
    var r := m.runtime[name];
    var m0 := Push(m, name, j);
    PushFrame(m, name, j);
    var (m1, t1) := WakeWorker(m0, t, name);
    WaiterFacts(m, t, r);
    NamesKept(named, m, m0, t);
    var waiters := m.runtimes[r].waiters;
    if waiters != [] {
      assert waiters[0] in waiters;
      ResolveNames(named, m0, t, waiters[0], JobReady);
      PollsKept(m, m0, t);
      NamesSameMap(named, m0, m1, t1);
      forall n | n in m1.runtime && m1.runtime[n] in m1.runtimes && m1.runtimes[m1.runtime[n]].waiters != []
        ensures |m1.runtimes[m1.runtime[n]].queue| <= |Signalled(t1, m1.runtime[n])|
      {
        ResolveSignals(t, waiters[0], JobReady, m1.runtime[n]);
      }
    }
  }

  lemma NamesSameMap(named: bool, m: Memory, m1: Memory, t: PollTable)
    requires Names(named, m, t) && m1.runtime == m.runtime
    ensures Names(named, m1, t)
  {
  }

  lemma DispatchWake(named: bool, s: State, name: string, timeout: Option<int>, aborted: bool, j: JobId)
    requires Inv(s) && Woken(named, s) && j !in s.work.jobs
    ensures Woken(named, Dispatch(s, name, timeout, aborted, j).0)
  {
    hide Registry, PollsOk, JobsOk, QueuesOk, ShortQueues, FewPending, InvitesOk, Push, WakeWorker, Cancel,
      RuntimeFor, PendingOf, AddJob, ValidName, Awake, Names, Told, Named;
    var max := s.cfg.maxPending;
    if ValidName(name) && name in s.ids.table {
      RuntimeExists(s.ids, s.mem, name);
      RuntimeForFrame(s.mem, name);
      var mem := RuntimeFor(s.mem, name);
      assert mem == s.mem;
      if Dispatch(s, name, timeout, aborted, j).1 == Dispatched {
        var ms := if timeout.Some? then timeout.value else s.cfg.defaultTimeout;
        var job := NewJob(name, mem.runtime[name], s.now + ms, s.ids.table[name].token);
        AddJobOk(max, s.ids, mem, s.polls, s.work, name, j, job);
        var w1 := AddJob(s.work, j, job);
        WakeOk(max, s.ids, Push(mem, name, j), s.polls, w1, name);
        PushWake(named, mem, s.polls, name, j);
        var (m2, t2) := WakeWorker(Push(mem, name, j), s.polls, name);
        CancelWake(named, m2, t2, w1, j, ByAbort);
      }
    }
  }

  /** Parking happens only beside an empty queue. */
  lemma ParkWake(named: bool, m: Memory, t: PollTable, name: string, token: Token, p: PollId)
    requires PollsOk(m, t) && Awake(m, t) && Names(named, m, t) && name in m.runtime && m.runtime[name] in m.runtimes
    requires m.runtimes[m.runtime[name]].queue == [] && p !in t.open
    requires forall n :: n in m.runtime && m.runtime[n] == m.runtime[name] ==> n == name
    ensures var (m1, t1) := Park(m, t, name, token, p); Awake(m1, t1) && Names(named, m1, t1)
  {
    hide PollsOk, Park, Signalled;
    ParkFrame(m, t, name, token, p);
    var (m1, t1) := Park(m, t, name, token, p);
    forall n | n in m1.runtime && m1.runtime[n] in m1.runtimes && m1.runtimes[m1.runtime[n]].waiters != []
      ensures |m1.runtimes[m1.runtime[n]].queue| <= |Signalled(t1, m1.runtime[n])|
    {
      ParkSignals(t, p, t1.open[p], m1.runtime[n]);
    }
  }

  lemma ParkSignals(t: PollTable, p: PollId, poll: Poll, r: RuntimeId)
    requires p !in t.open && poll.wake == None
    ensures Signalled(t.(open := t.open[p := poll]), r) == Signalled(t, r)
  {
  }

  lemma PollStartWake(named: bool, s: State, token: Token, p: PollId, v: Version)
    requires Inv(s) && Woken(named, s) && p !in s.polls.used
    ensures Woken(named, PollStart(s, token, p, v).0)
  {
    hide Registry, PollsOk, JobsOk, QueuesOk, ShortQueues, FewPending, InvitesOk, MarkSeen, TakeQueued, Park, Awake,
      Names, Told, Named, SkipDead;
    var max := s.cfg.maxPending;
    if Authenticate(s.ids, token) == None {
      var name := s.ids.tokens[token];
      var m0 := MarkSeen(s.mem, name, s.now);
      MarkSeenOk(max, s.ids, s.mem, s.polls, s.work, name, s.now);
      MarkSeenWake(named, s.ids, s.mem, s.polls, name, s.now);
      RuntimeExists(s.ids, m0, name);
      UsedPolls(m0, s.polls, p);
      var t := s.polls.(used := s.polls.used + {p});
      SameOpen(named, m0, s.polls, t);
      TakeQueuedWake(named, m0, t, s.work, name, p, token);
      TakeQueuedOk(max, s.ids, m0, t, s.work, name, p, token);
      TakeQueuedFrame(m0, s.work, name, p, token);
      var (m1, w1, taken) := TakeQueued(m0, s.work, name, p, token);
      if taken == None {
        ParkWake(named, m1, t, name, token, p);
      }
    }
  }

  lemma SameOpen(named: bool, m: Memory, t: PollTable, t1: PollTable)
    requires Awake(m, t) && Names(named, m, t) && t1.open == t.open
    ensures Awake(m, t1) && Names(named, m, t1)
  {
    forall n | n in m.runtime ensures Signalled(t1, m.runtime[n]) == Signalled(t, m.runtime[n]) {}
    hide Signalled;
  }

  lemma PollTimeoutWake(named: bool, s: State, p: PollId)
    requires Inv(s) && Woken(named, s) && p in s.polls.open && s.polls.open[p].wake == None
    ensures Woken(named, PollTimeout(s, p))
  {
    hide Registry, PollsOk, JobsOk, QueuesOk, ShortQueues, FewPending, InvitesOk, Without, Names, Told, Named,
      Signalled;
    var s1 := PollTimeout(s, p);
    ResolveNames(named, s.mem, s.polls, p, TimedOut);
    NamesSameMap(named, s.mem, s1.mem, s1.polls);
    forall n | n in s1.mem.runtime && s1.mem.runtime[n] in s1.mem.runtimes
        && s1.mem.runtimes[s1.mem.runtime[n]].waiters != []
      ensures |s1.mem.runtimes[s1.mem.runtime[n]].queue| <= |Signalled(s1.polls, s1.mem.runtime[n])|
    {
      ResolveSignals(s.polls, p, TimedOut, s1.mem.runtime[n]);
      assert s.mem.runtimes[s.mem.runtime[n]].waiters != [];
    }
  }

  /** A resumed poll leaves the polls about to look, and takes a job with it if there is one. */
  lemma ResumeTakes(named: bool, m: Memory, t: PollTable, w: Work, p: PollId, name: string, token: Token)
    requires PollsOk(m, t) && Awake(m, t) && Names(named, m, t)
    requires p in t.open && t.open[p].wake != None
    requires name in m.runtime && m.runtime[name] in m.runtimes && m.runtime[name] == t.open[p].runtime
    requires forall n :: n in m.runtime && m.runtime[n] == m.runtime[name] ==> n == name
    ensures var m1 := TakeQueued(m, w, name, p, token).0;
            var t1 := t.(open := t.open - {p});
            Awake(m1, t1) && Names(named, m1, t1)
  {
    hide PollsOk, TakeQueued, SkipDead, Signalled;
    var m1 := TakeQueued(m, w, name, p, token).0;
    var t1 := t.(open := t.open - {p});
    TakeQueuedFrame(m, w, name, p, token);
    SkipDeadIsSuffix(w, m.runtimes[m.runtime[name]].queue);
    forall n | n in m1.runtime && m1.runtime[n] in m1.runtimes && m1.runtimes[m1.runtime[n]].waiters != []
      ensures |m1.runtimes[m1.runtime[n]].queue| <= |Signalled(t1, m1.runtime[n])|
    {
      DropSignal(t, p, m1.runtime[n]);
      assert |m.runtimes[m.runtime[n]].queue| <= |Signalled(t, m.runtime[n])|;
    }
  }

  lemma DropSignal(t: PollTable, p: PollId, r: RuntimeId)
    requires p in t.open && t.open[p].wake != None
    ensures Signalled(t.(open := t.open - {p}), r) == Signalled(t, r) - {p}
    ensures t.open[p].runtime == r <==> p in Signalled(t, r)
  {
  }

  /** A resumed poll whose captured name leads elsewhere leaves its own record as it is, with
      one poll less to look at it. */
  lemma ResumeElsewhere(named: bool, m: Memory, t: PollTable, w: Work, p: PollId, name: string, token: Token)
    requires PollsOk(m, t) && Awake(m, t) && Names(named, m, t)
    requires p in t.open && t.open[p].wake != None && t.open[p].name == name
    requires name in m.runtime && m.runtime[name] in m.runtimes && m.runtime[name] != t.open[p].runtime
    requires forall n :: n in m.runtime && m.runtime[n] == m.runtime[name] ==> n == name
    ensures var m1 := TakeQueued(m, w, name, p, token).0;
            var t1 := t.(open := t.open - {p});
            Names(named, m1, t1) && (Awake(m1, t1) <==> !Tips(m, t, p))
  {
    hide PollsOk, TakeQueued, SkipDead, Signalled;
    var m1 := TakeQueued(m, w, name, p, token).0;
    var t1 := t.(open := t.open - {p});
    TakeQueuedFrame(m, w, name, p, token);
    SkipDeadIsSuffix(w, m.runtimes[m.runtime[name]].queue);
    var r := t.open[p].runtime;
    DropSignal(t, p, r);
    forall n | n in m1.runtime && m1.runtime[n] in m1.runtimes && m1.runtimes[m1.runtime[n]].waiters != []
        && (m1.runtime[n] != r || !Tips(m, t, p))
      ensures |m1.runtimes[m1.runtime[n]].queue| <= |Signalled(t1, m1.runtime[n])|
    {
      DropSignal(t, p, m1.runtime[n]);
      assert |m.runtimes[m.runtime[n]].queue| <= |Signalled(t, m.runtime[n])|;
    }
    if Tips(m, t, p) {
      var n :| n in m.runtime && m.runtime[n] == r;
      assert n in m1.runtime && m1.runtimes[r] == m.runtimes[r];
    }
  }

  /** Recording the contact first changes nothing about it. */
  lemma MarkSeenTips(ids: Identities, m: Memory, t: PollTable, name: string, now: int, p: PollId)
    requires Registry(ids, m) && PollsOk(m, t) && p in t.open && t.open[p].name == name
    ensures Tips(MarkSeen(m, name, now), t, p) <==> Tips(m, t, p)
  {
    hide Signalled, MarkSeen, RuntimeFor, Registry, NoDup;
    RuntimeExists(ids, m, name);
    RuntimeForFrame(m, name);
    var m0, m1 := RuntimeFor(m, name), MarkSeen(m, name, now);
    RuntimeForRegistry(ids, m, name);
    RuntimeExists(ids, m0, name);
    MarkSeenTwice(m, name, now);
    MarkSeenFrame(m0, name, now);
    PollKnown(m, t, p);
  }

  lemma PollResumeWake(named: bool, s: State, p: PollId)
    requires Inv(s) && Woken(named, s) && p in s.polls.open && s.polls.open[p].wake != None
    ensures var s1 := PollResume(s, p).0;
            Names(named, s1.mem, s1.polls) && (Awake(s1.mem, s1.polls) <==> !Tips(s.mem, s.polls, p))
  {
    hide Registry, PollsOk, JobsOk, QueuesOk, ShortQueues, FewPending, InvitesOk, MarkSeen, TakeQueued, Awake, Names,
      Tips;
    var poll := s.polls.open[p];
    var m0 := MarkSeen(s.mem, poll.name, s.now);
    MarkSeenOk(s.cfg.maxPending, s.ids, s.mem, s.polls, s.work, poll.name, s.now);
    MarkSeenWake(named, s.ids, s.mem, s.polls, poll.name, s.now);
    MarkSeenTips(s.ids, s.mem, s.polls, poll.name, s.now, p);
    RuntimeExists(s.ids, m0, poll.name);
    if poll.wake == Some(WasRevoked) {
      DropRevoked(named, m0, s.polls, p);
    } else if m0.runtime[poll.name] == poll.runtime {
      ResumeTakes(named, m0, s.polls, s.work, p, poll.name, poll.token);
      OwnRecordNeverTips(m0, s.polls, p);
    } else {
      ResumeElsewhere(named, m0, s.polls, s.work, p, poll.name, poll.token);
    }
  }

  lemma OwnRecordNeverTips(m: Memory, t: PollTable, p: PollId)
    requires p in t.open && t.open[p].name in m.runtime && m.runtime[t.open[p].name] == t.open[p].runtime
    ensures !Tips(m, t, p)
  {
  }

  lemma DropRevoked(named: bool, m: Memory, t: PollTable, p: PollId)
    requires Awake(m, t) && Names(named, m, t) && p in t.open && t.open[p].wake == Some(WasRevoked)
    ensures Awake(m, t.(open := t.open - {p})) && Names(named, m, t.(open := t.open - {p})) && !Tips(m, t, p)
  {
    hide Signalled;
    var t1 := t.(open := t.open - {p});
    forall n | n in m.runtime && m.runtime[n] in m.runtimes && m.runtimes[m.runtime[n]].waiters != []
      ensures |m.runtimes[m.runtime[n]].queue| <= |Signalled(t1, m.runtime[n])|
    {
      DropSignal(t, p, m.runtime[n]);
    }
  }

  lemma RevokeWake(named: bool, s: State, name: string)
    requires Inv(s) && Woken(named, s)
    ensures Woken(named, Revoke(s, name).0)
  {
    hide Registry, PollsOk, JobsOk, QueuesOk, ShortQueues, FewPending, InvitesOk, ValidName, DropRuntime,
      RemoveMachine, RevokeJobs, Signalled;
    var s1 := Revoke(s, name).0;
    if s1 != s {
      RuntimeExists(s.ids, s.mem, name);
      DropRuntimeFrame(s.mem, name);
      var r := s.mem.runtime[name];
      WaiterFacts(s.mem, s.polls, r);
      assert forall n :: n in s1.mem.runtime ==>
          n in s.mem.runtime && s1.mem.runtime[n] == s.mem.runtime[n] && s.mem.runtime[n] != r;
      forall n | n in s1.mem.runtime && s1.mem.runtime[n] in s1.mem.runtimes
          && s1.mem.runtimes[s1.mem.runtime[n]].waiters != []
        ensures |s1.mem.runtimes[s1.mem.runtime[n]].queue| <= |Signalled(s1.polls, s1.mem.runtime[n])|
      {
        RevokeSignals(s.polls, s.mem.runtimes[r].waiters, r, s1.mem.runtime[n]);
      }
    }
  }

  lemma RevokeSignals(t: PollTable, waiters: seq<PollId>, r: RuntimeId, i: RuntimeId)
    requires i != r && forall p :: p in waiters ==> p in t.open && t.open[p].runtime == r
    ensures Signalled(RevokePolls(t, waiters), i) == Signalled(t, i)
  {
  }

  lemma RenameWake(named: bool, s: State, oldName: string, newName: string)
    requires Inv(s) && Woken(named, s) && (named ==> !RenamesWatched(s, EvRename(oldName, newName)))
    ensures Woken(named, Rename(s, oldName, newName).0)
  {
    hide Registry, PollsOk, JobsOk, QueuesOk, ShortQueues, FewPending, InvitesOk, ValidName, RenameMachine,
      RenameJobs, RuntimeFor, Signalled;
    var s1 := Rename(s, oldName, newName).0;
    if s1 != s {
      RuntimeExists(s.ids, s.mem, oldName);
      RuntimeForFrame(s.mem, oldName);
      assert RuntimeFor(s.mem, oldName) == s.mem;
      forall n | n in s1.mem.runtime && s1.mem.runtime[n] in s1.mem.runtimes
          && s1.mem.runtimes[s1.mem.runtime[n]].waiters != []
        ensures |s1.mem.runtimes[s1.mem.runtime[n]].queue| <= |Signalled(s1.polls, s1.mem.runtime[n])|
      {
        var n0 := if n == newName then oldName else n;
        assert n0 in s.mem.runtime && s.mem.runtime[n0] == s1.mem.runtime[n];
      }
    }
  }

  lemma RegisterWake(
      named: bool, s: State, code: InviteCode, requested: Option<string>, profile: Profile,
      workdir: Option<string>, token: Token)
    requires Inv(s) && Woken(named, s)
    ensures Woken(named, Register(s, code, requested, profile, workdir, token).0)
  {
    hide Registry, PollsOk, JobsOk, QueuesOk, ShortQueues, FewPending, InvitesOk, PruneInvites, Redeem, AddMachine,
      ChosenName, WantedName, RegisterError, WorkdirOf, Awake, Names, Told, Named;
    RuntimeExists(s.ids, s.mem, "");
    RegisterWork(s, code, requested, profile, workdir, token);
    var m1 := Register(s, code, requested, profile, workdir, token).0.mem;
    AwakeKept(s.mem, m1, s.polls);
    NamesKept(named, s.mem, m1, s.polls);
  }

  /** Renaming keeps captured names valid exactly when no poll is outstanding. */
  lemma RenameKeepsNames(s: State, oldName: string, newName: string)
    requires Inv(s) && WakeInv(s) && Named(s.mem, s.polls) && Rename(s, oldName, newName).0 != s
    ensures Named(Rename(s, oldName, newName).0.mem, s.polls) <==> !Watched(s, oldName)
  {
    if !Watched(s, oldName) {
      RenameWake(true, s, oldName, newName);
    } else {
      hide Registry, PollsOk, JobsOk, QueuesOk, ShortQueues, FewPending, InvitesOk, ValidName, RenameMachine,
        RenameJobs, RuntimeFor, Awake;
      RuntimeExists(s.ids, s.mem, oldName);
      RuntimeForFrame(s.mem, oldName);
      var s1 := Rename(s, oldName, newName).0;
      var p :| p in s.polls.open && s.polls.open[p].runtime == s.mem.runtime[oldName];
      assert newName in s1.mem.runtime && s1.mem.runtime[newName] == s.polls.open[p].runtime;
      assert s.polls.open[p].name == oldName;
    }
  }

  /** For every step: the jobs beside parked polls stay covered exactly if the step does not
      resume a poll that tips, renames included. */
  lemma StepWake(s: State, e: Event)
    requires Inv(s) && WakeInv(s) && Enabled(s, e)
    ensures var s1 := Apply(s, e);
            && Told(s1.mem, s1.polls)
            && (Awake(s1.mem, s1.polls) <==> !(e.EvPollResume? && Tips(s.mem, s.polls, e.poll)))
            && (Named(s.mem, s.polls) && !RenamesWatched(s, e) ==> Named(s1.mem, s1.polls))
  {
    hide Inv, Awake, Told, Named, CreateInvite, Register, Resume, Rename, Revoke, PollStart, PollTimeout, PollResume,
      Heartbeat, SubmitResult, Dispatch, Cancel, Expire, GraceOver, RenamesWatched, Tips;
    var named := Named(s.mem, s.polls) && !RenamesWatched(s, e);
    match e
    case EvCreateInvite(name, workdir, ttl, code) => CreateInviteWork(s, name, workdir, ttl, code);
    case EvRegister(code, requested, profile, workdir, token) =>
      RegisterWake(named, s, code, requested, profile, workdir, token);
    case EvResume(token, workdir, profile) => ContactWake(named, s, token, workdir, profile, 0, Value);
    case EvRename(o, n) => RenameWake(named, s, o, n);
    case EvRevoke(m) => RevokeWake(named, s, m);
    case EvPollStart(token, p, v) => PollStartWake(named, s, token, p, v);
    case EvPollTimeout(p) => PollTimeoutWake(named, s, p);
    case EvPollResume(p) => PollResumeWake(named, s, p);
    case EvHeartbeat(token, j) => ContactWake(named, s, token, None, PLAIN, j, Value);
    case EvSubmit(token, j, report) => ContactWake(named, s, token, None, PLAIN, j, report);
    case EvDispatch(m, timeout, aborted, j) => DispatchWake(named, s, m, timeout, aborted, j);
    case EvAbort(j) => AbortWake(named, s, j);
    case EvExpire(j) => ExpireWake(named, s, j);
    case EvGraceOver(j) => GraceFrame(s, j);
    case EvTick(t) =>
  }

  lemma AbortWake(named: bool, s: State, j: JobId)
    requires Inv(s) && Woken(named, s) && j in s.work.jobs
    ensures Woken(named, Abort(s, j))
  {
    hide Registry, PollsOk, JobsOk, QueuesOk, ShortQueues, FewPending, InvitesOk, Awake, Names, Told, Named, Cancel;
    CancelWake(named, s.mem, s.polls, s.work, j, ByAbort);
  }

  lemma ExpireWake(named: bool, s: State, j: JobId)
    requires Inv(s) && Woken(named, s) && j in s.work.jobs
    ensures Woken(named, Expire(s, j))
  {
    hide Registry, PollsOk, JobsOk, QueuesOk, ShortQueues, FewPending, InvitesOk, Awake, Names, Told, Named, Cancel;
    CancelWake(named, s.mem, s.polls, SetJob(s.work, j, s.work.jobs[j].(armed := false)), j, ByTimeout);
  }

  /** Resume, heartbeat and result calls only record the contact. */
  lemma ContactWake(
      named: bool, s: State, token: Token, workdir: Option<string>, profile: Profile, j: JobId, report: Report)
    requires Inv(s) && Woken(named, s)
    ensures Woken(named, Resume(s, token, workdir, profile).0) && Woken(named, Heartbeat(s, token, j).0)
        && Woken(named, SubmitResult(s, token, j, report).0)
  {
    hide Registry, PollsOk, JobsOk, QueuesOk, ShortQueues, FewPending, InvitesOk, Awake, Names, Told, Named, MarkSeen,
      ValidWorkdir;
    if Authenticate(s.ids, token) == None {
      MarkSeenWake(named, s.ids, s.mem, s.polls, s.ids.tokens[token], s.now);
    }
  }

  ghost predicate ResumesTipping(s: State, e: Event) {
    e.EvPollResume? && Tips(s.mem, s.polls, e.poll)
  }

  /** Over any run, renames included: up to a state, no job was left beside a parked poll that
      nobody was about to look at, exactly if no poll was resumed that tips. */
  lemma {:induction false} WakeupsKeptExactly(states: seq<State>, events: seq<Event>, i: nat)
    requires IsRun(states, events) && i < |states|
    ensures (forall k :: 0 <= k <= i ==> Awake(states[k].mem, states[k].polls)) <==>
            (forall k :: 0 <= k < i ==> !ResumesTipping(states[k], events[k]))
    ensures (forall k :: 0 <= k <= i ==> Awake(states[k].mem, states[k].polls)) ==> WakeInv(states[i])
  {
    hide Inv, Awake, Told, Initial, Enabled, Apply, Tips, Named, RenamesWatched;
    if i == 0 {
      InitialWake(states[0]);
    } else {
      WakeupsKeptExactly(states, events, i - 1);
      if forall k :: 0 <= k <= i - 1 ==> Awake(states[k].mem, states[k].polls) {
        RunInv(states, events, i - 1);
        assert Enabled(states[i - 1], events[i - 1]) && states[i] == Apply(states[i - 1], events[i - 1]);
        StepWake(states[i - 1], events[i - 1]);
      }
    }
  }

  /** A poll that captured the name of its machine does not tip. */
  lemma NamedNeverTips(m: Memory, t: PollTable, p: PollId)
    requires Named(m, t)
    ensures !Tips(m, t, p)
  {
    hide Signalled;
  }

  lemma {:induction false} RunNamed(states: seq<State>, events: seq<Event>, i: nat)
    requires IsRun(states, events) && i < |states|
    requires forall k :: 0 <= k < i ==> !RenamesWatched(states[k], events[k])
    ensures WakeInv(states[i]) && Named(states[i].mem, states[i].polls)
  {
    hide Inv, Initial, Enabled, Apply, RenamesWatched, Awake, Told, Named, Tips;
    if i == 0 {
      InitialWake(states[0]);
    } else {
      RunNamed(states, events, i - 1);
      RunInv(states, events, i - 1);
      var s, e := states[i - 1], events[i - 1];
      assert Enabled(s, e) && states[i] == Apply(s, e) && !RenamesWatched(s, e);
      if e.EvPollResume? {
        NamedNeverTips(s.mem, s.polls, e.poll);
      }
      StepWake(s, e);
    }
  }

  /** In particular no such poll is resumed in a run that never renames a machine with an
      outstanding poll. */
  lemma NoLostWakeup(states: seq<State>, events: seq<Event>, i: nat)
    requires IsRun(states, events) && i < |states|
    requires forall k :: 0 <= k < i ==> !RenamesWatched(states[k], events[k])
    ensures WakeInv(states[i])
    ensures forall k :: 0 <= k < i ==> !ResumesTipping(states[k], events[k])
  {
    hide Initial, Enabled, Apply, WakeInv, RenamesWatched, Named, Tips;
    RunNamed(states, events, i);
    forall k | 0 <= k < i ensures !ResumesTipping(states[k], events[k]) {
      RunNamed(states, events, k);
      if events[k].EvPollResume? {
        NamedNeverTips(states[k].mem, states[k].polls, events[k].poll);
      }
    }
  }

  lemma ParkedMeansEmptyQueue(s: State, name: string)
    requires WakeInv(s) && name in s.mem.runtime && s.mem.runtime[name] in s.mem.runtimes
    requires RuntimeOf(s.mem, name).waiters != [] && Signalled(s.polls, s.mem.runtime[name]) == {}
    ensures RuntimeOf(s.mem, name).queue == []
  {
    hide Signalled;
  }

  /** What goes wrong otherwise: two polls are parked, the machine is renamed, a job is
      dispatched under the new name. The poll it wakes looks under the old name and returns
      empty-handed, and the job stays queued beside the other poll, with no poll about to
      look. */
  lemma RenameLosesWakeup(s: State, oldName: string, newName: string, j: JobId, p: PollId)
    requires Inv(s) && WakeInv(s) && Named(s.mem, s.polls)
    requires oldName in s.ids.table && ValidName(newName) && newName !in s.ids.table && j !in s.work.jobs
    requires |RuntimeOf(s.mem, oldName).waiters| >= 2 && RuntimeOf(s.mem, oldName).waiters[0] == p
    requires oldName in s.mem.runtime && Signalled(s.polls, s.mem.runtime[oldName]) == {}
    requires Online(s, oldName) && PendingOf(s.work, oldName) == {} && s.cfg.maxPending > 0
    ensures var s1 := Rename(s, oldName, newName).0;
            var s2 := Dispatch(s1, newName, None, false, j).0;
            && p in s2.polls.open && s2.polls.open[p].wake == Some(JobReady)
            && var (s3, answer) := PollResume(s2, p);
            && answer == NoJob && newName in s3.mem.runtime
            && RuntimeOf(s3.mem, newName).queue == [j] && RuntimeOf(s3.mem, newName).waiters != []
            && Signalled(s3.polls, s3.mem.runtime[newName]) == {}
  {
    hide Registry, PollsOk, JobsOk, QueuesOk, ShortQueues, FewPending, InvitesOk, ValidName, Awake, Without, NoDup;
    RegisteredName(s.ids, s.mem, oldName);
    RuntimeExists(s.ids, s.mem, oldName);
    var r := s.mem.runtime[oldName];
    WaiterFacts(s.mem, s.polls, r);
    assert p in s.mem.runtimes[r].waiters;
    assert s.polls.open[p].name == oldName;
    ParkedMeansEmptyQueue(s, oldName);
    NoPendingElsewhere(s.ids, s.mem, s.work, newName);
    var s1 := Rename(s, oldName, newName).0;
    assert PendingOf(s1.work, newName) == PendingOf(s.work, oldName);
    assert oldName !in s1.mem.runtime && s1.mem.runtime[newName] == r && s1.mem.runtimes == s.mem.runtimes;
    assert s1.mem.next !in s1.mem.runtimes;
    DispatchWakesFirst(s1, newName, j, p, r);
    var s2 := Dispatch(s1, newName, None, false, j).0;
    ResumeFindsNothing(s2, p, oldName, newName, r);
    ResolveSignals(s.polls, p, JobReady, r);
    DropSignal(s2.polls, p, r);
  }

  lemma RegisteredName(ids: Identities, m: Memory, n: string)
    requires Registry(ids, m) && n in ids.table
    ensures ValidName(n)
  {
  }

  lemma DispatchWakesFirst(s: State, name: string, j: JobId, p: PollId, r: RuntimeId)
    requires ValidName(name) && name in s.ids.table && name in s.mem.runtime && s.mem.runtime[name] == r
        && r in s.mem.runtimes
    requires Online(s, name) && s.cfg.maxPending > 0 && PendingOf(s.work, name) == {} && s.mem.runtimes[r].queue == []
    requires s.mem.runtimes[r].waiters != [] && s.mem.runtimes[r].waiters[0] == p && p in s.polls.open
    ensures var (s1, answer) := Dispatch(s, name, None, false, j);
            && answer == Dispatched && s1.polls == Resolve(s.polls, p, JobReady) && s1.now == s.now
                 && s1.ids == s.ids && s1.cfg == s.cfg
            && s1.work == AddJob(s.work, j, NewJob(name, r, s.now + s.cfg.defaultTimeout, s.ids.table[name].token))
            && s1.mem == s.mem.(runtimes :=
                 s.mem.runtimes[r := s.mem.runtimes[r].(queue := [j], waiters := s.mem.runtimes[r].waiters[1..])])
  {
    hide ValidName, PendingOf;
    var m1 := Push(s.mem, name, j);
    assert m1.runtimes[r] == s.mem.runtimes[r].(queue := [j]);
    assert WakeWorker(m1, s.polls, name)
        == (SetRuntime(m1, name, m1.runtimes[r].(waiters := m1.runtimes[r].waiters[1..])),
            Resolve(s.polls, p, JobReady));
  }

  /** A poll whose captured name leads nowhere takes nothing and disturbs no other record. */
  lemma ResumeFindsNothing(s: State, p: PollId, oldName: string, newName: string, r: RuntimeId)
    requires p in s.polls.open && s.polls.open[p].name == oldName && s.polls.open[p].wake == Some(JobReady)
    requires oldName !in s.mem.runtime && newName in s.mem.runtime && s.mem.runtime[newName] == r && r in s.mem.runtimes
    requires s.mem.next !in s.mem.runtimes
    ensures var (s1, answer) := PollResume(s, p);
            && answer == NoJob && newName in s1.mem.runtime && s1.mem.runtime[newName] == r
            && r in s1.mem.runtimes && s1.mem.runtimes[r] == s.mem.runtimes[r]
            && s1.polls == s.polls.(open := s.polls.open - {p})
  {
  }

  // ---------------------------------------------------------------- deadlines

  /** A pending job has a timer that will remove it: its expiry timer, or the grace timer
      that expiry leaves behind for a claimed job. */
  ghost predicate Timely(cfg: Config, now: int, job: Job) {
    || (job.armed && now <= job.due)
    || (!job.armed && job.grace.Some? && now <= job.grace.value <= job.due + Grace(cfg))
  }

  ghost predicate Deadlines(s: State) {
    forall j :: j in s.work.pending && j in s.work.jobs ==> Timely(s.cfg, s.now, s.work.jobs[j])
  }

  /** Timers fire on time: the clock does not pass an armed timer. */
  ghost predicate OnTime(s: State, e: Event) {
    e.EvTick? ==>
      forall j :: j in s.work.jobs ==>
        && (s.work.jobs[j].armed ==> e.time <= s.work.jobs[j].due)
        && (s.work.jobs[j].grace.Some? ==> e.time <= s.work.jobs[j].grace.value)
  }

  /** Every job still pending was pending before, with the same timers. */
  ghost predicate SameTimers(w: Work, w1: Work) {
    forall j :: j in w1.pending && j in w1.jobs ==>
      && j in w.pending && j in w.jobs && w1.jobs[j].due == w.jobs[j].due
      && w1.jobs[j].armed == w.jobs[j].armed && w1.jobs[j].grace == w.jobs[j].grace
  }

  lemma DeadlinesKept(s: State, s1: State)
    requires Deadlines(s) && SameTimers(s.work, s1.work) && s1.cfg == s.cfg && s1.now == s.now
    ensures Deadlines(s1)
  {
  }

  lemma TakeQueuedTimers(m: Memory, w: Work, name: string, p: PollId, token: Token)
    ensures SameTimers(w, TakeQueued(m, w, name, p, token).1)
  {
  }

  lemma CancelTimers(m: Memory, w: Work, j: JobId, how: Settlement)
    requires j in w.jobs
    ensures SameTimers(w, Cancel(m, w, j, how).1)
    ensures var w1 := Cancel(m, w, j, how).1;
            j in w1.jobs && (!w1.jobs[j].claimed && !w.jobs[j].settled ==> j !in w1.pending)
                && w1.jobs[j].due == w.jobs[j].due
  {
  }

  lemma RenameTimers(w: Work, o: string, n: string)
    ensures SameTimers(w, RenameJobs(w, o, n))
  {
  }

  lemma RevokeTimers(w: Work, n: string)
    ensures SameTimers(w, RevokeJobs(w, n))
  {
  }

  lemma SubmitTimers(s: State, token: Token, j: JobId, report: Report)
    ensures SameTimers(s.work, SubmitResult(s, token, j, report).0.work)
  {
    hide MarkSeen;
  }

  lemma DispatchDeadlines(s: State, name: string, timeout: Option<int>, aborted: bool, j: JobId)
    requires Deadlines(s) && j !in s.work.jobs
    ensures Deadlines(Dispatch(s, name, timeout, aborted, j).0)
  {
    hide ValidName, Cancel, WakeWorker, Push, RuntimeFor, PendingOf;
    if Dispatch(s, name, timeout, aborted, j).1 == Dispatched {
      var mem := RuntimeFor(s.mem, name);
      var ms := if timeout.Some? then timeout.value else s.cfg.defaultTimeout;
      var w1 := AddJob(s.work, j, NewJob(name, mem.runtime[name], s.now + ms, s.ids.table[name].token));
      assert Deadlines(s.(work := w1));
      CancelTimers(WakeWorker(Push(mem, name, j), s.polls, name).0, w1, j, ByAbort);
    }
  }

  lemma ExpireDeadlines(s: State, j: JobId)
    requires Inv(s) && Deadlines(s) && j in s.work.jobs && s.work.jobs[j].armed && s.work.jobs[j].due <= s.now
    ensures Deadlines(Expire(s, j))
  {
    hide Registry, PollsOk, JobsOk, QueuesOk, ShortQueues, FewPending, InvitesOk, Cancel, Recorded;
    var w0 := SetJob(s.work, j, s.work.jobs[j].(armed := false));
    JobFacts(s.ids, s.mem, s.work, j);
    CancelTimers(s.mem, w0, j, ByTimeout);
    CancelFlags(s.mem, w0, j, ByTimeout);
  }

  lemma CancelFlags(m: Memory, w: Work, j: JobId, how: Settlement)
    requires j in w.jobs
    ensures var w1 := Cancel(m, w, j, how).1; j in w1.jobs && w1.jobs[j].claimed == w.jobs[j].claimed
  {
  }

  lemma StepDeadlines(s: State, e: Event)
    requires Inv(s) && Deadlines(s) && Enabled(s, e) && OnTime(s, e)
    ensures Deadlines(Apply(s, e))
  {
    hide Inv, Deadlines, SameTimers, TakeQueued, MarkSeen, Cancel, ValidName, Dispatch, Expire, PruneInvites,
      ChosenName;
    SameTimersReflexive(s.work);
    var s1 := Apply(s, e);
    match e
    case EvRename(o, n) => RenameTimers(s.work, o, n); DeadlinesKept(s, s1);
    case EvRevoke(m) => RevokeTimers(s.work, m); DeadlinesKept(s, s1);
    case EvPollStart(token, p, v) =>
      if Authenticate(s.ids, token) == None {
        TakeQueuedTimers(MarkSeen(s.mem, s.ids.tokens[token], s.now), s.work, s.ids.tokens[token], p, token);
      }
      DeadlinesKept(s, s1);
    case EvPollResume(p) =>
      var poll := s.polls.open[p];
      TakeQueuedTimers(MarkSeen(s.mem, poll.name, s.now), s.work, poll.name, p, poll.token);
      DeadlinesKept(s, s1);
    case EvSubmit(token, j, report) => SubmitTimers(s, token, j, report); DeadlinesKept(s, s1);
    case EvDispatch(m, timeout, aborted, j) => DispatchDeadlines(s, m, timeout, aborted, j);
    case EvAbort(j) => CancelTimers(s.mem, s.work, j, ByAbort); DeadlinesKept(s, s1);
    case EvExpire(j) => ExpireDeadlines(s, j);
    case EvGraceOver(j) => GraceTimers(s, j); DeadlinesKept(s, s1);
    case EvTick(t) => TickDeadlines(s, t);
    case _ => DeadlinesKept(s, s1);
  }

  lemma SameTimersReflexive(w: Work)
    ensures SameTimers(w, w)
  {
  }

  lemma GraceTimers(s: State, j: JobId)
    requires j in s.work.jobs
    ensures SameTimers(s.work, GraceOver(s, j).work)
  {
  }

  lemma TickDeadlines(s: State, t: int)
    requires Deadlines(s) && OnTime(s, EvTick(t))
    ensures Deadlines(s.(now := t))
  {
  }

  /** In a run whose timers fire on time no job is pending past its expiry plus the grace
      period, aborted and unanswered ones included. */
  lemma {:induction false} PendingIsBrief(states: seq<State>, events: seq<Event>, i: nat)
    requires IsRun(states, events) && i < |states|
    requires forall k :: 0 <= k < i ==> OnTime(states[k], events[k])
    ensures Deadlines(states[i])
    ensures forall j :: j in states[i].work.pending && j in states[i].work.jobs ==>
      states[i].now <= states[i].work.jobs[j].due + Grace(states[i].cfg)
  {
    hide Inv, Initial, Enabled, Apply, OnTime;
    if i == 0 {
      assert states[0].work.pending == {} by { InitialEmpty(states[0]); }
    } else {
      PendingIsBrief(states, events, i - 1);
      RunInv(states, events, i - 1);
      assert Enabled(states[i - 1], events[i - 1]) && states[i] == Apply(states[i - 1], events[i - 1]);
      assert OnTime(states[i - 1], events[i - 1]);
      StepDeadlines(states[i - 1], events[i - 1]);
    }
  }

  lemma InitialEmpty(s: State)
    requires Initial(s)
    ensures s.work.pending == {}
  {
  }

  /** The bounds a dispatcher relies on, in every state of every run: no machine has more
      than the configured number of uncancelled jobs, pending or queued. */
  lemma PendingIsBounded(states: seq<State>, events: seq<Event>, i: nat, name: string)
    requires IsRun(states, events) && i < |states| && name in states[i].ids.table
    ensures |PendingOf(states[i].work, name)| <= states[i].cfg.maxPending
    ensures |RuntimeOf(states[i].mem, name).queue| <= states[i].cfg.maxPending
  {
    hide Initial, Enabled, Apply, Registry, PollsOk, JobsOk, QueuesOk, InvitesOk, IsRun;
    RunInv(states, events, i);
    RuntimeExists(states[i].ids, states[i].mem, name);
  }
}
