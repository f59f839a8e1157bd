/** Whose jobs a machine is handed: exactly when every delivery goes to the identity the job was
    dispatched to. */
module RemoteWorkerDelivery {
  import opened Collections
  import opened MachineNames
  import opened RemoteWorkerProfile
  import opened RemoteWorkerModel
  import opened RemoteWorkerProofs
  import opened RemoteWorkerProperties

  /** Every delivery of a job was to its owner. */
  ghost predicate OwnJob(job: Job) {
    forall k :: 0 <= k < |job.deliveries| ==> job.deliveries[k].token == job.owner
  }

  ghost predicate Own(w: Work) {
    forall j :: j in w.jobs ==> OwnJob(w.jobs[j])
  }

  /** The poll's identity goes by the name the poll captured. */
  predicate GoesBy(ids: Identities, poll: Poll) {
    poll.token in ids.tokens && ids.tokens[poll.token] == poll.name
  }

  /** This event resumes a poll, not told of a revocation, whose identity does not go by the
      captured name now, and a job waits under that name. */
  predicate Strays(s: State, e: Event) {
    && e.EvPollResume? && e.poll in s.polls.open
    && var poll := s.polls.open[e.poll];
    && poll.wake != Some(WasRevoked)
    && !GoesBy(s.ids, poll)
    && SkipDead(s.work, RuntimeOf(s.mem, poll.name).queue) != []
  }

  // ---------------------------------------------------- steps without delivery

  /** The same deliveries to the same owners, and none of a new job. */
  ghost predicate SameDeliveries(w: Work, w1: Work) {
    && w.jobs.Keys <= w1.jobs.Keys
    && forall j :: j in w1.jobs ==>
         if j in w.jobs then w1.jobs[j].deliveries == w.jobs[j].deliveries && w1.jobs[j].owner == w.jobs[j].owner
         else w1.jobs[j].deliveries == []
  }

  lemma SameOwn(w: Work, w1: Work)
    requires SameDeliveries(w, w1)
    ensures Own(w1) <==> Own(w)
  {
    forall j | j in w1.jobs ensures OwnJob(w1.jobs[j]) <==> (j in w.jobs ==> OwnJob(w.jobs[j])) {
      if j !in w.jobs {
        assert w1.jobs[j].deliveries == [];
      }
    }
  }

  lemma CancelDeliveries(m: Memory, w: Work, j: JobId, how: Settlement)
    requires j in w.jobs
    ensures SameDeliveries(w, Cancel(m, w, j, how).1)
  {
    hide Unqueue;
  }

  lemma DispatchDeliveries(s: State, name: string, timeout: Option<int>, aborted: bool, j: JobId)
    requires j !in s.work.jobs
    ensures SameDeliveries(s.work, Dispatch(s, name, timeout, aborted, j).0.work)
  {
    hide ValidName, Cancel, WakeWorker, Push, RuntimeFor, PendingOf;
    if Dispatch(s, name, timeout, aborted, j).1 == Dispatched {
      var mem := RuntimeFor(s.mem, name);
      var ms := if timeout.Some? then timeout.value else s.cfg.defaultTimeout;
      var w1 := AddJob(s.work, j, NewJob(name, mem.runtime[name], s.now + ms, s.ids.table[name].token));
      CancelDeliveries(WakeWorker(Push(mem, name, j), s.polls, name).0, w1, j, ByAbort);
    }
  }

  lemma SubmitDeliveries(s: State, token: Token, j: JobId, report: Report)
    ensures SameDeliveries(s.work, SubmitResult(s, token, j, report).0.work)
  {
    hide MarkSeen;
  }

  lemma ExpireDeliveries(s: State, j: JobId)
    requires j in s.work.jobs
    ensures SameDeliveries(s.work, Expire(s, j).work)
  {
    hide Cancel;
    CancelDeliveries(s.mem, SetJob(s.work, j, s.work.jobs[j].(armed := false)), j, ByTimeout);
  }

  lemma MoveDeliveries(w: Work, name: string, newName: string)
    ensures SameDeliveries(w, RenameJobs(w, name, newName)) && SameDeliveries(w, RevokeJobs(w, name))
        && SameDeliveries(w, w)
  {
  }

  lemma GraceDeliveries(s: State, j: JobId)
    requires j in s.work.jobs
    ensures SameDeliveries(s.work, GraceOver(s, j).work)
  {
  }

  lemma QuietStep(s: State, e: Event)
    requires Enabled(s, e) && !e.EvPollStart? && !e.EvPollResume?
    ensures SameDeliveries(s.work, Apply(s, e).work)
  {
    hide SameDeliveries, MarkSeen, Cancel, ValidName, Dispatch, SubmitResult, Expire, GraceOver, PruneInvites,
      ChosenName, RenameJobs, RevokeJobs;
    MoveDeliveries(s.work, "", "");
    match e
    case EvRename(o, n) => MoveDeliveries(s.work, o, n);
    case EvRevoke(m) => MoveDeliveries(s.work, m, "");
    case EvSubmit(token, j, report) => SubmitDeliveries(s, token, j, report);
    case EvDispatch(m, timeout, aborted, j) => DispatchDeliveries(s, m, timeout, aborted, j);
    case EvAbort(j) => CancelDeliveries(s.mem, s.work, j, ByAbort);
    case EvExpire(j) => ExpireDeliveries(s, j);
    case EvGraceOver(j) => GraceDeliveries(s, j);
    case _ =>
  }

  // ------------------------------------------------------- steps that deliver

  lemma ClaimOwn(w: Work, j: JobId, d: Delivery)
    requires Own(w) && j in w.jobs
    ensures Own(Claim(w, j, d)) <==> w.jobs[j].owner == d.token
  {
    var w1 := Claim(w, j, d);
    assert OwnJob(w.jobs[j]);
    var job := w1.jobs[j];
    assert job.deliveries[|job.deliveries| - 1] == d;
    if w.jobs[j].owner == d.token {
      forall i | i in w1.jobs ensures OwnJob(w1.jobs[i]) {
        assert OwnJob(w.jobs[i]);
      }
    } else {
      assert !OwnJob(job);
    }
  }

  lemma SeenQueue(ids: Identities, m: Memory, name: string, now: int)
    requires Registry(ids, m)
    ensures RuntimeOf(MarkSeen(m, name, now), name).queue == RuntimeOf(m, name).queue
  {
    hide IdsOk, Hosted;
  }

  /** What a resumed poll that was not told of a revocation does: it takes the first live job
      under the captured name, whoever owns it. */
  lemma ResumeTakesFirst(s: State, p: PollId)
    requires Inv(s) && p in s.polls.open && s.polls.open[p].wake != Some(WasRevoked)
    ensures var poll := s.polls.open[p];
            var waiting := SkipDead(s.work, RuntimeOf(s.mem, poll.name).queue);
            var (s1, answer) := PollResume(s, p);
            if waiting == [] then answer == NoJob && s1.work == s.work
            else
              && answer == Delivered(waiting[0]) && waiting[0] in s.work.jobs && poll.name in s.ids.table
              && s.work.jobs[waiting[0]].owner == s.ids.table[poll.name].token
              && s1.work == Claim(s.work, waiting[0], Delivery(p, poll.token))
  {
    hide Registry, PollsOk, JobsOk, QueuesOk, ShortQueues, FewPending, InvitesOk, MarkSeen, TakeQueued, SkipDead,
      RuntimeFor;
    var poll := s.polls.open[p];
    var m0 := MarkSeen(s.mem, poll.name, s.now);
    MarkSeenOk(s.cfg.maxPending, s.ids, s.mem, s.polls, s.work, poll.name, s.now);
    SeenQueue(s.ids, s.mem, poll.name, s.now);
    RuntimeExists(s.ids, m0, poll.name);
    TakeQueuedFrame(m0, s.work, poll.name, p, poll.token);
    TakenIsOwned(s.ids, m0, s.work, poll.name, p, poll.token);
  }

  lemma ResumeOwn(s: State, p: PollId)
    requires Inv(s) && Own(s.work) && Enabled(s, EvPollResume(p))
    ensures Own(PollResume(s, p).0.work) <==> !Strays(s, EvPollResume(p))
  {
    hide Registry, PollsOk, JobsOk, QueuesOk, ShortQueues, FewPending, InvitesOk, MarkSeen, TakeQueued, SkipDead, Own,
      Claim;
    var poll := s.polls.open[p];
    if poll.wake != Some(WasRevoked) {
      ResumeTakesFirst(s, p);
      var waiting := SkipDead(s.work, RuntimeOf(s.mem, poll.name).queue);
      if waiting != [] {
        ClaimOwn(s.work, waiting[0], Delivery(p, poll.token));
        NameOfToken(s.ids, s.mem, poll);
      }
    }
  }

  lemma NameOfToken(ids: Identities, m: Memory, poll: Poll)
    requires Registry(ids, m) && poll.name in ids.table
    ensures ids.table[poll.name].token == poll.token <==> GoesBy(ids, poll)
  {
    hide ValidName, MapOk, Hosted;
  }

  lemma StartOwn(s: State, token: Token, p: PollId, v: Version)
    requires Inv(s) && Own(s.work)
    ensures Own(PollStart(s, token, p, v).0.work)
  {
    hide Registry, PollsOk, JobsOk, QueuesOk, ShortQueues, FewPending, InvitesOk, MarkSeen, TakeQueued, Park, Own,
      Claim;
    if Authenticate(s.ids, token) == None {
      var name := s.ids.tokens[token];
      var m0 := MarkSeen(s.mem, name, s.now);
      MarkSeenOk(s.cfg.maxPending, s.ids, s.mem, s.polls, s.work, name, s.now);
      RuntimeExists(s.ids, m0, name);
      TakeQueuedFrame(m0, s.work, name, p, token);
      TakenIsOwned(s.ids, m0, s.work, name, p, token);
      TokenOfName(s.ids, s.mem, token);
      var taken := TakeQueued(m0, s.work, name, p, token).2;
      if taken.Some? {
        ClaimOwn(s.work, taken.value, Delivery(p, token));
      }
    }
  }

  /** For every step: every delivery stays one to the owner exactly if the step does not stray. */
  lemma StepOwn(s: State, e: Event)
    requires Inv(s) && Own(s.work) && Enabled(s, e)
    ensures Own(Apply(s, e).work) <==> !Strays(s, e)
  {
    hide Inv, Own, PollStart, PollResume;
    match e
    case EvPollStart(token, p, v) => StartOwn(s, token, p, v);
    case EvPollResume(p) => ResumeOwn(s, p);
    case _ =>
      hide Enabled, Apply, Strays;
      QuietStep(s, e);
      SameOwn(s.work, Apply(s, e).work);
      OnlyResumptionsStray(s, e);
  }

  lemma OnlyResumptionsStray(s: State, e: Event)
    ensures !e.EvPollResume? ==> !Strays(s, e)
  {
  }

  lemma GrownOwn(w: Work, w1: Work)
    requires Grows(w, w1) && Own(w1)
    ensures Own(w)
  {
    forall j | j in w.jobs ensures OwnJob(w.jobs[j]) {
      assert JobGrows(w.jobs[j], w1.jobs[j]) && OwnJob(w1.jobs[j]);
    }
  }

  lemma InitiallyOwn(s: State)
    requires Initial(s)
    ensures Own(s.work)
  {
  }

  /** Over any run: every delivery so far was to the identity the job was dispatched to, exactly
      if no event so far strayed. */
  lemma {:induction false} DeliveredToOwnerExactly(states: seq<State>, events: seq<Event>, i: nat)
    requires IsRun(states, events) && i < |states|
    ensures Own(states[i].work) <==> forall k :: 0 <= k < i ==> !Strays(states[k], events[k])
  {
    hide Inv, Initial, Enabled, Apply, Own, Strays, Grows, Heard;
    if i == 0 {
      InitiallyOwn(states[0]);
    } else {
      DeliveredToOwnerExactly(states, events, i - 1);
      var s, e := states[i - 1], events[i - 1];
      RunInv(states, events, i - 1);
      assert Enabled(s, e) && states[i] == Apply(s, e);
      StepGrows(s, e);
      if Own(s.work) {
        StepOwn(s, e);
      } else if Own(states[i].work) {
        GrownOwn(s.work, states[i].work);
        assert false;
      }
    }
  }

  // ------------------------------------------------------------ where it starts

  /** Every outstanding poll's identity still goes by its captured name, and a parked one waits
      on that machine's record; polls told of a revocation aside. */
  ghost predicate Current(ids: Identities, m: Memory, t: PollTable) {
    forall p :: p in t.open && t.open[p].wake != Some(WasRevoked) ==>
      && GoesBy(ids, t.open[p])
      && (t.open[p].wake == None ==> t.open[p].name in m.runtime && m.runtime[t.open[p].name] == t.open[p].runtime)
  }

  /** A machine is renamed while a poll of its name is outstanding, or revoked while one that is
      no longer parked is, which therefore is not told. */
  ghost predicate Displaces(s: State, e: Event) {
    || (e.EvRename? && Rename(s, e.oldName, e.newName).0 != s
        && exists p ::
             p in s.polls.open && s.polls.open[p].wake != Some(WasRevoked) && s.polls.open[p].name == e.oldName)
    || (e.EvRevoke? && Revoke(s, e.machine).0 != s
        && exists p ::
             p in s.polls.open && s.polls.open[p].wake !in {None, Some(WasRevoked)}
             && s.polls.open[p].name == e.machine)
  }

  /** Identities keep their names, names their records, and polls what they captured. */
  ghost predicate Undisturbed(ids: Identities, m: Memory, t: PollTable, ids1: Identities, m1: Memory, t1: PollTable) {
    && (forall k :: k in ids.tokens ==> k in ids1.tokens && ids1.tokens[k] == ids.tokens[k])
    && (forall n :: n in ids.table && n in m.runtime ==> n in m1.runtime && m1.runtime[n] == m.runtime[n])
    && (forall p :: p in t1.open ==>
          && p in t.open && t1.open[p].name == t.open[p].name && t1.open[p].token == t.open[p].token
          && t1.open[p].runtime == t.open[p].runtime
          && (t1.open[p].wake == None ==> t.open[p].wake == None)
          && (t.open[p].wake == Some(WasRevoked) ==> t1.open[p].wake == Some(WasRevoked)))
  }

  lemma CurrentKept(ids: Identities, m: Memory, t: PollTable, ids1: Identities, m1: Memory, t1: PollTable)
    requires Current(ids, m, t) && Undisturbed(ids, m, t, ids1, m1, t1) && Registry(ids, m)
    ensures Current(ids1, m1, t1)
  {
    hide ValidName, MapOk, Hosted;
    forall p | p in t1.open && t1.open[p].wake != Some(WasRevoked) ensures t1.open[p].name in ids.table {
      assert GoesBy(ids, t.open[p]);
    }
  }

  lemma SeenUndisturbed(ids: Identities, m: Memory, t: PollTable, name: string, now: int)
    requires Registry(ids, m)
    ensures Undisturbed(ids, m, t, ids, MarkSeen(m, name, now), t)
  {
    hide IdsOk, Hosted;
  }

  lemma CancelUndisturbed(ids: Identities, m: Memory, t: PollTable, w: Work, j: JobId, how: Settlement)
    requires j in w.jobs
    ensures Undisturbed(ids, m, t, ids, Cancel(m, w, j, how).0, t)
  {
    hide Without;
  }

  lemma DispatchUndisturbed(s: State, name: string, timeout: Option<int>, aborted: bool, j: JobId)
    requires Inv(s) && j !in s.work.jobs
    ensures var s1 := Dispatch(s, name, timeout, aborted, j).0;
        Undisturbed(s.ids, s.mem, s.polls, s1.ids, s1.mem, s1.polls)
  {
    hide Registry, PollsOk, JobsOk, QueuesOk, ShortQueues, FewPending, InvitesOk, ValidName, PendingOf, Without;
    RuntimeExists(s.ids, s.mem, name);
    var s1 := Dispatch(s, name, timeout, aborted, j).0;
    if name in s.ids.table {
      var r := s.mem.runtime[name];
      WaiterFacts(s.mem, s.polls, r);
      assert s1.mem.runtime == s.mem.runtime;
      assert s1.polls == s.polls || (s.mem.runtimes[r].waiters != []
          && s1.polls == Resolve(s.polls, s.mem.runtimes[r].waiters[0], JobReady));
    }
  }

  lemma RegisterUndisturbed(
      s: State, code: InviteCode, requested: Option<string>, profile: Profile, workdir: Option<string>,
      token: Token)
    requires Inv(s) && token !in s.ids.used && |s.ids.table| <= MAX_TABLE
    ensures var s1 := Register(s, code, requested, profile, workdir, token).0;
        Undisturbed(s.ids, s.mem, s.polls, s1.ids, s1.mem, s1.polls)
  {
    hide Hosted, MapOk, PollsOk, JobsOk, QueuesOk, ShortQueues, FewPending, PruneInvites, Redeem, ChosenName,
      WantedName, WorkdirOf, ValidName;
    var b := PruneInvites(s.book, s.now);
    PruneInvitesOk(s.book, s.now);
    if Register(s, code, requested, profile, workdir, token).1.Joined? {
      WantedIsValid(b, code, GivenName(requested), profile);
      ChosenNameIsNew(s.ids, WantedName(b.invites[code], GivenName(requested), profile));
    }
  }

  lemma PollTimeoutUndisturbed(s: State, p: PollId)
    requires p in s.polls.open && s.polls.open[p].wake == None
    ensures var s1 := PollTimeout(s, p); Undisturbed(s.ids, s.mem, s.polls, s1.ids, s1.mem, s1.polls)
  {
    hide Without;
  }

  lemma PollResumeUndisturbed(s: State, p: PollId)
    requires Inv(s) && p in s.polls.open
    ensures var s1 := PollResume(s, p).0; Undisturbed(s.ids, s.mem, s.polls, s1.ids, s1.mem, s1.polls)
  {
    hide Registry, PollsOk, JobsOk, QueuesOk, ShortQueues, FewPending, InvitesOk, MarkSeen, TakeQueued;
    var poll := s.polls.open[p];
    var m0 := MarkSeen(s.mem, poll.name, s.now);
    MarkSeenOk(s.cfg.maxPending, s.ids, s.mem, s.polls, s.work, poll.name, s.now);
    SeenUndisturbed(s.ids, s.mem, s.polls, poll.name, s.now);
    TakeQueuedFrame(m0, s.work, poll.name, p, poll.token);
  }

  lemma ContactUndisturbed(s: State, token: Token, workdir: Option<string>, profile: Profile, j: JobId, report: Report)
    requires Inv(s)
    ensures var s1 := Resume(s, token, workdir, profile).0; Undisturbed(s.ids, s.mem, s.polls, s1.ids, s1.mem, s1.polls)
    ensures var s1 := Heartbeat(s, token, j).0; Undisturbed(s.ids, s.mem, s.polls, s1.ids, s1.mem, s1.polls)
    ensures var s1 := SubmitResult(s, token, j, report).0; Undisturbed(s.ids, s.mem, s.polls, s1.ids, s1.mem, s1.polls)
  {
    hide Registry, PollsOk, JobsOk, QueuesOk, ShortQueues, FewPending, InvitesOk, MarkSeen, ValidWorkdir;
    if Authenticate(s.ids, token) == None {
      SeenUndisturbed(s.ids, s.mem, s.polls, s.ids.tokens[token], s.now);
    }
  }

  lemma PollStartCurrent(s: State, token: Token, p: PollId, v: Version)
    requires Inv(s) && Current(s.ids, s.mem, s.polls) && p !in s.polls.used
    ensures var s1 := PollStart(s, token, p, v).0; Current(s1.ids, s1.mem, s1.polls)
  {
    hide Registry, PollsOk, JobsOk, QueuesOk, ShortQueues, FewPending, InvitesOk, MarkSeen, TakeQueued, Park, Current,
      Undisturbed;
    if Authenticate(s.ids, token) == None {
      var name := s.ids.tokens[token];
      var m0 := MarkSeen(s.mem, name, s.now);
      MarkSeenOk(s.cfg.maxPending, s.ids, s.mem, s.polls, s.work, name, s.now);
      SeenUndisturbed(s.ids, s.mem, s.polls, name, s.now);
      CurrentKept(s.ids, s.mem, s.polls, s.ids, m0, s.polls);
      TakeQueuedFrame(m0, s.work, name, p, token);
      var (m1, _, taken) := TakeQueued(m0, s.work, name, p, token);
      var t := s.polls.(used := s.polls.used + {p});
      SameMapCurrent(s.ids, m0, s.polls, m1, t);
      if taken == None {
        ParkFrame(m1, t, name, token, p);
        ParkCurrent(s.ids, m1, t, name, token, p);
      }
    }
  }

  lemma SameMapCurrent(ids: Identities, m: Memory, t: PollTable, m1: Memory, t1: PollTable)
    requires Current(ids, m, t) && m1.runtime == m.runtime && t1.open == t.open
    ensures Current(ids, m1, t1)
  {
  }

  lemma ParkCurrent(ids: Identities, m: Memory, t: PollTable, name: string, token: Token, p: PollId)
    requires Current(ids, m, t) && name in m.runtime && m.runtime[name] in m.runtimes && token in ids.tokens
        && ids.tokens[token] == name
    ensures var (m1, t1) := Park(m, t, name, token, p); Current(ids, m1, t1)
  {
  }

  lemma RenameCurrent(s: State, oldName: string, newName: string)
    requires Inv(s) && Current(s.ids, s.mem, s.polls)
    ensures var s1 := Rename(s, oldName, newName).0;
        Current(s1.ids, s1.mem, s1.polls) <==> !Displaces(s, EvRename(oldName, newName))
  {
    hide MapOk, Hosted, PollsOk, JobsOk, QueuesOk, ShortQueues, FewPending, InvitesOk, ValidName, RenameJobs,
      RuntimeFor;
    var s1 := Rename(s, oldName, newName).0;
    if s1 != s {
      RuntimeExists(s.ids, s.mem, oldName);
      RuntimeForFrame(s.mem, oldName);
      forall p | p in s.polls.open && s.polls.open[p].wake != Some(WasRevoked) && s.polls.open[p].name == oldName
        ensures !GoesBy(s1.ids, s.polls.open[p])
      {
        assert GoesBy(s.ids, s.polls.open[p]);
      }
      forall p | p in s.polls.open && s.polls.open[p].wake != Some(WasRevoked) && s.polls.open[p].name != oldName
        ensures GoesBy(s1.ids, s.polls.open[p]) && s.polls.open[p].name != newName
      {
        assert GoesBy(s.ids, s.polls.open[p]);
      }
    }
  }

  /** Revoking tells exactly the parked polls of the machine. */
  lemma RevokeTells(s: State, name: string, p: PollId)
    requires Inv(s) && Current(s.ids, s.mem, s.polls) && name in s.ids.table && p in s.polls.open
    requires s.polls.open[p].wake != Some(WasRevoked)
    ensures var told := RevokePolls(s.polls, RuntimeOf(s.mem, name).waiters).open[p];
            && told.name == s.polls.open[p].name && told.token == s.polls.open[p].token
                 && told.runtime == s.polls.open[p].runtime
            && (told.wake == Some(WasRevoked) <==> s.polls.open[p].wake == None && s.polls.open[p].name == name)
            && (told.wake != Some(WasRevoked) ==> told == s.polls.open[p])
    ensures GoesBy(RemoveMachine(s.ids, name), s.polls.open[p]) <==> s.polls.open[p].name != name
  {
    hide Hosted, JobsOk, QueuesOk, ShortQueues, FewPending, InvitesOk, ValidName, NoDup;
    RuntimeExists(s.ids, s.mem, name);
    assert GoesBy(s.ids, s.polls.open[p]);
    WaiterFacts(s.mem, s.polls, s.mem.runtime[name]);
  }

  lemma RevokeCurrent(s: State, name: string)
    requires Inv(s) && Current(s.ids, s.mem, s.polls)
    ensures var s1 := Revoke(s, name).0; Current(s1.ids, s1.mem, s1.polls) <==> !Displaces(s, EvRevoke(name))
  {
    hide Registry, PollsOk, JobsOk, QueuesOk, ShortQueues, FewPending, InvitesOk, ValidName, RevokeJobs, DropRuntime,
      GoesBy, RemoveMachine, RevokePolls;
    var s1 := Revoke(s, name).0;
    if s1 != s {
      RuntimeExists(s.ids, s.mem, name);
      DropRuntimeFrame(s.mem, name);
      RevokeKeepsOpen(s.polls, RuntimeOf(s.mem, name).waiters);
      forall p | p in s.polls.open && s.polls.open[p].wake != Some(WasRevoked)
        ensures GoesBy(s1.ids, s1.polls.open[p]) <==> s.polls.open[p].name != name
        ensures s1.polls.open[p].wake == Some(WasRevoked) <==>
            s.polls.open[p].wake == None && s.polls.open[p].name == name
        ensures s1.polls.open[p].wake != Some(WasRevoked) ==> s1.polls.open[p] == s.polls.open[p]
      {
        RevokeTells(s, name, p);
        SameGoesBy(s1.ids, s1.polls.open[p], s.polls.open[p]);
      }
    }
  }

  lemma RevokeKeepsOpen(t: PollTable, waiters: seq<PollId>)
    ensures var t1 := RevokePolls(t, waiters);
            t1.open.Keys == t.open.Keys && forall p :: p in t.open && t.open[p].wake == Some(WasRevoked) ==>
                t1.open[p].wake == Some(WasRevoked)
  {
  }

  lemma SameGoesBy(ids: Identities, a: Poll, b: Poll)
    requires a.name == b.name && a.token == b.token
    ensures GoesBy(ids, a) <==> GoesBy(ids, b)
  {
  }

  /** For every step: captured names stay current exactly if the step does not displace. */
  lemma StepCurrent(s: State, e: Event)
    requires Inv(s) && Current(s.ids, s.mem, s.polls) && Enabled(s, e)
    ensures var s1 := Apply(s, e); Current(s1.ids, s1.mem, s1.polls) <==> !Displaces(s, e)
  {
    hide Inv, Current, Undisturbed, CreateInvite, Register, Resume, Rename, Revoke, PollStart, PollTimeout,
      PollResume, Heartbeat, SubmitResult, Dispatch, Cancel, Abort, Expire, GraceOver;
    InvRegistry(s);
    SameUndisturbed(s.ids, s.mem, s.polls);
    var s1 := Apply(s, e);
    match e
    case EvRename(o, n) => RenameCurrent(s, o, n);
    case EvRevoke(m) => RevokeCurrent(s, m);
    case EvPollStart(token, p, v) => PollStartCurrent(s, token, p, v);
    case _ =>
      StepUndisturbed(s, e);
      CurrentKept(s.ids, s.mem, s.polls, s1.ids, s1.mem, s1.polls);
  }

  lemma SameUndisturbed(ids: Identities, m: Memory, t: PollTable)
    ensures Undisturbed(ids, m, t, ids, m, t)
  {
  }

  lemma StepUndisturbed(s: State, e: Event)
    requires Inv(s) && Enabled(s, e) && !e.EvRename? && !e.EvRevoke? && !e.EvPollStart?
    ensures var s1 := Apply(s, e); Undisturbed(s.ids, s.mem, s.polls, s1.ids, s1.mem, s1.polls)
  {
    hide Inv, Undisturbed, CreateInvite, Register, Resume, PollTimeout, PollResume, Heartbeat, SubmitResult, Dispatch,
      Cancel, GraceOver;
    SameUndisturbed(s.ids, s.mem, s.polls);
    match e
    case EvCreateInvite(name, workdir, ttl, code) => CreateInviteWork(s, name, workdir, ttl, code);
    case EvRegister(code, requested, profile, workdir, token) =>
      RegisterUndisturbed(s, code, requested, profile, workdir, token);
    case EvResume(token, workdir, profile) => ContactUndisturbed(s, token, workdir, profile, 0, Value);
    case EvPollTimeout(p) => PollTimeoutUndisturbed(s, p);
    case EvPollResume(p) => PollResumeUndisturbed(s, p);
    case EvHeartbeat(token, j) => ContactUndisturbed(s, token, None, PLAIN, j, Value);
    case EvSubmit(token, j, report) => ContactUndisturbed(s, token, None, PLAIN, j, report);
    case EvDispatch(m, timeout, aborted, j) => DispatchUndisturbed(s, m, timeout, aborted, j);
    case EvAbort(j) => CancelUndisturbed(s.ids, s.mem, s.polls, s.work, j, ByAbort);
    case EvExpire(j) =>
      CancelUndisturbed(s.ids, s.mem, s.polls, SetJob(s.work, j, s.work.jobs[j].(armed := false)), j, ByTimeout);
    case EvGraceOver(j) => GraceFrame(s, j);
    case EvTick(t) =>
  }

  lemma CurrentNeverStrays(s: State, e: Event)
    requires Current(s.ids, s.mem, s.polls)
    ensures !Strays(s, e)
  {
  }

  lemma InitiallyCurrent(s: State)
    requires Initial(s)
    ensures Current(s.ids, s.mem, s.polls)
  {
  }

  lemma {:induction false} RunCurrent(states: seq<State>, events: seq<Event>, i: nat)
    requires IsRun(states, events) && i < |states|
    requires forall k :: 0 <= k < i ==> !Displaces(states[k], events[k])
    ensures Current(states[i].ids, states[i].mem, states[i].polls)
  {
    hide Inv, Initial, Enabled, Apply, Current, Displaces;
    if i == 0 {
      InitiallyCurrent(states[0]);
    } else {
      RunCurrent(states, events, i - 1);
      RunInv(states, events, i - 1);
      assert Enabled(states[i - 1], events[i - 1]) && states[i] == Apply(states[i - 1], events[i - 1]);
      assert !Displaces(states[i - 1], events[i - 1]);
      StepCurrent(states[i - 1], events[i - 1]);
    }
  }

  /** In particular every delivery is to the owner in a run that renames no machine with an
      outstanding poll and revokes none with a poll that has been woken or timed out. */
  lemma UndisplacedIsOwn(states: seq<State>, events: seq<Event>, i: nat)
    requires IsRun(states, events) && i < |states|
    requires forall k :: 0 <= k < i ==> !Displaces(states[k], events[k])
    ensures Own(states[i].work)
  {
    hide Initial, Enabled, Apply, Current, Displaces, Own, Strays;
    forall k | 0 <= k < i ensures !Strays(states[k], events[k]) {
      RunCurrent(states, events, k);
      CurrentNeverStrays(states[k], events[k]);
    }
    DeliveredToOwnerExactly(states, events, i);
  }
}
