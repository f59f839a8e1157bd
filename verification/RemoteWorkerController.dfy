/** The controller object: its fields are the program's maps, its methods update them step by
    step, and each method is proved to do what the corresponding model operation says. */
module RemoteWorkerController {
  import opened Collections
  import opened MachineNames
  import opened RemoteWorkerProfile
  import opened RemoteWorkerModel
  import opened RemoteWorkerProofs

  /** A stored record, which names its machine itself. */
  datatype Row = Row(name: string, worker: Worker)

  datatype Loaded = Loaded(tokens: map<Token, string>, mem: Memory)

  function Workers(stored: map<string, Row>): map<string, Worker> {
    map n | n in stored :: stored[n].worker
  }

  ghost predicate Loadable(stored: map<string, Row>) {
    && (forall n :: n in stored ==> ValidName(stored[n].name) && stored[n].name == n)
    && (forall n, k :: n in stored && k in stored && stored[n].worker.token == stored[k].worker.token ==> n == k)
  }

  /** Every machine has a fresh record of its own. */
  ghost predicate OwnRecords(m: Memory) {
    && (forall n :: n in m.runtime ==> m.runtime[n] in m.runtimes)
    && (forall n, k :: n in m.runtime && k in m.runtime && m.runtime[n] == m.runtime[k] ==> n == k)
    && (forall r :: r in m.runtimes ==> r < m.next && m.runtimes[r] == Runtime(0, [], []))
  }

  /** Every stored identity leads to its name, and every name to a record of its own. */
  ghost predicate Loads(stored: map<string, Row>, loaded: Loaded) {
    && (forall n :: n in stored ==>
         ValidName(n) && stored[n].worker.token in loaded.tokens && loaded.tokens[stored[n].worker.token] == n)
    && (forall t :: t in loaded.tokens ==> loaded.tokens[t] in stored && stored[loaded.tokens[t]].worker.token == t)
    && loaded.mem.runtime.Keys == stored.Keys && OwnRecords(loaded.mem)
  }

  lemma LoadedIsInitial(s: State, stored: map<string, Row>, loaded: Loaded)
    requires Loads(stored, loaded)
    requires s.ids == Identities(Workers(stored), loaded.tokens, loaded.tokens.Keys) && s.mem == loaded.mem
    requires s.book == InviteBook(map[], {}, []) && s.work == Work({}, map[]) && s.polls == PollTable(map[], {})
    ensures Initial(s)
  {
    hide ValidName;
  }

  /** Starting again over the table of any reachable state loads it. */
  lemma RestartLoads(s: State)
    requires Inv(s)
    ensures var stored := map n | n in s.ids.table :: Row(n, s.ids.table[n]);
            Loadable(stored) && Workers(stored) == s.ids.table
  {
    hide PollsOk, JobsOk, QueuesOk, ShortQueues, FewPending, InvitesOk, MapOk, Hosted, ValidName;
    var stored := map n | n in s.ids.table :: Row(n, s.ids.table[n]);
    forall n, k | n in stored && k in stored && stored[n].worker.token == stored[k].worker.token ensures n == k {
      assert s.ids.tokens[s.ids.table[n].token] == n && s.ids.tokens[s.ids.table[k].token] == k;
    }
  }

  class Controller {
    const cfg: Config
    var now: int
    var table: map<string, Worker>
    var tokens: map<Token, string>
    var invites: map<InviteCode, Invite>
    var runtime: map<string, RuntimeId>
    var runtimes: map<RuntimeId, Runtime>
    var nextRuntime: nat
    var pending: set<JobId>
    var jobs: map<JobId, Job>
    var open: map<PollId, Poll>
    ghost var usedTokens: set<Token>
    ghost var issued: set<InviteCode>
    ghost var redeemed: seq<InviteCode>
    ghost var usedPolls: set<PollId>

    ghost function Ids(): Identities reads this { Identities(table, tokens, usedTokens) }

    ghost function Mem(): Memory reads this { Memory(runtime, runtimes, nextRuntime) }

    ghost function Book(): InviteBook reads this { InviteBook(invites, issued, redeemed) }

    ghost function Jobs(): Work reads this { Work(pending, jobs) }

    ghost function Polls(): PollTable reads this { PollTable(open, usedPolls) }

    ghost function Contents(): State
      reads this
    {
      State(cfg, now, Ids(), Book(), Mem(), Jobs(), Polls())
    }

    ghost predicate Valid() reads this { Inv(Contents()) }

    /** A controller over what was loaded. */
    constructor Over(cfg: Config, now: int, stored: map<string, Row>, loaded: Loaded)
      requires Loads(stored, loaded)
      ensures Initial(Contents()) && Valid()
      ensures table == Workers(stored) && this.cfg == cfg && this.now == now
    {
      this.cfg, this.now, table := cfg, now, Workers(stored);
      invites, pending, jobs, open := map[], {}, map[], map[];
      issued, redeemed, usedPolls := {}, [], {};
      tokens, runtime, runtimes, nextRuntime := loaded.tokens, loaded.mem.runtime, loaded.mem.runtimes, loaded.mem.next;
      usedTokens := loaded.tokens.Keys;
      new;
      LoadedIsInitial(Contents(), stored, loaded);
      InitialInv(Contents());
    }

    /** Loading fails exactly on a row stored under another name or with a name the registry does
        not accept, or on two rows of one identity. */
    static method Create(cfg: Config, now: int, stored: map<string, Row>) returns (controller: Controller?)
      ensures controller == null <==> !Loadable(stored)
      ensures controller != null ==>
        fresh(controller) && Initial(controller.Contents()) && controller.Valid()
        && controller.table == Workers(stored) && controller.cfg == cfg && controller.now == now
    {
      hide Loadable, Loads;
      var loaded := LoadWorkers(stored);
      if loaded.None? {
        controller := null;
      } else {
        controller := new Controller.Over(cfg, now, stored, loaded.value);
      }
    }

    static method LoadWorkers(stored: map<string, Row>) returns (loaded: Option<Loaded>)
      ensures loaded.Some? <==> Loadable(stored)
      ensures loaded.Some? ==> Loads(stored, loaded.value)
    {
      hide ValidName;
      var tokens: map<Token, string>, runtime: map<string, RuntimeId>, runtimes: map<RuntimeId, Runtime>,
          next := map[], map[], map[], 0;
      var rest := stored.Keys;
      while rest != {}
        invariant rest <= stored.Keys && runtime.Keys == stored.Keys - rest
        invariant forall n :: n in stored && n !in rest ==> ValidName(n) && stored[n].name == n
        invariant forall n :: n in stored && n !in rest ==>
            stored[n].worker.token in tokens && tokens[stored[n].worker.token] == n
        invariant forall t :: t in tokens ==>
            tokens[t] in stored && tokens[t] !in rest && stored[tokens[t]].worker.token == t
        invariant OwnRecords(Memory(runtime, runtimes, next))
      {
        var n :| n in rest;
        if !ValidName(stored[n].name) || n != stored[n].name || stored[n].worker.token in tokens { return None; }
        tokens := tokens[stored[n].worker.token := n];
        runtime := runtime[n := next];
        runtimes := runtimes[next := Runtime(0, [], [])];
        next := next + 1;
        rest := rest - {n};
      }
      return Some(Loaded(tokens, Memory(runtime, runtimes, next)));
    }

    method CheckToken(token: Token) returns (error: Option<ErrorCode>)
      ensures error == Authenticate(Ids(), token)
    {
      if token !in tokens { return Some(Unauthorized); }
      if tokens[token] !in table { return Some(NotFound); }
      return None;
    }

    method EnsureRuntime(name: string)
      modifies this`runtime, this`runtimes, this`nextRuntime
      ensures Mem() == RuntimeFor(old(Mem()), name)
    {
      if name !in runtime {
        runtime := runtime[name := nextRuntime];
        runtimes := runtimes[nextRuntime := Runtime(0, [], [])];
        nextRuntime := nextRuntime + 1;
      }
    }

    method Seen(name: string)
      requires Registry(Ids(), Mem())
      modifies this`runtime, this`runtimes, this`nextRuntime
      ensures Mem() == MarkSeen(old(Mem()), name, now)
    {
      RuntimeExists(Ids(), Mem(), name);
      EnsureRuntime(name);
      var r := runtime[name];
      runtimes := runtimes[r := runtimes[r].(lastSeen := now)];
    }

    /** Shift entries off the queue until one is still live. */
    method Take(name: string, poll: PollId, token: Token) returns (taken: Option<JobId>)
      requires name in runtime && runtime[name] in runtimes
      modifies this`runtimes, this`jobs
      ensures (Mem(), Jobs(), taken) == TakeQueued(old(Mem()), old(Jobs()), name, poll, token)
    {
      var r := runtime[name];
      ghost var queue := runtimes[r].queue;
      while |runtimes[r].queue| > 0
        invariant r in runtimes && jobs == old(jobs)
        invariant runtimes == old(runtimes)[r := old(runtimes)[r].(queue := runtimes[r].queue)]
        invariant SkipDead(Jobs(), runtimes[r].queue) == SkipDead(Jobs(), queue)
        decreases |runtimes[r].queue|
      {
        var j := runtimes[r].queue[0];
        runtimes := runtimes[r := runtimes[r].(queue := runtimes[r].queue[1..])];
        if j in pending && j in jobs && !jobs[j].cancelled {
          jobs := jobs[j := jobs[j].(claimed := true, deliveries := jobs[j].deliveries + [Delivery(poll, token)])];
          assert runtimes == old(runtimes)[r := old(runtimes)[r].(queue := runtimes[r].queue)];
          return Some(j);
        }
      }
      return None;
    }

    method Wake(name: string)
      requires name in runtime && runtime[name] in runtimes
      modifies this`runtimes, this`open
      ensures (Mem(), Polls()) == WakeWorker(old(Mem()), old(Polls()), name)
    {
      var r := runtime[name];
      var waiters := runtimes[r].waiters;
      if waiters != [] && waiters[0] in open {
        runtimes := runtimes[r := runtimes[r].(waiters := waiters[1..])];
        open := open[waiters[0] := open[waiters[0]].(wake := Some(JobReady))];
      }
    }

    /** Drop expired invites. */
    method ExpireInvites()
      modifies this`invites
      ensures Book() == PruneInvites(old(Book()), now)
    {
      var rest := invites.Keys;
      while rest != {}
        invariant rest <= invites.Keys <= old(invites).Keys
        invariant forall c :: c in invites ==> invites[c] == old(invites)[c]
        invariant forall c :: c in old(invites) && c !in rest ==> (c in invites <==> old(invites)[c].expiresAt > now)
      {
        var c :| c in rest;
        rest := rest - {c};
        if invites[c].expiresAt <= now {
          invites := invites - {c};
        }
      }
      assert invites == PruneInvites(old(Book()), now).invites;
    }

    method CreateInvite(name: Option<string>, workdir: Option<string>, ttl: int, code: InviteCode)
      returns (answer: Response)
      requires Valid() && code !in issued
      modifies this`invites, this`issued
      ensures Valid() && (Contents(), answer)
          == RemoteWorkerModel.CreateInvite(old(Contents()), name, workdir, ttl, code)
    {
      hide Inv, ValidName, PruneInvites, ValidWorkdir;
      CreateInviteInv(Contents(), name, workdir, ttl, code);
      if cfg.publicBaseUrl == "" { return Failed(ConfigurationError); }
      ExpireInvites();
      if |invites| >= MAX_INVITES {
        answer := Failed(ResourceLimit);
      } else if (name.Some? && !ValidName(name.value)) || (workdir.Some? && !ValidWorkdir(workdir.value))
          || ttl < MIN_TTL || ttl > MAX_TTL {
        answer := Failed(InvalidRequest);
      } else if name.Some? && name.value in table {
        answer := Failed(Conflict);
      } else {
        invites := invites[code := Invite(name, workdir, now + ttl * 1000)];
        issued := issued + {code};
        answer := Invited;
      }
    }

    method Register(
        code: InviteCode, given: Option<string>, profile: Profile, workdir: Option<string>, token: Token)
      returns (answer: Response)
      requires Valid() && token !in usedTokens && |table| <= MAX_TABLE
      modifies this
      ensures Valid()
      ensures (Contents(), answer) == RemoteWorkerModel.Register(old(Contents()), code, given, profile,
          workdir, token)
    {
      hide Inv, InvitesOk, ValidName, WantedName, WorkdirOf, ValidWorkdir, Candidate, PruneInvites, RegisterError,
        Redeem, AddMachine, NewRuntime;
      RegisterInv(Contents(), code, given, profile, workdir, token);
      InvInvites(Contents());
      if !Supported(profile.version) { return Failed(InvalidRequest); }
      ExpireInvites();
      if code !in invites {
        answer := Failed(InvalidInvite);
      } else {
        var invite := invites[code];
        var requested := GivenName(given);
        var error := CheckRegistration(invite, requested, profile, workdir);
        if error.Some? {
          answer := Failed(error.value);
        } else {
          WantedIsValid(Book(), code, requested, profile);
          var name := ChooseName(WantedName(invite, requested, profile));
          Enrol(code, name, NewWorker(token, invite, profile, workdir));
          answer := Joined(name);
        }
      }
    }

    method CheckRegistration(
        invite: Invite, requested: Option<string>, profile: Profile, workdir: Option<string>)
      returns (error: Option<ErrorCode>)
      ensures error == RegisterError(Ids(), invite, requested, profile, workdir)
      ensures error == None && requested.Some? ==> ValidName(requested.value)
    {
      hide ValidName, WantedName, WorkdirOf, ValidWorkdir;
      if requested.Some? && !ValidName(requested.value) { return Some(InvalidRequest); }
      if invite.name.Some? && requested.Some? && invite.name != requested { return Some(InvalidInvite); }
      if !ValidInfo(profile.info) { return Some(InvalidRequest); }
      if WantedName(invite, requested, profile) in table
          && (requested.Some? || invite.name.Some?) { return Some(Conflict); }
      if !ValidWorkdir(WorkdirOf(invite, workdir)) { return Some(InvalidRequest); }
      if !ValidCapabilities(profile.capabilities) { return Some(InvalidRequest); }
      return None;
    }

    method ChooseName(wanted: string) returns (name: string)
      requires ValidName(wanted) && |table| <= MAX_TABLE
      ensures name == ChosenName(table, wanted)
    {
      hide ValidName, Candidate;
      name := wanted;
      if wanted in table {
        var suffix;
        name, suffix := FreshName(table.Keys, wanted);
      }
    }

    method Enrol(code: InviteCode, name: string, worker: Worker)
      modifies this`invites, this`redeemed, this`table, this`tokens, this`usedTokens, this`runtime, this`runtimes,
          this`nextRuntime
      ensures Book() == Redeem(old(Book()), code)
      ensures Ids() == AddMachine(old(Ids()), name, worker)
      ensures Mem() == NewRuntime(old(Mem()), name, now)
    {
      invites := invites - {code};
      redeemed := redeemed + [code];
      table := table[name := worker];
      tokens := tokens[worker.token := name];
      usedTokens := usedTokens + {worker.token};
      runtime := runtime[name := nextRuntime];
      runtimes := runtimes[nextRuntime := Runtime(now, [], [])];
      nextRuntime := nextRuntime + 1;
    }

    method Resume(token: Token, workdir: Option<string>, profile: Profile) returns (answer: Response)
      requires Valid()
      modifies this
      ensures Valid() && (Contents(), answer) == RemoteWorkerModel.Resume(old(Contents()), token, workdir, profile)
    {
      hide Inv, MarkSeen, ValidWorkdir, Authenticate, Registry;
      ResumeInv(Contents(), token, workdir, profile);
      InvRegistry(Contents());
      var error := CheckToken(token);
      if error.Some? {
        answer := Failed(error.value);
      } else if !Supported(profile.version) || (workdir.Some? && !ValidWorkdir(workdir.value))
          || !ValidCapabilities(profile.capabilities) || !ValidInfo(profile.info) {
        answer := Failed(InvalidRequest);
      } else {
        var name := tokens[token];
        Seen(name);
        table := table[name := ResumedWorker(table[name], workdir, profile)];
        answer := Joined(name);
      }
    }

    method Rename(oldName: string, newName: string) returns (answer: Response)
      requires Valid()
      modifies this
      ensures Valid() && (Contents(), answer) == RemoteWorkerModel.Rename(old(Contents()), oldName, newName)
    {
      hide Registry, PollsOk, JobsOk, QueuesOk, ShortQueues, FewPending, InvitesOk, ValidName, RuntimeFor,
        RenameMachine, MoveRuntime, RenameJobs;
      ghost var s := Contents();
      RenameInv(s, oldName, newName);
      if !ValidName(oldName) || !ValidName(newName) { return Failed(InvalidRequest); }
      if oldName == newName { return Done; }
      if newName in table { return Failed(Conflict); }
      if oldName !in table { return Failed(NotFound); }
      EnsureRuntime(oldName);
      RuntimeForFrame(s.mem, oldName);
      MoveMachine(oldName, newName);
      PendingHaveRecords(s.ids, s.mem, s.work);
      RenameLoop(oldName, newName);
      return Done;
    }

    method MoveMachine(oldName: string, newName: string)
      requires oldName in table && oldName in runtime
      modifies this`table, this`tokens, this`runtime
      ensures Ids() == RenameMachine(old(Ids()), oldName, newName) && Mem() == MoveRuntime(old(Mem()), oldName, newName)
    {
      var worker := table[oldName];
      table := table - {oldName};
      table := table[newName := worker];
      tokens := tokens[worker.token := newName];
      var record := runtime[oldName];
      runtime := runtime - {oldName};
      runtime := runtime[newName := record];
    }

    /** Pending jobs follow their machine to its new name. */
    method RenameLoop(oldName: string, newName: string)
      requires pending <= jobs.Keys
      modifies this`jobs
      ensures Jobs() == RenameJobs(old(Jobs()), oldName, newName)
    {
      ghost var w := Jobs();
      var rest := pending;
      while rest != {}
        invariant rest <= pending <= jobs.Keys && jobs.Keys == w.jobs.Keys
        invariant forall j :: j in jobs ==>
            jobs[j] ==
              if j in pending && j !in rest && w.jobs[j].machine == oldName then w.jobs[j].(machine := newName)
              else w.jobs[j]
      {
        var j :| j in rest;
        rest := rest - {j};
        if jobs[j].machine == oldName {
          jobs := jobs[j := jobs[j].(machine := newName)];
        }
      }
      assert jobs == RenameJobs(w, oldName, newName).jobs;
    }

    method Revoke(name: string) returns (answer: Response)
      requires Valid()
      modifies this
      ensures Valid() && (Contents(), answer) == RemoteWorkerModel.Revoke(old(Contents()), name)
    {
      hide Registry, PollsOk, JobsOk, QueuesOk, ShortQueues, FewPending, InvitesOk, ValidName, RemoveMachine,
        DropRuntime, RevokePolls, RevokeJobs;
      ghost var s := Contents();
      RevokeInv(s, name);
      RuntimeExists(s.ids, s.mem, name);
      PendingHaveRecords(s.ids, s.mem, s.work);
      if !ValidName(name) { return Failed(InvalidRequest); }
      if name !in table { return Failed(NotFound); }
      var waiters := Remove(name);
      WakeRevoked(waiters);
      RevokeLoop(name);
      return Done;
    }

    method Remove(name: string) returns (waiters: seq<PollId>)
      requires name in table && name in runtime && runtime[name] in runtimes
      modifies this`table, this`tokens, this`runtime, this`runtimes
      ensures Ids() == RemoveMachine(old(Ids()), name) && Mem() == DropRuntime(old(Mem()), name)
      ensures waiters == RuntimeOf(old(Mem()), name).waiters
    {
      tokens := tokens - {table[name].token};
      table := table - {name};
      var r := runtime[name];
      runtime := runtime - {name};
      waiters := runtimes[r].waiters;
      runtimes := runtimes[r := runtimes[r].(waiters := [])];
    }

    /** Tell every parked poll of a revoked machine. */
    method WakeRevoked(waiters: seq<PollId>)
      modifies this`open
      ensures Polls() == RevokePolls(old(Polls()), waiters)
    {
      ghost var t := Polls();
      for i := 0 to |waiters|
        invariant open.Keys == t.open.Keys
        invariant forall p :: p in open ==>
            open[p] == if p in waiters[..i] then t.open[p].(wake := Some(WasRevoked)) else t.open[p]
      {
        assert waiters[..i + 1] == waiters[..i] + [waiters[i]];
        if waiters[i] in open {
          open := open[waiters[i] := open[waiters[i]].(wake := Some(WasRevoked))];
        }
      }
      assert waiters[..|waiters|] == waiters;
      assert open == RevokePolls(t, waiters).open;
    }

    /** Fail every pending job of a machine that is no more. */
    method RevokeLoop(name: string)
      requires pending <= jobs.Keys
      modifies this`pending, this`jobs
      ensures Jobs() == RevokeJobs(old(Jobs()), name)
    {
      ghost var w := Jobs();
      var rest := pending;
      while rest != {}
        invariant rest <= pending <= w.pending && pending <= jobs.Keys && jobs.Keys == w.jobs.Keys
        invariant forall j :: j in w.pending && j !in rest ==> (j in pending <==> !JobOf(w, j, name))
        invariant forall j :: j in jobs ==>
            jobs[j] == if j !in rest && JobOf(w, j, name) then RevokedJob(w.jobs[j]) else w.jobs[j]
        decreases rest
      {
        var j :| j in rest;
        rest := rest - {j};
        if jobs[j].machine == name {
          pending := pending - {j};
          var job := jobs[j].(armed := false);
          if !job.settled {
            job := job.(settled := true, settlements := job.settlements + [ByRevocation]);
          }
          jobs := jobs[j := job];
        }
      }
      assert pending == RevokeJobs(w, name).pending;
      assert jobs == RevokeJobs(w, name).jobs;
    }

    method PollStart(token: Token, p: PollId, v: Version) returns (answer: Response)
      requires Valid() && p !in usedPolls
      modifies this
      ensures Valid() && (Contents(), answer) == RemoteWorkerModel.PollStart(old(Contents()), token, p, v)
    {
      hide Inv, MarkSeen, TakeQueued, Park, Registry, Authenticate;
      ghost var s := Contents();
      PollStartInv(s, token, p, v);
      InvRegistry(s);
      var error := CheckToken(token);
      if error.Some? {
        answer := Failed(error.value);
      } else if !Supported(v) {
        answer := Failed(InvalidRequest);
      } else {
        usedPolls := usedPolls + {p};
        var taken := SeenThenTake(tokens[token], p, token);
        answer := if taken.Some? then Delivered(taken.value) else Parked;
      }
    }

    method SeenThenTake(name: string, p: PollId, token: Token) returns (taken: Option<JobId>)
      requires Registry(Ids(), Mem())
      modifies this`runtime, this`runtimes, this`nextRuntime, this`jobs, this`open
      ensures var (mem, work, t) := TakeQueued(MarkSeen(old(Mem()), name, now), old(Jobs()), name, p, token);
              && taken == t && Jobs() == work
              && (Mem(), Polls()) == if t.Some? then (mem, old(Polls())) else Park(mem, old(Polls()), name, token, p)
    {
      hide MarkSeen, TakeQueued, Park, Registry;
      MarkSeenRegistry(Ids(), Mem(), name, now);
      Seen(name);
      taken := TakeOrPark(name, p, token);
    }

    method TakeOrPark(name: string, p: PollId, token: Token) returns (taken: Option<JobId>)
      requires name in runtime && runtime[name] in runtimes
      modifies this`runtimes, this`jobs, this`open
      ensures var (mem, work, t) := TakeQueued(old(Mem()), old(Jobs()), name, p, token);
              && taken == t && Jobs() == work
              && (Mem(), Polls()) == if t.Some? then (mem, old(Polls())) else Park(mem, old(Polls()), name, token, p)
    {
      hide TakeQueued, Park;
      TakeKeepsName(Mem(), Jobs(), name, p, token);
      taken := Take(name, p, token);
      if taken == None {
        ParkPoll(name, token, p);
      }
    }

    method ParkPoll(name: string, token: Token, p: PollId)
      requires name in runtime && runtime[name] in runtimes
      modifies this`runtimes, this`open
      ensures (Mem(), Polls()) == Park(old(Mem()), old(Polls()), name, token, p)
    {
      var r := runtime[name];
      runtimes := runtimes[r := runtimes[r].(waiters := runtimes[r].waiters + [p])];
      open := open[p := Poll(name, token, r, None)];
    }

    method PollTimeout(p: PollId)
      requires Valid() && p in open
      modifies this
      ensures Valid() && Contents() == RemoteWorkerModel.PollTimeout(old(Contents()), p)
    {
      hide Registry, PollsOk, JobsOk, QueuesOk, ShortQueues, FewPending, InvitesOk;
      PollTimeoutInv(Contents(), p);
      var r := open[p].runtime;
      if r in runtimes {
        runtimes := runtimes[r := runtimes[r].(waiters := Without(runtimes[r].waiters, p))];
      }
      open := open[p := open[p].(wake := Some(TimedOut))];
    }

    method PollResume(p: PollId) returns (answer: Response)
      requires Valid() && p in open && open[p].wake != None
      modifies this
      ensures Valid() && (Contents(), answer) == RemoteWorkerModel.PollResume(old(Contents()), p)
    {
      hide Registry, PollsOk, JobsOk, QueuesOk, ShortQueues, FewPending, InvitesOk, MarkSeen, TakeQueued;
      ghost var s := Contents();
      PollResumeInv(s, p);
      var poll := open[p];
      MarkSeenOk(cfg.maxPending, s.ids, s.mem, s.polls, s.work, poll.name, now);
      Seen(poll.name);
      open := open - {p};
      if poll.wake == Some(WasRevoked) { return Failed(Unauthorized); }
      var taken := Take(poll.name, p, poll.token);
      return if taken.Some? then Delivered(taken.value) else NoJob;
    }

    method Heartbeat(token: Token, j: JobId) returns (answer: Response)
      requires Valid()
      modifies this
      ensures Valid() && (Contents(), answer) == RemoteWorkerModel.Heartbeat(old(Contents()), token, j)
    {
      hide Registry, PollsOk, JobsOk, QueuesOk, ShortQueues, FewPending, InvitesOk, MarkSeen;
      HeartbeatInv(Contents(), token, j);
      var error := CheckToken(token);
      if error.Some? { return Failed(error.value); }
      Seen(tokens[token]);
      return Beat(j in pending && j in jobs && jobs[j].machine == tokens[token] && jobs[j].cancelled);
    }

    method SubmitResult(token: Token, j: JobId, report: Report) returns (answer: Response)
      requires Valid()
      modifies this
      ensures Valid() && (Contents(), answer) == RemoteWorkerModel.SubmitResult(old(Contents()), token, j, report)
    {
      hide Registry, PollsOk, JobsOk, QueuesOk, ShortQueues, FewPending, InvitesOk, MarkSeen;
      SubmitResultInv(Contents(), token, j, report);
      var error := CheckToken(token);
      if error.Some? { return Failed(error.value); }
      Seen(tokens[token]);
      if j !in pending || j !in jobs { return NotAccepted; }
      if jobs[j].machine != tokens[token] { return Failed(Forbidden); }
      pending := pending - {j};
      jobs := jobs[j := jobs[j].(armed := false)];
      if jobs[j].cancelled || jobs[j].settled { return NotAccepted; }
      jobs := jobs[j := jobs[j].(settled := true,
          settlements := jobs[j].settlements + [if report.Malformed? then Unanswered else ByResult(token)])];
      assert jobs == old(jobs)[j := ResultJob(old(jobs)[j], token, report)];
      return if report.Malformed? then Failed(InvalidRequest) else Accepted;
    }

    method Dispatch(name: string, timeout: Option<int>, aborted: bool, j: JobId) returns (answer: Response)
      requires Valid() && j !in jobs
      modifies this
      ensures Valid() && (Contents(), answer) == RemoteWorkerModel.Dispatch(old(Contents()), name, timeout, aborted, j)
    {
      hide Registry, PollsOk, JobsOk, QueuesOk, ShortQueues, FewPending, InvitesOk, RuntimeFor, WakeWorker,
        RemoteWorkerModel.Cancel, ValidName, AddJob, Push;
      ghost var s := Contents();
      DispatchInv(s, name, timeout, aborted, j);
      if !ValidName(name) { return Failed(InvalidRequest); }
      if name !in table { return Failed(NotFound); }
      RuntimeForOk(cfg.maxPending, s.ids, s.mem, s.polls, s.work, name);
      EnsureRuntime(name);
      var r := runtime[name];
      var seen := runtimes[r].lastSeen;
      if seen == 0 || now - seen > cfg.offlineAfter { return Failed(Offline); }
      var mine := set i | i in pending && i in jobs && jobs[i].machine == name && !jobs[i].cancelled;
      assert mine == PendingOf(Jobs(), name);
      if |runtimes[r].queue| >= cfg.maxPending || |mine| >= cfg.maxPending { return Failed(ResourceLimit); }
      if timeout.Some? && (timeout.value < MIN_JOB_TIMEOUT
          || timeout.value > cfg.maxTimeout) { return Failed(InvalidRequest); }
      var due := now + if timeout.Some? then timeout.value else cfg.defaultTimeout;
      AddAndWake(name, j, NewJob(name, r, due, table[name].token));
      if aborted {
        Cancel(j, ByAbort);
      }
      return Dispatched;
    }

    method AddAndWake(name: string, j: JobId, job: Job)
      requires name in runtime && runtime[name] in runtimes
      modifies this`pending, this`jobs, this`runtimes, this`open
      ensures Jobs() == AddJob(old(Jobs()), j, job)
      ensures (Mem(), Polls()) == WakeWorker(Push(old(Mem()), name, j), old(Polls()), name)
    {
      pending := pending + {j};
      jobs := jobs[j := job];
      var r := runtime[name];
      runtimes := runtimes[r := runtimes[r].(queue := runtimes[r].queue + [j])];
      Wake(name);
    }

    /** The cancel closure: acts on the runtime record captured at dispatch. */
    method Cancel(j: JobId, how: Settlement)
      requires j in jobs
      modifies this`runtimes, this`pending, this`jobs
      ensures (Mem(), Jobs()) == RemoteWorkerModel.Cancel(old(Mem()), old(Jobs()), j, how)
    {
      if jobs[j].settled { return; }
      jobs := jobs[j := jobs[j].(cancelled := true, settled := true, settlements := jobs[j].settlements + [how])];
      if !jobs[j].claimed {
        var r := jobs[j].runtime;
        if r in runtimes {
          var rest := RemoveEntry(runtimes[r].queue, j);
          runtimes := runtimes[r := runtimes[r].(queue := rest)];
        }
        pending := pending - {j};
        jobs := jobs[j := jobs[j].(armed := false)];
        assert jobs == old(jobs)[j := jobs[j]];
      }
    }

    method Expire(j: JobId)
      requires Valid() && j in jobs
      modifies this
      ensures Valid() && Contents() == RemoteWorkerModel.Expire(old(Contents()), j)
    {
      hide Registry, PollsOk, JobsOk, QueuesOk, ShortQueues, FewPending, InvitesOk, RemoteWorkerModel.Cancel;
      ghost var s := Contents();
      ExpireInv(s, j);
      jobs := jobs[j := jobs[j].(armed := false)];
      CancelKeepsJob(Mem(), Jobs(), j, ByTimeout);
      Cancel(j, ByTimeout);
      if jobs[j].claimed {
        jobs := jobs[j := jobs[j].(grace := Some(now + Grace(cfg)))];
      }
    }

    method GraceOver(j: JobId)
      requires Valid() && j in jobs && jobs[j].grace.Some?
      modifies this
      ensures Valid() && Contents() == RemoteWorkerModel.GraceOver(old(Contents()), j)
    {
      hide Registry, PollsOk, JobsOk, QueuesOk, ShortQueues, FewPending, InvitesOk;
      GraceOverInv(Contents(), j);
      pending := pending - {j};
      jobs := jobs[j := jobs[j].(grace := None)];
    }
  }

  lemma InvInvites(s: State)
    requires Inv(s)
    ensures InvitesOk(PruneInvites(s.book, s.now))
  {
    PruneInvitesOk(s.book, s.now);
  }

  lemma MarkSeenRegistry(ids: Identities, m: Memory, name: string, now: int)
    requires Registry(ids, m)
    ensures var m1 := MarkSeen(m, name, now); name in m1.runtime && m1.runtime[name] in m1.runtimes
  {
    RuntimeForRegistry(ids, m, name);
  }

  lemma TakeKeepsName(m: Memory, w: Work, name: string, p: PollId, token: Token)
    requires name in m.runtime && m.runtime[name] in m.runtimes
    ensures var m1 := TakeQueued(m, w, name, p, token).0; name in m1.runtime && m1.runtime[name] in m1.runtimes
  {
    TakeQueuedFrame(m, w, name, p, token);
  }

  lemma CancelKeepsJob(m: Memory, w: Work, j: JobId, how: Settlement)
    requires j in w.jobs
    ensures j in Cancel(m, w, j, how).1.jobs
  {
  }

  lemma {:induction false} WithoutAt(queue: seq<JobId>, j: JobId, i: nat)
    requires i < |queue| && queue[i] == j && j !in queue[..i]
    ensures Without(queue, j) == queue[..i] + queue[i + 1..]
  {
    if i > 0 {
      assert queue[0] in queue[..i];
      assert queue[1..][..i - 1] == queue[..i][1..];
      WithoutAt(queue[1..], j, i - 1);
      assert queue[1..][..i - 1] + queue[1..][i..] == queue[1..i] + queue[i + 1..];
    }
  }

  /** Find an entry from the front and splice it out. */
  method RemoveEntry(queue: seq<JobId>, j: JobId) returns (rest: seq<JobId>)
    ensures rest == Without(queue, j)
  {
    var i := 0;
    while i < |queue| && queue[i] != j
      invariant 0 <= i <= |queue|
      invariant j !in queue[..i]
    {
      i := i + 1;
    }
    rest := if i < |queue| then queue[..i] + queue[i + 1..] else queue;
    if i < |queue| {
      WithoutAt(queue, j, i);
    } else {
      assert queue[..i] == queue;
    }
  }
}
