/** The controller's promises: each caller is settled once and by the right machine, jobs
    are conserved, a waiting job finds a waiting poll, and nothing stays pending for long. */
module RemoteWorkerProperties {
  import opened Collections
  import opened MachineNames
  import opened RemoteWorkerProfile
  import opened RemoteWorkerModel
  import opened RemoteWorkerProofs

  // ------------------------------------------------- settlement and identity

  /** Job records are never lost, and their history only grows. */
  ghost predicate Grows(w: Work, w1: Work) {
    forall j :: j in w.jobs ==> j in w1.jobs && JobGrows(w.jobs[j], w1.jobs[j])
  }

  ghost predicate JobGrows(a: Job, b: Job) {
    a.settlements <= b.settlements && a.deliveries <= b.deliveries && a.owner == b.owner && a.due == b.due
  }

  /** No record but those given was closed without its caller hearing of it. */
  ghost predicate Heard(w: Work, w1: Work, but: set<JobId>) {
    forall j :: j in w1.jobs && j !in but && Unanswered in w1.jobs[j].settlements ==>
        j in w.jobs && Unanswered in w.jobs[j].settlements
  }

  /** The jobs whose callers this event silences: a malformed error for a live job of the
      machine. */
  function Silenced(s: State, e: Event): set<JobId> {
    if e.EvSubmit? && e.report.Malformed? && Authenticate(s.ids, e.token) == None
        && JobOf(s.work, e.job, s.ids.tokens[e.token])
       && !s.work.jobs[e.job].cancelled && !s.work.jobs[e.job].settled
    then {e.job} else {}
  }

  lemma TakeQueuedGrows(m: Memory, w: Work, name: string, p: PollId, token: Token)
    ensures Grows(w, TakeQueued(m, w, name, p, token).1) && Heard(w, TakeQueued(m, w, name, p, token).1, {})
  {
  }

  lemma CancelGrows(m: Memory, w: Work, j: JobId, how: Settlement)
    requires j in w.jobs && how != Unanswered
    ensures Grows(w, Cancel(m, w, j, how).1) && Heard(w, Cancel(m, w, j, how).1, {})
  {
  }

  lemma DispatchGrows(s: State, name: string, timeout: Option<int>, aborted: bool, j: JobId)
    requires j !in s.work.jobs
    ensures Grows(s.work, Dispatch(s, name, timeout, aborted, j).0.work)
        && Heard(s.work, Dispatch(s, name, timeout, aborted, j).0.work, {})
  {
    hide ValidName, Cancel, WakeWorker, Push, RuntimeFor, PendingOf, Grows, Heard;
    GrowsReflexive(s.work);
    if Dispatch(s, name, timeout, aborted, j).1 == Dispatched {
      var mem := RuntimeFor(s.mem, name);
      var ms := if timeout.Some? then timeout.value else s.cfg.defaultTimeout;
      var w1 := AddJob(s.work, j, NewJob(name, mem.runtime[name], s.now + ms, s.ids.table[name].token));
      AddGrows(s.work, j, NewJob(name, mem.runtime[name], s.now + ms, s.ids.table[name].token));
      CancelGrows(WakeWorker(Push(mem, name, j), s.polls, name).0, w1, j, ByAbort);
      GrowsOn(s.work, w1, Cancel(WakeWorker(Push(mem, name, j), s.polls, name).0, w1, j, ByAbort).1);
    }
  }

  lemma AddGrows(w: Work, j: JobId, job: Job)
    requires j !in w.jobs && Unanswered !in job.settlements
    ensures Grows(w, AddJob(w, j, job)) && Heard(w, AddJob(w, j, job), {})
  {
  }

  lemma GrowsOn(a: Work, b: Work, c: Work)
    requires Grows(a, b) && Grows(b, c) && Heard(a, b, {}) && Heard(b, c, {})
    ensures Grows(a, c) && Heard(a, c, {})
  {
  }

  lemma ExpireGrows(s: State, j: JobId)
    requires j in s.work.jobs
    ensures Grows(s.work, Expire(s, j).work) && Heard(s.work, Expire(s, j).work, {})
  {
    var w0 := SetJob(s.work, j, s.work.jobs[j].(armed := false));
    CancelGrows(s.mem, w0, j, ByTimeout);
  }

  lemma StepGrows(s: State, e: Event)
    requires Enabled(s, e)
    ensures Grows(s.work, Apply(s, e).work) && Heard(s.work, Apply(s, e).work, Silenced(s, e))
  {
    hide Grows, Heard, Silenced, TakeQueued, MarkSeen, Cancel, ValidName, Dispatch, Expire, PruneInvites, ChosenName;
    GrowsReflexive(s.work);
    OnlyResultsSilence(s, e);
    match e
    case EvRename(o, n) => RenameGrows(s.work, o, n);
    case EvRevoke(m) => RevokeGrows(s.work, m);
    case EvPollStart(token, p, v) =>
      if Authenticate(s.ids, token) == None {
        TakeQueuedGrows(MarkSeen(s.mem, s.ids.tokens[token], s.now), s.work, s.ids.tokens[token], p, token);
      }
    case EvPollResume(p) =>
      var poll := s.polls.open[p];
      TakeQueuedGrows(MarkSeen(s.mem, poll.name, s.now), s.work, poll.name, p, poll.token);
    case EvSubmit(token, j, report) => SubmitGrows(s, token, j, report);
    case EvDispatch(m, timeout, aborted, j) => DispatchGrows(s, m, timeout, aborted, j);
    case EvAbort(j) => CancelGrows(s.mem, s.work, j, ByAbort);
    case EvExpire(j) => ExpireGrows(s, j);
    case EvGraceOver(j) => GraceGrows(s, j);
    case _ =>
  }

  lemma GrowsReflexive(w: Work)
    ensures Grows(w, w) && Heard(w, w, {})
  {
  }

  lemma OnlyResultsSilence(s: State, e: Event)
    ensures !e.EvSubmit? ==> Silenced(s, e) == {}
  {
  }

  lemma RenameGrows(w: Work, o: string, n: string)
    ensures Grows(w, RenameJobs(w, o, n)) && Heard(w, RenameJobs(w, o, n), {})
  {
  }

  lemma RevokeGrows(w: Work, n: string)
    ensures Grows(w, RevokeJobs(w, n)) && Heard(w, RevokeJobs(w, n), {})
  {
  }

  lemma SubmitGrows(s: State, token: Token, j: JobId, report: Report)
    ensures Grows(s.work, SubmitResult(s, token, j, report).0.work)
    ensures Heard(s.work, SubmitResult(s, token, j, report).0.work, Silenced(s, EvSubmit(token, j, report)))
  {
    hide MarkSeen, Grows, Heard;
    GrowsReflexive(s.work);
    if j in s.work.pending && j in s.work.jobs {
      ForgetGrows(s.work, j, s.work.jobs[j].(armed := false), {});
      if report.Malformed? {
        ForgetGrows(s.work, j, ResultJob(s.work.jobs[j], token, report), {j});
      } else {
        ForgetGrows(s.work, j, ResultJob(s.work.jobs[j], token, report), {});
      }
    }
  }

  lemma ForgetGrows(w: Work, j: JobId, job: Job, but: set<JobId>)
    requires j in w.jobs && JobGrows(w.jobs[j], job)
    requires j in but || (Unanswered in job.settlements ==> Unanswered in w.jobs[j].settlements)
    ensures Grows(w, Forget(w, j, job)) && Heard(w, Forget(w, j, job), but)
  {
  }

  lemma GraceGrows(s: State, j: JobId)
    requires j in s.work.jobs
    ensures Grows(s.work, GraceOver(s, j).work) && Heard(s.work, GraceOver(s, j).work, {})
  {
  }

  /** `accepted: true` is the answer exactly when this call settles the job's caller, and
      then with this token's result. */
  lemma AcceptedExactlyWhenSettled(s: State, token: Token, j: JobId, report: Report)
    requires Inv(s)
    ensures var (s1, answer) := SubmitResult(s, token, j, report);
            answer == Accepted <==>
            (j in s.work.jobs && j in s1.work.jobs
                && s1.work.jobs[j].settlements == s.work.jobs[j].settlements + [ByResult(token)])
  {
    hide Inv, MarkSeen;
    var (s1, answer) := SubmitResult(s, token, j, report);
    if j in s.work.jobs && j in s1.work.jobs
        && s1.work.jobs[j].settlements == s.work.jobs[j].settlements + [ByResult(token)] {
      assert |s1.work.jobs[j].settlements| == |s.work.jobs[j].settlements| + 1;
      assert s1.work.jobs[j].settlements[|s.work.jobs[j].settlements|] == ByResult(token);
    }
  }

  /** A job's record is closed without its caller hearing of it exactly by a malformed error of
      its own machine for the live job. */
  lemma UnansweredExactly(s: State, e: Event, j: JobId)
    requires Inv(s) && Enabled(s, e) && j in s.work.jobs && Unanswered !in s.work.jobs[j].settlements
    ensures j in Apply(s, e).work.jobs
    ensures Unanswered in Apply(s, e).work.jobs[j].settlements <==> j in Silenced(s, e)
  {
    hide Inv, Apply, Enabled;
    StepGrows(s, e);
    if j in Silenced(s, e) {
      SilencedIsUnanswered(s, e.token, j, e.report);
    }
  }

  lemma SilencedIsUnanswered(s: State, token: Token, j: JobId, report: Report)
    requires j in Silenced(s, EvSubmit(token, j, report))
    ensures Unanswered in Apply(s, EvSubmit(token, j, report)).work.jobs[j].settlements
    ensures SubmitResult(s, token, j, report).1 == Failed(InvalidRequest)
  {
    hide MarkSeen;
  }

  /** What the history of a job may say: at most one settlement, at most one delivery, a
      result only from the identity the job was dispatched to, and an unsettled caller
      still has its job pending. */
  ghost predicate HonestHistory(w: Work, j: JobId)
    requires j in w.jobs
  {
    var job := w.jobs[j];
    && |job.settlements| <= 1 && |job.deliveries| <= 1
    && (forall k :: 0 <= k < |job.settlements| && job.settlements[k].ByResult? ==>
         job.settlements[k].token == job.owner)
    && (job.settlements == [] ==> j in w.pending)
  }

  /** In every run, whatever is renamed, revoked or enrolled again, every job's caller is
      settled at most once and never by another identity's result. */
  lemma SettledOnceByOwner(states: seq<State>, events: seq<Event>, i: nat, k: nat, j: JobId)
    requires IsRun(states, events) && i <= k < |states| && j in states[i].work.jobs
    ensures j in states[k].work.jobs
    ensures HonestHistory(states[k].work, j)
    ensures states[i].work.jobs[j].settlements <= states[k].work.jobs[j].settlements
    ensures states[i].work.jobs[j].owner == states[k].work.jobs[j].owner
    decreases k
  {
    hide Initial, Enabled, Apply, Registry, PollsOk, JobsOk, QueuesOk, ShortQueues, FewPending, InvitesOk, Grows;
    if i < k {
      SettledOnceByOwner(states, events, i, k - 1, j);
      assert Enabled(states[k - 1], events[k - 1]) && states[k] == Apply(states[k - 1], events[k - 1]);
      StepGrows(states[k - 1], events[k - 1]);
      GrowsAt(states[k - 1].work, states[k].work, j);
    }
    RunInv(states, events, k);
    JobFacts(states[k].ids, states[k].mem, states[k].work, j);
  }

  lemma GrowsAt(w: Work, w1: Work, j: JobId)
    requires Grows(w, w1) && j in w.jobs
    ensures j in w1.jobs && JobGrows(w.jobs[j], w1.jobs[j])
  {
  }

  /** A dispatched job is bound to the identity its machine has at that moment. */
  lemma DispatchBindsIdentity(s: State, name: string, timeout: Option<int>, aborted: bool, j: JobId)
    requires Inv(s) && j !in s.work.jobs && Dispatch(s, name, timeout, aborted, j).1 == Dispatched
    ensures name in s.ids.table
    ensures var job := Dispatch(s, name, timeout, aborted, j).0.work.jobs[j];
            job.owner == s.ids.table[name].token && job.settlements == if aborted then [ByAbort] else []
  {
    hide Inv, ValidName, WakeWorker, Push, RuntimeFor, PendingOf, Unqueue;
  }

  // -------------------------------------------------------- job conservation

  /** The jobs a machine's queue should hold. */
  predicate Waiting(w: Work, j: JobId, name: string) {
    JobOf(w, j, name) && !w.jobs[j].claimed && !w.jobs[j].cancelled
  }

  /** Every queue holds exactly the waiting jobs of its machine (and, by QueuesOk, each
      once). */
  ghost predicate Conserved(s: State) {
    forall n, j :: n in s.mem.runtime ==> (j in RuntimeOf(s.mem, n).queue <==> Waiting(s.work, j, n))
  }

  /** No reachable queue holds an entry whose job is gone. */
  ghost predicate NoDead(m: Memory, w: Work) {
    forall n, j :: n in m.runtime && m.runtime[n] in m.runtimes && j in m.runtimes[m.runtime[n]].queue ==>
        j in w.pending
  }

  lemma QueuedIsWaiting(ids: Identities, m: Memory, w: Work, n: string, j: JobId)
    requires Registry(ids, m) && JobsOk(ids, m, w) && QueuesOk(m, w)
    requires n in m.runtime && j in m.runtimes[m.runtime[n]].queue && j in w.pending
    ensures Waiting(w, j, n) && n in ids.table && ids.table[n].token == w.jobs[j].owner
  {
    hide NoDup, IdsOk, Hosted, Recorded;
    assert PendingJob(ids, m, j, w.jobs[j]);
  }

  lemma WaitingIsQueued(ids: Identities, m: Memory, w: Work, n: string, j: JobId)
    requires JobsOk(ids, m, w) && Waiting(w, j, n)
    ensures n in m.runtime && m.runtime[n] in m.runtimes && j in m.runtimes[m.runtime[n]].queue
  {
    hide Recorded;
    assert PendingJob(ids, m, j, w.jobs[j]);
  }

  lemma ConservedMeansNoDead(s: State)
    requires Inv(s)
    ensures Conserved(s) <==> NoDead(s.mem, s.work)
  {
    hide Registry, PollsOk, JobsOk, QueuesOk, ShortQueues, FewPending, InvitesOk;
    forall n | n in s.mem.runtime ensures s.mem.runtime[n] in s.mem.runtimes {
      RuntimeExists(s.ids, s.mem, n);
    }
    if NoDead(s.mem, s.work) {
      forall n, j | n in s.mem.runtime ensures j in RuntimeOf(s.mem, n).queue <==> Waiting(s.work, j, n) {
        if j in RuntimeOf(s.mem, n).queue {
          QueuedIsWaiting(s.ids, s.mem, s.work, n, j);
        }
        if Waiting(s.work, j, n) {
          WaitingIsQueued(s.ids, s.mem, s.work, n, j);
        }
      }
    }
    if Conserved(s) {
      forall n, j | n in s.mem.runtime && s.mem.runtime[n] in s.mem.runtimes
          && j in s.mem.runtimes[s.mem.runtime[n]].queue
        ensures j in s.work.pending
      {
        assert j in RuntimeOf(s.mem, n).queue;
      }
    }
  }

  /** The one operation that breaks conservation: a machine reports a result for a job of
      its own that it has not been handed yet. */
  predicate EarlyResult(s: State, e: Event) {
    && e.EvSubmit? && Authenticate(s.ids, e.token) == None
    && JobOf(s.work, e.job, s.ids.tokens[e.token])
    && !s.work.jobs[e.job].claimed
  }

  lemma NoDeadAfterForget(m: Memory, w: Work, w1: Work, j: JobId)
    requires NoDead(m, w) && w.pending <= w1.pending + {j}
    requires forall r :: r in m.runtimes ==> j !in m.runtimes[r].queue
    ensures NoDead(m, w1)
  {
    forall n, i | n in m.runtime && m.runtime[n] in m.runtimes && i in m.runtimes[m.runtime[n]].queue
        ensures i in w1.pending {
      assert j !in m.runtimes[m.runtime[n]].queue;
      assert i in w1.pending + {j};
    }
  }

  lemma NoDeadShrunk(m: Memory, m1: Memory, w: Work)
    requires NoDead(m, w) && m1.runtime == m.runtime && m1.runtimes.Keys == m.runtimes.Keys
    requires forall r, j :: r in m.runtimes && j in m1.runtimes[r].queue ==> j in m.runtimes[r].queue
    ensures NoDead(m1, w)
  {
  }

  lemma NoDeadMoreNames(m: Memory, m1: Memory, w: Work)
    requires NoDead(m, w)
    requires forall n :: n in m1.runtime && m1.runtime[n] in m1.runtimes ==>
      m1.runtimes[m1.runtime[n]].queue == [] ||
      (n in m.runtime && m.runtime[n] in m.runtimes
          && m1.runtimes[m1.runtime[n]].queue == m.runtimes[m.runtime[n]].queue)
    ensures NoDead(m1, w)
  {
  }

  lemma MarkSeenNoDead(ids: Identities, m: Memory, w: Work, name: string, now: int)
    requires Registry(ids, m) && NoDead(m, w)
    ensures NoDead(MarkSeen(m, name, now), w)
  {
    hide NoDead, Registry, RuntimeFor, MarkSeen;
    var m0 := RuntimeFor(m, name);
    RuntimeExists(ids, m, name);
    RuntimeForFrame(m, name);
    NoDeadMoreNames(m, m0, w);
    RuntimeForRegistry(ids, m, name);
    RuntimeExists(ids, m0, name);
    MarkSeenTwice(m, name, now);
    MarkSeenFrame(m0, name, now);
    NoDeadShrunk(m0, MarkSeen(m0, name, now), w);
  }

  lemma TakeQueuedNoDead(m: Memory, w: Work, name: string, p: PollId, token: Token)
    requires NoDead(m, w) && name in m.runtime && m.runtime[name] in m.runtimes
    ensures NoDead(TakeQueued(m, w, name, p, token).0, TakeQueued(m, w, name, p, token).1)
  {
    hide NoDead, TakeQueued, SkipDead;
    var (m1, w1, taken) := TakeQueued(m, w, name, p, token);
    var q := m.runtimes[m.runtime[name]].queue;
    TakeQueuedFrame(m, w, name, p, token);
    SkipDeadIsSuffix(w, q);
    NoDeadShrunk(m, m1, w);
    SamePendingNoDead(m1, w, w1);
  }

  lemma SamePendingNoDead(m: Memory, w: Work, w1: Work)
    requires NoDead(m, w) && w.pending <= w1.pending
    ensures NoDead(m, w1)
  {
  }

  lemma CancelNoDead(m: Memory, w: Work, j: JobId, how: Settlement)
    requires NoDead(m, w) && QueuesOk(m, w) && j in w.jobs
    ensures NoDead(Cancel(m, w, j, how).0, Cancel(m, w, j, how).1)
  {
    hide NoDead, QueuesOk, Unqueue, Without;
    var job := w.jobs[j];
    var (m1, w1) := Cancel(m, w, j, how);
    if job.settled || job.claimed {
      SamePendingNoDead(m, w, w1);
    } else {
      OnlyOwnQueue(m, w, j);
      UnqueueFrame(m, job.runtime, j);
      if job.runtime in m.runtimes {
        QueueFacts(m, w, job.runtime);
        WithoutNoDup(m.runtimes[job.runtime].queue, j);
      }
      NoDeadShrunk(m, m1, w);
      NoDeadAfterForget(m1, w, w1, j);
    }
  }

  lemma ClaimedNotQueued(m: Memory, w: Work, j: JobId)
    requires QueuesOk(m, w) && j in w.jobs && w.jobs[j].claimed
    ensures forall r :: r in m.runtimes ==> j !in m.runtimes[r].queue
  {
  }

  /** Submitting keeps conservation exactly when the job was not claimed too early. */
  lemma SubmitNoDead(s: State, token: Token, j: JobId, report: Report)
    requires Inv(s) && NoDead(s.mem, s.work)
    ensures NoDead(SubmitResult(s, token, j, report).0.mem, SubmitResult(s, token, j, report).0.work) <==>
        !EarlyResult(s, EvSubmit(token, j, report))
  {
    hide Registry, PollsOk, JobsOk, QueuesOk, ShortQueues, FewPending, InvitesOk, MarkSeen, NoDead;
    var max := s.cfg.maxPending;
    if Authenticate(s.ids, token) == None {
      var name := s.ids.tokens[token];
      var m1, s1 := MarkSeen(s.mem, name, s.now), SubmitResult(s, token, j, report).0;
      MarkSeenOk(max, s.ids, s.mem, s.polls, s.work, name, s.now);
      MarkSeenNoDead(s.ids, s.mem, s.work, name, s.now);
      if JobOf(s.work, j, name) {
        JobRecorded(max, s.ids, m1, s.polls, s.work, j);
        if s.work.jobs[j].claimed {
          ClaimedNotQueued(m1, s.work, j);
          NoDeadAfterForget(m1, s.work, s1.work, j);
        } else {
          DeadEntry(m1, s1.work, name, j);
        }
      }
    }
  }

  lemma DeadEntry(m: Memory, w: Work, n: string, j: JobId)
    requires n in m.runtime && m.runtime[n] in m.runtimes && j in m.runtimes[m.runtime[n]].queue && j !in w.pending
    ensures !NoDead(m, w)
  {
  }

  lemma DispatchNoDead(s: State, name: string, timeout: Option<int>, aborted: bool, j: JobId)
    requires Inv(s) && NoDead(s.mem, s.work) && j !in s.work.jobs
    ensures NoDead(Dispatch(s, name, timeout, aborted, j).0.mem, Dispatch(s, name, timeout, aborted, j).0.work)
  {
    hide Registry, PollsOk, JobsOk, QueuesOk, ShortQueues, FewPending, InvitesOk, Push, WakeWorker, Cancel,
      RuntimeFor, PendingOf, AddJob, ValidName, NoDead;
    var max := s.cfg.maxPending;
    if ValidName(name) && name in s.ids.table {
      RuntimeForOk(max, s.ids, s.mem, s.polls, s.work, name);
      var mem := RuntimeFor(s.mem, name);
      RuntimeExists(s.ids, s.mem, name);
      RuntimeForFrame(s.mem, name);
      NoDeadMoreNames(s.mem, mem, s.work);
      if Dispatch(s, name, timeout, aborted, j).1 == Dispatched {
        var ms := if timeout.Some? then timeout.value else s.cfg.defaultTimeout;
        var job := NewJob(name, mem.runtime[name], s.now + ms, s.ids.table[name].token);
        AddJobOk(max, s.ids, mem, s.polls, s.work, name, j, job);
        var w1 := AddJob(s.work, j, job);
        PushNoDead(mem, s.work, name, j, job);
        var m1 := Push(mem, name, j);
        PushFrame(mem, name, j);
        var (m2, t2) := WakeWorker(m1, s.polls, name);
        WakeFrame(m1, s.polls, name);
        WakeOk(max, s.ids, m1, s.polls, w1, name);
        NoDeadShrunk(m1, m2, w1);
        CancelNoDead(m2, w1, j, ByAbort);
      }
    }
  }

  lemma PushNoDead(m: Memory, w: Work, name: string, j: JobId, job: Job)
    requires NoDead(m, w) && name in m.runtime && m.runtime[name] in m.runtimes
    ensures NoDead(Push(m, name, j), AddJob(w, j, job))
  {
  }

  lemma WakeFrame(m: Memory, t: PollTable, name: string)
    ensures var m1 := WakeWorker(m, t, name).0;
            && m1.runtime == m.runtime
            && (name in m.runtime && m.runtime[name] in m.runtimes ==>
                  SameMap(m, m1) && forall r :: r in m.runtimes ==> m1.runtimes[r].queue == m.runtimes[r].queue)
  {
  }

  lemma RevokeNoDead(s: State, name: string)
    requires Inv(s) && NoDead(s.mem, s.work)
    ensures NoDead(Revoke(s, name).0.mem, Revoke(s, name).0.work)
  {
    hide Registry, PollsOk, JobsOk, QueuesOk, ShortQueues, FewPending, InvitesOk, ValidName, DropRuntime,
      RemoveMachine, RevokePolls;
    var s1 := Revoke(s, name).0;
    if s1 != s {
      RuntimeExists(s.ids, s.mem, name);
      DropRuntimeFrame(s.mem, name);
      forall n, j | n in s1.mem.runtime && s1.mem.runtime[n] in s1.mem.runtimes
          && j in s1.mem.runtimes[s1.mem.runtime[n]].queue
        ensures j in s1.work.pending
      {
        QueuedIsWaiting(s.ids, s.mem, s.work, n, j);
      }
    }
  }

  lemma RenameNoDead(s: State, oldName: string, newName: string)
    requires Inv(s) && NoDead(s.mem, s.work)
    ensures NoDead(Rename(s, oldName, newName).0.mem, Rename(s, oldName, newName).0.work)
  {
    hide Registry, PollsOk, JobsOk, QueuesOk, ShortQueues, FewPending, InvitesOk, ValidName, RenameMachine, RuntimeFor;
    var s1 := Rename(s, oldName, newName).0;
    if s1 != s {
      RuntimeExists(s.ids, s.mem, oldName);
      RuntimeForFrame(s.mem, oldName);
      assert RuntimeFor(s.mem, oldName) == s.mem;
    }
  }

  lemma ParkNoDead(m: Memory, t: PollTable, w: Work, name: string, token: Token, p: PollId)
    requires NoDead(m, w) && name in m.runtime && m.runtime[name] in m.runtimes
    ensures NoDead(Park(m, t, name, token, p).0, w)
  {
    hide NoDead, Park;
    ParkFrame(m, t, name, token, p);
    NoDeadShrunk(m, Park(m, t, name, token, p).0, w);
  }

  lemma PollStartNoDead(s: State, token: Token, p: PollId, v: Version)
    requires Inv(s) && NoDead(s.mem, s.work) && p !in s.polls.used
    ensures NoDead(PollStart(s, token, p, v).0.mem, PollStart(s, token, p, v).0.work)
  {
    hide Registry, PollsOk, JobsOk, QueuesOk, ShortQueues, FewPending, InvitesOk, MarkSeen, TakeQueued, Park, NoDead;
    if Authenticate(s.ids, token) == None {
      var name := s.ids.tokens[token];
      var m0 := MarkSeen(s.mem, name, s.now);
      MarkSeenOk(s.cfg.maxPending, s.ids, s.mem, s.polls, s.work, name, s.now);
      MarkSeenNoDead(s.ids, s.mem, s.work, name, s.now);
      TakeQueuedNoDead(m0, s.work, name, p, token);
      var (m1, w1, taken) := TakeQueued(m0, s.work, name, p, token);
      TakeQueuedFrame(m0, s.work, name, p, token);
      if taken == None {
        ParkNoDead(m1, s.polls.(used := s.polls.used + {p}), w1, name, token, p);
      }
    }
  }

  lemma PollResumeNoDead(s: State, p: PollId)
    requires Inv(s) && NoDead(s.mem, s.work) && p in s.polls.open
    ensures NoDead(PollResume(s, p).0.mem, PollResume(s, p).0.work)
  {
    hide Registry, PollsOk, JobsOk, QueuesOk, ShortQueues, FewPending, InvitesOk, MarkSeen, TakeQueued, NoDead;
    var poll := s.polls.open[p];
    MarkSeenOk(s.cfg.maxPending, s.ids, s.mem, s.polls, s.work, poll.name, s.now);
    MarkSeenNoDead(s.ids, s.mem, s.work, poll.name, s.now);
    TakeQueuedNoDead(MarkSeen(s.mem, poll.name, s.now), s.work, poll.name, p, poll.token);
  }

  lemma PollTimeoutNoDead(s: State, p: PollId)
    requires Inv(s) && NoDead(s.mem, s.work) && p in s.polls.open
    ensures NoDead(PollTimeout(s, p).mem, PollTimeout(s, p).work)
  {
    hide Registry, PollsOk, JobsOk, QueuesOk, ShortQueues, FewPending, InvitesOk, NoDead, Without;
    NoDeadShrunk(s.mem, PollTimeout(s, p).mem, s.work);
  }

  lemma ExpireNoDead(s: State, j: JobId)
    requires Inv(s) && NoDead(s.mem, s.work) && j in s.work.jobs
    ensures NoDead(Expire(s, j).mem, Expire(s, j).work)
  {
    hide Registry, PollsOk, JobsOk, QueuesOk, ShortQueues, FewPending, InvitesOk, NoDead, Cancel;
    var w0 := SetJob(s.work, j, s.work.jobs[j].(armed := false));
    SamePendingNoDead(s.mem, s.work, w0);
    OnlyJobQueues(s.mem, s.work, w0, j);
    CancelNoDead(s.mem, w0, j, ByTimeout);
    var (m1, w1) := Cancel(s.mem, w0, j, ByTimeout);
    CancelGrows(s.mem, w0, j, ByTimeout);
    SamePendingNoDead(m1, w1, Expire(s, j).work);
  }

  lemma GraceOverNoDead(s: State, j: JobId)
    requires Inv(s) && NoDead(s.mem, s.work) && j in s.work.jobs && s.work.jobs[j].grace.Some?
    ensures NoDead(GraceOver(s, j).mem, GraceOver(s, j).work)
  {
    hide Registry, PollsOk, JobsOk, QueuesOk, ShortQueues, FewPending, InvitesOk, NoDead;
    JobFacts(s.ids, s.mem, s.work, j);
    ClaimedNotQueued(s.mem, s.work, j);
    NoDeadAfterForget(s.mem, s.work, GraceOver(s, j).work, j);
  }

  lemma RegisterNoDead(
      s: State, code: InviteCode, requested: Option<string>, profile: Profile, workdir: Option<string>,
      token: Token)
    requires Inv(s) && NoDead(s.mem, s.work)
    ensures NoDead(Register(s, code, requested, profile, workdir, token).0.mem, s.work)
  {
    hide Registry, PollsOk, JobsOk, QueuesOk, ShortQueues, FewPending, InvitesOk, PruneInvites, Redeem, AddMachine,
      ChosenName, WantedName, RegisterError;
    RuntimeExists(s.ids, s.mem, "");
  }

  /** Conservation survives every step but one: it is lost exactly when a machine reports
      a result for a job that is still queued. */
  lemma ConservationStep(s: State, e: Event)
    requires Inv(s) && Conserved(s) && Enabled(s, e)
    ensures Conserved(Apply(s, e)) <==> !EarlyResult(s, e)
  {
    hide Inv, Conserved, NoDead, CreateInvite, Register, Resume, Rename, Revoke, PollStart, PollTimeout, PollResume,
      Heartbeat, SubmitResult, Dispatch, Abort, Expire, GraceOver;
    StepInv(s, e);
    ConservedMeansNoDead(s);
    ConservedMeansNoDead(Apply(s, e));
    match e
    case EvCreateInvite(name, workdir, ttl, code) => CreateInviteWork(s, name, workdir, ttl, code);
    case EvRegister(code, requested, profile, workdir, token) =>
      RegisterNoDead(s, code, requested, profile, workdir, token);
      RegisterWork(s, code, requested, profile, workdir, token);
    case EvResume(token, workdir, profile) => ResumeNoDead(s, token, workdir, profile);
    case EvRename(o, n) => RenameNoDead(s, o, n);
    case EvRevoke(m) => RevokeNoDead(s, m);
    case EvPollStart(token, p, v) => PollStartNoDead(s, token, p, v);
    case EvPollTimeout(p) => PollTimeoutNoDead(s, p);
    case EvPollResume(p) => PollResumeNoDead(s, p);
    case EvHeartbeat(token, j) => HeartbeatNoDead(s, token, j);
    case EvSubmit(token, j, report) => SubmitNoDead(s, token, j, report);
    case EvDispatch(m, timeout, aborted, j) => DispatchNoDead(s, m, timeout, aborted, j);
    case EvAbort(j) => AbortNoDead(s, j);
    case EvExpire(j) => ExpireNoDead(s, j);
    case EvGraceOver(j) => GraceOverNoDead(s, j);
    case EvTick(t) =>
  }

  lemma CreateInviteWork(s: State, name: Option<string>, workdir: Option<string>, ttl: int, code: InviteCode)
    ensures var s1 := CreateInvite(s, name, workdir, ttl, code).0;
        s1.work == s.work && s1.mem == s.mem && s1.polls == s.polls && s1.ids == s.ids
  {
    hide ValidName, ValidWorkdir, PruneInvites;
  }

  lemma GraceFrame(s: State, j: JobId)
    requires j in s.work.jobs
    ensures var s1 := GraceOver(s, j); s1.mem == s.mem && s1.polls == s.polls && s1.ids == s.ids
  {
  }

  lemma RegisterWork(
      s: State, code: InviteCode, requested: Option<string>, profile: Profile, workdir: Option<string>,
      token: Token)
    ensures var s1 := Register(s, code, requested, profile, workdir, token).0;
        s1.work == s.work && s1.polls == s.polls
  {
    hide RegisterError, PruneInvites, ChosenName, WantedName, WorkdirOf;
  }

  lemma ResumeNoDead(s: State, token: Token, workdir: Option<string>, profile: Profile)
    requires Inv(s) && NoDead(s.mem, s.work)
    ensures NoDead(Resume(s, token, workdir, profile).0.mem, Resume(s, token, workdir, profile).0.work)
  {
    hide Registry, PollsOk, JobsOk, QueuesOk, ShortQueues, FewPending, InvitesOk, NoDead, MarkSeen, ValidWorkdir;
    if Authenticate(s.ids, token) == None {
      MarkSeenNoDead(s.ids, s.mem, s.work, s.ids.tokens[token], s.now);
    }
  }

  lemma HeartbeatNoDead(s: State, token: Token, j: JobId)
    requires Inv(s) && NoDead(s.mem, s.work)
    ensures NoDead(Heartbeat(s, token, j).0.mem, Heartbeat(s, token, j).0.work)
  {
    hide Registry, PollsOk, JobsOk, QueuesOk, ShortQueues, FewPending, InvitesOk, NoDead, MarkSeen;
    if Authenticate(s.ids, token) == None {
      MarkSeenNoDead(s.ids, s.mem, s.work, s.ids.tokens[token], s.now);
    }
  }

  lemma AbortNoDead(s: State, j: JobId)
    requires Inv(s) && NoDead(s.mem, s.work) && j in s.work.jobs
    ensures NoDead(Abort(s, j).mem, Abort(s, j).work)
  {
    hide Registry, PollsOk, JobsOk, QueuesOk, ShortQueues, FewPending, InvitesOk, NoDead, Cancel;
    CancelNoDead(s.mem, s.work, j, ByAbort);
  }

  /** The exception can happen: whoever guesses the identifier of a freshly dispatched job
      is believed, and the queue keeps a dead entry. */
  lemma EarlyResultIsAccepted(s: State, name: string, j: JobId, report: Report)
    requires !report.Malformed? && Inv(s) && j !in s.work.jobs && Dispatch(s, name, None, false, j).1 == Dispatched
    ensures name in s.ids.table
    ensures var s1, token := Dispatch(s, name, None, false, j).0, s.ids.table[name].token;
            && EarlyResult(s1, EvSubmit(token, j, report)) && SubmitResult(s1, token, j, report).1 == Accepted
            && !Conserved(SubmitResult(s1, token, j, report).0)
  {
    hide Registry, PollsOk, JobsOk, QueuesOk, ShortQueues, FewPending, InvitesOk, ValidName, WakeWorker, Push,
      PendingOf, MarkSeen;
    RuntimeExists(s.ids, s.mem, name);
    var s1, token := Dispatch(s, name, None, false, j).0, s.ids.table[name].token;
    var s2 := SubmitResult(s1, token, j, report).0;
    DispatchInv(s, name, None, false, j);
    SubmitResultInv(s1, token, j, report);
    JobFacts(s1.ids, s1.mem, s1.work, j);
    MarkSeenOk(s1.cfg.maxPending, s1.ids, s1.mem, s1.polls, s1.work, name, s1.now);
    JobFacts(s2.ids, s2.mem, s1.work, j);
    DeadEntry(s2.mem, s2.work, name, j);
    hide NoDead;
    ConservedMeansNoDead(s2);
  }

  lemma InitiallyConserved(s: State)
    requires Initial(s)
    ensures Conserved(s)
  {
  }

  /** Over any run: every state so far is conserved, exactly if every result so far was for a
      job handed out. */
  lemma {:induction false} RunConserved(states: seq<State>, events: seq<Event>, i: nat)
    requires IsRun(states, events) && i < |states|
    ensures (forall k :: 0 <= k <= i ==> Conserved(states[k])) <==>
        (forall k :: 0 <= k < i ==> !EarlyResult(states[k], events[k]))
  {
    hide Inv, Initial, Enabled, Apply, Conserved, EarlyResult;
    if i == 0 {
      InitiallyConserved(states[0]);
    } else {
      RunConserved(states, events, i - 1);
      if forall k :: 0 <= k <= i - 1 ==> Conserved(states[k]) {
        RunInv(states, events, i - 1);
        assert Enabled(states[i - 1], events[i - 1]) && states[i] == Apply(states[i - 1], events[i - 1]);
        ConservationStep(states[i - 1], events[i - 1]);
      }
    }
  }

  /** In a conserved state the branch that skips dead queue entries never runs. */
  lemma NothingToSkip(s: State, name: string)
    requires Inv(s) && Conserved(s)
    ensures SkipDead(s.work, RuntimeOf(s.mem, name).queue) == RuntimeOf(s.mem, name).queue
  {
    hide Registry, PollsOk, JobsOk, QueuesOk, ShortQueues, FewPending, InvitesOk, SkipDead;
    var q := RuntimeOf(s.mem, name).queue;
    SkipNothing(s.work, q);
    if q != [] {
      assert q[0] in q;
      assert Waiting(s.work, q[0], name);
    }
  }

  lemma SkipNothing(w: Work, q: seq<JobId>)
    ensures q == [] || Live(w, q[0]) ==> SkipDead(w, q) == q
  {
  }

  // ---------------------------------------------------------------- delivery

  lemma TakenIsOwned(ids: Identities, m: Memory, w: Work, name: string, p: PollId, token: Token)
    requires Registry(ids, m) && JobsOk(ids, m, w) && QueuesOk(m, w) && name in m.runtime
    ensures var (m1, w1, taken) := TakeQueued(m, w, name, p, token);
            taken.Some? ==>
              && Waiting(w, taken.value, name) && name in ids.table
              && w.jobs[taken.value].owner == ids.table[name].token
              && w1 == Claim(w, taken.value, Delivery(p, token))
  {
    hide JobsOk, QueuesOk, TakeQueued, SkipDead, Registry;
    RuntimeExists(ids, m, name);
    var q := m.runtimes[m.runtime[name]].queue;
    TakeQueuedFrame(m, w, name, p, token);
    SkipDeadIsSuffix(w, q);
    if SkipDead(w, q) != [] {
      QueuedIsWaiting(ids, m, w, name, SkipDead(w, q)[0]);
    }
  }

  /** A poll that finds a job at once gets one dispatched to its own identity, never
      delivered before. */
  lemma ImmediateDelivery(s: State, token: Token, p: PollId, v: Version, j: JobId)
    requires Inv(s) && PollStart(s, token, p, v).1 == Delivered(j)
    ensures token in s.ids.tokens && Waiting(s.work, j, s.ids.tokens[token])
    ensures s.work.jobs[j].owner == token && s.work.jobs[j].deliveries == []
    ensures PollStart(s, token, p, v).0.work.jobs[j].deliveries == [Delivery(p, token)]
  {
    hide Registry, PollsOk, JobsOk, QueuesOk, ShortQueues, FewPending, InvitesOk, MarkSeen, TakeQueued, Park;
    var name := s.ids.tokens[token];
    var m0 := MarkSeen(s.mem, name, s.now);
    MarkSeenOk(s.cfg.maxPending, s.ids, s.mem, s.polls, s.work, name, s.now);
    TakenIsOwned(s.ids, m0, s.work, name, p, token);
    JobFacts(s.ids, m0, s.work, j);
    TokenOfName(s.ids, s.mem, token);
  }

  lemma TokenOfName(ids: Identities, m: Memory, token: Token)
    requires Registry(ids, m) && token in ids.tokens
    ensures ids.tokens[token] in ids.table && ids.table[ids.tokens[token]].token == token
  {
    hide ValidName, MapOk, Hosted;
  }

  /** A poll that parked and was woken delivers under the name it captured: the job is its
      own identity's exactly when that identity still goes by that name. */
  lemma ResumedDelivery(s: State, p: PollId, j: JobId)
    requires Inv(s) && p in s.polls.open && PollResume(s, p).1 == Delivered(j)
    ensures j in s.work.jobs && Waiting(s.work, j, s.polls.open[p].name)
    ensures var poll := s.polls.open[p];
            s.work.jobs[j].owner == poll.token <==>
                (poll.token in s.ids.tokens && s.ids.tokens[poll.token] == poll.name)
  {
    hide Registry, PollsOk, JobsOk, QueuesOk, ShortQueues, FewPending, InvitesOk, MarkSeen, TakeQueued;
    var poll := s.polls.open[p];
    var m0 := MarkSeen(s.mem, poll.name, s.now);
    MarkSeenOk(s.cfg.maxPending, s.ids, s.mem, s.polls, s.work, poll.name, s.now);
    TakenIsOwned(s.ids, m0, s.work, poll.name, p, poll.token);
    RuntimeExists(s.ids, s.mem, poll.name);
    if poll.token in s.ids.tokens {
      TokenOfName(s.ids, s.mem, poll.token);
    }
  }
}
