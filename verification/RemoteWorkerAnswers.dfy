/** What a heartbeat tells a machine: which of its jobs have been given up, for as long as they are
    on record. */
module RemoteWorkerAnswers {
  import opened Collections
  import opened MachineNames
  import opened RemoteWorkerModel
  import opened RemoteWorkerProofs
  import opened RemoteWorkerProperties

  /** The caller of this job gave up: by aborting, or because its time ran out. */
  predicate GivenUp(job: Job) {
    job.settlements == [ByAbort] || job.settlements == [ByTimeout]
  }

  /** A job that is pending although its caller was settled: the caller gave up. */
  ghost predicate ClosingsOk(w: Work) {
    forall j :: j in w.pending && j in w.jobs && w.jobs[j].settlements != [] ==> GivenUp(w.jobs[j])
  }

  // -------------------------------------------------------------- how jobs close

  /** Pending jobs were pending before, closed as before, unless in but. */
  ghost predicate SameClosings(w: Work, w1: Work) {
    forall j :: j in w1.pending && j in w1.jobs ==>
      if j in w.pending && j in w.jobs
      then w1.jobs[j].settlements == w.jobs[j].settlements || (w.jobs[j].settlements == [] && GivenUp(w1.jobs[j]))
      else w1.jobs[j].settlements == []
  }

  lemma ClosingsKept(w: Work, w1: Work)
    requires ClosingsOk(w) && SameClosings(w, w1)
    ensures ClosingsOk(w1)
  {
  }

  lemma CancelClosings(w0: Work, m: Memory, w: Work, j: JobId, how: Settlement)
    requires j in w.jobs && SameClosings(w0, w) && (how == ByAbort || how == ByTimeout)
    requires !w.jobs[j].settled ==> w.jobs[j].settlements == []
    requires if j in w0.pending && j in w0.jobs then w0.jobs[j].settlements == w.jobs[j].settlements
             else !w.jobs[j].claimed || j !in w.pending
    ensures SameClosings(w0, Cancel(m, w, j, how).1) && j in Cancel(m, w, j, how).1.jobs
  {
    hide Unqueue;
    var none: seq<Settlement> := [];
    assert none + [how] == [how];
  }

  lemma NothingClosed(w: Work)
    ensures SameClosings(w, w)
  {
  }

  lemma DispatchClosings(s: State, name: string, timeout: Option<int>, aborted: bool, j: JobId)
    requires j !in s.work.jobs
    ensures SameClosings(s.work, Dispatch(s, name, timeout, aborted, j).0.work)
  {
    hide ValidName, Cancel, WakeWorker, Push, RuntimeFor, PendingOf;
    if Dispatch(s, name, timeout, aborted, j).1 == Dispatched {
      var mem := RuntimeFor(s.mem, name);
      var ms := if timeout.Some? then timeout.value else s.cfg.defaultTimeout;
      var w1 := AddJob(s.work, j, NewJob(name, mem.runtime[name], s.now + ms, s.ids.table[name].token));
      CancelClosings(s.work, WakeWorker(Push(mem, name, j), s.polls, name).0, w1, j, ByAbort);
    }
  }

  lemma ExpireClosings(s: State, j: JobId)
    requires Inv(s) && j in s.work.jobs
    ensures SameClosings(s.work, Expire(s, j).work)
  {
    hide Registry, PollsOk, QueuesOk, ShortQueues, FewPending, InvitesOk, Cancel;
    JobFacts(s.ids, s.mem, s.work, j);
    CancelClosings(s.work, s.mem, SetJob(s.work, j, s.work.jobs[j].(armed := false)), j, ByTimeout);
  }

  lemma AbortClosings(s: State, j: JobId)
    requires Inv(s) && j in s.work.jobs
    ensures SameClosings(s.work, Abort(s, j).work)
  {
    hide Registry, PollsOk, QueuesOk, ShortQueues, FewPending, InvitesOk, Cancel;
    JobFacts(s.ids, s.mem, s.work, j);
    NothingClosed(s.work);
    CancelClosings(s.work, s.mem, s.work, j, ByAbort);
  }

  lemma MoveClosings(w: Work, name: string, newName: string)
    ensures SameClosings(w, RenameJobs(w, name, newName)) && SameClosings(w, RevokeJobs(w, name))
  {
  }

  lemma TakeClosings(m: Memory, w: Work, name: string, p: PollId, token: Token)
    ensures SameClosings(w, TakeQueued(m, w, name, p, token).1)
  {
  }

  lemma SubmitClosings(s: State, token: Token, j: JobId, report: Report)
    ensures SameClosings(s.work, SubmitResult(s, token, j, report).0.work)
  {
    hide MarkSeen;
  }

  lemma GraceClosings(s: State, j: JobId)
    requires j in s.work.jobs
    ensures SameClosings(s.work, GraceOver(s, j).work)
  {
  }

  lemma StepClosings(s: State, e: Event)
    requires Inv(s) && ClosingsOk(s.work) && Enabled(s, e)
    ensures ClosingsOk(Apply(s, e).work)
  {
    hide Inv, ClosingsOk, SameClosings, TakeQueued, MarkSeen, Cancel, ValidName, Dispatch, Abort, Expire, GraceOver,
      SubmitResult, PruneInvites, ChosenName, RenameJobs, RevokeJobs;
    NothingClosed(s.work);
    match e
    case EvRename(o, n) => MoveClosings(s.work, o, n); ClosingsKept(s.work, Apply(s, e).work);
    case EvRevoke(m) => MoveClosings(s.work, m, ""); ClosingsKept(s.work, Apply(s, e).work);
    case EvPollStart(token, p, v) =>
      if Authenticate(s.ids, token) == None {
        TakeClosings(MarkSeen(s.mem, s.ids.tokens[token], s.now), s.work, s.ids.tokens[token], p, token);
      }
      ClosingsKept(s.work, Apply(s, e).work);
    case EvPollResume(p) =>
      var poll := s.polls.open[p];
      TakeClosings(MarkSeen(s.mem, poll.name, s.now), s.work, poll.name, p, poll.token);
      ClosingsKept(s.work, Apply(s, e).work);
    case EvSubmit(token, j, report) => SubmitClosings(s, token, j, report); ClosingsKept(s.work, Apply(s, e).work);
    case EvDispatch(m, timeout, aborted, j) =>
      DispatchClosings(s, m, timeout, aborted, j);
      ClosingsKept(s.work, Apply(s, e).work);
    case EvAbort(j) => AbortClosings(s, j); ClosingsKept(s.work, Apply(s, e).work);
    case EvExpire(j) => ExpireClosings(s, j); ClosingsKept(s.work, Apply(s, e).work);
    case EvGraceOver(j) => GraceClosings(s, j); ClosingsKept(s.work, Apply(s, e).work);
    case _ =>
  }

  lemma {:induction false} RunClosings(states: seq<State>, events: seq<Event>, i: nat)
    requires IsRun(states, events) && i < |states|
    ensures ClosingsOk(states[i].work)
  {
    hide Inv, ClosingsOk, Initial, Enabled, Apply;
    if i == 0 {
      NothingPending(states[0]);
    } else {
      RunClosings(states, events, i - 1);
      RunInv(states, events, i - 1);
      assert Enabled(states[i - 1], events[i - 1]) && states[i] == Apply(states[i - 1], events[i - 1]);
      StepClosings(states[i - 1], events[i - 1]);
    }
  }

  lemma NothingPending(s: State)
    requires Initial(s)
    ensures ClosingsOk(s.work)
  {
  }

  // ----------------------------------------------------------------- heartbeats

  /** The jobs a machine is to stop working on: its own, still on record, given up. */
  predicate ToStop(w: Work, token: Token, j: JobId) {
    j in w.pending && j in w.jobs && w.jobs[j].owner == token && GivenUp(w.jobs[j])
  }

  /** A heartbeat of a known identity is answered, with the cancellation of exactly the jobs that
      it is to stop. */
  lemma HeartbeatTells(s: State, token: Token, j: JobId)
    requires Inv(s) && ClosingsOk(s.work) && Authenticate(s.ids, token) == None
    ensures Heartbeat(s, token, j).1 == Beat(ToStop(s.work, token, j))
    ensures Heartbeat(s, token, j).0.work == s.work && Heartbeat(s, token, j).0.ids == s.ids
  {
    hide PollsOk, QueuesOk, ShortQueues, FewPending, InvitesOk, MarkSeen, JobsOk;
    TokenOfName(s.ids, s.mem, token);
    hide Registry;
    if j in s.work.pending && j in s.work.jobs {
      JobFacts(s.ids, s.mem, s.work, j);
      NameOfOwner(s.ids, s.mem, s.work, j);
    }
  }

  /** The owner of a pending job goes by the job's machine name. */
  lemma NameOfOwner(ids: Identities, m: Memory, w: Work, j: JobId)
    requires Registry(ids, m) && JobsOk(ids, m, w) && j in w.pending && j in w.jobs
    ensures w.jobs[j].owner in ids.tokens && ids.tokens[w.jobs[j].owner] == w.jobs[j].machine
    ensures Authenticate(ids, w.jobs[j].owner) == None
  {
    JobFacts(ids, m, w, j);
    hide ValidName, MapOk, Hosted;
  }

  /** In every run: once the caller of a job on record has given up, every heartbeat of the job's
      owner is told so, until the record goes; and no heartbeat of another identity is. */
  lemma ToldUntilItGoes(states: seq<State>, events: seq<Event>, i: nat, k: nat, j: JobId, token: Token)
    requires IsRun(states, events) && i <= k < |states|
    requires j in states[i].work.jobs && GivenUp(states[i].work.jobs[j]) && j in states[k].work.pending
    requires token in states[k].ids.tokens
    ensures Heartbeat(states[k], token, j).1 == Beat(token == states[i].work.jobs[j].owner)
    ensures Authenticate(states[k].ids, states[i].work.jobs[j].owner) == None
  {
    hide Initial, Enabled, Apply, IsRun, Heartbeat, Registry, PollsOk, JobsOk, QueuesOk, ShortQueues, FewPending,
      InvitesOk;
    SettledOnceByOwner(states, events, i, k, j);
    RunInv(states, events, k);
    RunClosings(states, events, k);
    NameOfOwner(states[k].ids, states[k].mem, states[k].work, j);
    KnownToken(states[k].ids, states[k].mem, token);
    HeartbeatTells(states[k], token, j);
  }

  lemma KnownToken(ids: Identities, m: Memory, token: Token)
    requires Registry(ids, m) && token in ids.tokens
    ensures Authenticate(ids, token) == None
  {
    hide ValidName, MapOk, Hosted;
  }
}
