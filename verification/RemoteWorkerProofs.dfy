/** What every run of the remote-worker controller keeps. */
module RemoteWorkerProofs {
  import opened Collections
  import opened MachineNames
  import opened RemoteWorkerProfile
  import opened RemoteWorkerModel

  // -------------------------------------------------------------- invariants

  /** The table and the token map are inverse to each other. */
  ghost predicate IdsOk(ids: Identities) {
    && (forall n :: n in ids.table ==>
         ValidName(n) && ids.table[n].token in ids.tokens && ids.tokens[ids.table[n].token] == n)
    && (forall t :: t in ids.tokens ==>
         ids.tokens[t] in ids.table && ids.table[ids.tokens[t]].token == t && t in ids.used)
  }

  ghost predicate MapOk(m: Memory) {
    && (forall n :: n in m.runtime ==> m.runtime[n] in m.runtimes)
    && (forall n, k :: n in m.runtime && k in m.runtime && m.runtime[n] == m.runtime[k] ==> n == k)
    && (forall r :: r in m.runtimes ==> r < m.next)
  }

  /** Every machine has a runtime record; a name that is no machine leads at most to an
      empty one. */
  ghost predicate Hosted(ids: Identities, m: Memory) {
    && (forall n :: n in ids.table ==> n in m.runtime)
    && (forall n :: n in m.runtime && n !in ids.table && m.runtime[n] in m.runtimes ==>
         Vacant(m.runtimes[m.runtime[n]]))
  }

  ghost predicate Registry(ids: Identities, m: Memory) {
    IdsOk(ids) && MapOk(m) && Hosted(ids, m)
  }

  ghost predicate Vacant(r: Runtime) {
    r.queue == [] && r.waiters == []
  }

  /** Parked polls are exactly the waiters of the runtime record they parked on. */
  ghost predicate PollsOk(m: Memory, t: PollTable) {
    && (forall p :: p in t.open ==> p in t.used && t.open[p].runtime in m.runtimes)
    && (forall p :: p in t.open && t.open[p].wake == None ==> p in m.runtimes[t.open[p].runtime].waiters)
    && (forall r :: r in m.runtimes ==> NoDup(m.runtimes[r].waiters))
    && (forall r, p :: r in m.runtimes && p in m.runtimes[r].waiters ==>
         p in t.open && t.open[p].runtime == r && t.open[p].wake == None)
  }

  /** A pending job belongs to the machine that holds its identity, under the runtime
      record that machine has now. */
  ghost predicate PendingJob(ids: Identities, m: Memory, j: JobId, job: Job) {
    && job.machine in ids.table && ids.table[job.machine].token == job.owner
    && job.machine in m.runtime && m.runtime[job.machine] == job.runtime && job.runtime in m.runtimes
    && (job.settled <==> job.cancelled)
    && (job.cancelled ==> job.claimed)
    && (!job.claimed ==> j in m.runtimes[job.runtime].queue)
  }

  /** Flags agree with the history of the job. */
  ghost predicate Recorded(job: Job) {
    && |job.settlements| == (if job.settled then 1 else 0)
    && |job.deliveries| == (if job.claimed then 1 else 0)
    && (job.grace.Some? ==> job.settled && job.claimed)
    && (forall k :: 0 <= k < |job.settlements| && job.settlements[k].ByResult? ==>
         job.settlements[k].token == job.owner)
  }

  ghost predicate JobsOk(ids: Identities, m: Memory, w: Work) {
    && w.pending <= w.jobs.Keys
    && (forall j :: j in w.pending ==> PendingJob(ids, m, j, w.jobs[j]))
    && (forall j :: j in w.jobs ==> Recorded(w.jobs[j]))
    && (forall j :: j in w.jobs && j !in w.pending ==> w.jobs[j].settled)
  }

  /** A queue holds only unclaimed jobs dispatched to its machine, each once. */
  ghost predicate QueuesOk(m: Memory, w: Work) {
    && (forall r :: r in m.runtimes ==> NoDup(m.runtimes[r].queue))
    && (forall r, j :: r in m.runtimes && j in m.runtimes[r].queue ==>
         j in w.jobs && w.jobs[j].runtime == r && !w.jobs[j].claimed)
  }

  ghost predicate ShortQueues(max: nat, m: Memory) {
    forall n :: n in m.runtime && m.runtime[n] in m.runtimes ==> |m.runtimes[m.runtime[n]].queue| <= max
  }

  ghost predicate FewPending(max: nat, ids: Identities, w: Work) {
    forall n :: n in ids.table ==> |PendingOf(w, n)| <= max
  }

  ghost predicate InvitesOk(b: InviteBook) {
    && |b.invites| <= MAX_INVITES
    && b.invites.Keys <= b.issued
    && NoDup(b.redeemed)
    && (forall c :: c in b.redeemed ==> c in b.issued && c !in b.invites)
    && (forall c :: c in b.invites && b.invites[c].name.Some? ==> ValidName(b.invites[c].name.value))
  }

  ghost predicate Inv(s: State) {
    && Registry(s.ids, s.mem) && PollsOk(s.mem, s.polls) && JobsOk(s.ids, s.mem, s.work) && QueuesOk(s.mem, s.work)
    && ShortQueues(s.cfg.maxPending, s.mem) && FewPending(s.cfg.maxPending, s.ids, s.work) && InvitesOk(s.book)
  }

  lemma InitialInv(s: State)
    requires Initial(s)
    ensures Inv(s)
  {
    forall n | n in s.ids.table ensures |PendingOf(s.work, n)| <= s.cfg.maxPending {
      assert PendingOf(s.work, n) == {};
    }
  }

  // ------------------------------------------------------- pieces on their own

  lemma InvRegistry(s: State)
    requires Inv(s)
    ensures Registry(s.ids, s.mem)
  {
  }

  lemma RuntimeExists(ids: Identities, m: Memory, name: string)
    requires Registry(ids, m)
    ensures name in m.runtime ==> m.runtime[name] in m.runtimes
    ensures name in ids.table ==>
        name in m.runtime && ids.table[name].token in ids.tokens && ids.tokens[ids.table[name].token] == name
    ensures m.next !in m.runtimes
    ensures name in m.runtime ==> forall n :: n in m.runtime && m.runtime[n] == m.runtime[name] ==> n == name
  {
  }

  lemma JobFacts(ids: Identities, m: Memory, w: Work, j: JobId)
    requires JobsOk(ids, m, w) && j in w.jobs
    ensures Recorded(w.jobs[j])
    ensures j !in w.pending ==> w.jobs[j].settled
    ensures j in w.pending ==> PendingJob(ids, m, j, w.jobs[j])
  {
  }

  lemma QueueFacts(m: Memory, w: Work, r: RuntimeId)
    requires QueuesOk(m, w) && r in m.runtimes
    ensures NoDup(m.runtimes[r].queue)
    ensures forall j :: j in m.runtimes[r].queue ==> j in w.jobs && w.jobs[j].runtime == r && !w.jobs[j].claimed
  {
  }

  lemma OnlyOwnQueue(m: Memory, w: Work, j: JobId)
    requires QueuesOk(m, w) && j in w.jobs
    ensures forall r :: r in m.runtimes && r != w.jobs[j].runtime ==> j !in m.runtimes[r].queue
  {
  }

  lemma WaiterFacts(m: Memory, t: PollTable, r: RuntimeId)
    requires PollsOk(m, t) && r in m.runtimes
    ensures NoDup(m.runtimes[r].waiters)
    ensures forall p :: p in m.runtimes[r].waiters ==> p in t.open && t.open[p].runtime == r && t.open[p].wake == None
  {
  }

  lemma EmptyNoDup<T>()
    ensures NoDup<T>([])
  {
  }

  lemma SuffixNoDup<T>(q: seq<T>, k: nat)
    requires NoDup(q) && k <= |q|
    ensures NoDup(q[k..]) && (k < |q| ==> q[k] !in q[k + 1..])
  {
  }

  lemma AppendNoDup<T>(q: seq<T>, x: T)
    requires NoDup(q) && x !in q
    ensures NoDup(q + [x])
  {
  }

  // --------------------------------------------------------- memory on its own

  /** The same names lead to the same records, and no vacant record was filled. */
  ghost predicate SameMap(m: Memory, m1: Memory) {
    && m1.runtime == m.runtime && m1.next == m.next && m1.runtimes.Keys == m.runtimes.Keys
  }

  lemma RegistryKept(ids: Identities, m: Memory, m1: Memory)
    requires Registry(ids, m) && SameMap(m, m1)
    requires forall r :: r in m.runtimes && Vacant(m.runtimes[r]) ==> Vacant(m1.runtimes[r])
    ensures Registry(ids, m1)
  {
  }

  lemma RegistryAt(ids: Identities, m: Memory, m1: Memory, name: string)
    requires Registry(ids, m) && SameMap(m, m1) && name in ids.table && name in m.runtime
    requires forall r :: r in m.runtimes && r != m.runtime[name] ==> m1.runtimes[r] == m.runtimes[r]
    ensures Registry(ids, m1)
  {
  }

  lemma PollsKept(m: Memory, m1: Memory, t: PollTable)
    requires PollsOk(m, t) && m.runtimes.Keys <= m1.runtimes.Keys
    requires forall r :: r in m.runtimes ==> m1.runtimes[r].waiters == m.runtimes[r].waiters
    requires forall r :: r in m1.runtimes && r !in m.runtimes ==> m1.runtimes[r].waiters == []
    ensures PollsOk(m1, t)
  {
    hide NoDup;
    EmptyNoDup<PollId>();
  }

  lemma JobsKept(ids: Identities, m: Memory, m1: Memory, w: Work)
    requires JobsOk(ids, m, w) && m.runtimes.Keys <= m1.runtimes.Keys
    requires forall n :: n in m.runtime ==> n in m1.runtime && m1.runtime[n] == m.runtime[n]
    requires forall r :: r in m.runtimes ==> m1.runtimes[r].queue == m.runtimes[r].queue
    ensures JobsOk(ids, m1, w)
  {
    hide Recorded;
    forall j | j in w.pending ensures PendingJob(ids, m1, j, w.jobs[j]) {
      assert PendingJob(ids, m, j, w.jobs[j]);
    }
  }

  lemma QueuesKept(m: Memory, m1: Memory, w: Work)
    requires QueuesOk(m, w)
    requires forall r :: r in m1.runtimes ==>
        m1.runtimes[r].queue == [] || (r in m.runtimes && m1.runtimes[r].queue == m.runtimes[r].queue)
    ensures QueuesOk(m1, w)
  {
    hide NoDup;
    EmptyNoDup<JobId>();
  }

  lemma ShortKept(max: nat, m: Memory, m1: Memory)
    requires ShortQueues(max, m)
    requires forall n :: n in m1.runtime && m1.runtime[n] in m1.runtimes ==>
      m1.runtimes[m1.runtime[n]].queue == [] ||
      (n in m.runtime && m.runtime[n] in m.runtimes
          && |m1.runtimes[m1.runtime[n]].queue| <= |m.runtimes[m.runtime[n]].queue|)
    ensures ShortQueues(max, m1)
  {
  }

  lemma FewKept(max: nat, ids: Identities, w: Work, w1: Work)
    requires FewPending(max, ids, w)
    requires forall n :: n in ids.table ==> PendingOf(w1, n) <= PendingOf(w, n)
    ensures FewPending(max, ids, w1)
  {
    forall n | n in ids.table ensures |PendingOf(w1, n)| <= max {
      SubsetSize(PendingOf(w1, n), PendingOf(w, n));
    }
  }

  /** Memory as the job invariants see it: the same queues under the same names. */
  ghost predicate MemOk(max: nat, ids: Identities, m: Memory, t: PollTable, w: Work) {
    Registry(ids, m) && PollsOk(m, t) && JobsOk(ids, m, w) && QueuesOk(m, w) && ShortQueues(max, m)
  }

  lemma RuntimeForFrame(m: Memory, name: string)
    ensures var m1 := RuntimeFor(m, name);
            && name in m1.runtime && m.runtimes.Keys <= m1.runtimes.Keys
            && (name in m.runtime ==> m1 == m)
            && (m.next !in m.runtimes ==>
                  && (forall n :: n in m.runtime ==> n in m1.runtime && m1.runtime[n] == m.runtime[n])
                  && (forall r :: r in m.runtimes ==> m1.runtimes[r] == m.runtimes[r])
                  && (forall r :: r in m1.runtimes && r !in m.runtimes ==> Vacant(m1.runtimes[r]))
                  && (forall n :: n in m1.runtime && n !in m.runtime ==>
                       m1.runtime[n] == m.next && m.next in m1.runtimes))
  {
  }

  lemma RuntimeForRegistry(ids: Identities, m: Memory, name: string)
    requires Registry(ids, m)
    ensures Registry(ids, RuntimeFor(m, name))
  {
  }

  lemma RuntimeForOk(max: nat, ids: Identities, m: Memory, t: PollTable, w: Work, name: string)
    requires MemOk(max, ids, m, t, w)
    ensures MemOk(max, ids, RuntimeFor(m, name), t, w)
    ensures name in RuntimeFor(m, name).runtime && RuntimeFor(m, name).runtime[name] in RuntimeFor(m, name).runtimes
  {
    hide Registry, PollsOk, JobsOk, QueuesOk, ShortQueues, RuntimeFor;
    var m1 := RuntimeFor(m, name);
    RuntimeExists(ids, m, name);
    RuntimeForFrame(m, name);
    RuntimeForRegistry(ids, m, name);
    PollsKept(m, m1, t);
    JobsKept(ids, m, m1, w);
    QueuesKept(m, m1, w);
    ShortKept(max, m, m1);
  }

  lemma MarkSeenFrame(m: Memory, name: string, now: int)
    requires name in m.runtime && m.runtime[name] in m.runtimes
    ensures var m1 := MarkSeen(m, name, now);
            && SameMap(m, m1)
            && (forall r :: r in m.runtimes ==>
                 m1.runtimes[r].queue == m.runtimes[r].queue && m1.runtimes[r].waiters == m.runtimes[r].waiters)
  {
  }

  lemma MarkSeenOk(max: nat, ids: Identities, m: Memory, t: PollTable, w: Work, name: string, now: int)
    requires MemOk(max, ids, m, t, w)
    ensures MemOk(max, ids, MarkSeen(m, name, now), t, w)
    ensures name in MarkSeen(m, name, now).runtime
        && MarkSeen(m, name, now).runtime[name] in MarkSeen(m, name, now).runtimes
  {
    hide Registry, PollsOk, JobsOk, QueuesOk, ShortQueues, MarkSeen;
    var m0, m1 := RuntimeFor(m, name), MarkSeen(m, name, now);
    RuntimeForOk(max, ids, m, t, w, name);
    assert m1 == MarkSeen(m0, name, now) by { MarkSeenTwice(m, name, now); }
    MarkSeenFrame(m0, name, now);
    RegistryKept(ids, m0, m1);
    PollsKept(m0, m1, t);
    JobsKept(ids, m0, m1, w);
    QueuesKept(m0, m1, w);
    ShortKept(max, m0, m1);
  }

  lemma MarkSeenTwice(m: Memory, name: string, now: int)
    ensures MarkSeen(m, name, now) == MarkSeen(RuntimeFor(m, name), name, now)
  {
  }

  // --------------------------------------------------------- taking from a queue

  lemma {:induction false} SkipDeadIsSuffix(w: Work, q: seq<JobId>)
    ensures var r := SkipDead(w, q);
            && |r| <= |q| && r == q[|q| - |r|..]
            && (forall j :: j in q && Live(w, j) ==> j in r)
            && (forall j :: j in r ==> j in q)
            && (r != [] ==> Live(w, r[0]))
  {
    if q != [] && !Live(w, q[0]) {
      SkipDeadIsSuffix(w, q[1..]);
    }
  }

  /** What taking from a queue does: the queue loses the dead entries at its head, and the
      first live job, if any, changes hands. */
  lemma TakeQueuedFrame(m: Memory, w: Work, name: string, p: PollId, token: Token)
    requires name in m.runtime && m.runtime[name] in m.runtimes
    ensures
      var (m1, w1, taken) := TakeQueued(m, w, name, p, token);
      var r := m.runtime[name];
      var rest := SkipDead(w, m.runtimes[r].queue);
      && SameMap(m, m1)
      && (forall i :: i in m.runtimes && i != r ==> m1.runtimes[i] == m.runtimes[i])
      && m1.runtimes[r].waiters == m.runtimes[r].waiters
      && (rest == [] ==> taken == None && m1.runtimes[r].queue == [] && w1 == w)
      && (rest != [] ==>
           rest[0] in w.jobs && taken == Some(rest[0]) && m1.runtimes[r].queue == rest[1..]
           && w1 == Claim(w, rest[0], Delivery(p, token)))
  {
    SkipDeadIsSuffix(w, m.runtimes[m.runtime[name]].queue);
  }

  lemma TakeQueuedQueues(m: Memory, w: Work, name: string, p: PollId, token: Token)
    requires QueuesOk(m, w) && name in m.runtime && m.runtime[name] in m.runtimes
    ensures QueuesOk(TakeQueued(m, w, name, p, token).0, TakeQueued(m, w, name, p, token).1)
  {
    hide NoDup, TakeQueued;
    var q := m.runtimes[m.runtime[name]].queue;
    var rest := SkipDead(w, q);
    SkipDeadIsSuffix(w, q);
    TakeQueuedFrame(m, w, name, p, token);
    EmptyNoDup<JobId>();
    SuffixNoDup(q, |q| - |rest|);
    if rest != [] {
      SuffixNoDup(q, |q| - |rest| + 1);
      assert rest[1..] == q[|q| - |rest| + 1..];
    }
  }

  lemma TakeQueuedJobs(ids: Identities, m: Memory, w: Work, name: string, p: PollId, token: Token)
    requires JobsOk(ids, m, w) && QueuesOk(m, w) && name in m.runtime && m.runtime[name] in m.runtimes
    ensures JobsOk(ids, TakeQueued(m, w, name, p, token).0, TakeQueued(m, w, name, p, token).1)
  {
    hide NoDup, TakeQueued, QueuesOk, SkipDead, Recorded;
    var r := m.runtime[name];
    var q := m.runtimes[r].queue;
    var rest := SkipDead(w, q);
    SkipDeadIsSuffix(w, q);
    TakeQueuedFrame(m, w, name, p, token);
    QueueFacts(m, w, r);
    var (m1, w1, taken) := TakeQueued(m, w, name, p, token);
    forall j | j in w1.pending ensures PendingJob(ids, m1, j, w1.jobs[j]) {
      assert PendingJob(ids, m, j, w.jobs[j]);
      if !w1.jobs[j].claimed && w.jobs[j].runtime == r {
        assert j in q && Live(w, j);
        assert j in rest && rest == [rest[0]] + rest[1..];
      }
    }
    if rest != [] {
      assert rest[0] in q;
      ClaimRecord(w.jobs[rest[0]], Delivery(p, token));
    }
  }

  lemma ClaimRecord(job: Job, d: Delivery)
    requires Recorded(job) && !job.claimed
    ensures Recorded(job.(claimed := true, deliveries := job.deliveries + [d]))
  {
  }

  lemma ClaimFew(max: nat, ids: Identities, w: Work, j: JobId, d: Delivery)
    requires FewPending(max, ids, w) && j in w.jobs
    ensures FewPending(max, ids, Claim(w, j, d))
  {
    hide FewPending;
    forall n | n in ids.table ensures PendingOf(Claim(w, j, d), n) <= PendingOf(w, n) {}
    FewKept(max, ids, w, Claim(w, j, d));
  }

  lemma TakeQueuedOk(max: nat, ids: Identities, m: Memory, t: PollTable, w: Work, name: string, p: PollId, token: Token)
    requires MemOk(max, ids, m, t, w) && FewPending(max, ids, w) && name in m.runtime
    ensures var (m1, w1, taken) := TakeQueued(m, w, name, p, token);
            MemOk(max, ids, m1, t, w1) && FewPending(max, ids, w1) && name in m1.runtime
                && m1.runtime[name] in m1.runtimes
  {
    hide Registry, PollsOk, JobsOk, QueuesOk, ShortQueues, FewPending, TakeQueued, SkipDead;
    var (m1, w1, taken) := TakeQueued(m, w, name, p, token);
    RuntimeExists(ids, m, name);
    var q := m.runtimes[m.runtime[name]].queue;
    TakeQueuedFrame(m, w, name, p, token);
    SkipDeadIsSuffix(w, q);
    RegistryKept(ids, m, m1);
    PollsKept(m, m1, t);
    TakeQueuedJobs(ids, m, w, name, p, token);
    TakeQueuedQueues(m, w, name, p, token);
    ShortKept(max, m, m1);
    if SkipDead(w, q) != [] {
      ClaimFew(max, ids, w, SkipDead(w, q)[0], Delivery(p, token));
    }
  }

  // ------------------------------------------------------------ job records

  /** Records of the same job that differ only in timers and settlement. */
  ghost predicate SamePlace(a: Job, b: Job) {
    a.machine == b.machine && a.runtime == b.runtime && a.claimed == b.claimed && a.owner == b.owner
  }

  /** Work in which only the record of j, and possibly its being pending, has changed. */
  ghost predicate OnlyJob(w: Work, w1: Work, j: JobId) {
    && j in w.jobs && j in w1.jobs && w1.jobs == w.jobs[j := w1.jobs[j]] && SamePlace(w1.jobs[j], w.jobs[j])
    && w1.pending <= w.pending && w.pending <= w1.pending + {j}
    && (w.jobs[j].cancelled ==> w1.jobs[j].cancelled)
  }

  lemma OnlyJobJobs(ids: Identities, m: Memory, w: Work, w1: Work, j: JobId)
    requires JobsOk(ids, m, w) && j in w1.jobs && OnlyJob(w, w1, j) && Recorded(w1.jobs[j])
    requires j in w1.pending ==>
        (w1.jobs[j].settled <==> w1.jobs[j].cancelled) && (w1.jobs[j].cancelled ==> w1.jobs[j].claimed)
    requires j !in w1.pending ==> w1.jobs[j].settled
    ensures JobsOk(ids, m, w1)
  {
    hide Recorded;
    forall i | i in w1.pending ensures PendingJob(ids, m, i, w1.jobs[i]) {
      assert PendingJob(ids, m, i, w.jobs[i]);
    }
  }

  lemma OnlyJobQueues(m: Memory, w: Work, w1: Work, j: JobId)
    requires QueuesOk(m, w) && j in w1.jobs && OnlyJob(w, w1, j)
    ensures QueuesOk(m, w1)
  {
    hide NoDup;
  }

  lemma OnlyJobFew(max: nat, ids: Identities, w: Work, w1: Work, j: JobId)
    requires FewPending(max, ids, w) && j in w1.jobs && OnlyJob(w, w1, j)
    ensures FewPending(max, ids, w1)
  {
    hide FewPending;
    forall n | n in ids.table ensures PendingOf(w1, n) <= PendingOf(w, n) {}
    FewKept(max, ids, w, w1);
  }

  lemma OnlyJobOk(max: nat, ids: Identities, m: Memory, t: PollTable, w: Work, w1: Work, j: JobId)
    requires MemOk(max, ids, m, t, w) && FewPending(max, ids, w)
    requires j in w1.jobs && OnlyJob(w, w1, j) && Recorded(w1.jobs[j])
    requires j in w1.pending ==>
        (w1.jobs[j].settled <==> w1.jobs[j].cancelled) && (w1.jobs[j].cancelled ==> w1.jobs[j].claimed)
    requires j !in w1.pending ==> w1.jobs[j].settled
    ensures MemOk(max, ids, m, t, w1) && FewPending(max, ids, w1)
  {
    hide Registry, PollsOk, JobsOk, QueuesOk, ShortQueues, FewPending, Recorded, OnlyJob;
    OnlyJobJobs(ids, m, w, w1, j);
    OnlyJobQueues(m, w, w1, j);
    OnlyJobFew(max, ids, w, w1, j);
  }

  lemma UnqueueFrame(m: Memory, r: RuntimeId, j: JobId)
    ensures var m1 := Unqueue(m, r, j);
            && SameMap(m, m1)
            && (forall i :: i in m.runtimes ==> m1.runtimes[i].waiters == m.runtimes[i].waiters)
            && (forall i :: i in m.runtimes && i != r ==> m1.runtimes[i].queue == m.runtimes[i].queue)
            && (r in m.runtimes ==> m1.runtimes[r].queue == Without(m.runtimes[r].queue, j))
  {
  }

  /** A forgotten unclaimed job leaves its queue: no other job is touched. */
  lemma UnqueueJobs(ids: Identities, m: Memory, w: Work, j: JobId)
    requires JobsOk(ids, m, w) && j !in w.pending && j in w.jobs
    ensures JobsOk(ids, Unqueue(m, w.jobs[j].runtime, j), w)
  {
    hide Recorded, Unqueue, Without;
    var r := w.jobs[j].runtime;
    UnqueueFrame(m, r, j);
    forall i | i in w.pending ensures PendingJob(ids, Unqueue(m, r, j), i, w.jobs[i]) {
      assert PendingJob(ids, m, i, w.jobs[i]);
    }
  }

  lemma UnqueueQueues(m: Memory, w: Work, r: RuntimeId, j: JobId)
    requires QueuesOk(m, w)
    ensures QueuesOk(Unqueue(m, r, j), w)
  {
    hide NoDup, Unqueue, Without;
    UnqueueFrame(m, r, j);
    if r in m.runtimes {
      WithoutNoDup(m.runtimes[r].queue, j);
    }
  }

  lemma UnqueueOk(max: nat, ids: Identities, m: Memory, t: PollTable, w: Work, j: JobId)
    requires MemOk(max, ids, m, t, w) && j !in w.pending && j in w.jobs
    ensures MemOk(max, ids, Unqueue(m, w.jobs[j].runtime, j), t, w)
  {
    hide Registry, PollsOk, JobsOk, QueuesOk, ShortQueues, Unqueue, Without;
    var r := w.jobs[j].runtime;
    var m1 := Unqueue(m, r, j);
    UnqueueFrame(m, r, j);
    RegistryKept(ids, m, m1);
    PollsKept(m, m1, t);
    UnqueueJobs(ids, m, w, j);
    UnqueueQueues(m, w, r, j);
    ShortKept(max, m, m1);
  }

  lemma CancelOk(max: nat, ids: Identities, m: Memory, t: PollTable, w: Work, j: JobId, how: Settlement)
    requires MemOk(max, ids, m, t, w) && FewPending(max, ids, w) && j in w.jobs && !how.ByResult?
    ensures var (m1, w1) := Cancel(m, w, j, how);
            && MemOk(max, ids, m1, t, w1) && FewPending(max, ids, w1)
            && j in w1.jobs && w1.jobs[j].settled && w1.jobs[j].claimed == w.jobs[j].claimed
  {
    hide MemOk, FewPending, Unqueue;
    var (m1, w1) := Cancel(m, w, j, how);
    JobRecorded(max, ids, m, t, w, j);
    if !w.jobs[j].settled {
      OnlyJobOk(max, ids, m, t, w, w1, j);
      if !w.jobs[j].claimed {
        UnqueueOk(max, ids, m, t, w1, j);
      }
    }
  }

  lemma JobRecorded(max: nat, ids: Identities, m: Memory, t: PollTable, w: Work, j: JobId)
    requires MemOk(max, ids, m, t, w) && j in w.jobs
    ensures Recorded(w.jobs[j])
    ensures j !in w.pending ==> w.jobs[j].settled
    ensures j in w.pending ==> PendingJob(ids, m, j, w.jobs[j])
  {
    hide Registry, PollsOk, JobsOk, QueuesOk, ShortQueues, Recorded;
    JobFacts(ids, m, w, j);
  }

  lemma AbortInv(s: State, j: JobId)
    requires Inv(s) && j in s.work.jobs
    ensures Inv(Abort(s, j))
  {
    hide Registry, PollsOk, JobsOk, QueuesOk, ShortQueues, FewPending, InvitesOk, Cancel;
    CancelOk(s.cfg.maxPending, s.ids, s.mem, s.polls, s.work, j, ByAbort);
  }

  lemma ExpireInv(s: State, j: JobId)
    requires Inv(s) && j in s.work.jobs
    ensures Inv(Expire(s, j))
  {
    hide Registry, PollsOk, JobsOk, QueuesOk, ShortQueues, FewPending, InvitesOk, Cancel;
    var max := s.cfg.maxPending;
    var w0 := SetJob(s.work, j, s.work.jobs[j].(armed := false));
    JobRecorded(max, s.ids, s.mem, s.polls, s.work, j);
    OnlyJobOk(max, s.ids, s.mem, s.polls, s.work, w0, j);
    CancelOk(max, s.ids, s.mem, s.polls, w0, j, ByTimeout);
    var (m1, w1) := Cancel(s.mem, w0, j, ByTimeout);
    JobRecorded(max, s.ids, m1, s.polls, w1, j);
    if w1.jobs[j].claimed {
      var w2 := SetJob(w1, j, w1.jobs[j].(grace := Some(s.now + Grace(s.cfg))));
      OnlyJobOk(max, s.ids, m1, s.polls, w1, w2, j);
    }
  }

  lemma GraceOverInv(s: State, j: JobId)
    requires Inv(s) && j in s.work.jobs && s.work.jobs[j].grace.Some?
    ensures Inv(GraceOver(s, j))
  {
    hide Registry, PollsOk, JobsOk, QueuesOk, ShortQueues, FewPending, InvitesOk;
    var max := s.cfg.maxPending;
    JobRecorded(max, s.ids, s.mem, s.polls, s.work, j);
    OnlyJobOk(max, s.ids, s.mem, s.polls, s.work, GraceOver(s, j).work, j);
  }

  /** The identity that passes the machine check is the one the job was dispatched to. */
  lemma PendingOwner(ids: Identities, m: Memory, token: Token, j: JobId, job: Job)
    requires Registry(ids, m) && token in ids.tokens && PendingJob(ids, m, j, job) && job.machine == ids.tokens[token]
    ensures job.owner == token
  {
  }

  lemma SubmitResultInv(s: State, token: Token, j: JobId, report: Report)
    requires Inv(s)
    ensures Inv(SubmitResult(s, token, j, report).0)
  {
    hide Registry, PollsOk, JobsOk, QueuesOk, ShortQueues, FewPending, InvitesOk, MarkSeen;
    var max := s.cfg.maxPending;
    if Authenticate(s.ids, token) == None {
      var name := s.ids.tokens[token];
      MarkSeenOk(max, s.ids, s.mem, s.polls, s.work, name, s.now);
      if JobOf(s.work, j, name) {
        var m1 := MarkSeen(s.mem, name, s.now);
        JobRecorded(max, s.ids, m1, s.polls, s.work, j);
        PendingOwner(s.ids, m1, token, j, s.work.jobs[j]);
        OnlyJobOk(max, s.ids, m1, s.polls, s.work, SubmitResult(s, token, j, report).0.work, j);
      }
    }
  }

  // --------------------------------------------------------------- dispatch

  lemma PushFrame(m: Memory, name: string, j: JobId)
    requires name in m.runtime && m.runtime[name] in m.runtimes
    ensures var m1 := Push(m, name, j);
            && SameMap(m, m1)
            && (forall r :: r in m.runtimes && r != m.runtime[name] ==> m1.runtimes[r] == m.runtimes[r])
            && m1.runtimes[m.runtime[name]].waiters == m.runtimes[m.runtime[name]].waiters
            && m1.runtimes[m.runtime[name]].queue == m.runtimes[m.runtime[name]].queue + [j]
  {
  }

  lemma AddJobJobs(ids: Identities, m: Memory, w: Work, name: string, j: JobId, job: Job)
    requires JobsOk(ids, m, w) && j !in w.jobs && name in m.runtime && m.runtime[name] in m.runtimes
    requires name in ids.table && job == NewJob(name, m.runtime[name], job.due, ids.table[name].token)
    ensures JobsOk(ids, Push(m, name, j), AddJob(w, j, job))
  {
    hide Push;
    PushFrame(m, name, j);
    var w1 := AddJob(w, j, job);
    forall i | i in w1.pending ensures PendingJob(ids, Push(m, name, j), i, w1.jobs[i]) {
      if i != j { assert PendingJob(ids, m, i, w.jobs[i]); }
    }
  }

  lemma AddJobQueues(m: Memory, w: Work, name: string, j: JobId, job: Job)
    requires QueuesOk(m, w) && j !in w.jobs && name in m.runtime && m.runtime[name] in m.runtimes
    requires job.runtime == m.runtime[name] && !job.claimed
    ensures QueuesOk(Push(m, name, j), AddJob(w, j, job))
  {
    hide NoDup, Push;
    PushFrame(m, name, j);
    QueueFacts(m, w, m.runtime[name]);
    AppendNoDup(m.runtimes[m.runtime[name]].queue, j);
  }

  lemma AddJobShort(max: nat, m: Memory, name: string, j: JobId)
    requires ShortQueues(max, m) && name in m.runtime && m.runtime[name] in m.runtimes
    requires forall n :: n in m.runtime && m.runtime[n] == m.runtime[name] ==> n == name
    requires |RuntimeOf(m, name).queue| < max
    ensures ShortQueues(max, Push(m, name, j))
  {
    hide Push;
    PushFrame(m, name, j);
  }

  lemma AddJobCounts(w: Work, j: JobId, job: Job, name: string)
    requires j !in w.jobs && !job.cancelled && w.pending <= w.jobs.Keys
    ensures PendingOf(AddJob(w, j, job), name) ==
        if job.machine == name then PendingOf(w, name) + {j} else PendingOf(w, name)
  {
  }

  lemma AddJobFew(max: nat, ids: Identities, w: Work, j: JobId, job: Job)
    requires FewPending(max, ids, w) && j !in w.jobs && |PendingOf(w, job.machine)| < max
    requires !job.cancelled && w.pending <= w.jobs.Keys
    ensures FewPending(max, ids, AddJob(w, j, job))
  {
    hide PendingOf, AddJob;
    forall n | n in ids.table ensures |PendingOf(AddJob(w, j, job), n)| <= max {
      AddJobCounts(w, j, job, n);
    }
  }

  lemma PendingHaveRecords(ids: Identities, m: Memory, w: Work)
    requires JobsOk(ids, m, w)
    ensures w.pending <= w.jobs.Keys
  {
  }

  lemma AddJobOk(max: nat, ids: Identities, m: Memory, t: PollTable, w: Work, name: string, j: JobId, job: Job)
    requires MemOk(max, ids, m, t, w) && FewPending(max, ids, w) && j !in w.jobs && name in m.runtime
    requires name in ids.table && job == NewJob(name, m.runtime[name], job.due, ids.table[name].token)
    requires |RuntimeOf(m, name).queue| < max && |PendingOf(w, name)| < max
    ensures MemOk(max, ids, Push(m, name, j), t, AddJob(w, j, job)) && FewPending(max, ids, AddJob(w, j, job))
    ensures name in Push(m, name, j).runtime
  {
    hide Registry, PollsOk, JobsOk, QueuesOk, ShortQueues, FewPending, Push, AddJob, PendingOf;
    var m1 := Push(m, name, j);
    RuntimeExists(ids, m, name);
    PushFrame(m, name, j);
    RegistryAt(ids, m, m1, name);
    PollsKept(m, m1, t);
    AddJobJobs(ids, m, w, name, j, job);
    AddJobQueues(m, w, name, j, job);
    AddJobShort(max, m, name, j);
    PendingHaveRecords(ids, m, w);
    AddJobFew(max, ids, w, j, job);
  }

  /** Polls survive a step in which one parked poll leaves its list of waiters. */
  lemma PollLeaves(m: Memory, m1: Memory, t: PollTable, r: RuntimeId, p: PollId, wake: Wake)
    requires PollsOk(m, t) && m1.runtimes.Keys == m.runtimes.Keys
    requires p in t.open && t.open[p].runtime == r && r in m.runtimes
    requires forall i :: i in m.runtimes && i != r ==> m1.runtimes[i].waiters == m.runtimes[i].waiters
    requires NoDup(m1.runtimes[r].waiters) && p !in m1.runtimes[r].waiters
    requires forall q :: q != p ==> (q in m1.runtimes[r].waiters <==> q in m.runtimes[r].waiters)
    ensures PollsOk(m1, Resolve(t, p, wake))
  {
    hide NoDup;
  }

  /** Memory that differs only in one record's waiters. */
  ghost predicate OnlyWaiters(m: Memory, m1: Memory, r: RuntimeId) {
    && SameMap(m, m1)
    && (forall i :: i in m.runtimes ==> m1.runtimes[i].queue == m.runtimes[i].queue)
    && (forall i :: i in m.runtimes && i != r ==> m1.runtimes[i] == m.runtimes[i])
  }

  lemma OnlyWaitersOk(
      max: nat, ids: Identities, m: Memory, m1: Memory, t: PollTable, t1: PollTable, w: Work, r: RuntimeId)
    requires MemOk(max, ids, m, t, w) && OnlyWaiters(m, m1, r)
    requires PollsOk(m1, t1) && Registry(ids, m1)
    ensures MemOk(max, ids, m1, t1, w)
  {
    hide Registry, PollsOk, JobsOk, QueuesOk, ShortQueues;
    JobsKept(ids, m, m1, w);
    QueuesKept(m, m1, w);
    ShortKept(max, m, m1);
  }

  lemma WakeOk(max: nat, ids: Identities, m: Memory, t: PollTable, w: Work, name: string)
    requires MemOk(max, ids, m, t, w) && name in m.runtime
    ensures var (m1, t1) := WakeWorker(m, t, name); MemOk(max, ids, m1, t1, w)
  {
    hide Registry, PollsOk, JobsOk, QueuesOk, ShortQueues, NoDup;
    var (m1, t1) := WakeWorker(m, t, name);
    RuntimeExists(ids, m, name);
    var r := m.runtime[name];
    WaiterFacts(m, t, r);
    var waiters := m.runtimes[r].waiters;
    if waiters != [] {
      SuffixNoDup(waiters, 0);
      SuffixNoDup(waiters, 1);
      assert waiters == [waiters[0]] + waiters[1..];
      PollLeaves(m, m1, t, r, waiters[0], JobReady);
      RegistryKept(ids, m, m1);
      OnlyWaitersOk(max, ids, m, m1, t, t1, w, r);
    }
  }

  lemma DispatchInv(s: State, name: string, timeout: Option<int>, aborted: bool, j: JobId)
    requires Inv(s) && j !in s.work.jobs
    ensures Inv(Dispatch(s, name, timeout, aborted, j).0)
  {
    hide Registry, PollsOk, JobsOk, QueuesOk, ShortQueues, FewPending, InvitesOk, Push, WakeWorker, Cancel,
      RuntimeFor, PendingOf, AddJob, ValidName;
    var max := s.cfg.maxPending;
    if ValidName(name) && name in s.ids.table {
      RuntimeForOk(max, s.ids, s.mem, s.polls, s.work, name);
      var mem := RuntimeFor(s.mem, name);
      if Dispatch(s, name, timeout, aborted, j).1 == Dispatched {
        var ms := if timeout.Some? then timeout.value else s.cfg.defaultTimeout;
        var job := NewJob(name, mem.runtime[name], s.now + ms, s.ids.table[name].token);
        AddJobOk(max, s.ids, mem, s.polls, s.work, name, j, job);
        var w1 := AddJob(s.work, j, job);
        WakeOk(max, s.ids, Push(mem, name, j), s.polls, w1, name);
        var (m2, t2) := WakeWorker(Push(mem, name, j), s.polls, name);
        CancelOk(max, s.ids, m2, t2, w1, j, ByAbort);
      }
    }
  }

  // ------------------------------------------------------------------ polls

  lemma ParkFrame(m: Memory, t: PollTable, name: string, token: Token, p: PollId)
    requires name in m.runtime && m.runtime[name] in m.runtimes
    ensures var (m1, t1) := Park(m, t, name, token, p);
            && OnlyWaiters(m, m1, m.runtime[name])
            && m1.runtimes[m.runtime[name]].waiters == m.runtimes[m.runtime[name]].waiters + [p]
            && t1 == t.(open := t.open[p := Poll(name, token, m.runtime[name], None)])
  {
  }

  lemma ParkPolls(m: Memory, t: PollTable, name: string, token: Token, p: PollId)
    requires PollsOk(m, t) && name in m.runtime && m.runtime[name] in m.runtimes && p in t.used && p !in t.open
    ensures PollsOk(Park(m, t, name, token, p).0, Park(m, t, name, token, p).1)
  {
    hide NoDup, Park;
    ParkFrame(m, t, name, token, p);
    AppendNoDup(m.runtimes[m.runtime[name]].waiters, p);
  }

  lemma ParkOk(max: nat, ids: Identities, m: Memory, t: PollTable, w: Work, name: string, token: Token, p: PollId)
    requires MemOk(max, ids, m, t, w) && name in ids.table && name in m.runtime && p in t.used && p !in t.open
    ensures var (m1, t1) := Park(m, t, name, token, p); MemOk(max, ids, m1, t1, w)
  {
    hide Registry, PollsOk, JobsOk, QueuesOk, ShortQueues, Park;
    var (m1, t1) := Park(m, t, name, token, p);
    RuntimeExists(ids, m, name);
    ParkFrame(m, t, name, token, p);
    ParkPolls(m, t, name, token, p);
    RegistryAt(ids, m, m1, name);
    OnlyWaitersOk(max, ids, m, m1, t, t1, w, m.runtime[name]);
  }

  lemma UsedPolls(m: Memory, t: PollTable, p: PollId)
    requires PollsOk(m, t) && p !in t.used
    ensures p !in t.open && PollsOk(m, t.(used := t.used + {p}))
  {
    hide NoDup;
  }

  lemma PollStartInv(s: State, token: Token, p: PollId, v: Version)
    requires Inv(s) && p !in s.polls.used
    ensures Inv(PollStart(s, token, p, v).0)
  {
    hide Registry, PollsOk, JobsOk, QueuesOk, ShortQueues, FewPending, InvitesOk, MarkSeen, TakeQueued, Park;
    var max := s.cfg.maxPending;
    if Authenticate(s.ids, token) == None {
      var name := s.ids.tokens[token];
      var m0 := MarkSeen(s.mem, name, s.now);
      MarkSeenOk(max, s.ids, s.mem, s.polls, s.work, name, s.now);
      UsedPolls(m0, s.polls, p);
      var t := s.polls.(used := s.polls.used + {p});
      TakeQueuedOk(max, s.ids, m0, t, s.work, name, p, token);
      var (m1, w1, taken) := TakeQueued(m0, s.work, name, p, token);
      if taken == None {
        ParkOk(max, s.ids, m1, t, w1, name, token, p);
      }
    }
  }

  lemma PollKnown(m: Memory, t: PollTable, p: PollId)
    requires PollsOk(m, t) && p in t.open
    ensures p in t.used && t.open[p].runtime in m.runtimes
  {
  }

  lemma PollTimeoutInv(s: State, p: PollId)
    requires Inv(s) && p in s.polls.open
    ensures Inv(PollTimeout(s, p))
  {
    hide Registry, PollsOk, JobsOk, QueuesOk, ShortQueues, FewPending, InvitesOk, NoDup, Without;
    var s1 := PollTimeout(s, p);
    PollKnown(s.mem, s.polls, p);
    var r := s.polls.open[p].runtime;
    WaiterFacts(s.mem, s.polls, r);
    WithoutNoDup(s.mem.runtimes[r].waiters, p);
    PollLeaves(s.mem, s1.mem, s.polls, r, p, TimedOut);
    RegistryKept(s.ids, s.mem, s1.mem);
    OnlyWaitersOk(s.cfg.maxPending, s.ids, s.mem, s1.mem, s.polls, s1.polls, s.work, r);
  }

  lemma DropPoll(m: Memory, t: PollTable, p: PollId)
    requires PollsOk(m, t) && p in t.open && t.open[p].wake != None
    ensures PollsOk(m, t.(open := t.open - {p}))
  {
    hide NoDup;
  }

  lemma PollResumeInv(s: State, p: PollId)
    requires Inv(s) && p in s.polls.open && s.polls.open[p].wake != None
    ensures Inv(PollResume(s, p).0)
  {
    hide Registry, PollsOk, JobsOk, QueuesOk, ShortQueues, FewPending, InvitesOk, MarkSeen, TakeQueued;
    var max, poll := s.cfg.maxPending, s.polls.open[p];
    MarkSeenOk(max, s.ids, s.mem, s.polls, s.work, poll.name, s.now);
    var m0 := MarkSeen(s.mem, poll.name, s.now);
    DropPoll(m0, s.polls, p);
    TakeQueuedOk(max, s.ids, m0, s.polls.(open := s.polls.open - {p}), s.work, poll.name, p, poll.token);
  }

  lemma HeartbeatInv(s: State, token: Token, j: JobId)
    requires Inv(s)
    ensures Inv(Heartbeat(s, token, j).0)
  {
    hide Registry, PollsOk, JobsOk, QueuesOk, ShortQueues, FewPending, InvitesOk, MarkSeen;
    if Authenticate(s.ids, token) == None {
      MarkSeenOk(s.cfg.maxPending, s.ids, s.mem, s.polls, s.work, s.ids.tokens[token], s.now);
    }
  }

  // ------------------------------------------------- machines and their names

  lemma RecordRegistry(ids: Identities, m: Memory, name: string, worker: Worker)
    requires Registry(ids, m) && name in ids.table && worker.token == ids.table[name].token
    ensures Registry(ids.(table := ids.table[name := worker]), m)
  {
    hide ValidName, MapOk;
  }

  lemma RecordJobs(ids: Identities, m: Memory, w: Work, name: string, worker: Worker)
    requires JobsOk(ids, m, w) && name in ids.table && worker.token == ids.table[name].token
    ensures JobsOk(ids.(table := ids.table[name := worker]), m, w)
  {
    hide Recorded;
    var ids1 := ids.(table := ids.table[name := worker]);
    forall j | j in w.pending ensures PendingJob(ids1, m, j, w.jobs[j]) {
      assert PendingJob(ids, m, j, w.jobs[j]);
    }
  }

  lemma SameNamesFew(max: nat, ids: Identities, ids1: Identities, w: Work)
    requires FewPending(max, ids, w) && ids1.table.Keys <= ids.table.Keys
    ensures FewPending(max, ids1, w)
  {
    forall n | n in ids1.table ensures |PendingOf(w, n)| <= max {
      assert n in ids.table.Keys;
    }
  }

  lemma ResumeInv(s: State, token: Token, workdir: Option<string>, profile: Profile)
    requires Inv(s)
    ensures Inv(Resume(s, token, workdir, profile).0)
  {
    hide Registry, PollsOk, JobsOk, QueuesOk, ShortQueues, FewPending, InvitesOk, MarkSeen, ValidCapabilities,
      ValidInfo, CapabilitiesOf, ResumedWorker, ValidWorkdir;
    var max := s.cfg.maxPending;
    if Authenticate(s.ids, token) == None && ValidCapabilities(profile.capabilities) {
      var name := s.ids.tokens[token];
      var worker := ResumedWorker(s.ids.table[name], workdir, profile);
      MarkSeenOk(max, s.ids, s.mem, s.polls, s.work, name, s.now);
      RecordRegistry(s.ids, MarkSeen(s.mem, name, s.now), name, worker);
      RecordJobs(s.ids, MarkSeen(s.mem, name, s.now), s.work, name, worker);
      SameNamesFew(max, s.ids, s.ids.(table := s.ids.table[name := worker]), s.work);
    }
  }

  /** No job is pending under a name that is not registered. */
  lemma NoPendingElsewhere(ids: Identities, m: Memory, w: Work, name: string)
    requires JobsOk(ids, m, w) && name !in ids.table
    ensures forall j :: j in w.pending ==> j in w.jobs && w.jobs[j].machine != name
  {
    forall j | j in w.pending ensures j in w.jobs && w.jobs[j].machine != name {
      assert PendingJob(ids, m, j, w.jobs[j]);
    }
  }

  lemma RenameIds(ids: Identities, oldName: string, newName: string)
    requires IdsOk(ids) && oldName in ids.table && newName !in ids.table && ValidName(newName)
    ensures IdsOk(RenameMachine(ids, oldName, newName))
  {
    hide ValidName;
  }

  lemma RenameMap(m: Memory, oldName: string, newName: string)
    requires MapOk(m) && oldName in m.runtime
    ensures MapOk(MoveRuntime(m, oldName, newName))
  {
    var m1 := MoveRuntime(m, oldName, newName);
    forall n, k | n in m1.runtime && k in m1.runtime && m1.runtime[n] == m1.runtime[k] ensures n == k {
      var n0 := if n == newName then oldName else n;
      var k0 := if k == newName then oldName else k;
      assert n0 in m.runtime && k0 in m.runtime && m.runtime[n0] == m.runtime[k0];
    }
  }

  lemma RenameRegistry(ids: Identities, m: Memory, oldName: string, newName: string)
    requires Registry(ids, m) && oldName in ids.table && newName !in ids.table && ValidName(newName)
    requires oldName in m.runtime
    ensures Registry(RenameMachine(ids, oldName, newName), MoveRuntime(m, oldName, newName))
  {
    hide IdsOk, MapOk;
    RenameIds(ids, oldName, newName);
    RenameMap(m, oldName, newName);
  }

  lemma RenameJobsOk(ids: Identities, m: Memory, w: Work, oldName: string, newName: string)
    requires Registry(ids, m) && JobsOk(ids, m, w) && oldName in ids.table && newName !in ids.table
    requires oldName in m.runtime
    ensures JobsOk(RenameMachine(ids, oldName, newName), MoveRuntime(m, oldName, newName),
        RenameJobs(w, oldName, newName))
  {
    hide Recorded, Registry;
    var ids1, m1, w1 := RenameMachine(ids, oldName, newName), MoveRuntime(m, oldName, newName),
        RenameJobs(w, oldName, newName);
    forall j | j in w1.pending ensures PendingJob(ids1, m1, j, w1.jobs[j]) {
      assert PendingJob(ids, m, j, w.jobs[j]);
    }
    forall j | j in w1.jobs ensures Recorded(w1.jobs[j]) {
      SameRecord(w.jobs[j], w1.jobs[j]);
    }
  }

  lemma SameRecord(a: Job, b: Job)
    requires b == a.(machine := b.machine) && Recorded(a)
    ensures Recorded(b)
  {
  }

  lemma RenameQueues(m: Memory, w: Work, oldName: string, newName: string)
    requires QueuesOk(m, w) && oldName in m.runtime
    ensures QueuesOk(MoveRuntime(m, oldName, newName), RenameJobs(w, oldName, newName))
  {
    hide NoDup;
  }

  lemma RenameShort(max: nat, m: Memory, oldName: string, newName: string)
    requires ShortQueues(max, m) && oldName in m.runtime
    ensures ShortQueues(max, MoveRuntime(m, oldName, newName))
  {
    var m1 := MoveRuntime(m, oldName, newName);
    forall n | n in m1.runtime && m1.runtime[n] in m1.runtimes ensures |m1.runtimes[m1.runtime[n]].queue| <= max {
      var n0 := if n == newName then oldName else n;
      assert n0 in m.runtime;
    }
  }

  lemma RenameFew(max: nat, ids: Identities, w: Work, oldName: string, newName: string)
    requires FewPending(max, ids, w) && oldName in ids.table && newName !in ids.table
    requires forall j :: j in w.pending ==> j in w.jobs && w.jobs[j].machine != newName
    ensures FewPending(max, RenameMachine(ids, oldName, newName), RenameJobs(w, oldName, newName))
  {
    var ids1, w1 := RenameMachine(ids, oldName, newName), RenameJobs(w, oldName, newName);
    forall n | n in ids1.table ensures |PendingOf(w1, n)| <= max {
      if n == newName {
        assert PendingOf(w1, n) == PendingOf(w, oldName);
      } else {
        assert n in ids.table && PendingOf(w1, n) == PendingOf(w, n);
      }
    }
  }

  lemma RenameInv(s: State, oldName: string, newName: string)
    requires Inv(s)
    ensures Inv(Rename(s, oldName, newName).0)
  {
    hide Registry, PollsOk, JobsOk, QueuesOk, ShortQueues, FewPending, InvitesOk, ValidName, RuntimeFor,
      RenameMachine, RenameJobs;
    var max, s1 := s.cfg.maxPending, Rename(s, oldName, newName).0;
    if s1 != s {
      RuntimeForOk(max, s.ids, s.mem, s.polls, s.work, oldName);
      var m := RuntimeFor(s.mem, oldName);
      RenameRegistry(s.ids, m, oldName, newName);
      PollsKept(m, s1.mem, s.polls);
      RenameJobsOk(s.ids, m, s.work, oldName, newName);
      RenameQueues(m, s.work, oldName, newName);
      RenameShort(max, m, oldName, newName);
      NoPendingElsewhere(s.ids, m, s.work, newName);
      RenameFew(max, s.ids, s.work, oldName, newName);
    }
  }

  lemma DropRuntimeFrame(m: Memory, name: string)
    requires name in m.runtime && m.runtime[name] in m.runtimes
    ensures var m1 := DropRuntime(m, name);
            && m1.runtime == m.runtime - {name} && m1.runtimes.Keys == m.runtimes.Keys && m1.next == m.next
            && (forall r :: r in m.runtimes && r != m.runtime[name] ==> m1.runtimes[r] == m.runtimes[r])
            && m1.runtimes[m.runtime[name]].waiters == []
            && m1.runtimes[m.runtime[name]].queue == m.runtimes[m.runtime[name]].queue
  {
  }

  lemma RevokeRegistry(ids: Identities, m: Memory, name: string)
    requires Registry(ids, m) && name in ids.table
    ensures Registry(RemoveMachine(ids, name), DropRuntime(m, name))
  {
    hide IdsOk, ValidName, DropRuntime;
    RevokeIds(ids, name);
    DropRuntimeFrame(m, name);
  }

  lemma RevokeIds(ids: Identities, name: string)
    requires IdsOk(ids) && name in ids.table
    ensures IdsOk(RemoveMachine(ids, name))
  {
    hide ValidName;
  }

  lemma RevokePollsOk(m: Memory, t: PollTable, name: string)
    requires PollsOk(m, t) && name in m.runtime && m.runtime[name] in m.runtimes
    ensures PollsOk(DropRuntime(m, name), RevokePolls(t, RuntimeOf(m, name).waiters))
  {
    hide NoDup, DropRuntime;
    DropRuntimeFrame(m, name);
    EmptyNoDup<PollId>();
  }

  lemma RevokeJobsOk(ids: Identities, m: Memory, w: Work, name: string)
    requires JobsOk(ids, m, w) && name in ids.table && name in m.runtime && m.runtime[name] in m.runtimes
    requires forall n :: n in ids.table && n != name ==> ids.table[n].token != ids.table[name].token
    ensures JobsOk(RemoveMachine(ids, name), DropRuntime(m, name), RevokeJobs(w, name))
  {
    hide DropRuntime;
    DropRuntimeFrame(m, name);
    var ids1, m1, w1 := RemoveMachine(ids, name), DropRuntime(m, name), RevokeJobs(w, name);
    forall j | j in w1.pending ensures PendingJob(ids1, m1, j, w1.jobs[j]) {
      assert PendingJob(ids, m, j, w.jobs[j]);
    }
    forall j | j in w1.jobs ensures Recorded(w1.jobs[j]) {
      assert Recorded(w.jobs[j]);
    }
  }

  lemma RevokeQueues(m: Memory, w: Work, name: string)
    requires QueuesOk(m, w) && name in m.runtime && m.runtime[name] in m.runtimes
    ensures QueuesOk(DropRuntime(m, name), RevokeJobs(w, name))
  {
    hide NoDup, DropRuntime;
    DropRuntimeFrame(m, name);
  }

  lemma RevokeFew(max: nat, ids: Identities, w: Work, name: string)
    requires FewPending(max, ids, w) && name in ids.table
    ensures FewPending(max, RemoveMachine(ids, name), RevokeJobs(w, name))
  {
    hide FewPending;
    var ids1, w1 := RemoveMachine(ids, name), RevokeJobs(w, name);
    SameNamesFew(max, ids, ids1, w);
    forall n | n in ids1.table ensures PendingOf(w1, n) <= PendingOf(w, n) {}
    FewKept(max, ids1, w, w1);
  }

  lemma DistinctTokens(ids: Identities, m: Memory, name: string)
    requires Registry(ids, m) && name in ids.table
    ensures forall n :: n in ids.table && n != name ==> ids.table[n].token != ids.table[name].token
  {
    hide ValidName;
  }

  lemma RevokeInv(s: State, name: string)
    requires Inv(s)
    ensures Inv(Revoke(s, name).0)
  {
    hide Registry, PollsOk, JobsOk, QueuesOk, ShortQueues, FewPending, InvitesOk, ValidName, DropRuntime,
      RemoveMachine, RevokeJobs, RevokePolls;
    var max, s1 := s.cfg.maxPending, Revoke(s, name).0;
    if s1 != s {
      RuntimeExists(s.ids, s.mem, name);
      DistinctTokens(s.ids, s.mem, name);
      DropRuntimeFrame(s.mem, name);
      RevokeRegistry(s.ids, s.mem, name);
      RevokePollsOk(s.mem, s.polls, name);
      RevokeJobsOk(s.ids, s.mem, s.work, name);
      RevokeQueues(s.mem, s.work, name);
      ShortKept(max, s.mem, s1.mem);
      RevokeFew(max, s.ids, s.work, name);
    }
  }

  // ---------------------------------------------------------------- enrolment

  lemma {:induction false} SubmapSize<K, V>(a: map<K, V>, b: map<K, V>)
    requires a.Keys <= b.Keys
    ensures |a| <= |b|
  {
    SubsetSize(a.Keys, b.Keys);
  }

  lemma PruneInvitesOk(b: InviteBook, now: int)
    requires InvitesOk(b)
    ensures InvitesOk(PruneInvites(b, now))
  {
    hide NoDup, ValidName;
    SubmapSize(PruneInvites(b, now).invites, b.invites);
  }

  lemma AddInviteOk(b: InviteBook, code: InviteCode, invite: Invite)
    requires InvitesOk(b) && |b.invites| < MAX_INVITES && code !in b.issued
    requires invite.name.Some? ==> ValidName(invite.name.value)
    ensures InvitesOk(AddInvite(b, code, invite))
  {
    hide NoDup, ValidName;
    var b1 := AddInvite(b, code, invite);
    assert b1.invites.Keys == b.invites.Keys + {code};
    assert |b1.invites| == |b1.invites.Keys|;
  }

  lemma RedeemOk(b: InviteBook, code: InviteCode)
    requires InvitesOk(b) && code in b.invites
    ensures InvitesOk(Redeem(b, code))
  {
    hide ValidName;
    AppendNoDup(b.redeemed, code);
    hide NoDup;
    SubmapSize(Redeem(b, code).invites, b.invites);
  }

  lemma CreateInviteInv(s: State, name: Option<string>, workdir: Option<string>, ttl: int, code: InviteCode)
    requires Inv(s) && code !in s.book.issued
    ensures Inv(CreateInvite(s, name, workdir, ttl, code).0)
  {
    hide Registry, PollsOk, JobsOk, QueuesOk, ShortQueues, FewPending, InvitesOk, ValidName, PruneInvites, AddInvite;
    PruneInvitesOk(s.book, s.now);
    PruneIssued(s.book, s.now);
    if CreateInvite(s, name, workdir, ttl, code).1 == Invited {
      AddInviteOk(PruneInvites(s.book, s.now), code, Invite(name, workdir, s.now + ttl * 1000));
    }
  }

  lemma PruneIssued(b: InviteBook, now: int)
    ensures PruneInvites(b, now).issued == b.issued
  {
  }

  lemma ChosenNameIsNew(ids: Identities, wanted: string)
    requires ValidName(wanted) && |ids.table| <= MAX_TABLE
    ensures ChosenName(ids.table, wanted) !in ids.table && ValidName(ChosenName(ids.table, wanted))
  {
    hide ValidName, Candidate;
    if wanted in ids.table {
      SearchIsShort(ids.table.Keys, wanted);
      CandidateIsValid(wanted, NextFree(ids.table.Keys, wanted, 2));
    }
  }

  lemma WantedIsValid(b: InviteBook, code: InviteCode, requested: Option<string>, profile: Profile)
    requires InvitesOk(b) && code in b.invites && (requested.Some? ==> ValidName(requested.value))
    ensures ValidName(WantedName(b.invites[code], requested, profile))
  {
    hide ValidName, DefaultName, NoDup;
    DefaultNameIsValid(InfoText(profile.info, "user"), InfoText(profile.info, "hostname"));
  }

  lemma AddMachineIds(ids: Identities, name: string, worker: Worker)
    requires IdsOk(ids) && name !in ids.table && worker.token !in ids.used && ValidName(name)
    ensures IdsOk(AddMachine(ids, name, worker))
  {
    hide ValidName;
  }

  lemma NewRuntimeMap(m: Memory, name: string, now: int)
    requires MapOk(m)
    ensures MapOk(NewRuntime(m, name, now))
    ensures m.next !in m.runtimes && forall n :: n in m.runtime ==> m.runtime[n] != m.next
  {
  }

  lemma EnrolRegistry(ids: Identities, m: Memory, name: string, worker: Worker, now: int)
    requires Registry(ids, m) && name !in ids.table && worker.token !in ids.used && ValidName(name)
    ensures Registry(AddMachine(ids, name, worker), NewRuntime(m, name, now))
  {
    hide IdsOk, MapOk;
    AddMachineIds(ids, name, worker);
    NewRuntimeMap(m, name, now);
  }

  lemma EnrolJobs(ids: Identities, m: Memory, w: Work, name: string, worker: Worker, now: int)
    requires JobsOk(ids, m, w) && name !in ids.table && m.next !in m.runtimes
    ensures JobsOk(AddMachine(ids, name, worker), NewRuntime(m, name, now), w)
  {
    hide Recorded;
    forall j | j in w.pending ensures PendingJob(AddMachine(ids, name, worker), NewRuntime(m, name, now), j,
        w.jobs[j]) {
      assert PendingJob(ids, m, j, w.jobs[j]);
    }
  }

  lemma EnrolFew(max: nat, ids: Identities, w: Work, name: string, worker: Worker)
    requires FewPending(max, ids, w)
    requires forall j :: j in w.pending ==> j in w.jobs && w.jobs[j].machine != name
    ensures FewPending(max, AddMachine(ids, name, worker), w)
  {
    assert PendingOf(w, name) == {};
    hide PendingOf;
  }

  lemma RegisterInv(
      s: State, code: InviteCode, requested: Option<string>, profile: Profile, workdir: Option<string>,
      token: Token)
    requires Inv(s) && token !in s.ids.used && |s.ids.table| <= MAX_TABLE
    ensures Inv(Register(s, code, requested, profile, workdir, token).0)
  {
    hide Registry, PollsOk, JobsOk, QueuesOk, ShortQueues, FewPending, InvitesOk, ValidName, PruneInvites, Redeem,
      AddMachine, ChosenName, WantedName, ValidWorkdir;
    var max := s.cfg.maxPending;
    var b := PruneInvites(s.book, s.now);
    PruneInvitesOk(s.book, s.now);
    if Register(s, code, requested, profile, workdir, token).1.Joined? {
      var wanted := WantedName(b.invites[code], GivenName(requested), profile);
      var name := ChosenName(s.ids.table, wanted);
      var worker := NewWorker(token, b.invites[code], profile, workdir);
      WantedIsValid(b, code, GivenName(requested), profile);
      ChosenNameIsNew(s.ids, wanted);
      RedeemOk(b, code);
      var m1 := NewRuntime(s.mem, name, s.now);
      RuntimeExists(s.ids, s.mem, name);
      EnrolRegistry(s.ids, s.mem, name, worker, s.now);
      PollsKept(s.mem, m1, s.polls);
      EnrolJobs(s.ids, s.mem, s.work, name, worker, s.now);
      QueuesKept(s.mem, m1, s.work);
      EnrolShort(max, s.mem, name, s.now);
      NoPendingElsewhere(s.ids, s.mem, s.work, name);
      EnrolFew(max, s.ids, s.work, name, worker);
    }
  }

  lemma EnrolShort(max: nat, m: Memory, name: string, now: int)
    requires ShortQueues(max, m) && m.next !in m.runtimes
    ensures ShortQueues(max, NewRuntime(m, name, now))
  {
  }

  // -------------------------------------------------------------------- runs

  /** Every step keeps every invariant. */
  lemma StepInv(s: State, e: Event)
    requires Inv(s) && Enabled(s, e)
    ensures Inv(Apply(s, e))
  {
    hide Inv, CreateInvite, Register, Resume, Rename, Revoke, PollStart, PollTimeout, PollResume, Heartbeat,
      SubmitResult, Dispatch, Abort, Expire, GraceOver;
    match e
    case EvCreateInvite(name, workdir, ttl, code) => CreateInviteInv(s, name, workdir, ttl, code);
    case EvRegister(code, requested, profile, workdir, token) =>
      RegisterInv(s, code, requested, profile, workdir, token);
    case EvResume(token, workdir, profile) => ResumeInv(s, token, workdir, profile);
    case EvRename(o, n) => RenameInv(s, o, n);
    case EvRevoke(m) => RevokeInv(s, m);
    case EvPollStart(token, p, v) => PollStartInv(s, token, p, v);
    case EvPollTimeout(p) => PollTimeoutInv(s, p);
    case EvPollResume(p) => PollResumeInv(s, p);
    case EvHeartbeat(token, j) => HeartbeatInv(s, token, j);
    case EvSubmit(token, j, report) => SubmitResultInv(s, token, j, report);
    case EvDispatch(m, timeout, aborted, j) => DispatchInv(s, m, timeout, aborted, j);
    case EvAbort(j) => AbortInv(s, j);
    case EvExpire(j) => ExpireInv(s, j);
    case EvGraceOver(j) => GraceOverInv(s, j);
    case EvTick(t) => TickInv(s, t);
  }

  lemma TickInv(s: State, t: int)
    requires Inv(s)
    ensures Inv(s.(now := t))
  {
    hide Registry, PollsOk, JobsOk, QueuesOk, ShortQueues, FewPending, InvitesOk;
  }

  /** Every state of every run satisfies every invariant. */
  lemma {:induction false} RunInv(states: seq<State>, events: seq<Event>, i: nat)
    requires IsRun(states, events) && i < |states|
    ensures Inv(states[i])
  {
    hide Inv, Initial, Enabled, Apply;
    if i == 0 {
      InitialInv(states[0]);
    } else {
      RunInv(states, events, i - 1);
      assert Enabled(states[i - 1], events[i - 1]) && states[i] == Apply(states[i - 1], events[i - 1]);
      StepInv(states[i - 1], events[i - 1]);
    }
  }
}
