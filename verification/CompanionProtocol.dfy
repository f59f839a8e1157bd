/** Sending a queued message through the companions: any number of them, over a network that
    may lose, repeat and delay requests and replies, with crashes and lease expiry. Nothing is
    ever removed from the network, so every old request may be served again and every old
    reply delivered late. */
module CompanionProtocol {
  import opened Collections
  import opened BridgeQueueModel
  import opened BridgeQueueProofs

  type CompanionId = nat
  type RequestNo = nat

  datatype Request =
    | PollRequest(client: string, host: Option<string>)
    | BeginRequest(client: string, id: MsgId, host: Option<string>)
    | AckRequest(client: string, id: MsgId, host: Option<string>, sent: bool, error: Option<string>)

  datatype Reply =
    | PollReply(no: RequestNo, message: Option<Message>)
    | BeginReply(no: RequestNo, id: MsgId)
    | AckReply(no: RequestNo)
    | Refusal(no: RequestNo)

  /** Where the pump of one companion is. */
  datatype Phase =
    | Idle
    | AwaitPoll(no: RequestNo)
    | AwaitBegin(no: RequestNo, id: MsgId, text: Text)
    | Submitting(id: MsgId)
    | AwaitAck(no: RequestNo)
    | Dead

  datatype Companion = Companion(client: string, host: Option<string>, phase: Phase)

  datatype Net = Net(requests: map<RequestNo, Request>, replies: set<Reply>, nextNo: nat)

  /** One submission of a text to the conversation. */
  datatype Submission = Submission(id: MsgId, text: Text)

  /** What was enqueued, which request began each message, and what was submitted. */
  datatype History = History(
    texts: map<MsgId, Text>, begun: map<MsgId, RequestNo>, spent: set<RequestNo>, submitted: seq<Submission>)

  datatype System = System(queue: World, net: Net, comps: map<CompanionId, Companion>, hist: History)

  datatype Event =
    | Enqueued(id: MsgId, text: Text, source: Source, target: Option<string>)
    | Join(comp: CompanionId, client: string, host: Option<string>)
    | AskPoll(comp: CompanionId)
    | Serve(no: RequestNo)
    | Deliver(comp: CompanionId, reply: Reply)
    | HostAnswered(comp: CompanionId, sent: bool, error: Option<string>)
    | TimedOut(comp: CompanionId)
    | Crash(comp: CompanionId)
    | LookAt

  predicate Plain(id: MsgId) { RequireNonEmpty(id, MAX_ID_CHARS) == Ok(id) }

  predicate Awaits(c: Companion, no: RequestNo) {
    match c.phase
    case AwaitPoll(n) => n == no
    case AwaitBegin(n, _, _) => n == no
    case AwaitAck(n) => n == no
    case _ => false
  }

  predicate Enabled(s: System, e: Event) {
    match e
    case Enqueued(id, _, _, _) => id !in s.queue.at && id !in s.hist.texts && Plain(id)
    case Join(comp, _, _) => comp !in s.comps
    case AskPoll(comp) => comp in s.comps && s.comps[comp].phase.Idle?
    case Serve(no) => no in s.net.requests
    case Deliver(comp, reply) => comp in s.comps && reply in s.net.replies && Awaits(s.comps[comp], reply.no)
    case HostAnswered(comp, _, _) => comp in s.comps && s.comps[comp].phase.Submitting?
    case TimedOut(comp) =>
      comp in s.comps && (s.comps[comp].phase.AwaitPoll? || s.comps[comp].phase.AwaitBegin?
          || s.comps[comp].phase.AwaitAck?)
    case Crash(comp) => comp in s.comps
    case LookAt => true
  }

  function Send(net: Net, r: Request): Net {
    net.(requests := net.requests[net.nextNo := r], nextNo := net.nextNo + 1)
  }

  function At(c: Companion, phase: Phase): Companion { c.(phase := phase) }

  /** The bridge serves one request, however often it arrives. */
  function Served(q: World, no: RequestNo, r: Request, now: int): (World, Reply) {
    match r
    case PollRequest(client, host) =>
      var (ms, reply) := Poll(q.ms, client, host, now);
      (q.(ms := ms), if reply.Ok? then PollReply(no, reply.value) else Refusal(no))
    case BeginRequest(client, id, host) =>
      var (ms, reply) := BeginSend(q.ms, client, id, host, now);
      (q.(ms := ms), if reply.Ok? then BeginReply(no, id) else Refusal(no))
    case AckRequest(client, id, host, sent, error) =>
      var (ms, reply) := Ack(q.ms, client, id, host, sent, error, now);
      (q.(ms := ms), if reply.Ok? then AckReply(no) else Refusal(no))
  }

  function ServeStep(s: System, no: RequestNo, now: int): System
    requires no in s.net.requests
  {
    var (q, reply) := Served(s.queue, no, s.net.requests[no], now);
    s.(queue := q, net := s.net.(replies := s.net.replies + {reply}),
       hist := if reply.BeginReply? then s.hist.(begun := s.hist.begun[reply.id := no]) else s.hist)
  }

  /** A companion acts on the reply it waits for. */
  function DeliverStep(s: System, comp: CompanionId, reply: Reply): System
    requires comp in s.comps
  {
    var c := s.comps[comp];
    if c.phase.AwaitPoll? && reply.PollReply? && reply.message.Some? then
      var m := reply.message.value;
      s.(net := Send(s.net, BeginRequest(c.client, m.id, c.host)),
         comps := s.comps[comp := At(c, AwaitBegin(s.net.nextNo, m.id, m.text))])
    else if c.phase.AwaitBegin? && reply.BeginReply? then
      s.(comps := s.comps[comp := At(c, Submitting(c.phase.id))],
         hist := s.hist.(spent := s.hist.spent + {c.phase.no},
             submitted := s.hist.submitted + [Submission(c.phase.id, c.phase.text)]))
    else s.(comps := s.comps[comp := At(c, Idle)])
  }

  function Step(s: System, e: Event, now: int): System
    requires Enabled(s, e)
  {
    match e
    case Enqueued(id, text, source, target) =>
      var reply := Enqueue(s.queue.ms, id, text, source, target, now).1;
      s.(queue := Next(s.queue, DoEnqueue(id, text, source, target), now),
         hist := if reply.Ok? then s.hist.(texts := s.hist.texts[id := reply.value.text]) else s.hist)
    case Join(comp, client, host) => s.(comps := s.comps[comp := Companion(client, host, Idle)])
    case AskPoll(comp) =>
      var c := s.comps[comp];
      s.(net := Send(s.net, PollRequest(c.client, c.host)), comps := s.comps[comp := At(c, AwaitPoll(s.net.nextNo))])
    case Serve(no) => ServeStep(s, no, now)
    case Deliver(comp, reply) => DeliverStep(s, comp, reply)
    case HostAnswered(comp, sent, error) =>
      var c := s.comps[comp];
      s.(net := Send(s.net, AckRequest(c.client, c.phase.id, c.host, sent, error)),
          comps := s.comps[comp := At(c, AwaitAck(s.net.nextNo))])
    case TimedOut(comp) => s.(comps := s.comps[comp := At(s.comps[comp], Idle)])
    case Crash(comp) => s.(comps := s.comps[comp := At(s.comps[comp], Dead)])
    case LookAt => s.(queue := Next(s.queue, DoStatus, now))
  }

  // --------------------------------------------------------------- invariant

  ghost predicate NetOk(net: Net) {
    && (forall n :: n in net.requests ==> n < net.nextNo)
    && (forall r :: r in net.replies ==> r.no < net.nextNo)
  }

  ghost predicate WaitsOk(net: Net, comps: map<CompanionId, Companion>) {
    && (forall c, n: nat :: c in comps && Awaits(comps[c], n) ==> n < net.nextNo)
    && (forall c, d, n: nat :: c in comps && d in comps && Awaits(comps[c], n) && Awaits(comps[d], n) ==> c == d)
    && (forall c :: c in comps && comps[c].phase.AwaitBegin? ==>
          var p := comps[c].phase;
          p.no in net.requests && net.requests[p.no].BeginRequest? && net.requests[p.no].id == p.id)
  }

  /** A begin was granted to one request only. */
  ghost predicate GrantsOk(net: Net, hist: History) {
    forall r :: r in net.replies && r.BeginReply? ==>
      && r.no in net.requests && net.requests[r.no].BeginRequest? && net.requests[r.no].id == r.id
      && r.id in hist.begun && hist.begun[r.id] == r.no
  }

  predicate Unbegun(m: Message) { m.status.Pending? || m.status.Claimed? }

  /** A begun message is never pending or claimed again. */
  ghost predicate QueueOk(q: World, hist: History) {
    && WorldInv(q)
    && hist.texts.Keys == q.at.Keys && hist.begun.Keys <= q.at.Keys
    && (forall id :: id in q.at ==> Plain(id))
    && (forall m :: m in q.ms && m.id in hist.begun ==> !Unbegun(m))
    && (forall m :: m in q.ms ==> m.id in hist.texts && m.text == hist.texts[m.id])
  }

  ghost predicate SubmissionsOk(net: Net, comps: map<CompanionId, Companion>, hist: History) {
    && (forall i, j :: 0 <= i < j < |hist.submitted| ==> hist.submitted[i].id != hist.submitted[j].id)
    && (forall x :: x in hist.submitted ==>
         x.id in hist.begun && hist.begun[x.id] in hist.spent && x.id in hist.texts && x.text == hist.texts[x.id])
    && (forall n :: n in hist.spent ==> n < net.nextNo)
    && (forall c :: c in comps && comps[c].phase.AwaitBegin? ==> comps[c].phase.no !in hist.spent)
  }

  ghost predicate TextsOk(net: Net, comps: map<CompanionId, Companion>, hist: History) {
    && (forall r :: r in net.replies && r.PollReply? && r.message.Some? ==>
          r.message.value.id in hist.texts && r.message.value.text == hist.texts[r.message.value.id])
    && (forall c :: c in comps && comps[c].phase.AwaitBegin? ==>
          comps[c].phase.id in hist.texts && comps[c].phase.text == hist.texts[comps[c].phase.id])
    && (forall n :: n in net.requests && net.requests[n].BeginRequest? ==> net.requests[n].id in hist.texts)
  }

  ghost predicate SysInv(s: System) {
    && NetOk(s.net) && WaitsOk(s.net, s.comps) && GrantsOk(s.net, s.hist) && QueueOk(s.queue, s.hist)
    && SubmissionsOk(s.net, s.comps, s.hist) && TextsOk(s.net, s.comps, s.hist)
  }

  // -------------------------------------------------------- how the queue moves

  /** Every message now stems from one before, with the same text, and has not gone back. */
  ghost predicate Forward(before: seq<Message>, after: seq<Message>) {
    forall m :: m in after ==> exists m0 ::
        m0 in before && m0.id == m.id && m0.text == m.text && (Unbegun(m) ==> Unbegun(m0))
  }

  lemma PollForward(ms: seq<Message>, client: string, host: Option<string>, now: int)
    ensures Forward(ms, Poll(ms, client, host, now).0)
    ensures var reply := Poll(ms, client, host, now).1;
            reply.Ok? && reply.value.Some? ==>
                exists m0 :: m0 in ms && m0.id == reply.value.value.id && m0.text == reply.value.value.text
  {
    hide RequireNonEmpty, OptionalText, Choose;
    var (after, reply) := Poll(ms, client, host, now);
    if reply.Ok? {
      var free := Release(ms, now);
      forall m | m in after ensures exists m0 ::
          m0 in ms && m0.id == m.id && m0.text == m.text && (Unbegun(m) ==> Unbegun(m0)) {
        var j :| 0 <= j < |after| && after[j] == m;
        assert ms[j].id == m.id;
      }
      if reply.value.Some? {
        var i := Choose(free, RequireNonEmpty(client, MAX_ID_CHARS).value, OptionalText(host, MAX_ID_CHARS).value);
        assert ms[i].id == reply.value.value.id;
      }
    }
  }

  lemma BeginForward(ms: seq<Message>, client: string, id: MsgId, host: Option<string>, now: int)
    requires Plain(id)
    ensures var (after, reply) := BeginSend(ms, client, id, host, now);
            && Forward(ms, after)
            && (reply.Ok? ==>
                 FindId(ms, id) < |ms| && Unbegun(ms[FindId(ms, id)])
                 && after == ms[FindId(ms, id) := Begun(ms[FindId(ms, id)], now)])
  {
    hide OptionalText;
    var (after, reply) := BeginSend(ms, client, id, host, now);
    forall m | m in after ensures exists m0 ::
        m0 in ms && m0.id == m.id && m0.text == m.text && (Unbegun(m) ==> Unbegun(m0)) {
      var j :| 0 <= j < |after| && after[j] == m;
      assert ms[j].id == m.id;
    }
  }

  lemma AckForward(
      ms: seq<Message>, client: string, id: MsgId, host: Option<string>, sent: bool, error: Option<string>, now: int)
    ensures Forward(ms, Ack(ms, client, id, host, sent, error, now).0)
  {
    hide OptionalText, RequireNonEmpty;
    var after := Ack(ms, client, id, host, sent, error, now).0;
    forall m | m in after ensures exists m0 ::
        m0 in ms && m0.id == m.id && m0.text == m.text && (Unbegun(m) ==> Unbegun(m0)) {
      var j :| 0 <= j < |after| && after[j] == m;
      assert ms[j].id == m.id;
    }
  }

  lemma ReleaseForward(ms: seq<Message>, now: int)
    ensures Forward(ms, Release(ms, now))
  {
    var after := Release(ms, now);
    forall m | m in after ensures exists m0 ::
        m0 in ms && m0.id == m.id && m0.text == m.text && (Unbegun(m) ==> Unbegun(m0)) {
      var j :| 0 <= j < |after| && after[j] == m;
      assert ms[j].id == m.id;
    }
  }

  lemma ForwardOk(q: World, q1: World, hist: History)
    requires QueueOk(q, hist) && Forward(q.ms, q1.ms) && WorldInv(q1) && q1.at == q.at
    ensures QueueOk(q1, hist)
  {
    hide WorldInv, Plain;
  }

  lemma SameId(at: Serials, ms: seq<Message>, i: nat, m: Message)
    requires Inv(at, ms) && i < |ms| && m in ms && m.id == ms[i].id
    ensures m == ms[i]
  {
    var j :| 0 <= j < |ms| && ms[j] == m;
    DifferentIds(at, ms, i, j);
  }

  lemma DifferentIds(at: Serials, ms: seq<Message>, i: nat, j: nat)
    requires Inv(at, ms) && i < |ms| && j < |ms|
    ensures i != j ==> ms[i].id != ms[j].id
  {
    if i < j { assert Apart(at, ms[i], ms[j]); }
    if j < i { assert Apart(at, ms[j], ms[i]); }
  }

  /** Granting a begin. */
  lemma BegunOk(q: World, hist: History, i: nat, now: int, no: RequestNo)
    requires QueueOk(q, hist) && i < |q.ms| && Unbegun(q.ms[i]) && WorldInv(q.(ms := q.ms[i := Begun(q.ms[i], now)]))
    ensures q.ms[i].id !in hist.begun
    ensures QueueOk(q.(ms := q.ms[i := Begun(q.ms[i], now)]), hist.(begun := hist.begun[q.ms[i].id := no]))
  {
    hide Plain;
    var q1 := q.(ms := q.ms[i := Begun(q.ms[i], now)]);
    var hist1 := hist.(begun := hist.begun[q.ms[i].id := no]);
    assert q.ms[i] in q.ms;
    assert q.ms[i].id in q.at;
    hide Each, Pairwise, Bounded;
    forall m | m in q1.ms ensures (m.id in hist1.begun ==> !Unbegun(m)) && m.id in hist.texts
        && m.text == hist.texts[m.id] {
      var j :| 0 <= j < |q1.ms| && q1.ms[j] == m;
      if j != i {
        assert q.ms[j] in q.ms;
        if m.id == q.ms[i].id {
          SameId(q.at, q.ms, i, m);
          SameId(q1.at, q1.ms, i, m);
        }
      }
    }
  }

  // -------------------------------------------------------------------- steps

  lemma EnqueueMembers(ms: seq<Message>, id: MsgId, text: Text, source: Source, target: Option<string>, now: int)
    ensures var (after, reply) := Enqueue(ms, id, text, source, target, now);
            && (forall m :: m in after ==> m in ms || (reply.Ok? && m == reply.value))
            && (reply.Ok? ==> reply.value.id == id)
  {
    hide CheckText, OptionalText, TrimSettled;
    var (after, reply) := Enqueue(ms, id, text, source, target, now);
    if reply.Ok? {
      TrimKeepsActive(ms + [reply.value]);
    }
  }

  lemma EnqueueQueueOk(q: World, hist: History, id: MsgId, text: Text, source: Source, target: Option<string>, now: int)
    requires QueueOk(q, hist) && id !in q.at && Plain(id)
    ensures var reply := Enqueue(q.ms, id, text, source, target, now).1;
            QueueOk(Next(q, DoEnqueue(id, text, source, target), now),
                    if reply.Ok? then hist.(texts := hist.texts[id := reply.value.text]) else hist)
  {
    hide WorldInv, Plain, Enqueue, Unbegun;
    StepInv(q, DoEnqueue(id, text, source, target), now);
    EnqueueMembers(q.ms, id, text, source, target, now);
    KnownIds(q);
  }

  lemma KnownIds(q: World)
    requires WorldInv(q)
    ensures forall m :: m in q.ms ==> m.id in q.at
  {
    hide Pairwise, Bounded;
  }

  /** Only the recorded texts grow. */
  lemma TextsGrow(s: System, id: MsgId, text: Text)
    requires WaitsOk(s.net, s.comps) && GrantsOk(s.net, s.hist) && SubmissionsOk(s.net, s.comps, s.hist)
        && TextsOk(s.net, s.comps, s.hist)
    requires id !in s.hist.texts
    ensures var hist1 := s.hist.(texts := s.hist.texts[id := text]);
            GrantsOk(s.net, hist1) && SubmissionsOk(s.net, s.comps, hist1) && TextsOk(s.net, s.comps, hist1)
  {
    hide WaitsOk;
  }

  lemma EnqueueStepOk(s: System, id: MsgId, text: Text, source: Source, target: Option<string>, now: int)
    requires SysInv(s) && Enabled(s, Enqueued(id, text, source, target))
    ensures SysInv(Step(s, Enqueued(id, text, source, target), now))
  {
    hide NetOk, WaitsOk, GrantsOk, SubmissionsOk, TextsOk, QueueOk, Plain, Enqueue, Next;
    EnqueueQueueOk(s.queue, s.hist, id, text, source, target, now);
    var reply := Enqueue(s.queue.ms, id, text, source, target, now).1;
    if reply.Ok? {
      TextsGrow(s, id, reply.value.text);
    }
  }

  /** A companion that is not waiting for a begin takes a new phase and maybe sends. */
  lemma MoveOk(s: System, comp: CompanionId, c: Companion)
    requires SysInv(s) && (c.phase.Idle? || c.phase.Submitting? || c.phase.Dead?)
    ensures SysInv(s.(comps := s.comps[comp := c]))
  {
    hide NetOk, GrantsOk, QueueOk;
  }

  lemma SendOk(net: Net, comps: map<CompanionId, Companion>, hist: History, comp: CompanionId, c: Companion, r: Request)
    requires NetOk(net) && WaitsOk(net, comps) && GrantsOk(net, hist) && SubmissionsOk(net, comps, hist)
        && TextsOk(net, comps, hist)
    requires r.BeginRequest? ==> r.id in hist.texts
    requires c.phase == AwaitPoll(net.nextNo) || c.phase == AwaitAck(net.nextNo)
             || (r.BeginRequest? && r.id in hist.texts && c.phase == AwaitBegin(net.nextNo, r.id, hist.texts[r.id]))
    ensures var net1, comps1 := Send(net, r), comps[comp := c];
            NetOk(net1) && WaitsOk(net1, comps1) && GrantsOk(net1, hist) && SubmissionsOk(net1, comps1, hist)
                && TextsOk(net1, comps1, hist)
  {
    var net1, comps1 := Send(net, r), comps[comp := c];
    assert NetOk(net1);
    assert WaitsOk(net1, comps1) by { hide GrantsOk, SubmissionsOk, TextsOk; }
    assert GrantsOk(net1, hist) by { hide WaitsOk, SubmissionsOk, TextsOk, Awaits; }
    assert SubmissionsOk(net1, comps1, hist) by { hide WaitsOk, GrantsOk, TextsOk, Awaits; }
    assert TextsOk(net1, comps1, hist) by { hide WaitsOk, GrantsOk, SubmissionsOk, Awaits; }
  }

  lemma BeginDelivered(s: System, comp: CompanionId, reply: Reply)
    requires SysInv(s) && comp in s.comps && reply in s.net.replies && Awaits(s.comps[comp], reply.no)
    requires s.comps[comp].phase.AwaitBegin? && reply.BeginReply?
    ensures SysInv(DeliverStep(s, comp, reply))
  {
    hide SysInv, QueueOk, NetOk, WaitsOk, GrantsOk, SubmissionsOk, TextsOk;
    var c := s.comps[comp];
    var p := c.phase;
    var comps1 := s.comps[comp := At(c, Submitting(p.id))];
    var hist1 := s.hist.(spent := s.hist.spent + {p.no}, submitted := s.hist.submitted + [Submission(p.id, p.text)]);
    InvParts(s);
    MoveOk(s, comp, At(c, Submitting(p.id)));
    InvParts(s.(comps := comps1));
    GrantMatches(s, comp, reply);
    NobodyElse(s, comp);
    SubmitOk(s.net, comps1, s.hist, p.no, p.id, p.text);
    SameQueueHistory(s.queue, s.hist, hist1);
    SysOf(DeliverStep(s, comp, reply));
  }

  lemma GrantMatches(s: System, comp: CompanionId, reply: Reply)
    requires GrantsOk(s.net, s.hist) && WaitsOk(s.net, s.comps) && SubmissionsOk(s.net, s.comps, s.hist)
        && TextsOk(s.net, s.comps, s.hist)
    requires comp in s.comps && reply in s.net.replies && reply.BeginReply? && s.comps[comp].phase.AwaitBegin?
        && s.comps[comp].phase.no == reply.no
    ensures var p := s.comps[comp].phase;
            && p.id in s.hist.begun && s.hist.begun[p.id] == p.no && p.no !in s.hist.spent && p.no < s.net.nextNo
            && p.id in s.hist.texts && p.text == s.hist.texts[p.id]
  {
    assert Awaits(s.comps[comp], reply.no);
  }

  lemma NobodyElse(s: System, comp: CompanionId)
    requires WaitsOk(s.net, s.comps) && comp in s.comps && s.comps[comp].phase.AwaitBegin?
    ensures forall d :: d in s.comps && d != comp && s.comps[d].phase.AwaitBegin? ==>
        s.comps[d].phase.no != s.comps[comp].phase.no
  {
    forall d | d in s.comps && d != comp && s.comps[d].phase.AwaitBegin?
        ensures s.comps[d].phase.no != s.comps[comp].phase.no {
      var n := s.comps[comp].phase.no;
      assert Awaits(s.comps[comp], n);
      assert s.comps[d].phase.no == n ==> Awaits(s.comps[d], n);
    }
  }

  /** A granted request is used once: the message had not been submitted. */
  lemma SubmitOk(net: Net, comps: map<CompanionId, Companion>, hist: History, no: RequestNo, id: MsgId, text: Text)
    requires GrantsOk(net, hist) && SubmissionsOk(net, comps, hist) && TextsOk(net, comps, hist)
    requires id in hist.begun && hist.begun[id] == no && no !in hist.spent && no < net.nextNo && id in hist.texts
        && text == hist.texts[id]
    requires forall d :: d in comps && comps[d].phase.AwaitBegin? ==> comps[d].phase.no != no
    ensures var hist1 := hist.(spent := hist.spent + {no}, submitted := hist.submitted + [Submission(id, text)]);
            GrantsOk(net, hist1) && SubmissionsOk(net, comps, hist1) && TextsOk(net, comps, hist1)
  {
    assert forall x :: x in hist.submitted ==> x.id != id;
  }

  lemma SameQueueHistory(q: World, hist: History, hist1: History)
    requires QueueOk(q, hist) && hist1.texts == hist.texts && hist1.begun == hist.begun
    ensures QueueOk(q, hist1)
  {
  }

  lemma DeliverOk(s: System, comp: CompanionId, reply: Reply)
    requires SysInv(s) && Enabled(s, Deliver(comp, reply))
    ensures SysInv(DeliverStep(s, comp, reply))
  {
    var c := s.comps[comp];
    if c.phase.AwaitPoll? && reply.PollReply? && reply.message.Some? {
      var m := reply.message.value;
      assert m.id in s.hist.texts && m.text == s.hist.texts[m.id];
      hide NetOk, WaitsOk, GrantsOk, QueueOk, SubmissionsOk, TextsOk, Send;
      SendOk(s.net, s.comps, s.hist, comp, At(c, AwaitBegin(s.net.nextNo, m.id, m.text)),
          BeginRequest(c.client, m.id, c.host));
    } else if c.phase.AwaitBegin? && reply.BeginReply? {
      BeginDelivered(s, comp, reply);
    } else {
      MoveOk(s, comp, At(c, Idle));
    }
  }

  /** A new reply that begins nothing. */
  lemma ReplyOk(s: System, q1: World, reply: Reply)
    requires SysInv(s) && QueueOk(q1, s.hist) && reply.no < s.net.nextNo && !reply.BeginReply?
    requires reply.PollReply? && reply.message.Some? ==>
               reply.message.value.id in s.hist.texts
                   && reply.message.value.text == s.hist.texts[reply.message.value.id]
    ensures SysInv(s.(queue := q1, net := s.net.(replies := s.net.replies + {reply})))
  {
    hide QueueOk;
  }

  lemma PollServed(s: System, no: RequestNo, now: int)
    requires SysInv(s) && no in s.net.requests && s.net.requests[no].PollRequest?
    ensures SysInv(ServeStep(s, no, now))
  {
    var r := s.net.requests[no];
    var (ms, reply) := Poll(s.queue.ms, r.client, r.host, now);
    PollForward(s.queue.ms, r.client, r.host, now);
    StepInv(s.queue, DoPoll(r.client, r.host), now);
    assert NetOk(s.net) && no < s.net.nextNo;
    hide Poll, WorldInv, Plain, WaitsOk, GrantsOk, SubmissionsOk;
    ForwardOk(s.queue, s.queue.(ms := ms), s.hist);
    if reply.Ok? && reply.value.Some? {
      var m0 :| m0 in s.queue.ms && m0.id == reply.value.value.id && m0.text == reply.value.value.text;
    }
    ReplyOk(s, s.queue.(ms := ms), Served(s.queue, no, r, now).1);
  }

  lemma AckServed(s: System, no: RequestNo, now: int)
    requires SysInv(s) && no in s.net.requests && s.net.requests[no].AckRequest?
    ensures SysInv(ServeStep(s, no, now))
  {
    var r := s.net.requests[no];
    AckForward(s.queue.ms, r.client, r.id, r.host, r.sent, r.error, now);
    StepInv(s.queue, DoAck(r.client, r.id, r.host, r.sent, r.error), now);
    assert NetOk(s.net) && no < s.net.nextNo;
    hide Ack, WorldInv, Plain, WaitsOk, GrantsOk, SubmissionsOk;
    var (ms, reply) := Ack(s.queue.ms, r.client, r.id, r.host, r.sent, r.error, now);
    ForwardOk(s.queue, s.queue.(ms := ms), s.hist);
    ReplyOk(s, s.queue.(ms := ms), Served(s.queue, no, r, now).1);
  }

  lemma RequestPlain(s: System, no: RequestNo)
    requires SysInv(s) && no in s.net.requests && s.net.requests[no].BeginRequest?
    ensures Plain(s.net.requests[no].id) && no < s.net.nextNo
  {
    hide WaitsOk, GrantsOk, SubmissionsOk, WorldInv;
  }

  lemma BeginServed(s: System, no: RequestNo, now: int)
    requires SysInv(s) && no in s.net.requests && s.net.requests[no].BeginRequest?
    ensures SysInv(ServeStep(s, no, now))
  {
    hide SysInv, BeginSend, Plain, QueueOk;
    var r := s.net.requests[no];
    RequestPlain(s, no);
    InvParts(s);
    BeginForward(s.queue.ms, r.client, r.id, r.host, now);
    StepInv(s.queue, DoBegin(r.client, r.id, r.host), now);
    hide WorldInv, Forward;
    var (ms, reply) := BeginSend(s.queue.ms, r.client, r.id, r.host, now);
    if reply.Ok? {
      var i := FindId(s.queue.ms, r.id);
      BegunOk(s.queue, s.hist, i, now, no);
      GrantOk(s.net, s.comps, s.hist, no, r.id);
      assert SysInv(ServeStep(s, no, now)) by { SysOf(ServeStep(s, no, now)); }
    } else {
      ForwardOk(s.queue, s.queue.(ms := ms), s.hist);
      ReplyOk(s, s.queue.(ms := ms), Refusal(no));
    }
  }

  lemma InvParts(s: System)
    requires SysInv(s)
    ensures NetOk(s.net) && WaitsOk(s.net, s.comps) && GrantsOk(s.net, s.hist) && QueueOk(s.queue, s.hist)
    ensures SubmissionsOk(s.net, s.comps, s.hist) && TextsOk(s.net, s.comps, s.hist) && WorldInv(s.queue)
  {
  }

  lemma SysOf(s: System)
    requires NetOk(s.net) && WaitsOk(s.net, s.comps) && GrantsOk(s.net, s.hist) && QueueOk(s.queue, s.hist)
    requires SubmissionsOk(s.net, s.comps, s.hist) && TextsOk(s.net, s.comps, s.hist)
    ensures SysInv(s)
  {
  }

  lemma GrantOk(net: Net, comps: map<CompanionId, Companion>, hist: History, no: RequestNo, id: MsgId)
    requires NetOk(net) && WaitsOk(net, comps) && GrantsOk(net, hist) && SubmissionsOk(net, comps, hist)
        && TextsOk(net, comps, hist)
    requires no in net.requests && net.requests[no].BeginRequest? && net.requests[no].id == id && id !in hist.begun
    ensures var net1, hist1 := net.(replies := net.replies + {BeginReply(no, id)}),
        hist.(begun := hist.begun[id := no]);
            NetOk(net1) && WaitsOk(net1, comps) && GrantsOk(net1, hist1) && SubmissionsOk(net1, comps, hist1)
                && TextsOk(net1, comps, hist1)
  {
    hide Awaits;
    var net1, hist1 := net.(replies := net.replies + {BeginReply(no, id)}), hist.(begun := hist.begun[id := no]);
    assert GrantsOk(net1, hist1) by { hide WaitsOk, SubmissionsOk, TextsOk; }
    assert SubmissionsOk(net1, comps, hist1) by { hide WaitsOk, GrantsOk, TextsOk; }
    assert TextsOk(net1, comps, hist1) by { hide WaitsOk, GrantsOk, SubmissionsOk; }
  }

  lemma AskOk(s: System, comp: CompanionId, c: Companion, r: Request)
    requires SysInv(s) && ((r.PollRequest? && c.phase == AwaitPoll(s.net.nextNo))
        || (r.AckRequest? && c.phase == AwaitAck(s.net.nextNo)))
    ensures SysInv(s.(net := Send(s.net, r), comps := s.comps[comp := c]))
  {
    hide NetOk, WaitsOk, GrantsOk, QueueOk, SubmissionsOk, TextsOk, Send;
    SendOk(s.net, s.comps, s.hist, comp, c, r);
  }

  lemma LookOk(s: System, now: int)
    requires SysInv(s)
    ensures SysInv(Step(s, LookAt, now))
  {
    ReleaseForward(s.queue.ms, now);
    StepInv(s.queue, DoStatus, now);
    hide WorldInv, Plain, WaitsOk, GrantsOk, SubmissionsOk, NetOk, TextsOk, Release, Forward;
    ForwardOk(s.queue, Next(s.queue, DoStatus, now), s.hist);
  }

  /** Every event keeps the invariant. */
  lemma SystemStep(s: System, e: Event, now: int)
    requires SysInv(s) && Enabled(s, e)
    ensures SysInv(Step(s, e, now))
  {
    hide SysInv, ServeStep, DeliverStep, Send, Next;
    match e
    case Enqueued(id, text, source, target) => EnqueueStepOk(s, id, text, source, target, now);
    case Join(comp, client, host) => MoveOk(s, comp, Companion(client, host, Idle));
    case AskPoll(comp) =>
      AskOk(s, comp, At(s.comps[comp], AwaitPoll(s.net.nextNo)), PollRequest(s.comps[comp].client, s.comps[comp].host));
    case Serve(no) =>
      match s.net.requests[no] {
        case PollRequest(_, _) => PollServed(s, no, now);
        case BeginRequest(_, _, _) => BeginServed(s, no, now);
        case AckRequest(_, _, _, _, _) => AckServed(s, no, now);
      }
    case Deliver(comp, reply) => DeliverOk(s, comp, reply);
    case HostAnswered(comp, sent, error) =>
      var c := s.comps[comp];
      AskOk(s, comp, At(c, AwaitAck(s.net.nextNo)), AckRequest(c.client, c.phase.id, c.host, sent, error));
    case TimedOut(comp) => MoveOk(s, comp, At(s.comps[comp], Idle));
    case Crash(comp) => MoveOk(s, comp, At(s.comps[comp], Dead));
    case LookAt => LookOk(s, now);
  }

  // --------------------------------------------------------------------- runs

  function Start(): System {
    System(World([], map[], 0), Net(map[], {}, 0), map[], History(map[], map[], {}, []))
  }

  ghost predicate IsSystemRun(ss: seq<System>, events: seq<Event>, times: seq<int>) {
    && |ss| == |events| + 1 && |times| == |events| && ss[0] == Start()
    && forall i :: 0 <= i < |events| ==> Enabled(ss[i], events[i]) && ss[i + 1] == Step(ss[i], events[i], times[i])
  }

  lemma StartOk()
    ensures SysInv(Start())
  {
  }

  lemma {:induction false} SystemRun(ss: seq<System>, events: seq<Event>, times: seq<int>, i: nat)
    requires IsSystemRun(ss, events, times) && i < |ss|
    ensures SysInv(ss[i])
  {
    hide SysInv, Step, Enabled, Start;
    if i == 0 {
      StartOk();
    } else {
      SystemRun(ss, events, times, i - 1);
      SystemStep(ss[i - 1], events[i - 1], times[i - 1]);
    }
  }

  /** Each queued message is submitted at most once, with the text it was enqueued with. */
  lemma AtMostOnce(ss: seq<System>, events: seq<Event>, times: seq<int>, i: nat, a: nat, b: nat)
    requires IsSystemRun(ss, events, times) && i < |ss| && a < |ss[i].hist.submitted| && b < |ss[i].hist.submitted|
    ensures ss[i].hist.submitted[a].id == ss[i].hist.submitted[b].id ==> a == b
    ensures ss[i].hist.submitted[a].id in ss[i].hist.texts
        && ss[i].hist.submitted[a].text == ss[i].hist.texts[ss[i].hist.submitted[a].id]
  {
    hide Step, Enabled, IsSystemRun;
    SystemRun(ss, events, times, i);
    assert ss[i].hist.submitted[a] in ss[i].hist.submitted;
  }

  /** A message is submitted in a step exactly when a companion that is still waiting for
      permission to begin receives it, and it is the message that companion asked for. */
  lemma SubmittedExactlyOnGrant(s: System, e: Event, now: int)
    requires SysInv(s) && Enabled(s, e)
    ensures var before, after := s.hist.submitted, Step(s, e, now).hist.submitted;
            && (after != before <==> e.Deliver? && e.reply.BeginReply? && s.comps[e.comp].phase.AwaitBegin?)
            && (after != before ==>
                 e.reply.id in s.hist.texts && after == before + [Submission(e.reply.id, s.hist.texts[e.reply.id])])
  {
    hide QueueOk, NetOk, SubmissionsOk, Served;
    if e.Deliver? && e.reply.BeginReply? && s.comps[e.comp].phase.AwaitBegin? {
      GrantMatchesRequest(s, e.comp, e.reply);
    }
  }

  lemma GrantMatchesRequest(s: System, comp: CompanionId, reply: Reply)
    requires GrantsOk(s.net, s.hist) && WaitsOk(s.net, s.comps) && TextsOk(s.net, s.comps, s.hist)
    requires comp in s.comps && reply in s.net.replies && reply.BeginReply? && s.comps[comp].phase.AwaitBegin?
        && Awaits(s.comps[comp], reply.no)
    ensures var p := s.comps[comp].phase; p.id == reply.id && p.id in s.hist.texts && p.text == s.hist.texts[p.id]
  {
  }

  /** The client and host of a request are accepted, and its message is claimed by that
      client. */
  ghost predicate Entitled(q: World, r: Request)
    requires r.BeginRequest?
  {
    var client := RequireNonEmpty(r.client, MAX_ID_CHARS);
    && client.Ok? && OptionalText(r.host, MAX_ID_CHARS).Ok?
    && exists m :: m in q.ms && m.id == r.id && ClaimedFor(m, client.value)
  }

  /** Permission to begin is granted exactly while the message is claimed by the client that
      asks; serving the same request again is refused. */
  lemma GrantedExactly(s: System, no: RequestNo, now: int)
    requires SysInv(s) && no in s.net.requests && s.net.requests[no].BeginRequest?
    ensures var r, t := s.net.requests[no], ServeStep(s, no, now);
            && (t.hist.begun != s.hist.begun <==> Entitled(s.queue, r))
            && (t.hist.begun != s.hist.begun ==> Served(t.queue, no, r, now).1 == Refusal(no))
  {
    var r := s.net.requests[no];
    RequestPlain(s, no);
    assert QueueOk(s.queue, s.hist) && WorldInv(s.queue);
    var client := RequireNonEmpty(r.client, MAX_ID_CHARS);
    if client.Ok? && OptionalText(r.host, MAX_ID_CHARS).Ok? {
      var (ms, reply) := BeginSend(s.queue.ms, r.client, r.id, r.host, now);
      var i := FindId(s.queue.ms, r.id);
      ClaimedIsFound(s.queue, r.id, client.value);
      hide SysInv, RequireNonEmpty, OptionalText, WorldInv;
      if reply.Ok? {
        assert s.queue.ms[i] in s.queue.ms;
        UnbegunIsNew(s.queue, s.hist, i);
        FoundAgain(s.queue.ms, r.id, Begun(s.queue.ms[i], now));
      }
    }
  }

  lemma ClaimedIsFound(q: World, id: MsgId, client: string)
    requires WorldInv(q)
    ensures (exists m :: m in q.ms && m.id == id && ClaimedFor(m, client)) <==>
        FindId(q.ms, id) < |q.ms| && ClaimedFor(q.ms[FindId(q.ms, id)], client)
  {
    var i := FindId(q.ms, id);
    if m :| m in q.ms && m.id == id && ClaimedFor(m, client) {
      var j :| 0 <= j < |q.ms| && q.ms[j] == m;
      SameId(q.at, q.ms, i, m);
    }
  }

  lemma UnbegunIsNew(q: World, hist: History, i: nat)
    requires QueueOk(q, hist) && i < |q.ms| && Unbegun(q.ms[i])
    ensures q.ms[i].id !in hist.begun
  {
    hide WorldInv, Plain;
    assert q.ms[i] in q.ms;
  }

  lemma FoundAgain(ms: seq<Message>, id: MsgId, m: Message)
    requires FindId(ms, id) < |ms| && m.id == id
    ensures FindId(ms[FindId(ms, id) := m], id) == FindId(ms, id)
  {
    var i := FindId(ms, id);
    var after := ms[i := m];
    assert after[i].id == id && FindId(after, id) <= i;
    assert forall j :: 0 <= j < i ==> after[j] == ms[j];
  }

  /** A submitted message never becomes pending or claimed again. */
  lemma SubmittedStaysOut(ss: seq<System>, events: seq<Event>, times: seq<int>, i: nat, a: nat, j: nat)
    requires IsSystemRun(ss, events, times) && i < |ss| && a < |ss[i].hist.submitted| && j < |ss[i].queue.ms|
    requires ss[i].queue.ms[j].id == ss[i].hist.submitted[a].id
    ensures !Unbegun(ss[i].queue.ms[j])
  {
    hide Step, Enabled, IsSystemRun;
    SystemRun(ss, events, times, i);
    assert ss[i].hist.submitted[a] in ss[i].hist.submitted;
    assert ss[i].queue.ms[j] in ss[i].queue.ms;
  }
}
