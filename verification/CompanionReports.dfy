/** What the queue says became of a message is what the host of the companion that submitted it
    answered, whatever the network did in between. */
module CompanionReports {
  import opened Collections
  import opened JsText
  import opened BridgeQueueModel
  import opened BridgeQueueProofs
  import opened CompanionProtocol
  import L = BridgeQueueLives

  /** In step k a companion of this client, having submitted this message, gets this answer. */
  ghost predicate Answered(
      ss: seq<System>, events: seq<Event>, k: nat, client: string, id: MsgId, sent: bool, error: Option<string>) {
    && k < |events| && k < |ss|
    && events[k].HostAnswered? && events[k].sent == sent && events[k].error == error
    && events[k].comp in ss[k].comps
    && ss[k].comps[events[k].comp].client == client && ss[k].comps[events[k].comp].phase == Submitting(id)
  }

  // ------------------------------------------------------------- where reports come from

  /** The only new report is one on the answer just received. */
  lemma NewReport(s: System, e: Event, now: int, no: RequestNo)
    requires NetOk(s.net) && Enabled(s, e) && no in Step(s, e, now).net.requests
    ensures var r := Step(s, e, now).net.requests[no];
            && (no in s.net.requests ==> s.net.requests[no] == r)
            && (no !in s.net.requests && r.AckRequest? ==>
                  && e.HostAnswered? && e.sent == r.sent && e.error == r.error
                  && s.comps[e.comp].client == r.client && s.comps[e.comp].phase == Submitting(r.id))
  {
    hide Served;
  }

  lemma StepBefore(ss: seq<System>, events: seq<Event>, times: seq<int>, i: nat)
    requires IsSystemRun(ss, events, times) && 0 < i < |ss|
    ensures SysInv(ss[i - 1]) && NetOk(ss[i - 1].net) && WorldInv(ss[i - 1].queue)
    ensures Enabled(ss[i - 1], events[i - 1]) && ss[i] == Step(ss[i - 1], events[i - 1], times[i - 1])
    ensures events[i - 1].HostAnswered? ==> events[i - 1].comp in ss[i - 1].comps
  {
    hide Step, WaitsOk, GrantsOk, SubmissionsOk, TextsOk, NetOk, WorldInv;
    SystemRun(ss, events, times, i - 1);
  }

  lemma {:induction false} ReportWasAnswered(
      ss: seq<System>, events: seq<Event>, times: seq<int>, i: nat, no: RequestNo) returns (k: nat)
    requires IsSystemRun(ss, events, times) && i < |ss|
    requires no in ss[i].net.requests && ss[i].net.requests[no].AckRequest?
    ensures var r := ss[i].net.requests[no]; k < i && Answered(ss, events, k, r.client, r.id, r.sent, r.error)
  {
    hide Step, Enabled, SysInv, NetOk, WorldInv;
    k := 0;
    if i > 0 {
      k := i - 1;
      StepBefore(ss, events, times, i);
      NewReport(ss[i - 1], events[i - 1], times[i - 1], no);
      if no in ss[i - 1].net.requests {
        k := ReportWasAnswered(ss, events, times, i - 1, no);
      }
    }
  }

  // --------------------------------------------------------- what requests bring back

  /** The one reply a request brings back: to a poll what the queue gives; permission exactly for
      the client that holds the message; an acknowledgement exactly for a report the queue takes;
      and otherwise a refusal. */
  ghost predicate Answers(q: World, no: RequestNo, r: Request, now: int, x: Reply) {
    match r
    case PollRequest(client, host) =>
      if L.GoodId(client) && L.GoodHost(host) then
        var found := Poll(q.ms, client, host, now).1;
        found.Ok? && x == PollReply(no, found.value)
      else x == Refusal(no)
    case BeginRequest(client, id, host) =>
      if L.GoodId(client) && L.GoodId(id) && L.GoodHost(host)
          && exists m :: m in q.ms && m.id == Trim(id) && ClaimedFor(m, Trim(client))
      then x == BeginReply(no, id) else x == Refusal(no)
    case AckRequest(client, id, host, sent, error) =>
      if L.GoodId(client) && L.GoodId(id) && L.GoodHost(host) && L.Sending(q.ms, Trim(client), Trim(id))
          && (sent || error.None? || |error.value| <= 2000)
      then x == AckReply(no) else x == Refusal(no)
  }

  lemma ServedAnswers(q: World, no: RequestNo, r: Request, now: int)
    requires WorldInv(q)
    ensures Answers(q, no, r, now, Served(q, no, r, now).1)
  {
    hide Poll, BeginSend, Ack, L.GoodId, L.GoodHost, Trim, L.Sending, WorldInv, L.Granted, L.Taken;
    L.DistinctIds(q);
    match r
    case PollRequest(client, host) => L.PollExactly(q.ms, client, host, now);
    case BeginRequest(client, id, host) => L.BeginExactly(q.ms, client, id, host, now);
    case AckRequest(client, id, host, sent, error) => L.AckExactly(q.ms, client, id, host, sent, error, now);
  }

  /** Serving a request adds exactly that reply; no other request and no companion changes. */
  lemma ServeExactly(s: System, no: RequestNo, now: int)
    requires SysInv(s) && no in s.net.requests
    ensures var t := ServeStep(s, no, now);
            && t.comps == s.comps && t.net == s.net.(replies := t.net.replies)
            && exists x :: Answers(s.queue, no, s.net.requests[no], now, x) && t.net.replies == s.net.replies + {x}
  {
    hide Served, Answers, WorldInv;
    ServedAnswers(s.queue, no, s.net.requests[no], now);
  }

  // ------------------------------------------------------------ what a companion does

  ghost predicate SentOne(before: Net, after: Net, r: Request) {
    && before.nextNo in after.requests && after.requests[before.nextNo] == r
    && (forall n :: n in after.requests <==> n in before.requests || n == before.nextNo)
    && (forall n :: n in before.requests && n != before.nextNo ==> after.requests[n] == before.requests[n])
  }

  predicate Concerns(e: Event, c: CompanionId) {
    (e.AskPoll? || e.Deliver? || e.HostAnswered? || e.TimedOut? || e.Crash?) && e.comp == c
  }

  /** Where the pump is after an event of its companion, and what it asks of the bridge. */
  ghost predicate Pumps(phase: Phase, c: Companion, e: Event, before: Net, after: Net) {
    match e
    case AskPoll(_) => c.phase == AwaitPoll(before.nextNo) && SentOne(before, after, PollRequest(c.client, c.host))
    case Deliver(_, reply) =>
      if phase.AwaitPoll? && reply.PollReply? && reply.message.Some? then
        var m := reply.message.value;
        && c.phase == AwaitBegin(before.nextNo, m.id, m.text)
        && SentOne(before, after, BeginRequest(c.client, m.id, c.host))
      else c.phase == if phase.AwaitBegin? && reply.BeginReply? then Submitting(phase.id) else Idle
    case HostAnswered(_, sent, error) =>
      && c.phase == AwaitAck(before.nextNo) && phase.Submitting?
      && SentOne(before, after, AckRequest(c.client, phase.id, c.host, sent, error))
    case TimedOut(_) => c.phase == Idle
    case Crash(_) => c.phase == Dead
    case _ => false
  }

  /** For every step and companion: a companion starts idle, moves with its own events only, and
      keeps its client and host. */
  lemma CompanionMoves(s: System, e: Event, now: int, c: CompanionId)
    requires Enabled(s, e)
    ensures var t := Step(s, e, now);
            && (c in t.comps <==> c in s.comps || (e.Join? && e.comp == c))
            && (c !in s.comps && c in t.comps ==> t.comps[c] == Companion(e.client, e.host, Idle))
            && (c in s.comps && !Concerns(e, c) ==> t.comps[c] == s.comps[c])
            && (c in s.comps && Concerns(e, c) ==>
                  && t.comps[c].client == s.comps[c].client && t.comps[c].host == s.comps[c].host
                  && Pumps(s.comps[c].phase, t.comps[c], e, s.net, t.net))
  {
    hide Served;
  }

  // ---------------------------------------------------------- what was submitted

  ghost predicate Submitted(s: System, id: MsgId) { exists x :: x in s.hist.submitted && x.id == id }

  /** A companion waiting for its host's answer has submitted the message. */
  ghost predicate SubmittersOk(s: System) {
    forall c :: c in s.comps && s.comps[c].phase.Submitting? ==> Submitted(s, s.comps[c].phase.id)
  }

  lemma SubmittedStays(s: System, e: Event, now: int, id: MsgId)
    requires Enabled(s, e) && Submitted(s, id)
    ensures Submitted(Step(s, e, now), id)
  {
    hide Served;
    var x :| x in s.hist.submitted && x.id == id;
    assert x in Step(s, e, now).hist.submitted;
  }

  lemma NewSubmitter(s: System, e: Event, now: int, c: CompanionId)
    requires Enabled(s, e) && c in Step(s, e, now).comps && Step(s, e, now).comps[c].phase.Submitting?
    ensures var id := Step(s, e, now).comps[c].phase.id;
            (c in s.comps && s.comps[c].phase == Submitting(id)) || Submitted(Step(s, e, now), id)
  {
    hide Served;
    if e.Deliver? && s.comps[e.comp].phase.AwaitBegin? && e.reply.BeginReply? {
      var p := s.comps[e.comp].phase;
      assert Submission(p.id, p.text) in Step(s, e, now).hist.submitted;
    }
  }

  lemma {:induction false} RunSubmitters(ss: seq<System>, events: seq<Event>, times: seq<int>, i: nat)
    requires IsSystemRun(ss, events, times) && i < |ss|
    ensures SubmittersOk(ss[i])
  {
    hide Step, Enabled, Submitted;
    if i == 0 {
      assert ss[0].comps == map[];
    } else {
      RunSubmitters(ss, events, times, i - 1);
      var s, e, now := ss[i - 1], events[i - 1], times[i - 1];
      assert Enabled(s, e) && ss[i] == Step(s, e, now);
      forall c | c in ss[i].comps && ss[i].comps[c].phase.Submitting?
        ensures Submitted(ss[i], ss[i].comps[c].phase.id)
      {
        NewSubmitter(s, e, now, c);
        if c in s.comps && s.comps[c].phase == ss[i].comps[c].phase {
          SubmittedStays(s, e, now, s.comps[c].phase.id);
        }
      }
    }
  }

  // ------------------------------------------------------------ what the queue says

  /** The call on the queue that a step makes, if it makes one. */
  function CallOf(s: System, e: Event): Option<Op>
    requires Enabled(s, e)
  {
    match e
    case Enqueued(id, text, source, target) => Some(DoEnqueue(id, text, source, target))
    case Serve(no) =>
      (match s.net.requests[no]
       case PollRequest(client, host) => Some(DoPoll(client, host))
       case BeginRequest(client, id, host) => Some(DoBegin(client, id, host))
       case AckRequest(client, id, host, sent, error) => Some(DoAck(client, id, host, sent, error)))
    case LookAt => Some(DoStatus)
    case _ => None
  }

  lemma QueueMoves(s: System, e: Event, now: int)
    requires Enabled(s, e)
    ensures var call := CallOf(s, e);
            Step(s, e, now).queue == if call.Some? then Next(s.queue, call.value, now) else s.queue
    ensures var call := CallOf(s, e); call.Some? && call.value.DoEnqueue? ==> call.value.id !in s.queue.at
  {
    hide Enqueue, Poll, BeginSend, Ack, Release;
  }

  lemma SettledStep(w: World, op: Op, now: int, m: Message)
    requires WorldInv(w) && (op.DoEnqueue? ==> op.id !in w.at) && m in Next(w, op, now).ms && !Active(m) && m !in w.ms
    ensures op.DoAck? && L.Names(op.idArg, m.id) && m.claimedBy == Some(Trim(op.client)) && Says(m, op.sent, op.error)
  {
    hide WorldInv, Next, Trim, L.GoodId, L.GoodHost;
    L.StepBecomes(w, op, now, m);
  }

  /** The recorded outcome: the error text only on a failure, and only if it is not over-long. */
  predicate Says(m: Message, sent: bool, error: Option<string>) {
    && m.status == (if sent then Sent else Failed) && m.sentOk == Some(sent)
    && (sent ==> m.error == None)
    && (!sent && !(error.Some? && |error.value| > 2000) ==> m.error == if error == Some("") then None else error)
  }

  lemma PlainNames(id: string, other: string)
    requires Plain(id) && L.Names(id, other)
    ensures other == id
  {
  }

  /** In every run, a message that the queue says was sent or failed was submitted by a companion,
      and its host said so. */
  lemma {:induction false} SettledWasAnswered(
      ss: seq<System>, events: seq<Event>, times: seq<int>, i: nat, m: Message) returns (k: nat)
    requires IsSystemRun(ss, events, times) && i < |ss| && m in ss[i].queue.ms && !Active(m)
    ensures k < i && events[k].HostAnswered? && events[k].comp in ss[k].comps
    ensures var c := ss[k].comps[events[k].comp];
            && Answered(ss, events, k, c.client, m.id, events[k].sent, events[k].error)
            && m.claimedBy == Some(Trim(c.client))
    ensures Says(m, events[k].sent, events[k].error) && Submitted(ss[k], m.id)
  {
    hide Step, Enabled, Next, Trim, Says, L.Names, Submitted, CallOf, SysInv, NetOk, WorldInv;
    k := 0;
    if i > 0 {
      var s, e, now := ss[i - 1], events[i - 1], times[i - 1];
      StepBefore(ss, events, times, i);
      if m in s.queue.ms {
        k := SettledWasAnswered(ss, events, times, i - 1, m);
      } else {
        QueueMoves(s, e, now);
        var call := CallOf(s, e);
        SettledStep(s.queue, call.value, now, m);
        ReportServed(s, e);
        k := ReportWasAnswered(ss, events, times, i - 1, e.no);
        RunSubmitters(ss, events, times, k);
        SystemRun(ss, events, times, k);
        SubmittedIsPlain(ss[k], call.value.idArg);
        PlainNames(call.value.idArg, m.id);
      }
    }
  }

  lemma ReportServed(s: System, e: Event)
    requires Enabled(s, e) && CallOf(s, e).Some? && CallOf(s, e).value.DoAck?
    ensures e.Serve? && e.no in s.net.requests && s.net.requests[e.no].AckRequest?
    ensures var r, op := s.net.requests[e.no], CallOf(s, e).value;
            op == DoAck(r.client, r.id, r.host, r.sent, r.error)
  {
  }

  lemma SubmittedIsPlain(s: System, id: MsgId)
    requires SysInv(s) && Submitted(s, id)
    ensures Plain(id)
  {
    hide NetOk, WaitsOk, GrantsOk, TextsOk, WorldInv, Plain;
  }
}
