/** The life of a message: what each call answers, the only changes a call makes to a message, and
    over runs: a stored message is what was enqueued, and a settled one is what was reported. */
module BridgeQueueLives {
  import opened Collections
  import opened JsText
  import opened BridgeQueueModel
  import opened BridgeQueueProofs

  // ------------------------------------------------------------------ arguments

  /** An id as given is accepted as this trimmed one. */
  predicate Names(arg: string, id: string) { id == Trim(arg) && id != "" && |id| <= 128 }

  /** A host as given is accepted as this one; an empty one is none. */
  predicate Hosts(arg: Option<string>, host: Option<string>) {
    if arg == Some("") then host == None else host == arg && (arg.Some? ==> |arg.value| <= 128)
  }

  predicate GoodId(arg: string) { Names(arg, Trim(arg)) }

  predicate GoodHost(arg: Option<string>) { arg.Some? ==> |arg.value| <= 128 }

  /** A text as given is queued as this one: trimmed if typed. */
  predicate Says(arg: Text, text: Text) {
    if arg.Typed? then text == Typed(Trim(arg.chars)) && Trim(arg.chars) != "" && |Trim(arg.chars)| <= 8000
    else text == arg
  }

  predicate GoodText(arg: Text) { arg.Typed? ==> Says(arg, Typed(Trim(arg.chars))) }

  lemma IdAccepted(arg: string)
    ensures RequireNonEmpty(arg, MAX_ID_CHARS) == if GoodId(arg) then Ok(Trim(arg)) else Err(InvalidRequest)
  {
    hide Trim;
  }

  lemma HostAccepted(arg: Option<string>)
    ensures GoodHost(arg) ==> OptionalText(arg, MAX_ID_CHARS).Ok? && Hosts(arg, OptionalText(arg, MAX_ID_CHARS).value)
    ensures !GoodHost(arg) ==> OptionalText(arg, MAX_ID_CHARS) == Err(InvalidRequest)
  {
  }

  lemma TextAccepted(arg: Text)
    ensures GoodText(arg) ==> CheckText(arg).Ok? && Says(arg, CheckText(arg).value)
    ensures !GoodText(arg) ==> CheckText(arg) == Err(InvalidRequest)
  {
    hide Trim;
  }

  // -------------------------------------------------------------------- changes

  /** Everything about a message that its enqueuing decides. */
  predicate SameLetter(a: Message, b: Message) {
    a.id == b.id && a.text == b.text && a.source == b.source && a.target == b.target && a.createdAt == b.createdAt
  }

  predicate RunOut(a: Message, now: int) {
    a.status.Claimed? && a.claimExpiresAt.Some? && a.claimExpiresAt.value <= now
  }

  /** A lease that has run out is given up. */
  predicate Freed(a: Message, b: Message, now: int) {
    && RunOut(a, now)
    && SameLetter(a, b) && b.status.Pending? && b.claimedBy == None && b.claimExpiresAt == None && b.updatedAt == now
    && b.attempts == a.attempts && b.sentOk == a.sentOk && b.error == a.error
  }

  predicate Has(a: Message, client: string, now: int) {
    a.status.Claimed? && a.claimedBy == Some(client) && !RunOut(a, now)
  }

  predicate Free(a: Message, host: Option<string>, now: int) {
    (a.status.Pending? || RunOut(a, now)) && (a.target == None || a.target == host)
  }

  /** This client extends the lease it has, or takes a free message. */
  predicate Taken(a: Message, b: Message, client: string, host: Option<string>, now: int) {
    && (Has(a, client, now) || Free(a, host, now))
    && SameLetter(a, b) && b.status.Claimed? && b.claimedBy == Some(client)
    && b.attempts == (if Has(a, client, now) then a.attempts else a.attempts + 1)
    && b.claimExpiresAt == Some(now + 30000) && b.updatedAt == now && b.sentOk == a.sentOk && b.error == a.error
  }

  /** The client that holds the message may send it. */
  predicate Granted(a: Message, b: Message, client: string, now: int) {
    && a.status.Claimed? && a.claimedBy == Some(client)
    && SameLetter(a, b) && b.status.Dispatching? && b.claimedBy == Some(client) && b.claimExpiresAt == None
    && b.updatedAt == now && b.attempts == a.attempts && b.sentOk == a.sentOk && b.error == a.error
  }

  /** The client that is sending the message reports how it went. A failure with an over-long
      text is recorded without it, at the old time. */
  predicate Reported(a: Message, b: Message, client: string, sent: bool, error: Option<string>, now: int) {
    && a.status.Dispatching? && a.claimedBy == Some(client)
    && SameLetter(a, b) && b.status == (if sent then Sent else Failed) && b.sentOk == Some(sent)
    && b.claimedBy == Some(client) && b.attempts == a.attempts
    && if !sent && error.Some? && |error.value| > 2000
       then b.error == a.error && b.updatedAt == a.updatedAt && b.claimExpiresAt == a.claimExpiresAt
       else
         b.error == (if sent || error == Some("") then None else error) && b.updatedAt == now
             && b.claimExpiresAt == None
  }

  /** The only changes a call makes to a message. */
  predicate Becomes(a: Message, b: Message, op: Op, now: int) {
    || b == a
    || ((op.DoPoll? || op.DoStatus?) && Freed(a, b, now))
    || (op.DoPoll? && GoodId(op.client) && GoodHost(op.host)
        && Taken(a, b, Trim(op.client), if op.host == Some("") then None else op.host, now))
    || (op.DoBegin? && GoodId(op.client) && GoodHost(op.host) && Names(op.idArg, a.id)
        && Granted(a, b, Trim(op.client), now))
    || (op.DoAck? && GoodId(op.client) && GoodHost(op.host) && Names(op.idArg, a.id)
        && Reported(a, b, Trim(op.client), op.sent, op.error, now))
  }

  /** A message as an accepted call to enqueue stores it. */
  predicate Enqueued(m: Message, op: Op, now: int) {
    && op.DoEnqueue? && m.id == op.id && Says(op.text, m.text) && m.source == op.source && Hosts(op.target, m.target)
    && m.status.Pending? && m.createdAt == now && m.updatedAt == now && m.claimedBy == None && m.claimExpiresAt == None
    && m.attempts == 0 && m.sentOk == None && m.error == None
  }

  // ------------------------------------------------------------------ the calls

  /** A call to enqueue is accepted exactly with a good text and host and fewer than 64 active
      messages; then the new message is stored behind the active ones. */
  lemma EnqueueExactly(
      ms: seq<Message>, id: MsgId, text: Text, source: Source, target: Option<string>, now: int)
    ensures var (after, reply) := Enqueue(ms, id, text, source, target, now);
            && (reply.Ok? <==> GoodText(text) && GoodHost(target) && |ActiveOnly(ms)| < 64)
            && (reply == Err(InvalidRequest) <==> !GoodText(text) || !GoodHost(target))
            && (reply == Err(QueueFull) <==> GoodText(text) && GoodHost(target) && |ActiveOnly(ms)| >= 64)
            && (reply.Err? ==> after == ms)
            && (reply.Ok? ==>
                  && Enqueued(reply.value, DoEnqueue(id, text, source, target), now)
                  && ActiveOnly(after) == ActiveOnly(ms) + [reply.value]
                  && (|ms| < 128 ==> after == ms + [reply.value])
                  && forall m :: m in after ==> m in ms || m == reply.value)
  {
    hide CheckText, OptionalText, GoodText, GoodHost, Says, Hosts;
    TextAccepted(text);
    HostAccepted(target);
    var (after, reply) := Enqueue(ms, id, text, source, target, now);
    if reply.Ok? {
      FilterPlus(ms, [reply.value]);
      assert ActiveOnly([reply.value]) == [reply.value];
      TrimKeepsActive(ms + [reply.value]);
      assert forall m :: m in ms + [reply.value] ==> m in ms || m == reply.value;
    }
  }

  lemma ReleasedAt(ms: seq<Message>, now: int, i: nat)
    requires i < |ms|
    ensures |Release(ms, now)| == |ms|
    ensures if RunOut(ms[i], now) then Freed(ms[i], Release(ms, now)[i], now) else Release(ms, now)[i] == ms[i]
  {
  }

  /** A poll answers with the message it has taken or whose lease it has extended; every other
      message only loses a lease that has run out. */
  lemma PollExactly(ms: seq<Message>, clientArg: string, hostArg: Option<string>, now: int)
    ensures var (after, reply) := Poll(ms, clientArg, hostArg, now);
            var host := if hostArg == Some("") then None else hostArg;
            && |after| == |ms|
            && (reply.Ok? <==> GoodId(clientArg) && GoodHost(hostArg))
            && (reply.Err? ==> reply == Err(InvalidRequest) && after == ms)
            && (reply.Ok? ==>
                  && (reply.value.None? ==> forall j :: 0 <= j < |ms| ==> after[j] == Release(ms, now)[j])
                  && (reply.value.Some? ==>
                        exists i :: 0 <= i < |ms| && after[i] == reply.value.value
                          && Taken(ms[i], after[i], Trim(clientArg), host, now)
                          && forall j :: 0 <= j < |ms| && j != i ==> after[j] == Release(ms, now)[j]))
  {
    hide RequireNonEmpty, OptionalText, Release, GoodHost, GoodId, Trim, FindClaimed, FindEligible;
    IdAccepted(clientArg);
    HostAccepted(hostArg);
    var (after, reply) := Poll(ms, clientArg, hostArg, now);
    if reply.Ok? {
      assert |Release(ms, now)| == |ms| by { ReleaseSize(ms, now); }
      if reply.value.Some? {
        var i := Choose(Release(ms, now), Trim(clientArg), OptionalText(hostArg, MAX_ID_CHARS).value);
        ReleasedAt(ms, now, i);
        ChosenIsFree(Release(ms, now), Trim(clientArg), OptionalText(hostArg, MAX_ID_CHARS).value);
        assert after[i] == reply.value.value;
      }
    }
  }

  lemma ReleaseSize(ms: seq<Message>, now: int)
    ensures |Release(ms, now)| == |ms|
  {
  }

  lemma ChosenIsFree(ms: seq<Message>, client: string, host: Option<string>)
    ensures var i := Choose(ms, client, host); i < |ms| ==> ClaimedFor(ms[i], client) || Eligible(ms[i], host)
  {
  }

  /** Permission to send is given exactly to the client that holds the message; then only that
      message changes, otherwise nothing does. */
  lemma BeginExactly(ms: seq<Message>, clientArg: string, idArg: string, hostArg: Option<string>, now: int)
    requires forall i, j :: 0 <= i < j < |ms| ==> ms[i].id != ms[j].id
    ensures var (after, reply) := BeginSend(ms, clientArg, idArg, hostArg, now);
            var good := GoodId(clientArg) && GoodId(idArg) && GoodHost(hostArg);
            var known := exists m :: m in ms && m.id == Trim(idArg);
            && (reply == Err(InvalidRequest) <==> !good)
            && (reply == Err(MessageNotFound) <==> good && !known)
            && (reply.Ok? <==> good && exists m :: m in ms && m.id == Trim(idArg) && ClaimedFor(m, Trim(clientArg)))
            && (reply.Err? ==> after == ms && reply.error in {InvalidRequest, MessageNotFound, ClaimMismatch})
            && (reply.Ok? ==>
                  exists i :: 0 <= i < |ms| && ms[i].id == Trim(idArg) && after == ms[i := reply.value]
                    && Granted(ms[i], reply.value, Trim(clientArg), now))
  {
    hide RequireNonEmpty, OptionalText, GoodHost, GoodId, Trim;
    IdAccepted(clientArg);
    IdAccepted(idArg);
    HostAccepted(hostArg);
    var i := FindId(ms, Trim(idArg));
    if i < |ms| { assert ms[i] in ms; }
    OnlyOne(ms, Trim(idArg));
  }

  lemma OnlyOne(ms: seq<Message>, id: MsgId)
    requires forall i, j :: 0 <= i < j < |ms| ==> ms[i].id != ms[j].id
    ensures forall m :: m in ms && m.id == id ==> FindId(ms, id) < |ms| && m == ms[FindId(ms, id)]
  {
    forall m | m in ms && m.id == id ensures FindId(ms, id) < |ms| && m == ms[FindId(ms, id)] {
      var j :| 0 <= j < |ms| && ms[j] == m;
    }
  }

  predicate Known(ms: seq<Message>, id: MsgId) { exists m :: m in ms && m.id == id }

  /** The client is sending this message. */
  predicate Sending(ms: seq<Message>, client: string, id: MsgId) {
    exists m :: m in ms && m.id == id && m.status.Dispatching? && m.claimedBy == Some(client)
  }

  lemma SendingIs(ms: seq<Message>, client: string, id: MsgId)
    requires forall i, j :: 0 <= i < j < |ms| ==> ms[i].id != ms[j].id
    ensures var i := FindId(ms, id);
            && (Known(ms, id) <==> i < |ms|)
            && (Sending(ms, client, id) <==> i < |ms| && ms[i].status.Dispatching? && ms[i].claimedBy == Some(client))
  {
    var i := FindId(ms, id);
    if i < |ms| { assert ms[i] in ms; }
    OnlyOne(ms, id);
  }

  /** A report is accepted exactly from the client that is sending the message, with an error text
      that fits. */
  lemma AckExactly(
      ms: seq<Message>, clientArg: string, idArg: string, hostArg: Option<string>, sent: bool, error: Option<string>,
      now: int)
    requires forall i, j :: 0 <= i < j < |ms| ==> ms[i].id != ms[j].id
    ensures var reply := Ack(ms, clientArg, idArg, hostArg, sent, error, now).1;
            var good := GoodId(clientArg) && GoodId(idArg) && GoodHost(hostArg);
            var sending := Sending(ms, Trim(clientArg), Trim(idArg));
            var fits := sent || error.None? || |error.value| <= 2000;
            && (reply.Ok? <==> good && sending && fits)
            && (reply == Err(InvalidRequest) <==> !good || (sending && !fits))
            && (reply == Err(MessageNotFound) <==> good && !Known(ms, Trim(idArg)))
            && (reply == Err(DispatchMismatch) <==> good && Known(ms, Trim(idArg)) && !sending)
  {
    hide RequireNonEmpty, GoodHost, GoodId, Trim, Known, Sending, FindId;
    IdAccepted(clientArg);
    IdAccepted(idArg);
    HostAccepted(hostArg);
    SendingIs(ms, Trim(clientArg), Trim(idArg));
  }

  /** Then the message says what was reported, and no other message changes; otherwise nothing
      does. */
  lemma AckReports(
      ms: seq<Message>, clientArg: string, idArg: string, hostArg: Option<string>, sent: bool, error: Option<string>,
      now: int)
    requires forall i, j :: 0 <= i < j < |ms| ==> ms[i].id != ms[j].id
    ensures var (after, reply) := Ack(ms, clientArg, idArg, hostArg, sent, error, now);
            if GoodId(clientArg) && GoodId(idArg) && GoodHost(hostArg) && Sending(ms, Trim(clientArg), Trim(idArg))
            then
              exists i :: 0 <= i < |ms| && ms[i].id == Trim(idArg) && i < |after| && after == ms[i := after[i]]
                && Reported(ms[i], after[i], Trim(clientArg), sent, error, now)
                && (reply.Ok? ==> after[i] == reply.value)
            else after == ms
  {
    hide RequireNonEmpty, GoodHost, GoodId, Trim, Known, Sending, FindId;
    IdAccepted(clientArg);
    IdAccepted(idArg);
    HostAccepted(hostArg);
    SendingIs(ms, Trim(clientArg), Trim(idArg));
    var i := FindId(ms, Trim(idArg));
    FindIs(ms, Trim(idArg));
    var (after, reply) := Ack(ms, clientArg, idArg, hostArg, sent, error, now);
    if i < |ms| {
      assert after == ms || after == ms[i := after[i]];
    }
  }

  lemma FindIs(ms: seq<Message>, id: MsgId)
    ensures FindId(ms, id) <= |ms| && (FindId(ms, id) < |ms| ==> ms[FindId(ms, id)].id == id)
  {
  }

  // --------------------------------------------------------------------- steps

  lemma DistinctIds(w: World)
    requires WorldInv(w)
    ensures forall i, j :: 0 <= i < j < |w.ms| ==> w.ms[i].id != w.ms[j].id
    ensures forall m :: m in w.ms ==> m.id in w.at
  {
    forall i, j | 0 <= i < j < |w.ms| ensures w.ms[i].id != w.ms[j].id {
      assert Apart(w.at, w.ms[i], w.ms[j]);
    }
  }

  lemma ReleaseBecomes(ms: seq<Message>, op: Op, now: int, b: Message)
    requires (op.DoPoll? || op.DoStatus?) && b in Release(ms, now)
    ensures exists a :: a in ms && Becomes(a, b, op, now)
  {
    hide Freed, Becomes;
    var i :| 0 <= i < |Release(ms, now)| && Release(ms, now)[i] == b;
    ReleasedAt(ms, now, i);
    FreedBecomes(ms[i], b, op, now);
  }

  lemma FreedBecomes(a: Message, b: Message, op: Op, now: int)
    requires b == a || ((op.DoPoll? || op.DoStatus?) && Freed(a, b, now))
    ensures Becomes(a, b, op, now)
  {
  }

  /** Every stored message was just enqueued, or is what the call made of a message stored
      before. */
  lemma StepBecomes(w: World, op: Op, now: int, b: Message)
    requires WorldInv(w) && (op.DoEnqueue? ==> op.id !in w.at) && b in Next(w, op, now).ms
    ensures (Enqueued(b, op, now) && b.id !in w.at) || exists a :: a in w.ms && Becomes(a, b, op, now)
  {
    hide WorldInv, Enqueue, Poll, BeginSend, Ack, Release, Enqueued, Becomes, Freed, Taken, Granted, Reported, GoodId,
      GoodHost,
      Trim, Sending;
    DistinctIds(w);
    if b in w.ms {
      FreedBecomes(b, b, op, now);
    } else {
      match op
      case DoEnqueue(id, text, source, target) =>
        EnqueueExactly(w.ms, id, text, source, target, now);
        EnqueuedId(b, op, now);
      case DoPoll(client, host) => PollBecomes(w.ms, client, host, now, b);
      case DoBegin(client, id, host) => BeginBecomes(w.ms, client, id, host, now, b);
      case DoAck(client, id, host, sent, error) => AckBecomes(w.ms, client, id, host, sent, error, now, b);
      case DoStatus => ReleaseBecomes(w.ms, op, now, b);
    }
  }

  lemma EnqueuedId(b: Message, op: Op, now: int)
    ensures Enqueued(b, op, now) ==> op.DoEnqueue? && b.id == op.id
  {
  }

  lemma PollBecomes(ms: seq<Message>, client: string, host: Option<string>, now: int, b: Message)
    requires b in Poll(ms, client, host, now).0 && b !in ms
    ensures exists a :: a in ms && Becomes(a, b, DoPoll(client, host), now)
  {
    hide Poll, Release, Becomes, Taken, GoodId, GoodHost, Trim;
    PollExactly(ms, client, host, now);
    ReleaseSize(ms, now);
    var (after, reply) := Poll(ms, client, host, now);
    var j :| 0 <= j < |after| && after[j] == b;
    if b in Release(ms, now) {
      ReleaseBecomes(ms, DoPoll(client, host), now, b);
    } else {
      var h := if host == Some("") then None else host;
      assert Taken(ms[j], b, Trim(client), h, now);
      TakenBecomes(ms[j], b, client, host, now);
    }
  }

  lemma TakenBecomes(a: Message, b: Message, client: string, host: Option<string>, now: int)
    requires GoodId(client) && GoodHost(host) && Taken(a, b, Trim(client), if host == Some("") then None else host, now)
    ensures Becomes(a, b, DoPoll(client, host), now)
  {
    hide Trim;
  }

  lemma BeginBecomes(ms: seq<Message>, client: string, id: string, host: Option<string>, now: int, b: Message)
    requires b in BeginSend(ms, client, id, host, now).0 && b !in ms
    requires forall i, j :: 0 <= i < j < |ms| ==> ms[i].id != ms[j].id
    ensures exists a :: a in ms && Becomes(a, b, DoBegin(client, id, host), now)
  {
    hide BeginSend, Granted, GoodId, GoodHost, Trim;
    BeginExactly(ms, client, id, host, now);
    var (after, reply) := BeginSend(ms, client, id, host, now);
    var i :| 0 <= i < |ms| && ms[i].id == Trim(id) && after == ms[i := reply.value]
             && Granted(ms[i], reply.value, Trim(client), now);
    NamesTrimmed(id);
    assert Becomes(ms[i], reply.value, DoBegin(client, id, host), now);
  }

  lemma NamesTrimmed(arg: string)
    ensures GoodId(arg) <==> Names(arg, Trim(arg))
  {
    hide Trim;
  }

  lemma AckBecomes(
      ms: seq<Message>, client: string, id: string, host: Option<string>, sent: bool, error: Option<string>, now: int,
      b: Message)
    requires b in Ack(ms, client, id, host, sent, error, now).0 && b !in ms
    requires forall i, j :: 0 <= i < j < |ms| ==> ms[i].id != ms[j].id
    ensures exists a :: a in ms && Becomes(a, b, DoAck(client, id, host, sent, error), now)
  {
    hide Ack, Reported, GoodId, GoodHost, Trim, Sending;
    AckReports(ms, client, id, host, sent, error, now);
    var (after, reply) := Ack(ms, client, id, host, sent, error, now);
    var i :| 0 <= i < |ms| && ms[i].id == Trim(id) && i < |after| && after == ms[i := after[i]]
             && Reported(ms[i], after[i], Trim(client), sent, error, now);
    NamesTrimmed(id);
    assert Becomes(ms[i], after[i], DoAck(client, id, host, sent, error), now);
  }

  // --------------------------------------------------------------------- runs

  lemma StepOfRun(ws: seq<World>, ops: seq<Op>, times: seq<int>, k: nat)
    requires IsRun(ws, ops, times) && 0 < k < |ws|
    ensures WorldInv(ws[k - 1]) && WorldInv(ws[k]) && ws[k] == Next(ws[k - 1], ops[k - 1], times[k - 1])
    ensures ops[k - 1].DoEnqueue? ==> ops[k - 1].id !in ws[k - 1].at
  {
    hide WorldInv, Next;
    RunInv(ws, ops, times, k - 1);
    RunInv(ws, ops, times, k);
  }

  lemma BecomesKeeps(a: Message, b: Message, op: Op, now: int)
    requires Becomes(a, b, op, now)
    ensures SameLetter(a, b) && (!Active(a) ==> b == a)
  {
  }

  /** In every run, every stored message carries the text, source and target of the one call that
      enqueued it. */
  lemma {:induction false} EveryMessageWasEnqueued(ws: seq<World>, ops: seq<Op>, times: seq<int>, k: nat, m: Message)
    returns (n: nat)
    requires IsRun(ws, ops, times) && k < |ws| && m in ws[k].ms
    ensures n < k && ops[n].DoEnqueue? && ops[n].id == m.id && m.createdAt == times[n]
    ensures Says(ops[n].text, m.text) && m.source == ops[n].source && Hosts(ops[n].target, m.target)
  {
    hide WorldInv, Next, Becomes, Says, Hosts;
    assert k > 0;
    StepOfRun(ws, ops, times, k);
    StepBecomes(ws[k - 1], ops[k - 1], times[k - 1], m);
    if Enqueued(m, ops[k - 1], times[k - 1]) {
      n := k - 1;
    } else {
      var a :| a in ws[k - 1].ms && Becomes(a, m, ops[k - 1], times[k - 1]);
      BecomesKeeps(a, m, ops[k - 1], times[k - 1]);
      n := EveryMessageWasEnqueued(ws, ops, times, k - 1, a);
    }
  }

  lemma IdsStay(w: World, op: Op, now: int)
    ensures w.at.Keys <= Next(w, op, now).at.Keys
  {
    hide Enqueue, Poll, BeginSend, Ack, Release;
  }

  /** A settled message never changes again, for as long as it is stored. */
  lemma {:induction false} SettledForGood(
      ws: seq<World>, ops: seq<Op>, times: seq<int>, i: nat, j: nat, m: Message, later: Message)
    requires IsRun(ws, ops, times) && i <= j < |ws| && m in ws[i].ms && !Active(m)
    requires later in ws[j].ms && later.id == m.id
    ensures later == m && m.id in ws[j].at
    decreases j
  {
    hide WorldInv, Next, Becomes, Enqueued, Active;
    RunInv(ws, ops, times, j);
    DistinctIds(ws[j]);
    if i == j {
      DistinctIds(ws[i]);
    } else {
      StepOfRun(ws, ops, times, j);
      StepBecomes(ws[j - 1], ops[j - 1], times[j - 1], later);
      IdKnown(ws, ops, times, i, j - 1, m);
      var a :| a in ws[j - 1].ms && Becomes(a, later, ops[j - 1], times[j - 1]);
      BecomesKeeps(a, later, ops[j - 1], times[j - 1]);
      SettledForGood(ws, ops, times, i, j - 1, m, a);
    }
  }

  lemma {:induction false} IdKnown(ws: seq<World>, ops: seq<Op>, times: seq<int>, i: nat, j: nat, m: Message)
    requires IsRun(ws, ops, times) && i <= j < |ws| && m in ws[i].ms
    ensures m.id in ws[j].at
    decreases j
  {
    hide WorldInv, Next;
    if i == j {
      RunInv(ws, ops, times, j);
      DistinctIds(ws[j]);
    } else {
      IdKnown(ws, ops, times, i, j - 1, m);
      IdsStay(ws[j - 1], ops[j - 1], times[j - 1]);
    }
  }

  /** The report that settled a message: from the client that was sending it. */
  predicate ReportedBy(m: Message, op: Op) {
    && op.DoAck? && GoodId(op.client) && Names(op.idArg, m.id) && m.claimedBy == Some(Trim(op.client))
    && m.status == (if op.sent then Sent else Failed) && m.sentOk == Some(op.sent)
    && (m.error == None || (!op.sent && m.error == op.error))
    && (!op.sent && op.error.Some? && 0 < |op.error.value| <= 2000 ==> m.error == op.error)
  }

  /** In every run, a settled message says what the client that was sending it reported. */
  lemma {:induction false} SettledWasReported(ws: seq<World>, ops: seq<Op>, times: seq<int>, k: nat, m: Message)
    returns (n: nat)
    requires IsRun(ws, ops, times) && k < |ws| && m in ws[k].ms && !Active(m)
    ensures n < k && ReportedBy(m, ops[n])
    ensures exists a :: a in ws[n].ms && a.id == m.id && a.status.Dispatching? && a.claimedBy == m.claimedBy
  {
    hide WorldInv, Next, Becomes, ReportedBy, Active;
    assert k > 0;
    StepOfRun(ws, ops, times, k);
    StepBecomes(ws[k - 1], ops[k - 1], times[k - 1], m);
    NewIsActive(m, ops[k - 1], times[k - 1]);
    var a :| a in ws[k - 1].ms && Becomes(a, m, ops[k - 1], times[k - 1]);
    if a == m {
      n := SettledWasReported(ws, ops, times, k - 1, m);
    } else {
      ShapeAt(ws[k - 1], a);
      SettlingReports(a, m, ops[k - 1], times[k - 1]);
      n := k - 1;
    }
  }

  lemma NewIsActive(m: Message, op: Op, now: int)
    ensures Enqueued(m, op, now) ==> Active(m)
  {
  }

  lemma ShapeAt(w: World, m: Message)
    requires WorldInv(w) && m in w.ms
    ensures Shape(m)
  {
    hide Shape, Pairwise, Bounded;
    var i :| 0 <= i < |w.ms| && w.ms[i] == m;
  }

  lemma SettlingReports(a: Message, m: Message, op: Op, now: int)
    requires Becomes(a, m, op, now) && a != m && !Active(m) && Shape(a)
    ensures ReportedBy(m, op) && a.id == m.id && a.status.Dispatching? && a.claimedBy == m.claimedBy
  {
    hide Trim;
  }

  /** In every run, a message is newly claimed only by a poll that carries the host it was
      enqueued for, if it was enqueued for one. */
  lemma NewClaimForItsHost(ws: seq<World>, ops: seq<Op>, times: seq<int>, k: nat, m: Message) returns (n: nat)
    requires IsRun(ws, ops, times) && 0 < k < |ws| && m in ws[k].ms && m.status.Claimed?
    requires forall a :: a in ws[k - 1].ms && a.id == m.id ==>
      a != m && (m.claimedBy.Some? ==> !Has(a, m.claimedBy.value, times[k - 1]))
    ensures n < k && ops[n].DoEnqueue? && ops[n].id == m.id
    ensures ops[k - 1].DoPoll? && m.claimedBy == Some(Trim(ops[k - 1].client))
    ensures ops[n].target == None || ops[n].target == Some("") || ops[n].target == ops[k - 1].host
  {
    hide WorldInv, Next, Becomes, Says, Trim;
    StepOfRun(ws, ops, times, k);
    StepBecomes(ws[k - 1], ops[k - 1], times[k - 1], m);
    var a :| a in ws[k - 1].ms && Becomes(a, m, ops[k - 1], times[k - 1]);
    BecomesKeeps(a, m, ops[k - 1], times[k - 1]);
    NewlyTaken(a, m, ops[k - 1], times[k - 1]);
    n := EveryMessageWasEnqueued(ws, ops, times, k, m);
  }

  lemma NewlyTaken(a: Message, m: Message, op: Op, now: int)
    requires Becomes(a, m, op, now) && a != m && m.status.Claimed?
    requires m.claimedBy.Some? ==> !Has(a, m.claimedBy.value, now)
    ensures op.DoPoll? && m.claimedBy == Some(Trim(op.client))
    ensures m.target == None || m.target == (if op.host == Some("") then None else op.host)
  {
    hide Trim;
  }
}
