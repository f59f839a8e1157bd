/** What every run of the message queue keeps, and what each poll delivers. */
module BridgeQueueProofs {
  import opened Collections
  import opened JsText
  import opened BridgeQueueModel

  /** When a message was enqueued, counting from zero. */
  type Serials = map<MsgId, nat>

  /** Which fields go together in a stored message. */
  ghost predicate Shape(m: Message) {
    && (m.status.Pending? <==> m.claimedBy.None?)
    && (m.status.Claimed? <==> m.claimExpiresAt.Some?)
    && (Active(m) <==> m.sentOk.None?)
    && (m.status.Sent? ==> m.sentOk == Some(true)) && (m.status.Failed? ==> m.sentOk == Some(false))
    && (m.error.Some? ==> m.status.Failed?)
    && (m.target.Some? ==> m.target.value != "" && |m.target.value| <= MAX_ID_CHARS)
  }

  /** Two messages of the queue, the first stored in front of the second. */
  ghost predicate Apart(at: Serials, a: Message, b: Message) {
    && a.id != b.id
    && !(a.status.Claimed? && b.status.Claimed? && a.claimedBy == b.claimedBy)
    && (Active(a) && Active(b) && a.id in at && b.id in at ==> at[a.id] < at[b.id])
  }

  ghost predicate Each(at: Serials, ms: seq<Message>) {
    forall i :: 0 <= i < |ms| ==> Shape(ms[i]) && ms[i].id in at
  }

  ghost predicate Pairwise(at: Serials, ms: seq<Message>) {
    forall i, j :: 0 <= i < j < |ms| ==> Apart(at, ms[i], ms[j])
  }

  ghost predicate Bounded(ms: seq<Message>) {
    |ActiveOnly(ms)| <= MAX_QUEUE && |ms| <= 2 * MAX_QUEUE
  }

  ghost predicate Inv(at: Serials, ms: seq<Message>) {
    Each(at, ms) && Pairwise(at, ms) && Bounded(ms)
  }

  // ------------------------------------------------------------------ filters

  lemma {:induction false} FilterMembers(ms: seq<Message>, m: Message)
    ensures m in ActiveOnly(ms) <==> m in ms && Active(m)
    ensures m in SettledOnly(ms) <==> m in ms && !Active(m)
  {
    if ms != [] {
      FilterMembers(ms[1..], m);
      assert m in ms <==> m == ms[0] || m in ms[1..];
    }
  }

  lemma Associate<T>(x: seq<T>, y: seq<T>, z: seq<T>)
    ensures (x + y) + z == x + (y + z)
  {
  }

  lemma {:induction false} ActivePlus(a: seq<Message>, b: seq<Message>)
    ensures ActiveOnly(a + b) == ActiveOnly(a) + ActiveOnly(b)
  {
    if a == [] {
      assert a + b == b;
    } else {
      assert (a + b)[1..] == a[1..] + b && (a + b)[0] == a[0];
      ActivePlus(a[1..], b);
      Associate(if Active(a[0]) then [a[0]] else [], ActiveOnly(a[1..]), ActiveOnly(b));
    }
  }

  lemma {:induction false} SettledPlus(a: seq<Message>, b: seq<Message>)
    ensures SettledOnly(a + b) == SettledOnly(a) + SettledOnly(b)
  {
    if a == [] {
      assert a + b == b;
    } else {
      assert (a + b)[1..] == a[1..] + b && (a + b)[0] == a[0];
      SettledPlus(a[1..], b);
      Associate(if Active(a[0]) then [] else [a[0]], SettledOnly(a[1..]), SettledOnly(b));
    }
  }

  lemma FilterPlus(a: seq<Message>, b: seq<Message>)
    ensures ActiveOnly(a + b) == ActiveOnly(a) + ActiveOnly(b)
    ensures SettledOnly(a + b) == SettledOnly(a) + SettledOnly(b)
  {
    ActivePlus(a, b);
    SettledPlus(a, b);
  }

  lemma {:induction false} AllSame(ms: seq<Message>)
    ensures (forall m :: m in ms ==> Active(m)) ==> ActiveOnly(ms) == ms && SettledOnly(ms) == []
    ensures (forall m :: m in ms ==> !Active(m)) ==> SettledOnly(ms) == ms && ActiveOnly(ms) == []
  {
    if ms != [] {
      AllSame(ms[1..]);
      assert ms == [ms[0]] + ms[1..];
    }
  }

  lemma TailPairwise(at: Serials, ms: seq<Message>)
    requires ms != [] && Pairwise(at, ms)
    ensures Pairwise(at, ms[1..])
    ensures forall m :: m in ms[1..] ==> Apart(at, ms[0], m)
  {
    forall m | m in ms[1..] ensures Apart(at, ms[0], m) {
      var j :| 0 <= j < |ms[1..]| && ms[1..][j] == m;
      assert Apart(at, ms[0], ms[j + 1]);
    }
  }

  lemma ConsPairwise(at: Serials, m: Message, rest: seq<Message>)
    requires Pairwise(at, rest) && forall x :: x in rest ==> Apart(at, m, x)
    ensures Pairwise(at, [m] + rest)
  {
  }

  lemma {:induction false} FilterPairwise(at: Serials, ms: seq<Message>)
    requires Pairwise(at, ms)
    ensures Pairwise(at, ActiveOnly(ms)) && Pairwise(at, SettledOnly(ms))
  {
    if ms != [] {
      hide Apart, Pairwise;
      TailPairwise(at, ms);
      FilterPairwise(at, ms[1..]);
      forall x ensures (x in ActiveOnly(ms[1..]) ==> x in ms[1..]) && (x in SettledOnly(ms[1..]) ==> x in ms[1..]) {
        FilterMembers(ms[1..], x);
      }
      ConsPairwise(at, ms[0], ActiveOnly(ms[1..]));
      ConsPairwise(at, ms[0], SettledOnly(ms[1..]));
      assert ActiveOnly(ms) == [ms[0]] + ActiveOnly(ms[1..]) || ActiveOnly(ms) == ActiveOnly(ms[1..]);
      assert SettledOnly(ms) == [ms[0]] + SettledOnly(ms[1..]) || SettledOnly(ms) == SettledOnly(ms[1..]);
    }
  }

  lemma LastOfFacts(at: Serials, ms: seq<Message>, n: nat)
    requires Pairwise(at, ms)
    ensures Pairwise(at, LastOf(ms, n)) && |LastOf(ms, n)| <= n
    ensures forall m :: m in LastOf(ms, n) ==> m in ms
  {
  }

  // ----------------------------------------------------------------- trimming

  /** Trimming drops no active message and keeps their order; of the settled ones it keeps the
      latest. */
  lemma TrimKeepsActive(ms: seq<Message>)
    ensures ActiveOnly(TrimSettled(ms)) == ActiveOnly(ms)
    ensures |ms| > 2 * MAX_QUEUE ==> SettledOnly(TrimSettled(ms)) == LastOf(SettledOnly(ms), MAX_QUEUE)
    ensures forall m :: m in TrimSettled(ms) ==> m in ms
  {
    if |ms| > 2 * MAX_QUEUE {
      var settled, active := LastOf(SettledOnly(ms), MAX_QUEUE), ActiveOnly(ms);
      forall m ensures (m in settled ==> m in ms && !Active(m)) && (m in active ==> m in ms && Active(m)) {
        FilterMembers(ms, m);
      }
      AllSame(settled);
      AllSame(active);
      FilterPlus(settled, active);
    }
  }

  lemma SettledBeforeActive(at: Serials, ms: seq<Message>, a: Message, b: Message)
    requires Pairwise(at, ms) && a in ms && b in ms && !Active(a) && Active(b)
    ensures Apart(at, a, b)
  {
    var i :| 0 <= i < |ms| && ms[i] == a;
    var j :| 0 <= j < |ms| && ms[j] == b;
    assert if i < j then Apart(at, ms[i], ms[j]) else Apart(at, ms[j], ms[i]);
  }

  lemma TrimInv(at: Serials, ms: seq<Message>)
    requires Each(at, ms) && Pairwise(at, ms) && |ActiveOnly(ms)| <= MAX_QUEUE
    ensures Inv(at, TrimSettled(ms))
  {
    TrimKeepsActive(ms);
    if |ms| > 2 * MAX_QUEUE {
      hide Apart, Shape;
      var settled, active := LastOf(SettledOnly(ms), MAX_QUEUE), ActiveOnly(ms);
      FilterPairwise(at, ms);
      LastOfFacts(at, SettledOnly(ms), MAX_QUEUE);
      forall a, b | a in settled && b in active ensures Apart(at, a, b) {
        FilterMembers(ms, a);
        FilterMembers(ms, b);
        SettledBeforeActive(at, ms, a, b);
      }
      PlusPairwise(at, settled, active);
      forall i | 0 <= i < |settled + active| ensures Shape((settled + active)[i]) && (settled + active)[i].id in at {
        assert (settled + active)[i] in ms;
      }
    }
  }

  lemma PlusPairwise(at: Serials, a: seq<Message>, b: seq<Message>)
    requires Pairwise(at, a) && Pairwise(at, b) && forall x, y :: x in a && y in b ==> Apart(at, x, y)
    ensures Pairwise(at, a + b)
  {
    hide Apart;
    forall i, j | 0 <= i < j < |a + b| ensures Apart(at, (a + b)[i], (a + b)[j]) {
      if i < |a| <= j {
        assert a[i] in a && b[j - |a|] in b;
      }
    }
  }

  // ---------------------------------------------------------------- releasing

  lemma {:induction false} ReleaseActive(ms: seq<Message>, now: int)
    ensures |ActiveOnly(Release(ms, now))| == |ActiveOnly(ms)|
  {
    if ms != [] {
      assert Release(ms, now)[1..] == Release(ms[1..], now);
      ReleaseActive(ms[1..], now);
    }
  }

  lemma ReleaseInv(at: Serials, ms: seq<Message>, now: int)
    requires Inv(at, ms)
    ensures Inv(at, Release(ms, now))
  {
    ReleaseActive(ms, now);
    var r := Release(ms, now);
    forall i, j | 0 <= i < j < |r| ensures Apart(at, r[i], r[j]) {
      assert Apart(at, ms[i], ms[j]);
    }
  }

  // ------------------------------------------------------- replacing a message

  lemma {:induction false} UpdateActive(ms: seq<Message>, i: nat, m: Message)
    requires i < |ms|
    ensures |ActiveOnly(ms[i := m])|
        == |ActiveOnly(ms)| - (if Active(ms[i]) then 1 else 0) + (if Active(m) then 1 else 0)
  {
    if i == 0 {
      assert ms[0 := m][1..] == ms[1..];
    } else {
      assert ms[i := m][1..] == ms[1..][i - 1 := m];
      UpdateActive(ms[1..], i - 1, m);
    }
  }

  /** A message may change to another state of itself if that does not make it active again
      and it does not become a second claim of its client. */
  lemma UpdateInv(at: Serials, ms: seq<Message>, i: nat, m: Message)
    requires Inv(at, ms) && i < |ms| && m.id == ms[i].id && Shape(m) && (Active(m) ==> Active(ms[i]))
    requires m.status.Claimed? ==> forall j :: 0 <= j < |ms| && j != i ==>
        !(ms[j].status.Claimed? && ms[j].claimedBy == m.claimedBy)
    ensures Inv(at, ms[i := m])
  {
    UpdateActive(ms, i, m);
    var r := ms[i := m];
    forall a, b | 0 <= a < b < |r| ensures Apart(at, r[a], r[b]) {
      assert Apart(at, ms[a], ms[b]);
    }
  }

  // --------------------------------------------------------------- operations

  lemma AppendInv(at: Serials, ms: seq<Message>, m: Message, serial: nat)
    requires Inv(at, ms) && m.id !in at && Shape(m) && m.status.Pending?
    requires forall x :: x in at ==> at[x] < serial
    ensures Each(at[m.id := serial], ms + [m]) && Pairwise(at[m.id := serial], ms + [m])
  {
    var later := at[m.id := serial];
    forall i, j | 0 <= i < j < |ms + [m]| ensures Apart(later, (ms + [m])[i], (ms + [m])[j]) {
      if j < |ms| {
        assert Apart(at, ms[i], ms[j]);
      }
    }
  }

  lemma EnqueueInv(
      at: Serials, ms: seq<Message>, id: MsgId, text: Text, source: Source, target: Option<string>, now: int,
      serial: nat)
    requires Inv(at, ms) && id !in at && forall x :: x in at ==> at[x] < serial
    ensures var (after, reply) := Enqueue(ms, id, text, source, target, now);
            && Inv(if reply.Ok? then at[id := serial] else at, after)
            && (reply.Ok? ==> ActiveOnly(after) == ActiveOnly(ms) + [reply.value])
  {
    hide Inv, Each, Pairwise, Trim;
    var (after, reply) := Enqueue(ms, id, text, source, target, now);
    if reply.Ok? {
      var m := reply.value;
      AppendInv(at, ms, m, serial);
      FilterPlus(ms, [m]);
      assert ActiveOnly([m]) == [m];
      TrimInv(at[id := serial], ms + [m]);
      TrimKeepsActive(ms + [m]);
    }
  }

  lemma PollInv(at: Serials, ms: seq<Message>, client: string, host: Option<string>, now: int)
    requires Inv(at, ms)
    ensures Inv(at, Poll(ms, client, host, now).0)
  {
    var (after, reply) := Poll(ms, client, host, now);
    if reply.Ok? {
      var c, h := RequireNonEmpty(client, MAX_ID_CHARS).value, OptionalText(host, MAX_ID_CHARS).value;
      var free := Release(ms, now);
      ReleaseInv(at, ms, now);
      var i := Choose(free, c, h);
      hide RequireNonEmpty, Release;
      if i < |free| {
        LeaseInv(at, free, c, h, now);
      }
    }
  }

  lemma LeaseInv(at: Serials, free: seq<Message>, c: string, h: Option<string>, now: int)
    requires Inv(at, free) && Choose(free, c, h) < |free|
    ensures Inv(at, free[Choose(free, c, h) := Leased(free[Choose(free, c, h)], c, now)])
  {
    var i := Choose(free, c, h);
    var m := Leased(free[i], c, now);
    assert Shape(free[i]);
    forall j | 0 <= j < |free| && j != i ensures !(free[j].status.Claimed? && free[j].claimedBy == m.claimedBy) {
      if FindClaimed(free, c) < |free| {
        assert if i < j then Apart(at, free[i], free[j]) else Apart(at, free[j], free[i]);
      }
    }
    hide Each, Pairwise, Bounded, Choose;
    UpdateInv(at, free, i, m);
  }

  lemma BeginInv(at: Serials, ms: seq<Message>, client: string, id: string, host: Option<string>, now: int)
    requires Inv(at, ms)
    ensures Inv(at, BeginSend(ms, client, id, host, now).0)
  {
    var (after, reply) := BeginSend(ms, client, id, host, now);
    if reply.Ok? {
      var i := FindId(ms, RequireNonEmpty(id, MAX_ID_CHARS).value);
      assert Shape(ms[i]);
      hide Pairwise, Bounded, RequireNonEmpty;
      UpdateInv(at, ms, i, Begun(ms[i], now));
    }
  }

  lemma AckInv(
      at: Serials, ms: seq<Message>, client: string, id: string, host: Option<string>, sent: bool,
      error: Option<string>, now: int)
    requires Inv(at, ms)
    ensures Inv(at, Ack(ms, client, id, host, sent, error, now).0)
  {
    var (after, reply) := Ack(ms, client, id, host, sent, error, now);
    if after != ms {
      var i := FindId(ms, RequireNonEmpty(id, MAX_ID_CHARS).value);
      assert Shape(ms[i]);
      hide Pairwise, Bounded, RequireNonEmpty;
      UpdateInv(at, ms, i, after[i]);
    }
  }

  // --------------------------------------------------------------------- runs

  datatype Op =
    | DoEnqueue(id: MsgId, text: Text, source: Source, target: Option<string>)
    | DoPoll(client: string, host: Option<string>)
    | DoBegin(client: string, idArg: string, host: Option<string>)
    | DoAck(client: string, idArg: string, host: Option<string>, sent: bool, error: Option<string>)
    | DoStatus

  datatype World = World(ms: seq<Message>, at: Serials, next: nat)

  function Next(w: World, op: Op, now: int): World {
    match op
    case DoEnqueue(id, text, source, target) =>
      var (after, reply) := Enqueue(w.ms, id, text, source, target, now);
      if reply.Ok? then World(after, w.at[id := w.next], w.next + 1) else w.(ms := after)
    case DoPoll(client, host) => w.(ms := Poll(w.ms, client, host, now).0)
    case DoBegin(client, id, host) => w.(ms := BeginSend(w.ms, client, id, host, now).0)
    case DoAck(client, id, host, sent, error) => w.(ms := Ack(w.ms, client, id, host, sent, error, now).0)
    case DoStatus => w.(ms := Release(w.ms, now))
  }

  ghost predicate WorldInv(w: World) {
    Inv(w.at, w.ms) && forall x :: x in w.at ==> w.at[x] < w.next
  }

  /** Every operation keeps the queue discipline; message ids are new. */
  lemma StepInv(w: World, op: Op, now: int)
    requires WorldInv(w) && (op.DoEnqueue? ==> op.id !in w.at)
    ensures WorldInv(Next(w, op, now))
  {
    hide Inv, Enqueue, Poll, BeginSend, Ack;
    match op
    case DoEnqueue(id, text, source, target) => EnqueueInv(w.at, w.ms, id, text, source, target, now, w.next);
    case DoPoll(client, host) => PollInv(w.at, w.ms, client, host, now);
    case DoBegin(client, id, host) => BeginInv(w.at, w.ms, client, id, host, now);
    case DoAck(client, id, host, sent, error) => AckInv(w.at, w.ms, client, id, host, sent, error, now);
    case DoStatus => ReleaseInv(w.at, w.ms, now);
  }

  ghost predicate IsRun(ws: seq<World>, ops: seq<Op>, times: seq<int>) {
    && |ws| == |ops| + 1 && |times| == |ops| && ws[0] == World([], map[], 0)
    && forall i :: 0 <= i < |ops| ==>
         (ops[i].DoEnqueue? ==> ops[i].id !in ws[i].at) && ws[i + 1] == Next(ws[i], ops[i], times[i])
  }

  lemma {:induction false} RunInv(ws: seq<World>, ops: seq<Op>, times: seq<int>, i: nat)
    requires IsRun(ws, ops, times) && i < |ws|
    ensures WorldInv(ws[i])
  {
    if i > 0 {
      hide WorldInv, Next;
      RunInv(ws, ops, times, i - 1);
      StepInv(ws[i - 1], ops[i - 1], times[i - 1]);
    }
  }

  /** In every state at most 64 messages are active and 128 stored, and no client holds two
      claims. */
  lemma QueueBounds(ws: seq<World>, ops: seq<Op>, times: seq<int>, i: nat, a: nat, b: nat)
    requires IsRun(ws, ops, times) && i < |ws|
    ensures |ActiveOnly(ws[i].ms)| <= 64 && |ws[i].ms| <= 128
    ensures (a < |ws[i].ms| && b < |ws[i].ms| && ws[i].ms[a].status.Claimed? && ws[i].ms[b].status.Claimed?
             && ws[i].ms[a].claimedBy == ws[i].ms[b].claimedBy) ==> a == b
  {
    RunInv(ws, ops, times, i);
    var ms := ws[i].ms;
    if a < b < |ms| { assert Apart(ws[i].at, ms[a], ms[b]); }
    if b < a < |ms| { assert Apart(ws[i].at, ms[b], ms[a]); }
  }

  // ------------------------------------------------------------ what a poll gets

  /** A message this poll could newly claim: pending, or held under a lease that has run out. */
  ghost predicate Claimable(m: Message, host: Option<string>, now: int) {
    && (m.status.Pending? || Lapsed(m, now))
    && (m.target.None? || m.target == host)
  }

  /** The lease this client still has. */
  ghost predicate Holds(m: Message, client: string, now: int) {
    ClaimedFor(m, client) && !Lapsed(m, now)
  }

  /** A valid poll gets the message its client still holds, if any; otherwise the oldest
      claimable one, counting those whose lease has just run out; otherwise nothing. */
  lemma PollDelivers(
      w: World, clientArg: string, hostArg: Option<string>, client: string, host: Option<string>, now: int)
    requires WorldInv(w)
    requires RequireNonEmpty(clientArg, MAX_ID_CHARS) == Ok(client) && OptionalText(hostArg, MAX_ID_CHARS) == Ok(host)
    ensures var (after, reply) := Poll(w.ms, clientArg, hostArg, now);
            && reply.Ok?
            && (reply.value.None? <==> forall m :: m in w.ms ==> !Holds(m, client, now) && !Claimable(m, host, now))
            && (reply.value.Some? ==>
                  exists i :: 0 <= i < |w.ms| && reply.value.value.id == w.ms[i].id
                    && reply.value.value == after[i] && after[i].claimedBy == Some(client)
                         && after[i].claimExpiresAt == Some(now + CLAIM_TTL_MS)
                    && (if exists m :: m in w.ms && Holds(m, client, now) then Holds(w.ms[i], client, now)
                        else Claimable(w.ms[i], host, now)
                             && forall j :: 0 <= j < |w.ms| && j != i && Claimable(w.ms[j], host, now) ==>
                                  w.at[w.ms[i].id] < w.at[w.ms[j].id]))
  {
    var free := Release(w.ms, now);
    ReleasedMeans(w.ms, client, host, now);
    var i := Choose(free, client, host);
    hide Bounded, Release;
    if i < |free| {
      if FindClaimed(free, client) < |free| {
        assert Holds(w.ms[i], client, now);
      } else {
        forall m | m in w.ms ensures !Holds(m, client, now) {
          var j :| 0 <= j < |w.ms| && w.ms[j] == m;
          assert !ClaimedFor(free[j], client);
        }
        forall j | 0 <= j < |w.ms| && j != i && Claimable(w.ms[j], host, now)
            ensures w.at[w.ms[i].id] < w.at[w.ms[j].id] {
          assert Eligible(free[j], host);
          assert j > i;
          assert Apart(w.at, w.ms[i], w.ms[j]);
        }
      }
    } else {
      forall m | m in w.ms ensures !Holds(m, client, now) && !Claimable(m, host, now) {
        var j :| 0 <= j < |w.ms| && w.ms[j] == m;
        assert !ClaimedFor(free[j], client) && !Eligible(free[j], host);
      }
    }
  }

  lemma ReleasedMeans(ms: seq<Message>, client: string, host: Option<string>, now: int)
    ensures |Release(ms, now)| == |ms|
    ensures forall j :: 0 <= j < |ms| ==>
              && Release(ms, now)[j].id == ms[j].id
              && (ClaimedFor(Release(ms, now)[j], client) <==> Holds(ms[j], client, now))
              && (Eligible(Release(ms, now)[j], host) <==> Claimable(ms[j], host, now))
  {
  }

  /** A claim that was not there before was made by a poll of that client, and for a message
      with a target host by a poll carrying that host. */
  lemma NewClaimNeedsHost(w: World, op: Op, now: int, j: nat)
    requires WorldInv(w) && (op.DoEnqueue? ==> op.id !in w.at)
    requires j < |Next(w, op, now).ms| && Next(w, op, now).ms[j].status.Claimed?
    ensures var m := Next(w, op, now).ms[j];
            || m in w.ms
            || (&& op.DoPoll? && RequireNonEmpty(op.client, MAX_ID_CHARS).Ok?
                 && m.claimedBy == Some(RequireNonEmpty(op.client, MAX_ID_CHARS).value)
                && exists i :: 0 <= i < |w.ms| && w.ms[i].id == m.id && w.ms[i].target == m.target
                     && (Holds(w.ms[i], m.claimedBy.value, now) || m.target.None?
                          || Ok(m.target) == OptionalText(op.host, MAX_ID_CHARS)))
  {
    hide Bounded, Pairwise, RequireNonEmpty, OptionalText, Enqueue, Poll, Choose, FindClaimed, FindEligible, IndexWhere;
    match op
    case DoEnqueue(id, text, source, target) => EnqueueClaims(w, id, text, source, target, now, j);
    case DoPoll(client, host) => PollClaims(w, client, host, now, j);
    case DoBegin(client, id, host) =>
    case DoAck(client, id, host, sent, error) =>
    case DoStatus =>
  }

  lemma EnqueueClaims(w: World, id: MsgId, text: Text, source: Source, target: Option<string>, now: int, j: nat)
    requires WorldInv(w) && id !in w.at
    requires var after := Enqueue(w.ms, id, text, source, target, now).0; j < |after| && after[j].status.Claimed?
    ensures Enqueue(w.ms, id, text, source, target, now).0[j] in w.ms
  {
    hide Bounded, Pairwise, CheckText, OptionalText, TrimSettled;
    var (after, reply) := Enqueue(w.ms, id, text, source, target, now);
    if reply.Ok? {
      TrimKeepsActive(w.ms + [reply.value]);
      assert after[j] in w.ms + [reply.value];
    }
  }

  lemma PollClaims(w: World, clientArg: string, hostArg: Option<string>, now: int, j: nat)
    requires WorldInv(w)
    requires j < |Poll(w.ms, clientArg, hostArg, now).0| && Poll(w.ms, clientArg, hostArg, now).0[j].status.Claimed?
    ensures var m := Poll(w.ms, clientArg, hostArg, now).0[j];
            || m in w.ms
            || (&& RequireNonEmpty(clientArg, MAX_ID_CHARS).Ok?
                 && m.claimedBy == Some(RequireNonEmpty(clientArg, MAX_ID_CHARS).value)
                && j < |w.ms| && w.ms[j].id == m.id && w.ms[j].target == m.target
                && (Holds(w.ms[j], m.claimedBy.value, now) || m.target.None?
                     || Ok(m.target) == OptionalText(hostArg, MAX_ID_CHARS)))
  {
    hide Bounded, Pairwise, RequireNonEmpty, OptionalText;
    var c, h := RequireNonEmpty(clientArg, MAX_ID_CHARS), OptionalText(hostArg, MAX_ID_CHARS);
    if c.Ok? && h.Ok? {
      var free := Release(w.ms, now);
      ReleasedMeans(w.ms, c.value, h.value, now);
      var i := Choose(free, c.value, h.value);
      if j != i {
        assert free[j].status.Claimed? ==> free[j] == w.ms[j];
      }
    }
  }

  /** The host is only checked on a new claim: a poll gets a message meant for another host
      exactly when its client already holds that message. */
  lemma OtherHostExactlyWhenHeld(
      w: World, clientArg: string, hostArg: Option<string>, client: string, host: Option<string>, now: int, m: Message)
    requires WorldInv(w)
    requires RequireNonEmpty(clientArg, MAX_ID_CHARS) == Ok(client) && OptionalText(hostArg, MAX_ID_CHARS) == Ok(host)
    requires m in w.ms && m.target.Some? && m.target != host
    ensures (exists got: Message :: Poll(w.ms, clientArg, hostArg, now).1 == Ok(Some(got)) && got.id == m.id) <==>
        Holds(m, client, now)
  {
    PollDelivers(w, clientArg, hostArg, client, host, now);
    hide Bounded, RequireNonEmpty, OptionalText, Poll;
    var reply := Poll(w.ms, clientArg, hostArg, now).1;
    var i :| 0 <= i < |w.ms| && w.ms[i] == m;
    if reply.value.Some? {
      var j :| 0 <= j < |w.ms| && reply.value.value.id == w.ms[j].id
               && (if exists x :: x in w.ms && Holds(x, client, now) then Holds(w.ms[j], client, now)
                   else Claimable(w.ms[j], host, now));
      if i < j { assert Apart(w.at, w.ms[i], w.ms[j]); }
      if j < i { assert Apart(w.at, w.ms[j], w.ms[i]); }
    }
  }

  /** The ids and host are accepted, and the message they name is dispatching through this
      client. */
  predicate InDispatch(ms: seq<Message>, clientArg: string, idArg: string, host: Option<string>) {
    var client, id := RequireNonEmpty(clientArg, MAX_ID_CHARS), RequireNonEmpty(idArg, MAX_ID_CHARS);
    && client.Ok? && id.Ok? && OptionalText(host, MAX_ID_CHARS).Ok?
    && var i := FindId(ms, id.value);
    i < |ms| && ms[i].status.Dispatching? && ms[i].claimedBy == Some(client.value)
  }

  /** A refused acknowledgement changes nothing, except that a failure with an over-long error
      text is refused after the message has been marked failed. */
  lemma RefusedAckSettlesExactly(
      ms: seq<Message>, client: string, id: string, host: Option<string>, sent: bool, error: Option<string>, now: int)
    requires Ack(ms, client, id, host, sent, error, now).1.Err?
    ensures Ack(ms, client, id, host, sent, error, now).0 != ms <==>
            InDispatch(ms, client, id, host) && !sent && error.Some? && |error.value| > MAX_ERROR_CHARS
  {
    hide RequireNonEmpty, FindId;
    var after := Ack(ms, client, id, host, sent, error, now).0;
    if InDispatch(ms, client, id, host) && !sent && OptionalText(error, MAX_ERROR_CHARS).Err? {
      assert after[FindId(ms, RequireNonEmpty(id, MAX_ID_CHARS).value)].status.Failed?;
    }
  }

  /** And an acknowledgement succeeds exactly when the client is dispatching the message and
      the error text fits. */
  lemma AckSettlesExactly(
      ms: seq<Message>, client: string, id: string, host: Option<string>, sent: bool, error: Option<string>, now: int)
    ensures Ack(ms, client, id, host, sent, error, now).1.Ok? <==>
            InDispatch(ms, client, id, host) && (sent || error.None? || |error.value| <= MAX_ERROR_CHARS)
  {
    hide RequireNonEmpty, FindId;
  }

  /** This call settles message m: an acknowledgement by the client that is dispatching it. */
  predicate Settles(op: Op, m: Message) {
    op.DoAck? && RequireNonEmpty(op.idArg, MAX_ID_CHARS) == Ok(m.id) && m.claimedBy.Some?
    && RequireNonEmpty(op.client, MAX_ID_CHARS) == Ok(m.claimedBy.value)
  }

  /** A message in dispatch fails closed: no lease expiry, poll, begin, trimming or foreign
      acknowledgement moves it. */
  lemma DispatchingStays(w: World, op: Op, now: int, m: Message)
    requires WorldInv(w) && m in w.ms && m.status.Dispatching? && !Settles(op, m)
    ensures m in Next(w, op, now).ms
  {
    var i :| 0 <= i < |w.ms| && w.ms[i] == m;
    var after := Next(w, op, now).ms;
    match op
    case DoEnqueue(id, text, source, target) =>
      var (ms, reply) := Enqueue(w.ms, id, text, source, target, now);
      hide CheckText, OptionalText, TrimSettled, Inv;
      if reply.Ok? {
        var more := w.ms + [reply.value];
        assert more[i] == m;
        TrimKeepsActive(more);
        FilterMembers(more, m);
        FilterMembers(TrimSettled(more), m);
      }
    case DoPoll(client, host) =>
      hide RequireNonEmpty, OptionalText, Inv;
      assert |after| == |w.ms| && after[i] == m;
    case DoBegin(client, id, host) =>
      hide RequireNonEmpty, OptionalText, Inv;
      assert |after| == |w.ms| && after[i] == m;
    case DoAck(client, id, host, sent, error) =>
      hide RequireNonEmpty, OptionalText, Inv;
      assert |after| == |w.ms| && after[i] == m;
    case DoStatus =>
      hide Inv;
      assert |after| == |w.ms| && after[i] == m;
  }
}
