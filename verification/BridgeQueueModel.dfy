/** The outbound message queue between the web GUI and the companions: how messages are
    enqueued, leased, dispatched, settled and trimmed. */
module BridgeQueueModel {
  import opened Collections
  import opened JsText

  const MAX_QUEUE: nat := 64
  const MAX_MESSAGE_CHARS: nat := 8000
  const MAX_ERROR_CHARS: nat := 2000
  const MAX_ID_CHARS: nat := 128
  const CLAIM_TTL_MS: nat := 30000

  datatype Error = InvalidRequest | QueueFull | MessageNotFound | ClaimMismatch | DispatchMismatch

  datatype Result<+T> = Ok(value: T) | Err(error: Error)

  /** A typed text, or one of the two texts the continuation controller builds. */
  datatype Text =
    | Typed(chars: string)
    | Seed(task: string)
    | Continue(task: string, index: nat, cap: Option<nat>)

  datatype Source = Gui | AutoSeed | AutoContinue

  datatype Status = Pending | Claimed | Dispatching | Sent | Failed

  type MsgId = string

  datatype Message = Message(
    id: MsgId, text: Text, source: Source, target: Option<string>, status: Status,
    createdAt: int, updatedAt: int, claimedBy: Option<string>, claimExpiresAt: Option<int>,
    attempts: nat, sentOk: Option<bool>, error: Option<string>)

  // -------------------------------------------------------------- validation

  function RequireNonEmpty(value: string, max: nat): Result<string> {
    var t := Trim(value);
    if t == "" || |t| > max then Err(InvalidRequest) else Ok(t)
  }

  function OptionalText(value: Option<string>, max: nat): Result<Option<string>> {
    if value.None? || value.value == "" then Ok(None)
    else if |value.value| > max then Err(InvalidRequest)
    else Ok(value)
  }

  /** The controller's own texts are fixed phrases around a task id and always pass. */
  function CheckText(text: Text): Result<Text> {
    match text
    case Typed(chars) =>
      (match RequireNonEmpty(chars, MAX_MESSAGE_CHARS)
       case Ok(t) => Ok(Typed(t))
       case Err(e) => Err(e))
    case _ => Ok(text)
  }

  // ---------------------------------------------------------------- messages

  predicate Active(m: Message) { m.status.Pending? || m.status.Claimed? || m.status.Dispatching? }

  function ActiveOnly(ms: seq<Message>): seq<Message> {
    if ms == [] then [] else (if Active(ms[0]) then [ms[0]] else []) + ActiveOnly(ms[1..])
  }

  function SettledOnly(ms: seq<Message>): seq<Message> {
    if ms == [] then [] else (if Active(ms[0]) then [] else [ms[0]]) + SettledOnly(ms[1..])
  }

  function LastOf(ms: seq<Message>, n: nat): seq<Message> {
    if |ms| <= n then ms else ms[|ms| - n..]
  }

  /** Beyond twice the queue limit only the latest settled messages are kept, in front. */
  function TrimSettled(ms: seq<Message>): seq<Message> {
    if |ms| <= 2 * MAX_QUEUE then ms else LastOf(SettledOnly(ms), MAX_QUEUE) + ActiveOnly(ms)
  }

  predicate Lapsed(m: Message, now: int) {
    m.status.Claimed? && m.claimExpiresAt.Some? && m.claimExpiresAt.value <= now
  }

  function ReleaseOne(m: Message, now: int): Message {
    if Lapsed(m, now) then m.(status := Pending, claimedBy := None, claimExpiresAt := None, updatedAt := now) else m
  }

  function Release(ms: seq<Message>, now: int): seq<Message> {
    seq(|ms|, i requires 0 <= i < |ms| => ReleaseOne(ms[i], now))
  }

  predicate ClaimedFor(m: Message, client: string) { m.status.Claimed? && m.claimedBy == Some(client) }

  predicate Eligible(m: Message, host: Option<string>) { m.status.Pending? && (m.target.None? || m.target == host) }

  /** The first message this client holds, or the length if there is none. */
  function FindClaimed(ms: seq<Message>, client: string): (i: nat)
    ensures i <= |ms| && (i < |ms| ==> ClaimedFor(ms[i], client))
        && forall j :: 0 <= j < i ==> !ClaimedFor(ms[j], client)
  {
    IndexWhere(ms, (m: Message) => ClaimedFor(m, client))
  }

  function FindEligible(ms: seq<Message>, host: Option<string>): (i: nat)
    ensures i <= |ms| && (i < |ms| ==> Eligible(ms[i], host)) && forall j :: 0 <= j < i ==> !Eligible(ms[j], host)
  {
    IndexWhere(ms, (m: Message) => Eligible(m, host))
  }

  function FindId(ms: seq<Message>, id: MsgId): (i: nat)
    ensures i <= |ms| && (i < |ms| ==> ms[i].id == id) && forall j :: 0 <= j < i ==> ms[j].id != id
  {
    IndexWhere(ms, (m: Message) => m.id == id)
  }

  // -------------------------------------------------------------- operations

  function NewMessage(id: MsgId, text: Text, source: Source, target: Option<string>, now: int): Message {
    Message(id, text, source, target, Pending, now, now, None, None, 0, None, None)
  }

  function Enqueue(
      ms: seq<Message>, id: MsgId, text: Text, source: Source, target: Option<string>, now: int)
      : (seq<Message>, Result<Message>) {
    var checked := CheckText(text);
    var host := OptionalText(target, MAX_ID_CHARS);
    if checked.Err? then (ms, Err(checked.error))
    else if host.Err? then (ms, Err(host.error))
    else if |ActiveOnly(ms)| >= MAX_QUEUE then (ms, Err(QueueFull))
    else
      var m := NewMessage(id, checked.value, source, host.value, now);
      (TrimSettled(ms + [m]), Ok(m))
  }

  /** Lease a message, or extend the lease of one already held. */
  function Leased(m: Message, client: string, now: int): Message {
    (if m.status.Pending? then m.(status := Claimed, claimedBy := Some(client), attempts := m.attempts + 1) else m)
      .(updatedAt := now, claimExpiresAt := Some(now + CLAIM_TTL_MS))
  }

  /** Which message a poll gets: the one the client holds, else the first eligible one. */
  function Choose(ms: seq<Message>, client: string, host: Option<string>): (i: nat)
    ensures i <= |ms|
  {
    var held := FindClaimed(ms, client);
    if held < |ms| then held else FindEligible(ms, host)
  }

  function Poll(
      ms: seq<Message>, clientArg: string, hostArg: Option<string>, now: int): (seq<Message>, Result<Option<Message>>) {
    var client := RequireNonEmpty(clientArg, MAX_ID_CHARS);
    var host := OptionalText(hostArg, MAX_ID_CHARS);
    if client.Err? then (ms, Err(client.error))
    else if host.Err? then (ms, Err(host.error))
    else
      var free := Release(ms, now);
      var i := Choose(free, client.value, host.value);
      if i == |free| then (free, Ok(None))
      else
        var m := Leased(free[i], client.value, now);
        (free[i := m], Ok(Some(m)))
  }

  function Begun(m: Message, now: int): Message {
    m.(status := Dispatching, updatedAt := now, claimExpiresAt := None)
  }

  function BeginSend(
      ms: seq<Message>, clientArg: string, idArg: string, hostArg: Option<string>, now: int)
      : (seq<Message>, Result<Message>) {
    var client := RequireNonEmpty(clientArg, MAX_ID_CHARS);
    var id := RequireNonEmpty(idArg, MAX_ID_CHARS);
    var host := OptionalText(hostArg, MAX_ID_CHARS);
    if client.Err? || id.Err? || host.Err? then (ms, Err(InvalidRequest))
    else
      var i := FindId(ms, id.value);
      if i == |ms| then (ms, Err(MessageNotFound))
      else if !ClaimedFor(ms[i], client.value) then (ms, Err(ClaimMismatch))
      else (ms[i := Begun(ms[i], now)], Ok(Begun(ms[i], now)))
  }

  function Settled(m: Message, sent: bool, error: Option<string>, now: int): Message {
    m.(status := if sent then Sent else Failed, sentOk := Some(sent), error := error, updatedAt := now,
        claimExpiresAt := None)
  }

  /** The error text is checked after the status fields have been assigned: a failed outcome
      with an over-long text is refused, yet the message is already settled. */
  function Ack(
      ms: seq<Message>, clientArg: string, idArg: string, hostArg: Option<string>, sent: bool, error: Option<string>,
      now: int)
    : (seq<Message>, Result<Message>)
  {
    var client := RequireNonEmpty(clientArg, MAX_ID_CHARS);
    var id := RequireNonEmpty(idArg, MAX_ID_CHARS);
    var host := OptionalText(hostArg, MAX_ID_CHARS);
    if client.Err? || id.Err? || host.Err? then (ms, Err(InvalidRequest))
    else
      var i := FindId(ms, id.value);
      if i == |ms| then (ms, Err(MessageNotFound))
      else if !(ms[i].status.Dispatching? && ms[i].claimedBy == Some(client.value)) then (ms, Err(DispatchMismatch))
      else
        var note := if sent then Ok(None) else OptionalText(error, MAX_ERROR_CHARS);
        if note.Err? then (ms[i := ms[i].(status := Failed, sentOk := Some(false))], Err(note.error))
        else (ms[i := Settled(ms[i], sent, note.value, now)], Ok(Settled(ms[i], sent, note.value, now)))
  }
}
