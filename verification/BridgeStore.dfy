/** The bridge store object: its message array, its companion and observer tables and its event
    log, updated step by step, each method proved to do what the model operation says. */
module BridgeStore {
  import opened Collections
  import opened BridgeQueueModel
  import opened BridgeQueueProofs
  import opened BridgeTables
  import E = BridgeEvents

  class ChatGPTWebBridgeStore {
    var messages: seq<Message>
    var companions: seq<CompanionRow>
    var companion: Option<CompanionRow>
    var observers: seq<ObserverRow>
    var observer: Option<ObserverRow>
    var events: seq<E.Event>
    var nextEventSeq: nat
    ghost var at: Serials
    ghost var next: nat

    ghost function Queue(): World reads this { World(messages, at, next) }

    function Contacts(): Tables reads this { Tables(companions, companion, observers, observer) }

    function Feed(): E.Feed reads this { E.Feed(Contacts(), events, nextEventSeq) }

    ghost predicate Valid() reads this { WorldInv(Queue()) }

    constructor ()
      ensures Valid() && messages == [] && at == map[] && Feed() == E.Feed(Tables([], None, [], None), [], 1)
    {
      messages, companions, companion, observers, observer := [], [], None, [], None;
      events, nextEventSeq := [], 1;
      at, next := map[], 0;
    }

    method ReleaseExpiredClaims(now: int)
      requires Valid()
      modifies this`messages
      ensures Valid() && messages == Release(old(messages), now)
    {
      hide WorldInv;
      StepInv(Queue(), DoStatus, now);
      var i := 0;
      while i < |messages|
        modifies this`messages
        invariant i <= |messages| == |old(messages)|
        invariant forall j :: 0 <= j < i ==> messages[j] == ReleaseOne(old(messages)[j], now)
        invariant forall j :: i <= j < |messages| ==> messages[j] == old(messages)[j]
      {
        var m := messages[i];
        if m.status == Claimed && m.claimExpiresAt.Some? && !(m.claimExpiresAt.value > now) {
          messages := messages[i := m.(status := Pending, claimedBy := None, claimExpiresAt := None, updatedAt := now)];
        }
        i := i + 1;
      }
      assert messages == Release(old(messages), now);
    }

    /** The active and the settled messages, each in stored order. */
    method Split() returns (active: seq<Message>, settled: seq<Message>)
      ensures active == ActiveOnly(messages) && settled == SettledOnly(messages)
    {
      active, settled := [], [];
      for i := 0 to |messages|
        invariant active == ActiveOnly(messages[..i]) && settled == SettledOnly(messages[..i])
      {
        SplitOne(messages, i);
        if messages[i].status in {Pending, Claimed, Dispatching} {
          active := active + [messages[i]];
        } else {
          settled := settled + [messages[i]];
        }
      }
      assert messages[..|messages|] == messages;
    }

    method TrimSettledMessages()
      modifies this`messages
      ensures messages == TrimSettled(old(messages))
    {
      if |messages| > 2 * MAX_QUEUE {
        var active, settled := Split();
        if |settled| > MAX_QUEUE { settled := settled[|settled| - MAX_QUEUE..]; }
        messages := settled + active;
      }
    }

    method Enqueue(id: MsgId, text: Text, source: Source, target: Option<string>, now: int)
      returns (reply: Result<Message>)
      requires Valid() && id !in at
      modifies this`messages, this`at, this`next
      ensures Valid() && Queue() == Next(old(Queue()), DoEnqueue(id, text, source, target), now)
      ensures reply == BridgeQueueModel.Enqueue(old(messages), id, text, source, target, now).1
    {
      hide WorldInv, CheckText, OptionalText, TrimSettled;
      StepInv(Queue(), DoEnqueue(id, text, source, target), now);
      var checked, host := CheckText(text), OptionalText(target, MAX_ID_CHARS);
      var active, settled := Split();
      if checked.Err? {
        reply := Err(checked.error);
      } else if host.Err? {
        reply := Err(host.error);
      } else if |active| >= MAX_QUEUE {
        reply := Err(QueueFull);
      } else {
        var m := Message(id, checked.value, source, host.value, Pending, now, now, None, None, 0, None, None);
        messages := messages + [m];
        TrimSettledMessages();
        at, next := at[id := next], next + 1;
        reply := Ok(m);
      }
    }

    /** The first message satisfying the search, by index; the length if there is none. */
    method Search(client: string, host: Option<string>) returns (i: nat)
      ensures i == Choose(messages, client, host)
    {
      i := 0;
      while i < |messages| && !(messages[i].status == Claimed && messages[i].claimedBy == Some(client))
        invariant i <= |messages| && forall j :: 0 <= j < i ==> !ClaimedFor(messages[j], client)
      {
        i := i + 1;
      }
      if i == |messages| {
        i := 0;
        while i < |messages| && !(messages[i].status == Pending
            && (messages[i].target == None || messages[i].target == host))
          invariant i <= |messages| && forall j :: 0 <= j < i ==> !Eligible(messages[j], host)
        {
          i := i + 1;
        }
      }
    }

    method SearchId(id: MsgId) returns (i: nat)
      ensures i == FindId(messages, id)
    {
      i := 0;
      while i < |messages| && messages[i].id != id
        invariant i <= |messages| && forall j :: 0 <= j < i ==> messages[j].id != id
      {
        i := i + 1;
      }
    }

    method TouchCompanion(client: string, host: Option<string>, event: Option<EventType>, now: int)
      modifies this`companions, this`companion
      ensures Contacts() == BridgeTables.TouchCompanion(old(Contacts()), client, host, event, now)
    {
      var i := 0;
      while i < |companions| && companions[i].client != client
        invariant i <= |companions| && forall j :: 0 <= j < i ==> companions[j].client != client
      {
        i := i + 1;
      }
      var previous := if i < |companions| then companions[i] else CompanionRow(client, None, 0, None);
      var row := CompanionRow(client, if host.Some? then host else previous.host, now,
          if event.Some? then event else previous.lastEvent);
      companions := if i < |companions| then companions[i := row] else companions + [row];
      companion := Some(row);
    }

    method Poll(clientArg: string, hostArg: Option<string>, now: int) returns (reply: Result<Option<Message>>)
      requires Valid()
      modifies this`messages, this`companions, this`companion
      ensures Valid() && (messages, reply) == BridgeQueueModel.Poll(old(messages), clientArg, hostArg, now)
      ensures Contacts() == if reply.Err? then old(Contacts()) else
                BridgeTables.TouchCompanion(old(Contacts()), RequireNonEmpty(clientArg, MAX_ID_CHARS).value,
                    OptionalText(hostArg, MAX_ID_CHARS).value, None, now)
    {
      hide WorldInv, RequireNonEmpty, OptionalText, Choose, Release, BridgeTables.TouchCompanion;
      StepInv(Queue(), DoPoll(clientArg, hostArg), now);
      var client, host := RequireNonEmpty(clientArg, MAX_ID_CHARS), OptionalText(hostArg, MAX_ID_CHARS);
      if client.Err? {
        reply := Err(client.error);
      } else if host.Err? {
        reply := Err(host.error);
      } else {
        TouchCompanion(client.value, host.value, None, now);
        ReleaseExpiredClaims(now);
        var i := Search(client.value, host.value);
        if i == |messages| {
          reply := Ok(None);
        } else {
          var m := messages[i];
          if m.status == Pending {
            m := m.(status := Claimed, claimedBy := Some(client.value), attempts := m.attempts + 1);
          }
          m := m.(updatedAt := now);
          m := m.(claimExpiresAt := Some(now + CLAIM_TTL_MS));
          messages := messages[i := m];
          reply := Ok(Some(m));
        }
      }
    }

    method BeginSend(clientArg: string, idArg: string, hostArg: Option<string>, now: int)
      returns (reply: Result<Message>)
      requires Valid()
      modifies this`messages, this`companions, this`companion
      ensures Valid() && (messages, reply) == BridgeQueueModel.BeginSend(old(messages), clientArg, idArg, hostArg, now)
      ensures Contacts() == if reply.Err? then old(Contacts()) else
                BridgeTables.TouchCompanion(old(Contacts()), RequireNonEmpty(clientArg, MAX_ID_CHARS).value,
                    OptionalText(hostArg, MAX_ID_CHARS).value, None, now)
    {
      hide WorldInv, RequireNonEmpty, OptionalText, FindId, BridgeTables.TouchCompanion;
      StepInv(Queue(), DoBegin(clientArg, idArg, hostArg), now);
      var client, id, host := RequireNonEmpty(clientArg, MAX_ID_CHARS), RequireNonEmpty(idArg, MAX_ID_CHARS),
          OptionalText(hostArg, MAX_ID_CHARS);
      if client.Err? || id.Err? || host.Err? {
        reply := Err(InvalidRequest);
      } else {
        var i := SearchId(id.value);
        if i == |messages| {
          reply := Err(MessageNotFound);
        } else if messages[i].status != Claimed || messages[i].claimedBy != Some(client.value) {
          reply := Err(ClaimMismatch);
        } else {
          var m := messages[i].(status := Dispatching, updatedAt := now, claimExpiresAt := None);
          messages := messages[i := m];
          TouchCompanion(client.value, host.value, None, now);
          reply := Ok(m);
        }
      }
    }

    method Ack(clientArg: string, idArg: string, hostArg: Option<string>, sent: bool, error: Option<string>, now: int)
      returns (reply: Result<Message>)
      requires Valid()
      modifies this`messages, this`companions, this`companion
      ensures Valid() && (messages, reply)
          == BridgeQueueModel.Ack(old(messages), clientArg, idArg, hostArg, sent, error, now)
      ensures Contacts() == if reply.Err? then old(Contacts()) else
                BridgeTables.TouchCompanion(old(Contacts()), RequireNonEmpty(clientArg, MAX_ID_CHARS).value,
                    OptionalText(hostArg, MAX_ID_CHARS).value, None, now)
    {
      hide WorldInv, RequireNonEmpty, OptionalText, FindId, BridgeTables.TouchCompanion;
      StepInv(Queue(), DoAck(clientArg, idArg, hostArg, sent, error), now);
      var client, id, host := RequireNonEmpty(clientArg, MAX_ID_CHARS), RequireNonEmpty(idArg, MAX_ID_CHARS),
          OptionalText(hostArg, MAX_ID_CHARS);
      if client.Err? || id.Err? || host.Err? {
        reply := Err(InvalidRequest);
      } else {
        var i := SearchId(id.value);
        if i == |messages| {
          reply := Err(MessageNotFound);
        } else if messages[i].status != Dispatching || messages[i].claimedBy != Some(client.value) {
          reply := Err(DispatchMismatch);
        } else {
          var m := messages[i];
          m := m.(status := if sent then Sent else Failed);
          m := m.(sentOk := Some(sent));
          var note := if sent then Ok(None) else OptionalText(error, MAX_ERROR_CHARS);
          if note.Err? {
            reply := Err(note.error);
          } else {
            m := m.(error := note.value, updatedAt := now, claimExpiresAt := None);
            TouchCompanion(client.value, host.value, None, now);
            reply := Ok(m);
          }
          messages := messages[i := m];
        }
      }
    }

    method LogEvent(e: E.Event)
      modifies this`events, this`nextEventSeq
      ensures events == E.Logged(old(events), e) && nextEventSeq == old(nextEventSeq) + 1
    {
      nextEventSeq := nextEventSeq + 1;
      events := events + [e];
      if |events| > E.MAX_EVENTS {
        events := events[|events| - E.MAX_EVENTS..];
      }
    }

    method Publish(
        clientArg: string, hostArg: Option<string>, kind: Option<EventType>, text: E.Field, payload: E.Payload,
        now: int) returns (reply: Result<E.Event>)
      modifies this`companions, this`companion, this`events, this`nextEventSeq
      ensures (Feed(), reply) == E.Publish(old(Feed()), clientArg, hostArg, kind, text, payload, now)
    {
      hide RequireNonEmpty, OptionalText, BridgeTables.TouchCompanion;
      var client, host, said := RequireNonEmpty(clientArg, MAX_ID_CHARS), OptionalText(hostArg, MAX_ID_CHARS),
          E.Optional(text, MAX_MESSAGE_CHARS);
      if client.Err? || host.Err? || kind.None? || said.Err? || payload.NotAnObject? {
        reply := Err(InvalidRequest);
      } else {
        var e := E.Event(nextEventSeq, now, E.ByCompanion(client.value), kind.value, said.value, payload);
        LogEvent(e);
        TouchCompanion(client.value, host.value, kind, now);
        reply := Ok(e);
      }
    }

    method Heartbeat(clientArg: string, hostArg: Option<string>, now: int) returns (reply: Result<CompanionRow>)
      modifies this`companions, this`companion
      ensures (Feed(), reply) == E.Contact(old(Feed()), clientArg, hostArg, now)
    {
      hide RequireNonEmpty, OptionalText, PutCompanion;
      var client, host := RequireNonEmpty(clientArg, MAX_ID_CHARS), OptionalText(hostArg, MAX_ID_CHARS);
      if client.Err? || host.Err? {
        reply := Err(InvalidRequest);
      } else {
        TouchCompanion(client.value, host.value, None, now);
        reply := Ok(companion.value);
      }
    }

    /** An observer's row: a durable report is an event, anything else keeps the time of the
        last one. */
    method TouchObserver(
        id: string, kind: Option<EventType>, conversation: Option<string>, host: Option<string>, now: int,
        select: bool, durable: bool) returns (row: ObserverRow)
      modifies this`observers, this`observer
      ensures var previous := ObserverBefore(old(observers), id);
              row == ObserverRow(id, now, if durable then Some(now) else previous.lastEventAt, kind,
                  Or(conversation, previous.conversation), Or(host, previous.host))
      ensures observers == PutObserver(old(observers), row)
      ensures observer == if select then Some(row) else old(observer)
    {
      var i := SearchObserver(id);
      var previous := if i < |observers| then observers[i] else ObserverRow(id, 0, None, None, None, None);
      row := ObserverRow(id, now, if durable then Some(now) else previous.lastEventAt, kind,
                         if conversation.Some? then conversation else previous.conversation,
                             if host.Some? then host else previous.host);
      observers := if i < |observers| then observers[i := row] else observers + [row];
      if select { observer := Some(row); }
    }

    method SearchObserver(id: string) returns (i: nat)
      ensures i == FindObserver(observers, id)
    {
      i := 0;
      while i < |observers| && observers[i].observer != id
        invariant i <= |observers| && forall j :: 0 <= j < i ==> observers[j].observer != id
      {
        i := i + 1;
      }
    }

    method PublishObserver(idArg: string, kind: Option<EventType>, text: E.Field, payload: E.Payload, now: int)
      returns (reply: Result<E.Event>)
      modifies this`observers, this`observer, this`events, this`nextEventSeq
      ensures (Feed(), reply) == E.PublishObserver(old(Feed()), idArg, kind, text, payload, now)
    {
      hide RequireNonEmpty, PutObserver, ObserverBefore;
      var id, said := RequireNonEmpty(idArg, MAX_ID_CHARS), E.Optional(text, MAX_MESSAGE_CHARS);
      var conversation, host := E.ConversationOf(payload), E.HostOf(payload);
      if id.Err? || kind.None? || said.Err? || payload.NotAnObject? || conversation.Err? || host.Err? {
        reply := Err(InvalidRequest);
      } else {
        var e := E.Event(nextEventSeq, now, E.ByObserver(id.value), kind.value, said.value, payload);
        LogEvent(e);
        var row := TouchObserver(id.value, kind, conversation.value, host.value, now, true, true);
        reply := Ok(e);
      }
    }

    method ObserverHeartbeat(idArg: string, payload: E.Payload, now: int) returns (reply: Result<ObserverRow>)
      modifies this`observers, this`observer
      ensures (Feed(), reply) == E.ObserverContact(old(Feed()), idArg, payload, now)
    {
      hide RequireNonEmpty, PutObserver;
      var id, conversation, host := RequireNonEmpty(idArg, MAX_ID_CHARS), E.ConversationOf(payload), E.HostOf(payload);
      if id.Err? || payload.NotAnObject? || conversation.Err? || host.Err? {
        reply := Err(InvalidRequest);
      } else {
        var i := SearchObserver(id.value);
        var kind := if i < |observers| then observers[i].lastEvent else None;
        var row := TouchObserver(id.value, kind, conversation.value, host.value, now, false, false);
        if observer.Some? && observer.value.observer == id.value {
          observer := Some(row);
        }
        reply := Ok(row);
      }
    }
  }

  lemma SplitOne(ms: seq<Message>, i: nat)
    requires i < |ms|
    ensures ActiveOnly(ms[..i + 1]) == ActiveOnly(ms[..i]) + (if Active(ms[i]) then [ms[i]] else [])
    ensures SettledOnly(ms[..i + 1]) == SettledOnly(ms[..i]) + (if Active(ms[i]) then [] else [ms[i]])
  {
    assert ms[..i + 1] == ms[..i] + [ms[i]];
    FilterPlus(ms[..i], [ms[i]]);
  }
}
