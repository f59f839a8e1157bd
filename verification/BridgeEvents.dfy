/** What companions and observers report to the bridge: the checks on a report, the numbered
    event log of the last 128 events, and what the contact tables say of it. */
module BridgeEvents {
  import opened Collections
  import opened BridgeQueueModel
  import opened BridgeTables

  const MAX_EVENTS: nat := 128
  const MAX_CONVERSATION_CHARS: nat := 512

  /** A field of a request: absent or null, a string, or something else. */
  datatype Field = Absent | Str(chars: string) | NotText

  datatype Payload = NoPayload | NotAnObject | Fields(conversation: Field, host: Field)

  datatype Author = ByCompanion(client: string) | ByObserver(observer: string)

  datatype Event = Event(number: nat, at: int, author: Author, kind: EventType, text: Option<string>, payload: Payload)

  datatype Feed = Feed(tables: Tables, events: seq<Event>, next: nat)

  // --------------------------------------------------------------- operations

  function Optional(f: Field, max: nat): Result<Option<string>> {
    match f
    case Absent => Ok(None)
    case Str(chars) => OptionalText(Some(chars), max)
    case NotText => Err(InvalidRequest)
  }

  function ConversationOf(p: Payload): Result<Option<string>> {
    if p.Fields? then Optional(p.conversation, MAX_CONVERSATION_CHARS) else Ok(None)
  }

  function HostOf(p: Payload): Result<Option<string>> {
    if p.Fields? then Optional(p.host, MAX_ID_CHARS) else Ok(None)
  }

  /** Beyond the limit the oldest events are dropped. */
  function Logged(events: seq<Event>, e: Event): seq<Event> {
    if |events| + 1 > MAX_EVENTS then (events + [e])[|events| + 1 - MAX_EVENTS..] else events + [e]
  }

  function Publish(
      f: Feed, client: string, host: Option<string>, kind: Option<EventType>, text: Field, payload: Payload, now: int)
      : (Feed, Result<Event>) {
    var id, at, said := RequireNonEmpty(client, MAX_ID_CHARS), OptionalText(host, MAX_ID_CHARS),
        Optional(text, MAX_MESSAGE_CHARS);
    if id.Err? || at.Err? || kind.None? || said.Err? || payload.NotAnObject? then (f, Err(InvalidRequest))
    else
      var e := Event(f.next, now, ByCompanion(id.value), kind.value, said.value, payload);
      (Feed(TouchCompanion(f.tables, id.value, at.value, kind, now), Logged(f.events, e), f.next + 1), Ok(e))
  }

  function PublishObserver(
      f: Feed, observer: string, kind: Option<EventType>, text: Field, payload: Payload, now: int)
      : (Feed, Result<Event>) {
    var id, said := RequireNonEmpty(observer, MAX_ID_CHARS), Optional(text, MAX_MESSAGE_CHARS);
    var conversation, host := ConversationOf(payload), HostOf(payload);
    if id.Err? || kind.None? || said.Err? || payload.NotAnObject? || conversation.Err? || host.Err?
        then (f, Err(InvalidRequest))
    else
      var e := Event(f.next, now, ByObserver(id.value), kind.value, said.value, payload);
      (Feed(ObserverEvent(f.tables, id.value, kind.value, conversation.value, host.value, now), Logged(f.events, e),
          f.next + 1), Ok(e))
  }

  /** A companion's poll, heartbeat, begin or acknowledgement: no event. */
  function Contact(f: Feed, client: string, host: Option<string>, now: int): (Feed, Result<CompanionRow>) {
    var id, at := RequireNonEmpty(client, MAX_ID_CHARS), OptionalText(host, MAX_ID_CHARS);
    if id.Err? || at.Err? then (f, Err(InvalidRequest))
    else
      var t := TouchCompanion(f.tables, id.value, at.value, None, now);
      (f.(tables := t), Ok(CompanionNow(f.tables.companions, id.value, at.value, None, now)))
  }

  function ObserverContact(f: Feed, observer: string, payload: Payload, now: int): (Feed, Result<ObserverRow>) {
    var id := RequireNonEmpty(observer, MAX_ID_CHARS);
    var conversation, host := ConversationOf(payload), HostOf(payload);
    if id.Err? || payload.NotAnObject? || conversation.Err? || host.Err? then (f, Err(InvalidRequest))
    else
      (f.(tables := ObserverHeartbeat(f.tables, id.value, conversation.value, host.value, now)),
       Ok(HeartbeatRow(f.tables.observers, id.value, conversation.value, host.value, now)))
  }

  // --------------------------------------------------------------------- runs

  datatype Call =
    | DoPublish(client: string, host: Option<string>, kind: Option<EventType>, text: Field, payload: Payload)
    | DoPublishObserver(observer: string, kind: Option<EventType>, text: Field, payload: Payload)
    | DoContact(client: string, host: Option<string>)
    | DoObserverContact(observer: string, payload: Payload)

  function Step(f: Feed, c: Call, now: int): Feed {
    match c
    case DoPublish(client, host, kind, text, payload) => Publish(f, client, host, kind, text, payload, now).0
    case DoPublishObserver(observer, kind, text, payload) => PublishObserver(f, observer, kind, text, payload, now).0
    case DoContact(client, host) => Contact(f, client, host, now).0
    case DoObserverContact(observer, payload) => ObserverContact(f, observer, payload, now).0
  }

  /** The event a call publishes, if it does. */
  function Published(f: Feed, c: Call, now: int): seq<Event> {
    match c
    case DoPublish(client, host, kind, text, payload) => OkOnly(Publish(f, client, host, kind, text, payload, now).1)
    case DoPublishObserver(observer, kind, text, payload) =>
      OkOnly(PublishObserver(f, observer, kind, text, payload, now).1)
    case _ => []
  }

  function OkOnly(r: Result<Event>): seq<Event> { if r.Ok? then [r.value] else [] }

  /** A run from a new store, with every event published so far beside each state. */
  ghost predicate IsRun(states: seq<Feed>, histories: seq<seq<Event>>, calls: seq<(Call, int)>) {
    && |states| == |histories| == |calls| + 1
    && states[0] == Feed(Tables([], None, [], None), [], 1) && histories[0] == []
    && forall i :: 0 <= i < |calls| ==>
         && states[i + 1] == Step(states[i], calls[i].0, calls[i].1)
         && histories[i + 1] == histories[i] + Published(states[i], calls[i].0, calls[i].1)
  }

  // ---------------------------------------------------------------- invariants

  /** The last event of an author: its kind and time. */
  function LastOfAuthor(history: seq<Event>, a: Author): Option<(EventType, int)> {
    if history == [] then None
    else
      var e := history[|history| - 1];
      if e.author == a then Some((e.kind, e.at)) else LastOfAuthor(history[..|history| - 1], a)
  }

  /** The observer that reported last. */
  function LastObserver(history: seq<Event>): Option<string> {
    if history == [] then None
    else
      var e := history[|history| - 1];
      if e.author.ByObserver? then Some(e.author.observer) else LastObserver(history[..|history| - 1])
  }

  /** The log holds the last 128 events, numbered without gaps. */
  ghost predicate LogOk(f: Feed, history: seq<Event>) {
    && f.events == (if |history| > MAX_EVENTS then history[|history| - MAX_EVENTS..] else history)
    && f.next == |history| + 1
    && forall i :: 0 <= i < |history| ==> history[i].number == i + 1
  }

  function KindOf(last: Option<(EventType, int)>): Option<EventType> { if last.Some? then Some(last.value.0) else None }

  function TimeOf(last: Option<(EventType, int)>): Option<int> { if last.Some? then Some(last.value.1) else None }

  /** One row a companion, saying what its last event was; no companion with events lacks one. */
  ghost predicate CompanionsOk(rows: seq<CompanionRow>, history: seq<Event>) {
    && (forall i, j :: 0 <= i < j < |rows| ==> rows[i].client != rows[j].client)
    && (forall i :: 0 <= i < |rows| ==> rows[i].lastEvent == KindOf(LastOfAuthor(history, ByCompanion(rows[i].client))))
    && (forall c :: LastOfAuthor(history, ByCompanion(c)).Some? ==> FindCompanion(rows, c) < |rows|)
  }

  /** The same of observers. */
  ghost predicate ObserversOk(rows: seq<ObserverRow>, history: seq<Event>) {
    && (forall i, j :: 0 <= i < j < |rows| ==> rows[i].observer != rows[j].observer)
    && (forall i :: 0 <= i < |rows| ==>
          var last := LastOfAuthor(history, ByObserver(rows[i].observer));
          rows[i].lastEvent == KindOf(last) && rows[i].lastEventAt == TimeOf(last))
    && (forall o :: LastOfAuthor(history, ByObserver(o)).Some? ==> FindObserver(rows, o) < |rows|)
  }

  /** The selected observer is the one that reported last, as its row is now. */
  ghost predicate SelectedOk(t: Tables, history: seq<Event>) {
    match LastObserver(history)
    case None => t.observer == None
    case Some(o) => var i := FindObserver(t.observers, o); i < |t.observers| && t.observer == Some(t.observers[i])
  }

  ghost predicate FeedInv(f: Feed, history: seq<Event>) {
    && LogOk(f, history) && CompanionsOk(f.tables.companions, history)
    && ObserversOk(f.tables.observers, history) && SelectedOk(f.tables, history)
  }

  lemma LastAppended(history: seq<Event>, e: Event)
    ensures forall a ::
        LastOfAuthor(history + [e], a) == if e.author == a then Some((e.kind, e.at)) else LastOfAuthor(history, a)
    ensures LastObserver(history + [e]) ==
        if e.author.ByObserver? then Some(e.author.observer) else LastObserver(history)
  {
    assert (history + [e])[..|history|] == history;
  }

  lemma LogAppended(f: Feed, history: seq<Event>, e: Event, t: Tables)
    requires LogOk(f, history) && e.number == f.next
    ensures LogOk(Feed(t, Logged(f.events, e), f.next + 1), history + [e])
  {
    var h1 := history + [e];
    if |h1| > MAX_EVENTS {
      assert h1[|h1| - MAX_EVENTS..] == (f.events + [e])[|f.events| + 1 - MAX_EVENTS..];
    }
  }

  /** Putting a row where the old one was, or last, leaves every other row. */
  lemma FindCompanionAfter(rows: seq<CompanionRow>, row: CompanionRow, c: string)
    ensures var i := FindCompanion(rows, row.client);
            var rows1 := PutCompanion(rows, row);
            && FindCompanion(rows1, row.client) == i && i < |rows1| && rows1[i] == row
            && (c != row.client ==> (FindCompanion(rows1, c) < |rows1| <==> FindCompanion(rows, c) < |rows|))
  {
    var i := FindCompanion(rows, row.client);
    var rows1 := PutCompanion(rows, row);
    assert rows1[i].client == row.client;
    if c != row.client {
      var k, k1 := FindCompanion(rows, c), FindCompanion(rows1, c);
      if k < |rows| { assert rows1[k].client == c; }
      if k1 < |rows1| { assert k1 != i && rows[k1].client == c; }
    }
  }

  lemma FindObserverAfter(rows: seq<ObserverRow>, row: ObserverRow, o: string)
    ensures var i := FindObserver(rows, row.observer);
            var rows1 := PutObserver(rows, row);
            && FindObserver(rows1, row.observer) == i && i < |rows1| && rows1[i] == row
            && (o != row.observer ==> (FindObserver(rows1, o) < |rows1| <==> FindObserver(rows, o) < |rows|))
            && (o != row.observer && FindObserver(rows, o) < |rows| ==>
                 rows1[FindObserver(rows1, o)] == rows[FindObserver(rows, o)])
  {
    var i := FindObserver(rows, row.observer);
    var rows1 := PutObserver(rows, row);
    assert rows1[i].observer == row.observer;
    if o != row.observer {
      var k, k1 := FindObserver(rows, o), FindObserver(rows1, o);
      if k < |rows| { assert rows1[k].observer == o && k1 <= k; }
      if k1 < |rows1| { assert k1 != i && rows[k1].observer == o && k <= k1; }
    }
  }

  lemma CompanionPut(rows: seq<CompanionRow>, history: seq<Event>, h1: seq<Event>, row: CompanionRow)
    requires CompanionsOk(rows, history)
    requires forall c :: c != row.client ==> LastOfAuthor(h1, ByCompanion(c)) == LastOfAuthor(history, ByCompanion(c))
    requires row.lastEvent == KindOf(LastOfAuthor(h1, ByCompanion(row.client)))
    ensures CompanionsOk(PutCompanion(rows, row), h1)
  {
    hide LastOfAuthor, KindOf;
    forall c ensures LastOfAuthor(h1, ByCompanion(c)).Some? ==>
        FindCompanion(PutCompanion(rows, row), c) < |PutCompanion(rows, row)| {
      FindCompanionAfter(rows, row, c);
    }
    FindCompanionAfter(rows, row, row.client);
  }

  /** The row of a companion just heard of: its new event, or else the last one so far. */
  lemma CompanionNowSays(
      rows: seq<CompanionRow>, history: seq<Event>, client: string, host: Option<string>, kind: Option<EventType>,
      now: int)
    requires CompanionsOk(rows, history)
    ensures CompanionNow(rows, client, host, kind, now).lastEvent
        == Or(kind, KindOf(LastOfAuthor(history, ByCompanion(client))))
  {
    hide LastOfAuthor, KindOf;
    if FindCompanion(rows, client) == |rows| {
      NoKind(LastOfAuthor(history, ByCompanion(client)));
    }
  }

  lemma NoKind(last: Option<(EventType, int)>)
    requires last.None?
    ensures KindOf(last) == None && TimeOf(last) == None
  {
  }

  lemma ObserverPut(rows: seq<ObserverRow>, history: seq<Event>, h1: seq<Event>, row: ObserverRow)
    requires ObserversOk(rows, history)
    requires forall o :: o != row.observer ==> LastOfAuthor(h1, ByObserver(o)) == LastOfAuthor(history, ByObserver(o))
    requires var last := LastOfAuthor(h1, ByObserver(row.observer));
        row.lastEvent == KindOf(last) && row.lastEventAt == TimeOf(last)
    ensures ObserversOk(PutObserver(rows, row), h1)
  {
    hide LastOfAuthor, KindOf, TimeOf;
    forall o ensures LastOfAuthor(h1, ByObserver(o)).Some? ==>
        FindObserver(PutObserver(rows, row), o) < |PutObserver(rows, row)| {
      FindObserverAfter(rows, row, o);
    }
    FindObserverAfter(rows, row, row.observer);
  }

  /** What the row before a report says: the last event so far. */
  lemma ObserverBeforeSays(rows: seq<ObserverRow>, history: seq<Event>, o: string)
    requires ObserversOk(rows, history)
    ensures var previous, last := ObserverBefore(rows, o), LastOfAuthor(history, ByObserver(o));
            previous.lastEvent == KindOf(last) && previous.lastEventAt == TimeOf(last)
  {
    hide LastOfAuthor, KindOf, TimeOf;
    if FindObserver(rows, o) == |rows| {
      NoKind(LastOfAuthor(history, ByObserver(o)));
    }
  }

  lemma PublishKeeps(
      f: Feed, history: seq<Event>, client: string, host: Option<string>, kind: Option<EventType>, text: Field,
      payload: Payload, now: int)
    requires FeedInv(f, history)
    ensures var (f1, r) := Publish(f, client, host, kind, text, payload, now);
        FeedInv(f1, history + OkOnly(r)) && (r.Err? ==> f1 == f)
  {
    hide LogOk, CompanionsOk, ObserversOk, LastOfAuthor, LastObserver, KindOf, RequireNonEmpty, OptionalText,
      Optional, CompanionNow, PutCompanion;
    var (f1, r) := Publish(f, client, host, kind, text, payload, now);
    if r.Err? {
      assert history + [] == history;
    } else {
      var e := r.value;
      LastAppended(history, e);
      LogAppended(f, history, e, f1.tables);
      var row := CompanionNow(f.tables.companions, e.author.client, OptionalText(host, MAX_ID_CHARS).value, kind, now);
      CompanionNowSays(f.tables.companions, history, e.author.client, OptionalText(host, MAX_ID_CHARS).value, kind,
          now);
      OneKind(e.kind, e.at);
      CompanionIs(f.tables.companions, e.author.client, OptionalText(host, MAX_ID_CHARS).value, kind, now);
      CompanionPut(f.tables.companions, history, history + [e], row);
      ObserversSame(f.tables.observers, history, history + [e]);
    }
  }

  lemma OneKind(kind: EventType, at: int)
    ensures KindOf(Some((kind, at))) == Some(kind) && TimeOf(Some((kind, at))) == Some(at)
  {
  }

  lemma CompanionIs(rows: seq<CompanionRow>, client: string, host: Option<string>, kind: Option<EventType>, now: int)
    ensures CompanionNow(rows, client, host, kind, now).client == client
  {
  }

  lemma ObserversSame(rows: seq<ObserverRow>, history: seq<Event>, h1: seq<Event>)
    requires ObserversOk(rows, history)
        && forall o :: LastOfAuthor(h1, ByObserver(o)) == LastOfAuthor(history, ByObserver(o))
    ensures ObserversOk(rows, h1)
  {
    hide LastOfAuthor, KindOf, TimeOf;
  }

  lemma CompanionsSame(rows: seq<CompanionRow>, history: seq<Event>, h1: seq<Event>)
    requires CompanionsOk(rows, history)
        && forall c :: LastOfAuthor(h1, ByCompanion(c)) == LastOfAuthor(history, ByCompanion(c))
    ensures CompanionsOk(rows, h1)
  {
    hide LastOfAuthor, KindOf;
  }

  lemma PublishObserverKeeps(
      f: Feed, history: seq<Event>, observer: string, kind: Option<EventType>, text: Field, payload: Payload, now: int)
    requires FeedInv(f, history)
    ensures var (f1, r) := PublishObserver(f, observer, kind, text, payload, now);
        FeedInv(f1, history + OkOnly(r)) && (r.Err? ==> f1 == f)
  {
    hide LogOk, CompanionsOk, ObserversOk, LastOfAuthor, LastObserver, KindOf, TimeOf, RequireNonEmpty, OptionalText,
      Optional, ConversationOf, HostOf, PutObserver, ObserverBefore, FindObserver;
    var (f1, r) := PublishObserver(f, observer, kind, text, payload, now);
    if r.Err? {
      assert history + [] == history;
    } else {
      var e := r.value;
      LastAppended(history, e);
      LogAppended(f, history, e, f1.tables);
      OneKind(e.kind, e.at);
      var row := f1.tables.observer.value;
      ObserverPut(f.tables.observers, history, history + [e], row);
      FindObserverAfter(f.tables.observers, row, row.observer);
      CompanionsSame(f.tables.companions, history, history + [e]);
    }
  }

  lemma ContactKeeps(f: Feed, history: seq<Event>, client: string, host: Option<string>, now: int)
    requires FeedInv(f, history)
    ensures FeedInv(Contact(f, client, host, now).0, history)
  {
    hide CompanionsOk, ObserversOk, LastOfAuthor, LastObserver, KindOf, RequireNonEmpty, OptionalText, CompanionNow,
      PutCompanion;
    var id, at := RequireNonEmpty(client, MAX_ID_CHARS), OptionalText(host, MAX_ID_CHARS);
    if id.Ok? && at.Ok? {
      var row := CompanionNow(f.tables.companions, id.value, at.value, None, now);
      CompanionNowSays(f.tables.companions, history, id.value, at.value, None, now);
      CompanionIs(f.tables.companions, id.value, at.value, None, now);
      CompanionPut(f.tables.companions, history, history, row);
    }
  }

  lemma ObserverContactKeeps(f: Feed, history: seq<Event>, observer: string, payload: Payload, now: int)
    requires FeedInv(f, history)
    ensures FeedInv(ObserverContact(f, observer, payload, now).0, history)
  {
    hide CompanionsOk, ObserversOk, LastOfAuthor, LastObserver, KindOf, TimeOf, RequireNonEmpty, Optional,
      ConversationOf, HostOf, PutObserver, ObserverBefore, FindObserver;
    var id, conversation, host := RequireNonEmpty(observer, MAX_ID_CHARS), ConversationOf(payload), HostOf(payload);
    if ObserverContact(f, observer, payload, now).1.Ok? {
      var row := HeartbeatRow(f.tables.observers, id.value, conversation.value, host.value, now);
      ObserverBeforeSays(f.tables.observers, history, id.value);
      ObserverPut(f.tables.observers, history, history, row);
      var last := LastObserver(history);
      if last.Some? {
        FindObserverAfter(f.tables.observers, row, last.value);
        RowNames(f.tables.observers, last.value);
        FindObserverAfter(f.tables.observers, row, row.observer);
      }
    }
  }

  lemma RowNames(rows: seq<ObserverRow>, o: string)
    ensures FindObserver(rows, o) < |rows| ==> rows[FindObserver(rows, o)].observer == o
  {
  }

  lemma StepFeed(f: Feed, history: seq<Event>, c: Call, now: int)
    requires FeedInv(f, history)
    ensures FeedInv(Step(f, c, now), history + Published(f, c, now))
  {
    hide FeedInv, Publish, PublishObserver, Contact, ObserverContact, OkOnly;
    assert history + [] == history;
    match c
    case DoPublish(client, host, kind, text, payload) =>
      PublishKeeps(f, history, client, host, kind, text, payload, now);
    case DoPublishObserver(observer, kind, text, payload) =>
      PublishObserverKeeps(f, history, observer, kind, text, payload, now);
    case DoContact(client, host) => ContactKeeps(f, history, client, host, now);
    case DoObserverContact(observer, payload) => ObserverContactKeeps(f, history, observer, payload, now);
  }

  lemma NothingYet()
    ensures FeedInv(Feed(Tables([], None, [], None), [], 1), [])
  {
  }

  /** In every run, over calls of any companions and observers in any order: the log is the last
      128 of all events published, numbered in order without gaps; every row says what the last
      event of its companion or observer was, also after 128 others; and the selected observer
      is the one that reported last. */
  lemma {:induction false} RunFeed(states: seq<Feed>, histories: seq<seq<Event>>, calls: seq<(Call, int)>, i: nat)
    requires IsRun(states, histories, calls) && i < |states|
    ensures FeedInv(states[i], histories[i])
  {
    hide FeedInv, Step, Published;
    if i == 0 {
      NothingYet();
    } else {
      RunFeed(states, histories, calls, i - 1);
      StepFeed(states[i - 1], histories[i - 1], calls[i - 1].0, calls[i - 1].1);
    }
  }
}
