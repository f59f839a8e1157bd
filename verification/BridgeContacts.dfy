/** What the rows of the contact tables say over a run: when a companion or observer was last
    heard of, and the last host and conversation it gave. */
module BridgeContacts {
  import opened Collections
  import opened BridgeQueueModel
  import opened BridgeTables
  import opened BridgeEvents

  /** An accepted call: who made it and when, and the conversation and host given with it. */
  datatype Heard = Heard(author: Author, at: int, conversation: Option<string>, host: Option<string>)

  function OfCompanion(client: string, host: Option<string>, now: int): Heard
    requires RequireNonEmpty(client, MAX_ID_CHARS).Ok? && OptionalText(host, MAX_ID_CHARS).Ok?
  {
    Heard(ByCompanion(RequireNonEmpty(client, MAX_ID_CHARS).value), now, None, OptionalText(host, MAX_ID_CHARS).value)
  }

  function OfObserver(observer: string, payload: Payload, now: int): Heard
    requires RequireNonEmpty(observer, MAX_ID_CHARS).Ok? && ConversationOf(payload).Ok? && HostOf(payload).Ok?
  {
    Heard(ByObserver(RequireNonEmpty(observer, MAX_ID_CHARS).value), now, ConversationOf(payload).value,
        HostOf(payload).value)
  }

  /** The contact a call makes, if it is accepted. */
  function HeardFrom(f: Feed, c: Call, now: int): seq<Heard> {
    match c
    case DoPublish(client, host, kind, text, payload) =>
      if Publish(f, client, host, kind, text, payload, now).1.Ok? then [OfCompanion(client, host, now)] else []
    case DoPublishObserver(observer, kind, text, payload) =>
      if PublishObserver(f, observer, kind, text, payload, now).1.Ok? then [OfObserver(observer, payload, now)] else []
    case DoContact(client, host) =>
      if Contact(f, client, host, now).1.Ok? then [OfCompanion(client, host, now)] else []
    case DoObserverContact(observer, payload) =>
      if ObserverContact(f, observer, payload, now).1.Ok? then [OfObserver(observer, payload, now)] else []
  }

  /** Every contact of the first i calls of a run. */
  function Contacts(states: seq<Feed>, calls: seq<(Call, int)>, i: nat): seq<Heard>
    requires i <= |calls| && i <= |states|
  {
    if i == 0 then []
    else Contacts(states, calls, i - 1) + HeardFrom(states[i - 1], calls[i - 1].0, calls[i - 1].1)
  }

  function LastSeen(heard: seq<Heard>, a: Author): Option<int> {
    if heard == [] then None
    else
      var h := heard[|heard| - 1];
      if h.author == a then Some(h.at) else LastSeen(heard[..|heard| - 1], a)
  }

  /** The last host this author gave. */
  function LastHost(heard: seq<Heard>, a: Author): Option<string> {
    if heard == [] then None
    else
      var h := heard[|heard| - 1];
      if h.author == a && h.host.Some? then h.host else LastHost(heard[..|heard| - 1], a)
  }

  function LastConversation(heard: seq<Heard>, a: Author): Option<string> {
    if heard == [] then None
    else
      var h := heard[|heard| - 1];
      if h.author == a && h.conversation.Some? then h.conversation else LastConversation(heard[..|heard| - 1], a)
  }

  /** The companion heard of last. */
  function LastCompanion(heard: seq<Heard>): Option<string> {
    if heard == [] then None
    else
      var h := heard[|heard| - 1];
      if h.author.ByCompanion? then Some(h.author.client) else LastCompanion(heard[..|heard| - 1])
  }

  /** What is on record of an author. */
  datatype Record = Record(seen: Option<int>, host: Option<string>, conversation: Option<string>)

  function Known(heard: seq<Heard>, a: Author): Record {
    Record(LastSeen(heard, a), LastHost(heard, a), LastConversation(heard, a))
  }

  const UNKNOWN: Record := Record(None, None, None)

  /** One row for exactly the companions heard of, and it says what is on record. */
  ghost predicate CompanionsSay(rows: seq<CompanionRow>, heard: seq<Heard>) {
    && (forall i, j :: 0 <= i < j < |rows| ==> rows[i].client != rows[j].client)
    && (forall i :: 0 <= i < |rows| ==>
         Known(heard, ByCompanion(rows[i].client)) == Record(Some(rows[i].lastSeen), rows[i].host, None))
    && (forall c :: FindCompanion(rows, c) == |rows| ==> Known(heard, ByCompanion(c)) == UNKNOWN)
  }

  ghost predicate ObserversSay(rows: seq<ObserverRow>, heard: seq<Heard>) {
    && (forall i, j :: 0 <= i < j < |rows| ==> rows[i].observer != rows[j].observer)
    && (forall i :: 0 <= i < |rows| ==>
          Known(heard, ByObserver(rows[i].observer))
              == Record(Some(rows[i].lastSeen), rows[i].host, rows[i].conversation))
    && (forall o :: FindObserver(rows, o) == |rows| ==> Known(heard, ByObserver(o)) == UNKNOWN)
  }

  /** The selected companion is the one heard of last, as its row is now. */
  ghost predicate CompanionSelected(t: Tables, heard: seq<Heard>) {
    match LastCompanion(heard)
    case None => t.companion == None
    case Some(c) =>
      var i := FindCompanion(t.companions, c);
      i < |t.companions| && t.companion == Some(t.companions[i])
  }

  ghost predicate RowsSay(t: Tables, heard: seq<Heard>) {
    CompanionsSay(t.companions, heard) && ObserversSay(t.observers, heard) && CompanionSelected(t, heard)
  }

  lemma HeardAppended(heard: seq<Heard>, h: Heard)
    ensures forall a :: Known(heard + [h], a) ==
              if h.author != a then Known(heard, a)
              else
                Record(Some(h.at), Or(h.host, Known(heard, a).host), Or(h.conversation, Known(heard, a).conversation))
    ensures LastCompanion(heard + [h]) == if h.author.ByCompanion? then Some(h.author.client) else LastCompanion(heard)
  {
    assert (heard + [h])[..|heard|] == heard;
  }

  lemma CompanionPutSays(rows: seq<CompanionRow>, heard: seq<Heard>, h1: seq<Heard>, row: CompanionRow)
    requires CompanionsSay(rows, heard)
    requires forall c :: c != row.client ==> Known(h1, ByCompanion(c)) == Known(heard, ByCompanion(c))
    requires Known(h1, ByCompanion(row.client)) == Record(Some(row.lastSeen), row.host, None)
    ensures CompanionsSay(PutCompanion(rows, row), h1)
  {
    hide Known;
    forall c ensures FindCompanion(PutCompanion(rows, row), c) == |PutCompanion(rows, row)| ==>
        Known(h1, ByCompanion(c)) == UNKNOWN {
      FindCompanionAfter(rows, row, c);
    }
    FindCompanionAfter(rows, row, row.client);
  }

  lemma ObserverPutSays(rows: seq<ObserverRow>, heard: seq<Heard>, h1: seq<Heard>, row: ObserverRow)
    requires ObserversSay(rows, heard)
    requires forall o :: o != row.observer ==> Known(h1, ByObserver(o)) == Known(heard, ByObserver(o))
    requires Known(h1, ByObserver(row.observer)) == Record(Some(row.lastSeen), row.host, row.conversation)
    ensures ObserversSay(PutObserver(rows, row), h1)
  {
    hide Known;
    forall o ensures FindObserver(PutObserver(rows, row), o) == |PutObserver(rows, row)| ==>
        Known(h1, ByObserver(o)) == UNKNOWN {
      FindObserverAfter(rows, row, o);
    }
    FindObserverAfter(rows, row, row.observer);
  }

  lemma CompanionRowSays(
      rows: seq<CompanionRow>, heard: seq<Heard>, client: string, host: Option<string>, kind: Option<EventType>,
      now: int)
    requires CompanionsSay(rows, heard)
    ensures var row, known := CompanionNow(rows, client, host, kind, now), Known(heard, ByCompanion(client));
            row.client == client && row.lastSeen == now && row.host == Or(host, known.host)
                && known.conversation == None
  {
    hide Known;
  }

  lemma ObserverRowSays(rows: seq<ObserverRow>, heard: seq<Heard>, o: string)
    requires ObserversSay(rows, heard)
    ensures var row, known := ObserverBefore(rows, o), Known(heard, ByObserver(o));
            row.host == known.host && row.conversation == known.conversation
  {
    hide Known;
  }

  /** A companion's accepted call. */
  lemma CompanionHeard(
      t: Tables, heard: seq<Heard>, client: string, host: Option<string>, kind: Option<EventType>, now: int)
    requires RowsSay(t, heard)
    ensures RowsSay(TouchCompanion(t, client, host, kind, now), heard + [Heard(ByCompanion(client), now, None, host)])
  {
    hide Known, CompanionsSay, ObserversSay, CompanionNow, LastCompanion, PutCompanion, FindCompanion;
    var h := Heard(ByCompanion(client), now, None, host);
    var row := CompanionNow(t.companions, client, host, kind, now);
    HeardAppended(heard, h);
    CompanionRowSays(t.companions, heard, client, host, kind, now);
    CompanionPutSays(t.companions, heard, heard + [h], row);
    FindCompanionAfter(t.companions, row, client);
    ObserversUnheard(t.observers, heard, heard + [h]);
  }

  lemma ObserversUnheard(rows: seq<ObserverRow>, heard: seq<Heard>, h1: seq<Heard>)
    requires ObserversSay(rows, heard) && forall o :: Known(h1, ByObserver(o)) == Known(heard, ByObserver(o))
    ensures ObserversSay(rows, h1)
  {
    hide Known;
  }

  lemma CompanionsUnheard(rows: seq<CompanionRow>, heard: seq<Heard>, h1: seq<Heard>)
    requires CompanionsSay(rows, heard) && forall c :: Known(h1, ByCompanion(c)) == Known(heard, ByCompanion(c))
    ensures CompanionsSay(rows, h1)
  {
    hide Known;
  }

  /** An observer's accepted report or heartbeat, with the row it leaves. */
  lemma ObserverHeard(t: Tables, t1: Tables, heard: seq<Heard>, row: ObserverRow, h: Heard)
    requires RowsSay(t, heard)
    requires h.author == ByObserver(row.observer) && row.lastSeen == h.at
    requires row.host == Or(h.host, ObserverBefore(t.observers, row.observer).host)
    requires row.conversation == Or(h.conversation, ObserverBefore(t.observers, row.observer).conversation)
    requires t1.observers == PutObserver(t.observers, row) && t1.companions == t.companions
        && t1.companion == t.companion
    ensures RowsSay(t1, heard + [h])
  {
    hide Known, CompanionsSay, ObserversSay, LastCompanion, PutObserver, ObserverBefore, FindCompanion;
    HeardAppended(heard, h);
    ObserverRowSays(t.observers, heard, row.observer);
    ObserverPutSays(t.observers, heard, heard + [h], row);
    CompanionsUnheard(t.companions, heard, heard + [h]);
  }

  lemma StepRows(f: Feed, heard: seq<Heard>, c: Call, now: int)
    requires RowsSay(f.tables, heard)
    ensures RowsSay(Step(f, c, now).tables, heard + HeardFrom(f, c, now))
  {
    hide RowsSay, RequireNonEmpty, OptionalText, Optional, ConversationOf, HostOf, TouchCompanion, PutObserver,
      ObserverBefore, Logged;
    assert heard + [] == heard;
    if HeardFrom(f, c, now) != [] {
      match c
      case DoPublish(client, host, kind, text, payload) =>
        CompanionHeard(f.tables, heard, RequireNonEmpty(client, MAX_ID_CHARS).value,
            OptionalText(host, MAX_ID_CHARS).value, kind, now);
      case DoContact(client, host) =>
        CompanionHeard(f.tables, heard, RequireNonEmpty(client, MAX_ID_CHARS).value,
            OptionalText(host, MAX_ID_CHARS).value, None, now);
      case DoPublishObserver(observer, kind, text, payload) =>
        var t1 := Step(f, c, now).tables;
        ObserverHeard(f.tables, t1, heard, t1.observer.value, OfObserver(observer, payload, now));
      case DoObserverContact(observer, payload) =>
        var h := OfObserver(observer, payload, now);
        var row := HeartbeatRow(f.tables.observers, h.author.observer, h.conversation, h.host, now);
        ObserverHeard(f.tables, Step(f, c, now).tables, heard, row, h);
    }
  }

  lemma NothingHeard()
    ensures RowsSay(Tables([], None, [], None), [])
  {
  }

  /** In every run there is one row for exactly the companions and observers heard of; it says
      when each was heard of last, and the last host and conversation it gave; and the selected
      companion is the one heard of last. */
  lemma {:induction false} RunRows(states: seq<Feed>, histories: seq<seq<Event>>, calls: seq<(Call, int)>, i: nat)
    requires IsRun(states, histories, calls) && i < |states|
    ensures RowsSay(states[i].tables, Contacts(states, calls, i))
  {
    hide RowsSay, Step, HeardFrom, Published;
    if i == 0 {
      NothingHeard();
    } else {
      RunRows(states, histories, calls, i - 1);
      StepRows(states[i - 1], Contacts(states, calls, i - 1), calls[i - 1].0, calls[i - 1].1);
    }
  }

  // ------------------------------------------------------------------ lookups

  /** The freshest row with this host. */
  lemma HostRow(t: Tables, host: string)
    requires host != ""
    ensures var r := CompanionForHost(t, host);
            && (r.Some? ==>
                  && r.value in t.companions && r.value.host == Some(host)
                  && forall x :: x in t.companions && x.host == Some(host) ==> x.lastSeen <= r.value.lastSeen)
            && (r.None? && |t.companions| <= SHOWN ==> forall x :: x in t.companions ==> x.host != Some(host))
  {
    hide Shown, FirstWhere;
    LookupIsFreshest(t.companions, (r: CompanionRow) => r.lastSeen, (r: CompanionRow) => r.host == Some(host));
  }

  /** The freshest row with this conversation. */
  lemma ConversationRow(t: Tables, conversation: string)
    ensures var r := ObserverForConversation(t, conversation);
            && (r.Some? ==>
                  && r.value in t.observers && r.value.conversation == Some(conversation)
                  && forall x :: x in t.observers && x.conversation == Some(conversation) ==>
                       x.lastSeen <= r.value.lastSeen)
            && (r.None? && |t.observers| <= SHOWN ==> forall x :: x in t.observers ==>
                 x.conversation != Some(conversation))
  {
    hide Shown, FirstWhere;
    LookupIsFreshest(t.observers, (r: ObserverRow) => r.lastSeen,
        (r: ObserverRow) => r.conversation == Some(conversation));
  }

  lemma CompanionRowKnown(rows: seq<CompanionRow>, heard: seq<Heard>, row: CompanionRow)
    requires CompanionsSay(rows, heard) && row in rows
    ensures Known(heard, ByCompanion(row.client)) == Record(Some(row.lastSeen), row.host, None)
  {
    hide Known;
  }

  lemma ObserverRowKnown(rows: seq<ObserverRow>, heard: seq<Heard>, row: ObserverRow)
    requires ObserversSay(rows, heard) && row in rows
    ensures Known(heard, ByObserver(row.observer)) == Record(Some(row.lastSeen), row.host, row.conversation)
  {
    hide Known;
  }

  lemma KnownCompanionHasRow(rows: seq<CompanionRow>, heard: seq<Heard>, c: string) returns (row: CompanionRow)
    requires CompanionsSay(rows, heard) && Known(heard, ByCompanion(c)) != UNKNOWN
    ensures row in rows && Known(heard, ByCompanion(c)) == Record(Some(row.lastSeen), row.host, None)
  {
    hide Known;
    row := rows[FindCompanion(rows, c)];
  }

  lemma KnownObserverHasRow(rows: seq<ObserverRow>, heard: seq<Heard>, o: string) returns (row: ObserverRow)
    requires ObserversSay(rows, heard) && Known(heard, ByObserver(o)) != UNKNOWN
    ensures row in rows && Known(heard, ByObserver(o)) == Record(Some(row.lastSeen), row.host, row.conversation)
  {
    hide Known;
    row := rows[FindObserver(rows, o)];
  }

  /** So looking up a host gives the companion heard of last among those whose last host it is;
      with at most 32 companions it finds one if there is any. */
  lemma HostLookup(t: Tables, heard: seq<Heard>, host: string)
    requires RowsSay(t, heard) && host != ""
    ensures var r := CompanionForHost(t, host);
            && (r.Some? ==>
                  && Known(heard, ByCompanion(r.value.client)) == Record(Some(r.value.lastSeen), Some(host), None)
                  && forall c :: Known(heard, ByCompanion(c)).host == Some(host) ==>
                       Known(heard, ByCompanion(c)).seen.Some?
                           && Known(heard, ByCompanion(c)).seen.value <= r.value.lastSeen)
            && (r.None? && |t.companions| <= SHOWN ==> forall c :: Known(heard, ByCompanion(c)).host != Some(host))
  {
    hide CompanionForHost, Known, CompanionsSay, ObserversSay, CompanionSelected;
    HostRow(t, host);
    var r := CompanionForHost(t, host);
    if r.Some? {
      CompanionRowKnown(t.companions, heard, r.value);
    }
    forall c | Known(heard, ByCompanion(c)).host == Some(host)
      ensures r.None? ==> |t.companions| > SHOWN
      ensures r.Some? ==>
          Known(heard, ByCompanion(c)).seen.Some? && Known(heard, ByCompanion(c)).seen.value <= r.value.lastSeen
    {
      var row := KnownCompanionHasRow(t.companions, heard, c);
    }
  }

  /** And looking up a conversation gives the observer heard of last among those whose last
      conversation it is. */
  lemma ConversationLookup(t: Tables, heard: seq<Heard>, conversation: string)
    requires RowsSay(t, heard)
    ensures var r := ObserverForConversation(t, conversation);
            && (r.Some? ==>
                  && Known(heard, ByObserver(r.value.observer))
                       == Record(Some(r.value.lastSeen), r.value.host, Some(conversation))
                  && forall o :: Known(heard, ByObserver(o)).conversation == Some(conversation) ==>
                       Known(heard, ByObserver(o)).seen.Some?
                           && Known(heard, ByObserver(o)).seen.value <= r.value.lastSeen)
            && (r.None? && |t.observers| <= SHOWN ==>
                 forall o :: Known(heard, ByObserver(o)).conversation != Some(conversation))
  {
    hide ObserverForConversation, Known, CompanionsSay, ObserversSay, CompanionSelected;
    ConversationRow(t, conversation);
    var r := ObserverForConversation(t, conversation);
    if r.Some? {
      ObserverRowKnown(t.observers, heard, r.value);
    }
    forall o | Known(heard, ByObserver(o)).conversation == Some(conversation)
      ensures r.None? ==> |t.observers| > SHOWN
      ensures r.Some? ==>
          Known(heard, ByObserver(o)).seen.Some? && Known(heard, ByObserver(o)).seen.value <= r.value.lastSeen
    {
      var row := KnownObserverHasRow(t.observers, heard, o);
    }
  }
}
