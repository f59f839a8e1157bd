/** Which reports and contacts the bridge accepts, and what an accepted one records and answers. */
module BridgeReports {
  import opened Collections
  import opened JsText
  import opened BridgeQueueModel
  import opened BridgeTables
  import opened BridgeEvents
  import L = BridgeQueueLives

  predicate GoodField(f: Field, max: nat) { f == Absent || (f.Str? && |f.chars| <= max) }

  /** A field as it is understood: an empty string counts as none. */
  function Understood(f: Field): Option<string> {
    if f.Str? && f.chars != "" then Some(f.chars) else None
  }

  lemma OptionalIs(f: Field, max: nat)
    ensures Optional(f, max) == if GoodField(f, max) then Ok(Understood(f)) else Err(InvalidRequest)
  {
  }

  predicate GoodPayload(p: Payload) {
    match p
    case NoPayload => true
    case NotAnObject => false
    case Fields(conversation, host) => GoodField(conversation, 512) && GoodField(host, 128)
  }

  lemma PayloadIs(p: Payload)
    ensures GoodPayload(p) <==> !p.NotAnObject? && ConversationOf(p).Ok? && HostOf(p).Ok?
    ensures GoodPayload(p) ==> ConversationOf(p) == Ok(if p.Fields? then Understood(p.conversation) else None)
    ensures GoodPayload(p) ==> HostOf(p) == Ok(if p.Fields? then Understood(p.host) else None)
  {
    if p.Fields? {
      OptionalIs(p.conversation, 512);
      OptionalIs(p.host, 128);
    }
  }

  /** The report is the next in the log, which keeps the last 128. */
  predicate Recorded(f: Feed, f1: Feed, e: Event) {
    && e.number == f.next && f1.next == f.next + 1
    && var all := f.events + [e];
       f1.events == if |all| > 128 then all[|all| - 128..] else all
  }

  /** A companion's report. */
  lemma PublishExactly(
      f: Feed, client: string, host: Option<string>, kind: Option<EventType>, text: Field, payload: Payload, now: int)
    ensures var (f1, r) := Publish(f, client, host, kind, text, payload, now);
            var good := L.GoodId(client) && L.GoodHost(host) && kind.Some? && GoodField(text, 8000)
                        && !payload.NotAnObject?;
            && (r.Ok? <==> good) && (r.Err? ==> r == Err(InvalidRequest) && f1 == f)
            && (r.Ok? ==>
                  && r.value == Event(f.next, now, ByCompanion(Trim(client)), kind.value, Understood(text), payload)
                  && Recorded(f, f1, r.value)
                  && f1.tables == TouchCompanion(f.tables, Trim(client), if host == Some("") then None else host,
                       kind, now))
  {
    hide RequireNonEmpty, OptionalText, Optional, L.GoodId, L.GoodHost, Trim, TouchCompanion;
    L.IdAccepted(client);
    L.HostAccepted(host);
    OptionalIs(text, 8000);
  }

  /** An observer's report: of a companion's payload nothing is looked at, of an observer's the
      conversation and the host. */
  lemma PublishObserverExactly(
      f: Feed, observer: string, kind: Option<EventType>, text: Field, payload: Payload, now: int)
    ensures var (f1, r) := PublishObserver(f, observer, kind, text, payload, now);
            var good := L.GoodId(observer) && kind.Some? && GoodField(text, 8000) && GoodPayload(payload);
            && (r.Ok? <==> good) && (r.Err? ==> r == Err(InvalidRequest) && f1 == f)
            && (r.Ok? ==>
                  && r.value == Event(f.next, now, ByObserver(Trim(observer)), kind.value, Understood(text), payload)
                  && Recorded(f, f1, r.value) && f1.tables.companions == f.tables.companions
                  && f1.tables.companion == f.tables.companion)
  {
    hide RequireNonEmpty, Optional, L.GoodId, Trim, GoodPayload, ConversationOf, HostOf, PutObserver, ObserverBefore;
    L.IdAccepted(observer);
    OptionalIs(text, 8000);
    PayloadIs(payload);
  }

  /** A companion's contact answers with its row, which is then the selected one. */
  lemma ContactExactly(f: Feed, client: string, host: Option<string>, now: int)
    ensures var (f1, r) := Contact(f, client, host, now);
            && (r.Ok? <==> L.GoodId(client) && L.GoodHost(host)) && (r.Err? ==> r == Err(InvalidRequest) && f1 == f)
            && (r.Ok? ==>
                  && f1.events == f.events && f1.next == f.next && f1.tables.companion == Some(r.value)
                  && r.value in f1.tables.companions && r.value.client == Trim(client) && r.value.lastSeen == now
                  && f1.tables.observers == f.tables.observers && f1.tables.observer == f.tables.observer)
  {
    hide RequireNonEmpty, OptionalText, L.GoodId, L.GoodHost, Trim;
    L.IdAccepted(client);
    L.HostAccepted(host);
    if L.GoodId(client) && L.GoodHost(host) {
      FindCompanionAfter(
        f.tables.companions,
        CompanionNow(f.tables.companions, Trim(client), OptionalText(host, MAX_ID_CHARS).value, None, now), "");
    }
  }

  /** An observer's heartbeat answers with its row as it is now. */
  lemma ObserverContactExactly(f: Feed, observer: string, payload: Payload, now: int)
    ensures var (f1, r) := ObserverContact(f, observer, payload, now);
            && (r.Ok? <==> L.GoodId(observer) && GoodPayload(payload))
                 && (r.Err? ==> r == Err(InvalidRequest) && f1 == f)
            && (r.Ok? ==>
                  && f1.events == f.events && f1.next == f.next
                       && ObserverStatus(f1.tables, Trim(observer)) == Some(r.value)
                  && r.value.observer == Trim(observer) && r.value.lastSeen == now
                  && f1.tables.companions == f.tables.companions && f1.tables.companion == f.tables.companion)
  {
    hide RequireNonEmpty, L.GoodId, Trim, GoodPayload, ConversationOf, HostOf, PutObserver, ObserverBefore,
      FindObserver;
    L.IdAccepted(observer);
    PayloadIs(payload);
    if L.GoodId(observer) && GoodPayload(payload) {
      FindObserverAfter(
        f.tables.observers,
        HeartbeatRow(f.tables.observers, Trim(observer), ConversationOf(payload).value, HostOf(payload).value, now),
            "");
    }
  }

  /** An observer is looked up by its own id. */
  lemma ObserverStatusExactly(t: Tables, observer: string)
    requires forall i, j :: 0 <= i < j < |t.observers| ==> t.observers[i].observer != t.observers[j].observer
    ensures ObserverStatus(t, observer).None? <==> forall r :: r in t.observers ==> r.observer != observer
    ensures forall r :: r in t.observers && r.observer == observer ==> ObserverStatus(t, observer) == Some(r)
  {
    forall r | r in t.observers && r.observer == observer ensures ObserverStatus(t, observer) == Some(r) {
      var k :| 0 <= k < |t.observers| && t.observers[k] == r;
    }
  }

  /** Lookups see the 32 rows heard of last, most recent first. */
  lemma ShownIs<T(!new)>(rows: seq<T>, seen: T -> int)
    ensures |Shown(rows, seen)| == if |rows| <= 32 then |rows| else 32
    ensures Descending(Shown(rows, seen), seen)
    ensures forall x :: x in Shown(rows, seen) ==> x in rows
    ensures |rows| <= 32 ==> forall x :: x in rows ==> x in Shown(rows, seen)
    ensures forall x, y :: x in rows && x !in Shown(rows, seen) && y in Shown(rows, seen) ==> seen(y) >= seen(x)
  {
    SortKeeps(rows, seen);
    var sorted, shown := SortRecent(rows, seen), Shown(rows, seen);
    assert forall i :: 0 <= i < |shown| ==> shown[i] == sorted[i];
    forall x, y | x in rows && x !in shown && y in shown ensures seen(y) >= seen(x) {
      var i :| 0 <= i < |sorted| && sorted[i] == x;
      var j :| 0 <= j < |shown| && shown[j] == y;
      assert i < |shown| ==> shown[i] == x;
    }
  }

  /** No companion is looked up for an empty host. */
  lemma EmptyHostFindsNone(t: Tables)
    ensures CompanionForHost(t, "") == None
  {
  }
}
