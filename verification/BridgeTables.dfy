/** Who has been heard of: the companion and observer tables of the bridge, in insertion order,
    and the lookups that take the most recently seen row. */
module BridgeTables {
  import opened Collections

  const SHOWN: nat := 32

  datatype EventType =
    | CompanionReady | ObserverReady | TurnStarted | AssistantMessage
    | TurnCompleted | Blocked | BridgeDegraded | ErrorEvent

  datatype CompanionRow = CompanionRow(
    client: string, host: Option<string>, lastSeen: int, lastEvent: Option<EventType>)

  datatype ObserverRow = ObserverRow(
    observer: string, lastSeen: int, lastEventAt: Option<int>, lastEvent: Option<EventType>,
    conversation: Option<string>, host: Option<string>)

  /** The two tables, and the rows touched last. */
  datatype Tables = Tables(
    companions: seq<CompanionRow>, companion: Option<CompanionRow>,
    observers: seq<ObserverRow>, observer: Option<ObserverRow>)

  function Or<T>(a: Option<T>, b: Option<T>): Option<T> { if a.Some? then a else b }

  // ----------------------------------------------------------------- touching

  function FindCompanion(rows: seq<CompanionRow>, client: string): (i: nat)
    ensures i <= |rows| && (i < |rows| ==> rows[i].client == client)
        && forall j :: 0 <= j < i ==> rows[j].client != client
  {
    IndexWhere(rows, (r: CompanionRow) => r.client == client)
  }

  function FindObserver(rows: seq<ObserverRow>, observer: string): (i: nat)
    ensures i <= |rows| && (i < |rows| ==> rows[i].observer == observer)
        && forall j :: 0 <= j < i ==> rows[j].observer != observer
  {
    IndexWhere(rows, (r: ObserverRow) => r.observer == observer)
  }

  function CompanionNow(
      rows: seq<CompanionRow>, client: string, host: Option<string>, event: Option<EventType>, now: int): CompanionRow {
    var i := FindCompanion(rows, client);
    var previous := if i < |rows| then rows[i] else CompanionRow(client, None, 0, None);
    CompanionRow(client, Or(host, previous.host), now, Or(event, previous.lastEvent))
  }

  function TouchCompanion(t: Tables, client: string, host: Option<string>, event: Option<EventType>, now: int): Tables {
    var row := CompanionNow(t.companions, client, host, event, now);
    t.(companions := PutCompanion(t.companions, row), companion := Some(row))
  }

  function PutCompanion(rows: seq<CompanionRow>, row: CompanionRow): seq<CompanionRow> {
    var i := FindCompanion(rows, row.client);
    if i < |rows| then rows[i := row] else rows + [row]
  }

  function ObserverBefore(rows: seq<ObserverRow>, observer: string): ObserverRow {
    var i := FindObserver(rows, observer);
    if i < |rows| then rows[i] else ObserverRow(observer, 0, None, None, None, None)
  }

  function PutObserver(rows: seq<ObserverRow>, row: ObserverRow): seq<ObserverRow> {
    var i := FindObserver(rows, row.observer);
    if i < |rows| then rows[i := row] else rows + [row]
  }

  /** An observer reported an event: it becomes the selected one. */
  function ObserverEvent(
      t: Tables, observer: string, event: EventType, conversation: Option<string>, host: Option<string>, now: int)
      : Tables {
    var previous := ObserverBefore(t.observers, observer);
    var row := ObserverRow(observer, now, Some(now), Some(event), Or(conversation, previous.conversation),
        Or(host, previous.host));
    t.(observers := PutObserver(t.observers, row), observer := Some(row))
  }

  function HeartbeatRow(
      rows: seq<ObserverRow>, observer: string, conversation: Option<string>, host: Option<string>, now: int)
      : ObserverRow {
    var previous := ObserverBefore(rows, observer);
    ObserverRow(observer, now, previous.lastEventAt, previous.lastEvent, Or(conversation, previous.conversation),
        Or(host, previous.host))
  }

  /** A heartbeat keeps the last event and does not select the observer. */
  function ObserverHeartbeat(
      t: Tables, observer: string, conversation: Option<string>, host: Option<string>, now: int): Tables {
    var row := HeartbeatRow(t.observers, observer, conversation, host, now);
    t.(observers := PutObserver(t.observers, row),
       observer := if t.observer.Some? && t.observer.value.observer == observer then Some(row) else t.observer)
  }

  // ------------------------------------------------------------------ lookups

  /** Stable insertion into rows ordered from most to least recent. */
  function InsertRecent<T>(row: T, rows: seq<T>, seen: T -> int): seq<T> {
    if rows == [] || seen(row) >= seen(rows[0]) then [row] + rows
    else [rows[0]] + InsertRecent(row, rows[1..], seen)
  }

  function SortRecent<T>(rows: seq<T>, seen: T -> int): seq<T> {
    if rows == [] then [] else InsertRecent(rows[0], SortRecent(rows[1..], seen), seen)
  }

  function Shown<T>(rows: seq<T>, seen: T -> int): seq<T> {
    var sorted := SortRecent(rows, seen);
    if |sorted| <= SHOWN then sorted else sorted[..SHOWN]
  }

  function FirstWhere<T>(rows: seq<T>, p: T -> bool): Option<T> {
    var i := IndexWhere(rows, p);
    if i < |rows| then Some(rows[i]) else None
  }

  function CompanionForHost(t: Tables, host: string): Option<CompanionRow> {
    if host == "" then None
    else FirstWhere(Shown(t.companions, (r: CompanionRow) => r.lastSeen), (r: CompanionRow) => r.host == Some(host))
  }

  function ObserverForConversation(t: Tables, conversation: string): Option<ObserverRow> {
    FirstWhere(Shown(t.observers, (r: ObserverRow) => r.lastSeen),
        (r: ObserverRow) => r.conversation == Some(conversation))
  }

  function ObserverStatus(t: Tables, observer: string): Option<ObserverRow> {
    var i := FindObserver(t.observers, observer);
    if i < |t.observers| then Some(t.observers[i]) else None
  }

  ghost predicate Descending<T>(rows: seq<T>, seen: T -> int) {
    forall i, j :: 0 <= i < j < |rows| ==> seen(rows[i]) >= seen(rows[j])
  }

  lemma {:induction false} InsertMembers<T(!new)>(row: T, rows: seq<T>, seen: T -> int)
    ensures |InsertRecent(row, rows, seen)| == |rows| + 1
    ensures forall x :: x in InsertRecent(row, rows, seen) <==> x == row || x in rows
  {
    if rows != [] && seen(row) < seen(rows[0]) {
      InsertMembers(row, rows[1..], seen);
    }
  }

  lemma {:induction false} InsertKeeps<T(!new)>(row: T, rows: seq<T>, seen: T -> int)
    requires Descending(rows, seen)
    ensures Descending(InsertRecent(row, rows, seen), seen)
  {
    assert rows != [] ==> Descending(rows[1..], seen);
    if rows != [] && seen(row) < seen(rows[0]) {
      InsertKeeps(row, rows[1..], seen);
      InsertMembers(row, rows[1..], seen);
      forall x | x in rows[1..] ensures seen(rows[0]) >= seen(x) {
        var j :| 0 <= j < |rows[1..]| && rows[1..][j] == x;
        assert rows[j + 1] == x;
      }
      var rest := InsertRecent(row, rows[1..], seen);
      forall x | x in rest ensures seen(rows[0]) >= seen(x) {
        assert x == row || x in rows[1..];
      }
      ConsDescending(rows[0], rest, seen);
    }
  }

  lemma ConsDescending<T(!new)>(row: T, rest: seq<T>, seen: T -> int)
    requires Descending(rest, seen) && forall x :: x in rest ==> seen(row) >= seen(x)
    ensures Descending([row] + rest, seen)
  {
  }

  lemma {:induction false} SortKeeps<T(!new)>(rows: seq<T>, seen: T -> int)
    ensures |SortRecent(rows, seen)| == |rows|
    ensures forall x :: x in SortRecent(rows, seen) <==> x in rows
    ensures Descending(SortRecent(rows, seen), seen)
  {
    if rows != [] {
      SortKeeps(rows[1..], seen);
      InsertMembers(rows[0], SortRecent(rows[1..], seen), seen);
      InsertKeeps(rows[0], SortRecent(rows[1..], seen), seen);
    }
  }

  /** A lookup over the shown rows gives the most recently seen match; it misses one only if 32
      other rows were seen at least as recently. */
  lemma LookupIsFreshest<T(!new)>(rows: seq<T>, seen: T -> int, p: T -> bool)
    ensures var r := FirstWhere(Shown(rows, seen), p);
            && (r.Some? ==> r.value in rows && p(r.value) && forall x :: x in rows && p(x) ==> seen(x) <= seen(r.value))
            && (r.None? && |rows| <= SHOWN ==> forall x :: x in rows ==> !p(x))
            && (r.None? ==> forall x :: x in rows && p(x) ==> forall y :: y in Shown(rows, seen) ==> seen(y) >= seen(x))
  {
    SortKeeps(rows, seen);
    var sorted, shown := SortRecent(rows, seen), Shown(rows, seen);
    var i := IndexWhere(shown, p);
    if i < |shown| {
      assert forall j :: 0 <= j < |shown| ==> sorted[j] == shown[j];
      forall x | x in rows && p(x) ensures seen(x) <= seen(shown[i]) {
        var k :| 0 <= k < |sorted| && sorted[k] == x;
        assert k >= i;
      }
    } else {
      assert forall j :: 0 <= j < |shown| ==> sorted[j] == shown[j] && !p(sorted[j]);
      forall x, y | x in rows && p(x) && y in shown ensures seen(y) >= seen(x) {
        var k :| 0 <= k < |sorted| && sorted[k] == x;
        var m :| 0 <= m < |shown| && shown[m] == y;
        assert k >= |shown| > m;
      }
    }
  }
}
