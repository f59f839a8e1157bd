/** Reference counting of the helper agents behind tool calls: acquiring one, possibly after
    waiting for a disposal, verifying it, retrying, giving up early, releasing late. Every step
    runs from one suspension point of the code to the next. The callers waiting for one disposal
    resume together. Tearing the plugin down is not modelled. */
module CapabilityLeases {
  type EntryId = nat
  type CallerId = nat
  type SessionId = string

  datatype Creation = Pending | Resolved | Rejected

  /** A helper: its creation, the leases on it, whether it is out of date, and its disposal,
      which is started through the shared promise, or directly when it is abandoned. */
  datatype Entry = Entry(
    sid: SessionId, creation: Creation, leases: int, stale: bool,
    disposing: bool, disposed: bool, abandoned: bool, disposals: nat)

  /** Where a call to acquire is. */
  datatype Inner =
    | Looking
    | AwaitDisposal(entry: EntryId)
    | AwaitHandle(entry: EntryId)
    | Verifying(entry: EntryId)
    | AwaitRetry(entry: EntryId)
    | Acquired(entry: EntryId)
    | Released
    | FailedToAcquire

  /** The request around it: still racing against its lifetime, given the capability, or gone. */
  datatype Outer = Racing | Got | Gone

  datatype Caller = Caller(inner: Inner, outer: Outer, aborted: bool, acquired: nat, releases: nat)

  datatype State = State(entries: map<EntryId, Entry>, handles: map<SessionId, EntryId>, callers: map<CallerId, Caller>)

  datatype Event =
    | Call(caller: CallerId)
    | LookUp(caller: CallerId, sid: SessionId, newEntry: EntryId)
    | LookUpFails(caller: CallerId)
    | Created(entry: EntryId)
    | CreationFails(entry: EntryId, newEntry: EntryId)
    | DisposalEnds(entry: EntryId, newEntry: EntryId)
    | HandleArrives(caller: CallerId)
    | Outdated(caller: CallerId)
    | Retry(caller: CallerId)
    | Verified(caller: CallerId)
    | Fails(caller: CallerId)
    | Abort(caller: CallerId)
    | Deliver(caller: CallerId)
    | GiveUp(caller: CallerId)
    | Release(caller: CallerId)

  function NewEntry(sid: SessionId, leases: int): Entry {
    Entry(sid, Pending, leases, false, false, false, false, 0)
  }

  /** Start disposal unless it has been started. */
  function ForceDispose(x: Entry): Entry {
    if x.disposing then x else x.(disposing := true, disposals := x.disposals + 1)
  }

  function MaybeDispose(x: Entry): Entry {
    if !x.stale || x.leases != 0 then x else ForceDispose(x)
  }

  function Retired(x: Entry): Entry { MaybeDispose(x.(stale := true)) }

  predicate InMap(s: State, e: EntryId) {
    e in s.entries && s.entries[e].sid in s.handles && s.handles[s.entries[e].sid] == e
  }

  /** Retire every helper in the map but the one of this session. */
  function RetireOthers(s: State, sid: SessionId): map<EntryId, Entry> {
    map e | e in s.entries :: if InMap(s, e) && s.entries[e].sid != sid then Retired(s.entries[e]) else s.entries[e]
  }

  predicate Holds(c: Caller, e: EntryId) {
    match c.inner
    case AwaitHandle(x) => x == e
    case Verifying(x) => x == e
    case Acquired(x) => x == e
    case _ => false
  }

  function SetInner(s: State, c: CallerId, inner: Inner): map<CallerId, Caller>
    requires c in s.callers
  {
    s.callers[c := s.callers[c].(inner := inner)]
  }

  /** The callers waiting for this disposal that have not been aborted meanwhile. */
  function Alive(s: State, e: EntryId): set<CallerId> {
    set c | c in s.callers && s.callers[c].inner == AwaitDisposal(e) && !s.callers[c].aborted
  }

  function Drop(handles: map<SessionId, EntryId>, sid: SessionId, e: EntryId): map<SessionId, EntryId> {
    if sid in handles && handles[sid] == e then handles - {sid} else handles
  }

  /** The disposal promise settles: the entry leaves the map, and everyone waiting looks again;
      the first creates a new entry, the others join it. */
  function Settle(s: State, e: EntryId, newEntry: EntryId): State
    requires e in s.entries
  {
    var sid := s.entries[e].sid;
    var alive := Alive(s, e);
    var entries := s.entries[e := s.entries[e].(disposed := true)];
    var handles := Drop(s.handles, sid, e);
    var to := if sid in handles then handles[sid] else newEntry;
    var callers := map c | c in s.callers ::
                     if s.callers[c].inner == AwaitDisposal(e) then
                       s.callers[c].(inner := if s.callers[c].aborted then FailedToAcquire else AwaitHandle(to))
                     else s.callers[c];
    if alive == {} then State(entries, handles, callers)
    else if sid in handles && to in entries then
      State(entries[to := entries[to].(leases := entries[to].leases + |alive|)], handles, callers)
    else State(entries[newEntry := NewEntry(sid, |alive|)], handles[sid := newEntry], callers)
  }

  /** A caller that gave its lease back goes on at once unless its own return of the lease found
      a disposal to wait for; letting it go on in that case too only adds interleavings. */
  predicate Enabled(s: State, e: Event) {
    match e
    case Call(c) => c !in s.callers
    case LookUp(c, sid, newEntry) =>
      c in s.callers && s.callers[c].inner.Looking? && !s.callers[c].aborted && newEntry !in s.entries
      && (sid in s.handles ==> s.handles[sid] in s.entries)
    case LookUpFails(c) => c in s.callers && s.callers[c].inner.Looking?
    case Created(x) => x in s.entries && s.entries[x].creation.Pending?
    case CreationFails(x, newEntry) => x in s.entries && s.entries[x].creation.Pending? && newEntry !in s.entries
    case DisposalEnds(x, newEntry) =>
      x in s.entries && s.entries[x].disposing && !s.entries[x].disposed && !s.entries[x].creation.Pending?
          && newEntry !in s.entries
    case HandleArrives(c) => c in s.callers && s.callers[c].inner.AwaitHandle? && s.callers[c].inner.entry in s.entries
                             && s.entries[s.callers[c].inner.entry].creation.Resolved?
    case Outdated(c) => c in s.callers && s.callers[c].inner.Verifying? && s.callers[c].inner.entry in s.entries
    case Retry(c) => c in s.callers && s.callers[c].inner.AwaitRetry? && s.callers[c].inner.entry in s.entries
    case Verified(c) => c in s.callers && s.callers[c].inner.Verifying? && s.callers[c].inner.entry in s.entries
    case Fails(c) =>
      c in s.callers && (s.callers[c].inner.Verifying? || s.callers[c].inner.AwaitHandle?)
          && s.callers[c].inner.entry in s.entries
      && (s.callers[c].inner.AwaitHandle? ==>
           s.callers[c].aborted || s.entries[s.callers[c].inner.entry].creation.Rejected?)
    case Abort(c) => c in s.callers
    case Deliver(c) => c in s.callers && s.callers[c].inner.Acquired? && s.callers[c].outer.Racing?
    case GiveUp(c) => c in s.callers && s.callers[c].outer.Racing? && s.callers[c].aborted
    case Release(c) =>
      c in s.callers && s.callers[c].inner.Acquired? && !s.callers[c].outer.Racing?
          && s.callers[c].inner.entry in s.entries
  }

  // -------------------------------------------------------------------- steps

  function LookUpStep(s: State, c: CallerId, sid: SessionId, newEntry: EntryId): State
    requires c in s.callers && (sid in s.handles ==> s.handles[sid] in s.entries)
  {
    if sid in s.handles then
      var e := s.handles[sid];
      if s.entries[e].disposing then s.(callers := SetInner(s, c, AwaitDisposal(e)))
      else
        s.(entries := s.entries[e := s.entries[e].(leases := s.entries[e].leases + 1)],
            callers := SetInner(s, c, AwaitHandle(e)))
    else
      s.(entries := s.entries[newEntry := NewEntry(sid, 1)], handles := s.handles[sid := newEntry],
          callers := SetInner(s, c, AwaitHandle(newEntry)))
  }

  /** A disposal waiting for a creation that fails is over with it. */
  function CreationFailsStep(s: State, x: EntryId, newEntry: EntryId): State
    requires x in s.entries
  {
    var rejected := s.(entries := s.entries[x := s.entries[x].(creation := Rejected)],
        handles := Drop(s.handles, s.entries[x].sid, x));
    if s.entries[x].disposing && !s.entries[x].disposed then Settle(rejected, x, newEntry) else rejected
  }

  /** The lease is returned, the helper is out of date, and the call will start over. */
  function OutdatedStep(s: State, c: CallerId): State
    requires c in s.callers && s.callers[c].inner.Verifying? && s.callers[c].inner.entry in s.entries
  {
    var e := s.callers[c].inner.entry;
    s.(entries := s.entries[e := MaybeDispose(s.entries[e].(stale := true, leases := s.entries[e].leases - 1))],
       callers := SetInner(s, c, AwaitRetry(e)))
  }

  function VerifiedStep(s: State, c: CallerId): State
    requires c in s.callers && s.callers[c].inner.Verifying? && s.callers[c].inner.entry in s.entries
  {
    var e := s.callers[c].inner.entry;
    var current := s.(entries := s.entries[e := s.entries[e].(stale := false)]);
    s.(entries := RetireOthers(current, s.entries[e].sid),
       callers := s.callers[c := s.callers[c].(inner := Acquired(e), acquired := s.callers[c].acquired + 1)])
  }

  /** The failure path: an aborted last caller takes the entry out of the map and disposes of its
      helper whenever it arrives; otherwise disposal is up to the lease count. */
  function FailsStep(s: State, c: CallerId): State
    requires c in s.callers && (s.callers[c].inner.Verifying? || s.callers[c].inner.AwaitHandle?)
        && s.callers[c].inner.entry in s.entries
  {
    var e := s.callers[c].inner.entry;
    var x := s.entries[e].(stale := true, leases := s.entries[e].leases - 1);
    if s.callers[c].aborted && x.leases == 0 && InMap(s, e) then
      s.(entries := s.entries[e := x.(abandoned := true, disposals := x.disposals + 1)], handles := s.handles - {x.sid},
         callers := SetInner(s, c, FailedToAcquire))
    else s.(entries := s.entries[e := MaybeDispose(x)], callers := SetInner(s, c, FailedToAcquire))
  }

  function ReleaseStep(s: State, c: CallerId): State
    requires c in s.callers && s.callers[c].inner.Acquired? && s.callers[c].inner.entry in s.entries
  {
    var e := s.callers[c].inner.entry;
    s.(entries := s.entries[e := MaybeDispose(s.entries[e].(leases := s.entries[e].leases - 1))],
       callers := s.callers[c := s.callers[c].(inner := Released, releases := s.callers[c].releases + 1)])
  }

  function Step(s: State, e: Event): State
    requires Enabled(s, e)
  {
    match e
    case Call(c) => s.(callers := s.callers[c := Caller(Looking, Racing, false, 0, 0)])
    case LookUp(c, sid, newEntry) => LookUpStep(s, c, sid, newEntry)
    case LookUpFails(c) => s.(callers := SetInner(s, c, FailedToAcquire))
    case Created(x) => s.(entries := s.entries[x := s.entries[x].(creation := Resolved)])
    case CreationFails(x, newEntry) => CreationFailsStep(s, x, newEntry)
    case DisposalEnds(x, newEntry) => Settle(s, x, newEntry)
    case HandleArrives(c) => s.(callers := SetInner(s, c, Verifying(s.callers[c].inner.entry)))
    case Outdated(c) => OutdatedStep(s, c)
    case Retry(c) => s.(callers := SetInner(s, c, Looking))
    case Verified(c) => VerifiedStep(s, c)
    case Fails(c) => FailsStep(s, c)
    case Abort(c) => s.(callers := s.callers[c := s.callers[c].(aborted := true)])
    case Deliver(c) => s.(callers := s.callers[c := s.callers[c].(outer := Got)])
    case GiveUp(c) => s.(callers := s.callers[c := s.callers[c].(outer := Gone)])
    case Release(c) => ReleaseStep(s, c)
  }
}
