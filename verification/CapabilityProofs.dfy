/** Lease accounting: what every interleaving of acquiring, verifying, failing, giving up and
    releasing keeps. */
module CapabilityProofs {
  import opened Collections
  import opened CapabilityLeases

  // --------------------------------------------------------------- invariant

  /** Disposal is started at most once, only without leases; nothing out of date and unused is
      left undisposed. */
  ghost predicate EntryOk(x: Entry) {
    && x.leases >= 0
    && x.disposals == (if x.disposing then 1 else 0) + (if x.abandoned then 1 else 0)
    && !(x.disposing && x.abandoned)
    && (x.disposing || x.abandoned ==> x.leases == 0)
    && (x.stale && x.leases == 0 ==> x.disposing || x.abandoned)
    && (x.disposed ==> x.disposing && !x.creation.Pending?)
  }

  ghost predicate EntriesOk(entries: map<EntryId, Entry>) {
    forall e :: e in entries ==> EntryOk(entries[e])
  }

  predicate Live(x: Entry) { !x.abandoned && !x.disposed && !x.creation.Rejected? }

  /** The map holds exactly the live entries. */
  ghost predicate MapOk(entries: map<EntryId, Entry>, handles: map<SessionId, EntryId>) {
    && (forall sid :: sid in handles ==>
         handles[sid] in entries && entries[handles[sid]].sid == sid && Live(entries[handles[sid]]))
    && (forall e :: e in entries && Live(entries[e]) ==> entries[e].sid in handles && handles[entries[e].sid] == e)
  }

  /** but is an entry whose disposal is just settling: its waiters are about to resume. */
  ghost predicate CallerOk(entries: map<EntryId, Entry>, c: Caller, but: Option<EntryId>) {
    && c.acquired == (if c.inner.Acquired? || c.inner.Released? then 1 else 0)
    && c.releases == (if c.inner.Released? then 1 else 0)
    && (c.inner.Released? ==> !c.outer.Racing?)
    && match c.inner
       case AwaitDisposal(e) => e in entries && (but == Some(e) || (entries[e].disposing && Live(entries[e])))
       case AwaitHandle(e) => e in entries
       case Verifying(e) => e in entries && entries[e].creation.Resolved?
       case AwaitRetry(e) => e in entries
       case Acquired(e) => e in entries && entries[e].creation.Resolved?
       case _ => true
  }

  ghost predicate CallersOk(entries: map<EntryId, Entry>, callers: map<CallerId, Caller>, but: Option<EntryId>) {
    forall c :: c in callers ==> CallerOk(entries, callers[c], but)
  }

  function Holders(callers: map<CallerId, Caller>, e: EntryId): set<CallerId> {
    set c | c in callers && Holds(callers[c], e)
  }

  ghost predicate LeasesOk(entries: map<EntryId, Entry>, callers: map<CallerId, Caller>) {
    forall e :: e in entries ==> entries[e].leases == |Holders(callers, e)|
  }

  ghost predicate Inv(s: State) {
    && EntriesOk(s.entries) && MapOk(s.entries, s.handles) && CallersOk(s.entries, s.callers, None)
         && LeasesOk(s.entries, s.callers)
  }

  // ------------------------------------------------------------------ holders

  lemma HoldersSet(callers: map<CallerId, Caller>, c: CallerId, x: Caller, e: EntryId)
    ensures Holders(callers[c := x], e) == if Holds(x, e) then Holders(callers, e) + {c} else Holders(callers, e) - {c}
  {
  }

  /** One caller moves without taking or returning a lease. */
  lemma MoveLeases(entries: map<EntryId, Entry>, callers: map<CallerId, Caller>, c: CallerId, x: Caller)
    requires LeasesOk(entries, callers)
    requires forall e :: Holds(x, e) <==> (c in callers && Holds(callers[c], e))
    ensures LeasesOk(entries, callers[c := x])
  {
    forall e | e in entries ensures Holders(callers[c := x], e) == Holders(callers, e) {
      HoldersSet(callers, c, x, e);
    }
  }

  lemma MoveCallers(entries: map<EntryId, Entry>, callers: map<CallerId, Caller>, c: CallerId, x: Caller)
    requires CallersOk(entries, callers, None) && CallerOk(entries, x, None)
    ensures CallersOk(entries, callers[c := x], None)
  {
    hide CallerOk;
  }

  lemma MoveInv(s: State, c: CallerId, x: Caller)
    requires Inv(s) && CallerOk(s.entries, x, None)
    requires forall e :: Holds(x, e) <==> (c in s.callers && Holds(s.callers[c], e))
    ensures Inv(s.(callers := s.callers[c := x]))
  {
    MoveLeases(s.entries, s.callers, c, x);
    MoveCallers(s.entries, s.callers, c, x);
    hide EntriesOk, MapOk, CallersOk, LeasesOk;
  }

  /** A caller that holds a lease is counted in it. */
  lemma HeldIsCounted(s: State, c: CallerId, e: EntryId)
    requires LeasesOk(s.entries, s.callers) && c in s.callers && Holds(s.callers[c], e) && e in s.entries
    ensures s.entries[e].leases >= 1
  {
    assert {c} <= Holders(s.callers, e);
    SubsetSize({c}, Holders(s.callers, e));
  }

  /** One entry changes its leases with one caller. */
  lemma LeaseChange(
      entries: map<EntryId, Entry>, callers: map<CallerId, Caller>, c: CallerId, x: Caller, e: EntryId, y: Entry)
    requires LeasesOk(entries, callers) && c in callers && e in entries
    requires forall d :: d != e ==> !Holds(x, d) && !Holds(callers[c], d)
    requires y.leases == entries[e].leases + (if Holds(x, e) then 1 else 0) - (if Holds(callers[c], e) then 1 else 0)
    ensures LeasesOk(entries[e := y], callers[c := x])
  {
    var after := entries[e := y];
    forall d | d in after ensures after[d].leases == |Holders(callers[c := x], d)| {
      HoldersSet(callers, c, x, d);
      assert Holds(callers[c], d) <==> c in Holders(callers, d);
    }
  }

  /** An entry keeps what callers rely on. */
  ghost predicate Carries(x: Entry, y: Entry) {
    && y.sid == x.sid && (x.creation.Resolved? ==> y.creation.Resolved?)
    && (x.disposing && Live(x) ==> y.disposing && Live(y))
  }

  lemma EntryChangesCallers(
      entries: map<EntryId, Entry>, callers: map<CallerId, Caller>, e: EntryId, y: Entry, but: Option<EntryId>)
    requires CallersOk(entries, callers, but) && e in entries && Carries(entries[e], y)
    ensures CallersOk(entries[e := y], callers, but)
  {
    forall c | c in callers ensures CallerOk(entries[e := y], callers[c], but) {
      assert CallerOk(entries, callers[c], but);
    }
  }

  lemma EntryChangesMap(entries: map<EntryId, Entry>, handles: map<SessionId, EntryId>, e: EntryId, y: Entry)
    requires MapOk(entries, handles) && e in entries && y.sid == entries[e].sid && (Live(y) <==> Live(entries[e]))
    ensures MapOk(entries[e := y], handles)
  {
  }

  lemma EntryChangesEntries(entries: map<EntryId, Entry>, e: EntryId, y: Entry)
    requires EntriesOk(entries) && EntryOk(y)
    ensures EntriesOk(entries[e := y])
  {
    hide EntryOk;
  }

  /** One caller moves to x while the entry it holds or takes becomes y. */
  lemma LeaseInv(s: State, c: CallerId, x: Caller, e: EntryId, y: Entry)
    requires Inv(s) && c in s.callers && e in s.entries && EntryOk(y) && Carries(s.entries[e], y)
        && (Live(y) <==> Live(s.entries[e]))
    requires forall d :: d != e ==> !Holds(x, d) && !Holds(s.callers[c], d)
    requires y.leases == s.entries[e].leases
        + (if Holds(x, e) then 1 else 0) - (if Holds(s.callers[c], e) then 1 else 0)
    requires CallerOk(s.entries[e := y], x, None)
    ensures Inv(s.(entries := s.entries[e := y], callers := s.callers[c := x]))
  {
    LeaseChange(s.entries, s.callers, c, x, e, y);
    EntryChangesCallers(s.entries, s.callers, e, y, None);
    MoveCallers(s.entries[e := y], s.callers, c, x);
    EntryChangesMap(s.entries, s.handles, e, y);
    EntryChangesEntries(s.entries, e, y);
    hide EntriesOk, MapOk, CallersOk, LeasesOk;
  }

  // -------------------------------------------------------------------- steps

  lemma EntryAt(s: State, e: EntryId)
    requires Inv(s) && e in s.entries
    ensures EntryOk(s.entries[e]) && (InMap(s, e) <==> Live(s.entries[e]))
  {
    hide EntryOk, CallersOk, LeasesOk;
  }

  lemma CallerAt(s: State, c: CallerId)
    requires Inv(s) && c in s.callers
    ensures CallerOk(s.entries, s.callers[c], None)
  {
    hide CallerOk, EntriesOk, MapOk, LeasesOk;
  }

  lemma MapAt(s: State, sid: SessionId)
    requires Inv(s) && sid in s.handles
    ensures s.handles[sid] in s.entries && s.entries[s.handles[sid]].sid == sid && Live(s.entries[s.handles[sid]])
        && EntryOk(s.entries[s.handles[sid]])
  {
    hide EntryOk, CallersOk, LeasesOk;
  }

  lemma LookUpInv(s: State, c: CallerId, sid: SessionId, newEntry: EntryId)
    requires Inv(s) && Enabled(s, LookUp(c, sid, newEntry))
    ensures Inv(LookUpStep(s, c, sid, newEntry))
  {
    hide Inv;
    CallerAt(s, c);
    if sid in s.handles {
      MapAt(s, sid);
      var e := s.handles[sid];
      if s.entries[e].disposing {
        MoveInv(s, c, s.callers[c].(inner := AwaitDisposal(e)));
      } else {
        LeaseInv(s, c, s.callers[c].(inner := AwaitHandle(e)), e, s.entries[e].(leases := s.entries[e].leases + 1));
      }
    } else {
      CreateInv(s, c, sid, newEntry);
    }
  }

  lemma NewHolders(s: State, e: EntryId)
    requires CallersOk(s.entries, s.callers, None) && e !in s.entries
    ensures Holders(s.callers, e) == {}
  {
    forall c | c in s.callers ensures !Holds(s.callers[c], e) {
      assert CallerOk(s.entries, s.callers[c], None);
    }
  }

  lemma NewEntryOk(
      entries: map<EntryId, Entry>, handles: map<SessionId, EntryId>, sid: SessionId, newEntry: EntryId, leases: int)
    requires EntriesOk(entries) && MapOk(entries, handles) && sid !in handles && newEntry !in entries && leases > 0
    ensures EntriesOk(entries[newEntry := NewEntry(sid, leases)])
        && MapOk(entries[newEntry := NewEntry(sid, leases)], handles[sid := newEntry])
  {
    hide EntryOk;
    assert EntryOk(NewEntry(sid, leases)) by { NewIsOk(sid, leases); }
  }

  lemma NewIsOk(sid: SessionId, leases: int)
    requires leases > 0
    ensures EntryOk(NewEntry(sid, leases))
  {
  }

  lemma MoreEntriesCallers(entries: map<EntryId, Entry>, callers: map<CallerId, Caller>, newEntry: EntryId, x: Entry)
    requires CallersOk(entries, callers, None) && newEntry !in entries
    ensures CallersOk(entries[newEntry := x], callers, None)
  {
    forall c | c in callers ensures CallerOk(entries[newEntry := x], callers[c], None) {
      assert CallerOk(entries, callers[c], None);
    }
  }

  lemma CreateInv(s: State, c: CallerId, sid: SessionId, newEntry: EntryId)
    requires Inv(s) && c in s.callers && s.callers[c].inner.Looking? && sid !in s.handles && newEntry !in s.entries
    ensures Inv(s.(entries := s.entries[newEntry := NewEntry(sid, 1)], handles := s.handles[sid := newEntry],
        callers := SetInner(s, c, AwaitHandle(newEntry))))
  {
    CallerAt(s, c);
    NewHolders(s, newEntry);
    NewEntryOk(s.entries, s.handles, sid, newEntry, 1);
    MoreEntriesCallers(s.entries, s.callers, newEntry, NewEntry(sid, 1));
    var entries1 := s.entries[newEntry := NewEntry(sid, 1)];
    var x := s.callers[c].(inner := AwaitHandle(newEntry));
    MoveCallers(entries1, s.callers, c, x);
    forall e | e in entries1 ensures entries1[e].leases == |Holders(s.callers[c := x], e)| {
      HoldersSet(s.callers, c, x, e);
      if e == newEntry {
        assert Holders(s.callers[c := x], e) == {c};
      } else {
        assert Holders(s.callers[c := x], e) == Holders(s.callers, e);
      }
    }
    hide EntriesOk, MapOk, CallersOk;
  }

  lemma EntryInv(s: State, e: EntryId, y: Entry)
    requires Inv(s) && e in s.entries && EntryOk(y) && Carries(s.entries[e], y) && (Live(y) <==> Live(s.entries[e]))
        && y.leases == s.entries[e].leases
    ensures Inv(s.(entries := s.entries[e := y]))
  {
    EntryChangesCallers(s.entries, s.callers, e, y, None);
    EntryChangesMap(s.entries, s.handles, e, y);
    EntryChangesEntries(s.entries, e, y);
    hide EntriesOk, MapOk, CallersOk, Holders;
  }

  /** A lease is returned on an entry that may be disposed of now. */
  lemma ReturnLease(s: State, c: CallerId, e: EntryId, x: Entry)
    requires Inv(s) && c in s.callers && e in s.entries && Holds(s.callers[c], e)
    requires x == s.entries[e].(leases := s.entries[e].leases - 1, stale := x.stale) && (s.entries[e].stale ==> x.stale)
    ensures EntryOk(MaybeDispose(x)) && Carries(s.entries[e], MaybeDispose(x))
        && (Live(MaybeDispose(x)) <==> Live(s.entries[e]))
    ensures MaybeDispose(x).leases == s.entries[e].leases - 1 && !s.entries[e].disposing && !s.entries[e].abandoned
  {
    EntryAt(s, e);
    HeldIsCounted(s, c, e);
  }

  lemma OutdatedInv(s: State, c: CallerId)
    requires Inv(s) && Enabled(s, Outdated(c))
    ensures Inv(OutdatedStep(s, c))
  {
    CallerAt(s, c);
    var e := s.callers[c].inner.entry;
    var x := s.entries[e].(stale := true, leases := s.entries[e].leases - 1);
    ReturnLease(s, c, e, x);
    hide Inv, MaybeDispose, EntryOk;
    LeaseInv(s, c, s.callers[c].(inner := AwaitRetry(e)), e, MaybeDispose(x));
  }

  lemma ReleasedCaller(entries: map<EntryId, Entry>, x: Caller, e: EntryId, y: Entry)
    requires CallerOk(entries, x, None) && x.inner == Acquired(e) && !x.outer.Racing?
    ensures var x1 := x.(inner := Released, releases := x.releases + 1);
            CallerOk(entries[e := y], x1, None) && Holds(x, e) && forall d :: !Holds(x1, d) && (d != e ==> !Holds(x, d))
  {
  }

  lemma ReleaseInv(s: State, c: CallerId)
    requires Inv(s) && Enabled(s, Release(c))
    ensures Inv(ReleaseStep(s, c))
  {
    hide Inv, MaybeDispose, EntryOk, CallerOk, Holds, Carries, Live;
    var e := s.callers[c].inner.entry;
    var x := s.entries[e].(leases := s.entries[e].leases - 1);
    CallerAt(s, c);
    ReleasedCaller(s.entries, s.callers[c], e, MaybeDispose(x));
    ReturnLease(s, c, e, x);
    LeaseInv(s, c, s.callers[c].(inner := Released, releases := s.callers[c].releases + 1), e, MaybeDispose(x));
  }

  lemma AbandonMap(entries: map<EntryId, Entry>, handles: map<SessionId, EntryId>, e: EntryId, y: Entry)
    requires MapOk(entries, handles) && e in entries && y.sid == entries[e].sid && !Live(y)
    requires y.sid in handles && handles[y.sid] == e
    ensures MapOk(entries[e := y], handles - {y.sid})
  {
  }

  lemma AbandonInv(s: State, c: CallerId, x1: Caller, e: EntryId, y: Entry)
    requires Inv(s) && c in s.callers && e in s.entries && Holds(s.callers[c], e) && InMap(s, e)
    requires x1 == s.callers[c].(inner := FailedToAcquire) && !s.callers[c].inner.Acquired?
        && CallerOk(s.entries, s.callers[c], None)
    requires EntryOk(y) && y.abandoned && y.sid == s.entries[e].sid && y.creation == s.entries[e].creation
        && y.leases == s.entries[e].leases - 1
    requires !s.entries[e].disposing
    ensures Inv(State(s.entries[e := y], s.handles - {y.sid}, s.callers[c := x1]))
  {
    hide EntriesOk, MapOk, CallersOk, LeasesOk, EntryOk;
    LeaseChange(s.entries, s.callers, c, x1, e, y);
    EntryChangesCallers(s.entries, s.callers, e, y, None);
    MoveCallers(s.entries[e := y], s.callers, c, x1);
    AbandonMap(s.entries, s.handles, e, y);
    EntryChangesEntries(s.entries, e, y);
  }

  lemma AbandonedOk(x: Entry)
    requires x.leases == 0 && !x.disposing && !x.abandoned && x.disposals == 0 && !x.disposed
    ensures EntryOk(x.(abandoned := true, disposals := x.disposals + 1))
  {
  }

  lemma FailsInv(s: State, c: CallerId)
    requires Inv(s) && Enabled(s, Fails(c))
    ensures Inv(FailsStep(s, c))
  {
    hide Inv, MaybeDispose, EntryOk, InMap, Live, Carries;
    CallerAt(s, c);
    var e := s.callers[c].inner.entry;
    var x := s.entries[e].(stale := true, leases := s.entries[e].leases - 1);
    HeldEntry(s, c, e);
    ReturnLease(s, c, e, x);
    var x1 := s.callers[c].(inner := FailedToAcquire);
    if s.callers[c].aborted && x.leases == 0 && InMap(s, e) {
      AbandonedOk(x);
      AbandonInv(s, c, x1, e, x.(abandoned := true, disposals := x.disposals + 1));
    } else {
      LeaseInv(s, c, x1, e, MaybeDispose(x));
    }
  }

  /** A held entry is not on its way out. */
  lemma HeldEntry(s: State, c: CallerId, e: EntryId)
    requires Inv(s) && c in s.callers && e in s.entries && Holds(s.callers[c], e)
    ensures var x := s.entries[e]; x.leases >= 1 && !x.disposing && !x.abandoned && !x.disposed && x.disposals == 0
    ensures s.entries[e].creation.Resolved? ==> Live(s.entries[e]) && InMap(s, e)
  {
    EntryAt(s, e);
    HeldIsCounted(s, c, e);
  }

  lemma RetiredOk(x: Entry)
    requires EntryOk(x) && Live(x)
    ensures EntryOk(Retired(x)) && Carries(x, Retired(x)) && Live(Retired(x)) && Retired(x).leases == x.leases
  {
  }

  /** Retiring changes no lease and takes nothing out of the map. */
  lemma RetireInv(s: State, sid: SessionId)
    requires Inv(s)
    ensures Inv(s.(entries := RetireOthers(s, sid)))
  {
    var after := RetireOthers(s, sid);
    forall e | e in s.entries
      ensures EntryOk(after[e]) && Carries(s.entries[e], after[e]) && (Live(after[e]) <==> Live(s.entries[e]))
          && after[e].leases == s.entries[e].leases
    {
      EntryAt(s, e);
      if InMap(s, e) && s.entries[e].sid != sid {
        RetiredOk(s.entries[e]);
      }
    }
    forall c | c in s.callers ensures CallerOk(after, s.callers[c], None) {
      assert CallerOk(s.entries, s.callers[c], None);
    }
    assert MapOk(after, s.handles);
    hide EntryOk, Carries, Live, CallerOk, Retired, Holders;
  }

  lemma FreshInv(s: State, c: CallerId, e: EntryId)
    requires Inv(s) && c in s.callers && e in s.entries && Holds(s.callers[c], e)
    ensures Inv(s.(entries := s.entries[e := s.entries[e].(stale := false)]))
  {
    hide Inv;
    HeldEntry(s, c, e);
    EntryAt(s, e);
    EntryInv(s, e, s.entries[e].(stale := false));
  }

  lemma VerifiedInv(s: State, c: CallerId)
    requires Inv(s) && Enabled(s, Verified(c))
    ensures Inv(VerifiedStep(s, c))
  {
    hide Inv, RetireOthers;
    CallerAt(s, c);
    var e := s.callers[c].inner.entry;
    var current := s.(entries := s.entries[e := s.entries[e].(stale := false)]);
    FreshInv(s, c, e);
    var x := s.callers[c].(inner := Acquired(e), acquired := s.callers[c].acquired + 1);
    MoveInv(current, c, x);
    RetireInv(current.(callers := s.callers[c := x]), s.entries[e].sid);
    SameRetired(current, s.callers[c := x], s.entries[e].sid);
  }

  lemma SameRetired(s: State, callers: map<CallerId, Caller>, sid: SessionId)
    ensures RetireOthers(s.(callers := callers), sid) == RetireOthers(s, sid)
  {
  }

  // ----------------------------------------------------------------- disposal

  /** What Settle needs to know: the entry's disposal is over, and either nobody waited for it or
      its session is out of the map. */
  ghost predicate Settling(s: State, e: EntryId) {
    && e in s.entries && s.entries[e].disposing && !s.entries[e].disposed && !s.entries[e].creation.Pending?
    && EntriesOk(s.entries) && MapOk(s.entries, s.handles) && CallersOk(s.entries, s.callers, Some(e))
         && LeasesOk(s.entries, s.callers)
    && (s.entries[e].sid !in Drop(s.handles, s.entries[e].sid, e) || forall c :: c in s.callers ==>
         s.callers[c].inner != AwaitDisposal(e))
  }

  function Resumed(callers: map<CallerId, Caller>, e: EntryId, to: EntryId): map<CallerId, Caller> {
    map c | c in callers ::
      if callers[c].inner == AwaitDisposal(e) then
        callers[c].(inner := if callers[c].aborted then FailedToAcquire else AwaitHandle(to))
      else callers[c]
  }

  lemma DropMap(entries: map<EntryId, Entry>, handles: map<SessionId, EntryId>, e: EntryId, y: Entry)
    requires MapOk(entries, handles) && e in entries && y.sid == entries[e].sid && !Live(y)
    ensures MapOk(entries[e := y], Drop(handles, y.sid, e))
  {
  }

  lemma ResumedCallers(
      entries: map<EntryId, Entry>, entries1: map<EntryId, Entry>, callers: map<CallerId, Caller>, e: EntryId,
      to: EntryId)
    requires CallersOk(entries, callers, Some(e)) && e in entries
    requires forall x :: x in entries && x != e ==> x in entries1 && entries1[x] == entries[x]
    requires e in entries1 && Carries(entries[e].(disposing := false), entries1[e].(disposing := false))
    requires to in entries1 || forall c :: c in callers && callers[c].inner == AwaitDisposal(e) ==> callers[c].aborted
    ensures CallersOk(entries1, Resumed(callers, e, to), None)
  {
    var after := Resumed(callers, e, to);
    forall c | c in after ensures CallerOk(entries1, after[c], None) {
      assert CallerOk(entries, callers[c], Some(e));
    }
  }

  lemma ResumedHolders(s: State, e: EntryId, to: EntryId, d: EntryId)
    requires e in s.entries && (d != to || forall c :: c in s.callers ==> !Holds(s.callers[c], to))
    ensures d != to ==> Holders(Resumed(s.callers, e, to), d) == Holders(s.callers, d)
    ensures d == to ==> Holders(Resumed(s.callers, e, to), d) == Alive(s, e)
  {
  }

  lemma SettleInv(s: State, e: EntryId, newEntry: EntryId)
    requires Settling(s, e) && newEntry !in s.entries
    ensures Inv(Settle(s, e, newEntry))
  {
    var sid := s.entries[e].sid;
    var y := s.entries[e].(disposed := true);
    var entries := s.entries[e := y];
    var handles := Drop(s.handles, sid, e);
    var alive := Alive(s, e);
    EntryChangesEntries(s.entries, e, y);
    DropMap(s.entries, s.handles, e, y);
    NobodyHoldsNew(s, e, newEntry);
    if alive == {} {
      var to := if sid in handles then handles[sid] else newEntry;
      NobodyAlive(s, e);
      ResumedCallers(s.entries, entries, s.callers, e, to);
      SettleIdle(s, e, to, y);
      hide EntriesOk, MapOk, CallersOk, LeasesOk;
    } else {
      SomebodyWaits(s, e);
      NewEntryOk(entries, handles, sid, newEntry, |alive|);
      var entries1 := entries[newEntry := NewEntry(sid, |alive|)];
      ResumedCallers(s.entries, entries1, s.callers, e, newEntry);
      forall d | d in entries1 ensures entries1[d].leases == |Holders(Resumed(s.callers, e, newEntry), d)| {
        ResumedHolders(s, e, newEntry, d);
      }
      hide EntriesOk, MapOk, CallersOk;
    }
  }

  lemma NobodyHoldsNew(s: State, e: EntryId, newEntry: EntryId)
    requires CallersOk(s.entries, s.callers, Some(e)) && newEntry !in s.entries
    ensures forall c :: c in s.callers ==> !Holds(s.callers[c], newEntry)
  {
    forall c | c in s.callers ensures !Holds(s.callers[c], newEntry) {
      assert CallerOk(s.entries, s.callers[c], Some(e));
    }
  }

  lemma NobodyAlive(s: State, e: EntryId)
    requires Alive(s, e) == {}
    ensures forall c :: c in s.callers && s.callers[c].inner == AwaitDisposal(e) ==> s.callers[c].aborted
  {
    forall c | c in s.callers && s.callers[c].inner == AwaitDisposal(e) ensures s.callers[c].aborted {
      assert c !in Alive(s, e);
    }
  }

  lemma SomebodyWaits(s: State, e: EntryId)
    requires Alive(s, e) != {}
    ensures exists c :: c in s.callers && s.callers[c].inner == AwaitDisposal(e)
  {
    var c :| c in Alive(s, e);
    assert c in s.callers;
  }

  lemma SettleIdle(s: State, e: EntryId, to: EntryId, y: Entry)
    requires LeasesOk(s.entries, s.callers) && e in s.entries && y.leases == s.entries[e].leases
    requires forall c :: c in s.callers && s.callers[c].inner == AwaitDisposal(e) ==> s.callers[c].aborted
    ensures LeasesOk(s.entries[e := y], Resumed(s.callers, e, to))
  {
    forall d | d in s.entries ensures Holders(Resumed(s.callers, e, to), d) == Holders(s.callers, d) {
    }
  }

  lemma DisposalEndsInv(s: State, x: EntryId, newEntry: EntryId)
    requires Inv(s) && Enabled(s, DisposalEnds(x, newEntry))
    ensures Inv(Settle(s, x, newEntry))
  {
    EntryAt(s, x);
    assert CallersOk(s.entries, s.callers, Some(x)) by { Weaken(s, x); }
    if s.entries[x].creation.Rejected? {
      forall c | c in s.callers ensures s.callers[c].inner != AwaitDisposal(x) {
        CallerAt(s, c);
      }
    }
    hide EntriesOk, CallersOk, LeasesOk, EntryOk;
    assert Settling(s, x);
    hide MapOk, Settle;
    SettleInv(s, x, newEntry);
  }

  lemma Weaken(s: State, x: EntryId)
    requires CallersOk(s.entries, s.callers, None)
    ensures CallersOk(s.entries, s.callers, Some(x))
  {
    forall c | c in s.callers ensures CallerOk(s.entries, s.callers[c], Some(x)) {
      assert CallerOk(s.entries, s.callers[c], None);
    }
  }

  lemma CreationFailsInv(s: State, x: EntryId, newEntry: EntryId)
    requires Inv(s) && Enabled(s, CreationFails(x, newEntry))
    ensures Inv(CreationFailsStep(s, x, newEntry))
  {
    EntryAt(s, x);
    var y := s.entries[x].(creation := Rejected);
    var rejected := s.(entries := s.entries[x := y], handles := Drop(s.handles, s.entries[x].sid, x));
    DropMap(s.entries, s.handles, x, y);
    EntryChangesEntries(s.entries, x, y);
    RejectedCallers(s, x, y);
    RejectedLeases(s.entries, s.callers, x, y);
    if y.disposing && !y.disposed {
      assert s.handles[y.sid] == x;
      hide EntriesOk, MapOk, CallersOk, LeasesOk, EntryOk, Settle;
      SettleInv(rejected, x, newEntry);
    } else {
      hide EntriesOk, MapOk, CallersOk, LeasesOk;
    }
  }

  lemma RejectedLeases(entries: map<EntryId, Entry>, callers: map<CallerId, Caller>, x: EntryId, y: Entry)
    requires LeasesOk(entries, callers) && x in entries && y.leases == entries[x].leases
    ensures LeasesOk(entries[x := y], callers)
  {
    hide Holders;
  }

  /** No caller has got past the creation that fails. */
  lemma RejectedCallers(s: State, x: EntryId, y: Entry)
    requires CallersOk(s.entries, s.callers, None) && x in s.entries && s.entries[x].creation.Pending?
    requires y == s.entries[x].(creation := Rejected) && EntryOk(y)
    ensures CallersOk(s.entries[x := y], s.callers, Some(x))
    ensures !(y.disposing && !y.disposed) ==> CallersOk(s.entries[x := y], s.callers, None)
  {
    forall c | c in s.callers
      ensures CallerOk(s.entries[x := y], s.callers[c], Some(x))
      ensures !(y.disposing && !y.disposed) ==> CallerOk(s.entries[x := y], s.callers[c], None)
    {
      assert CallerOk(s.entries, s.callers[c], None);
    }
  }

  /** Every step keeps the invariant. */
  lemma StepInv(s: State, e: Event)
    requires Inv(s) && Enabled(s, e)
    ensures Inv(Step(s, e))
  {
    hide Inv, LookUpStep, CreationFailsStep, Settle, OutdatedStep, VerifiedStep, FailsStep, ReleaseStep;
    match e
    case Call(c) => MoveInv(s, c, Caller(Looking, Racing, false, 0, 0));
    case LookUp(c, sid, newEntry) => LookUpInv(s, c, sid, newEntry);
    case LookUpFails(c) =>
      CallerAt(s, c);
      MoveInv(s, c, s.callers[c].(inner := FailedToAcquire));
    case Created(x) =>
      EntryAt(s, x);
      EntryInv(s, x, s.entries[x].(creation := Resolved));
    case CreationFails(x, newEntry) => CreationFailsInv(s, x, newEntry);
    case DisposalEnds(x, newEntry) => DisposalEndsInv(s, x, newEntry);
    case HandleArrives(c) =>
      CallerAt(s, c);
      MoveInv(s, c, s.callers[c].(inner := Verifying(s.callers[c].inner.entry)));
    case Outdated(c) => OutdatedInv(s, c);
    case Retry(c) =>
      CallerAt(s, c);
      MoveInv(s, c, s.callers[c].(inner := Looking));
    case Verified(c) => VerifiedInv(s, c);
    case Fails(c) => FailsInv(s, c);
    case Abort(c) =>
      CallerAt(s, c);
      MoveInv(s, c, s.callers[c].(aborted := true));
    case Deliver(c) =>
      CallerAt(s, c);
      MoveInv(s, c, s.callers[c].(outer := Got));
    case GiveUp(c) =>
      CallerAt(s, c);
      MoveInv(s, c, s.callers[c].(outer := Gone));
    case Release(c) => ReleaseInv(s, c);
  }

  // --------------------------------------------------------------------- runs

  ghost predicate IsRun(ss: seq<State>, events: seq<Event>) {
    && |ss| == |events| + 1 && ss[0] == State(map[], map[], map[])
    && forall i :: 0 <= i < |events| ==> Enabled(ss[i], events[i]) && ss[i + 1] == Step(ss[i], events[i])
  }

  lemma {:induction false} RunInv(ss: seq<State>, events: seq<Event>, i: nat)
    requires IsRun(ss, events) && i < |ss|
    ensures Inv(ss[i])
  {
    hide Step, Enabled;
    if i > 0 {
      hide Inv;
      RunInv(ss, events, i - 1);
      StepInv(ss[i - 1], events[i - 1]);
    }
  }

  /** In every state an entry's leases are exactly its acquirers in flight and its unreleased
      capabilities; disposal has started at most once, and only without leases; an entry that is
      out of date and unused is being disposed of. */
  lemma LeaseAccounting(ss: seq<State>, events: seq<Event>, i: nat, e: EntryId)
    requires IsRun(ss, events) && i < |ss| && e in ss[i].entries
    ensures var x := ss[i].entries[e];
            && x.leases == |Holders(ss[i].callers, e)|
            && x.disposals <= 1 && (x.disposals == 1 ==> x.leases == 0)
            && (x.stale && x.leases == 0 ==> x.disposals == 1)
  {
    RunInv(ss, events, i);
    hide Step, Enabled, IsRun, MapOk, CallersOk, Holders;
  }

  /** A helper that has been created and is not on its way out can be found in the map. */
  lemma NoHelperLost(ss: seq<State>, events: seq<Event>, i: nat, e: EntryId)
    requires IsRun(ss, events) && i < |ss| && e in ss[i].entries
    ensures InMap(ss[i], e) <==>
        !ss[i].entries[e].abandoned && !ss[i].entries[e].disposed && !ss[i].entries[e].creation.Rejected?
  {
    hide Step, Enabled, IsRun, Inv, InMap;
    RunInv(ss, events, i);
    EntryAt(ss[i], e);
  }

  /** Every successful acquisition is released exactly once: never twice, and until it has been
      released the next step towards it is always possible, however late the capability came. */
  lemma ReleasedOnce(ss: seq<State>, events: seq<Event>, i: nat, c: CallerId)
    requires IsRun(ss, events) && i < |ss| && c in ss[i].callers
    ensures var x := ss[i].callers[c];
            && x.releases <= x.acquired <= 1
            && (x.acquired > x.releases <==> x.inner.Acquired?)
            && (x.inner.Acquired? ==> if x.outer.Racing? then Enabled(ss[i], Deliver(c))
                                      else
                                        Enabled(ss[i], Release(c)) && Step(ss[i], Release(c)).callers[c].releases == 1)
  {
    hide IsRun, Inv, MaybeDispose;
    RunInv(ss, events, i);
    CallerAt(ss[i], c);
  }

  /** A capability handed out is for the one helper in the map that is not out of date. */
  lemma VerifiedIsCurrent(s: State, c: CallerId, e: EntryId)
    requires Inv(s) && Enabled(s, Verified(c))
    ensures var t := Step(s, Verified(c));
            InMap(t, e) && !t.entries[e].stale <==> e == s.callers[c].inner.entry
  {
    hide Inv;
    CallerAt(s, c);
    var mine := s.callers[c].inner.entry;
    HeldEntry(s, c, mine);
    if e in s.entries && e != mine && InMap(s, e) {
      assert s.entries[e].sid != s.entries[mine].sid;
    }
  }
}
