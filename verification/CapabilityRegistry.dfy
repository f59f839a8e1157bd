/** The registry object: the handle map, the entries it points to, and where every caller is.
    Each method is the code between two suspension points. */
module CapabilityRegistry {
  import opened CapabilityLeases
  import opened CapabilityProofs

  class Registry {
    var entries: map<EntryId, Entry>
    var handles: map<SessionId, EntryId>
    var callers: map<CallerId, Caller>

    ghost function Contents(): State reads this { State(entries, handles, callers) }

    ghost predicate Valid() reads this { Inv(Contents()) }

    constructor ()
      ensures Valid() && Contents() == State(map[], map[], map[])
    {
      entries, handles, callers := map[], map[], map[];
    }

    method ForceDisposeEntry(e: EntryId)
      requires e in entries
      modifies this`entries
      ensures entries == old(entries)[e := ForceDispose(old(entries)[e])]
    {
      if !entries[e].disposing {
        entries := entries[e := entries[e].(disposing := true, disposals := entries[e].disposals + 1)];
      }
    }

    method MaybeDisposeEntry(e: EntryId)
      requires e in entries
      modifies this`entries
      ensures entries == old(entries)[e := MaybeDispose(old(entries)[e])]
    {
      if entries[e].stale && entries[e].leases == 0 {
        ForceDisposeEntry(e);
      }
    }

    method RetireOtherEntries(current: SessionId)
      requires MapOk(entries, handles)
      modifies this`entries
      ensures entries == RetireOthers(old(Contents()), current)
    {
      ghost var s := Contents();
      var rest := handles.Keys;
      while rest != {}
        modifies this`entries
        invariant rest <= handles.Keys && entries.Keys == s.entries.Keys
        invariant forall e :: e in s.entries ==>
          entries[e] == if InMap(s, e) && s.entries[e].sid != current && s.entries[e].sid !in rest
              then Retired(s.entries[e]) else s.entries[e]
      {
        var sid :| sid in rest;
        if sid != current {
          var e := handles[sid];
          entries := entries[e := entries[e].(stale := true)];
          MaybeDisposeEntry(e);
        }
        rest := rest - {sid};
      }
    }

    method StartCall(c: CallerId)
      requires Valid() && Enabled(Contents(), Call(c))
      modifies this`callers
      ensures Valid() && Contents() == Step(old(Contents()), Call(c))
    {
      hide Inv;
      StepInv(Contents(), Call(c));
      callers := callers[c := Caller(Looking, Racing, false, 0, 0)];
    }

    /** Look the session up: wait for a disposal, join the entry, or create one. */
    method Enter(c: CallerId, sid: SessionId, newEntry: EntryId)
      requires Valid() && Enabled(Contents(), LookUp(c, sid, newEntry))
      modifies this
      ensures Valid() && Contents() == Step(old(Contents()), LookUp(c, sid, newEntry))
    {
      hide Inv;
      StepInv(Contents(), LookUp(c, sid, newEntry));
      if sid in handles && entries[handles[sid]].disposing {
        callers := callers[c := callers[c].(inner := AwaitDisposal(handles[sid]))];
      } else {
        if sid !in handles {
          entries := entries[newEntry := Entry(sid, Pending, 0, false, false, false, false, 0)];
          handles := handles[sid := newEntry];
        }
        var e := handles[sid];
        entries := entries[e := entries[e].(leases := entries[e].leases + 1)];
        callers := callers[c := callers[c].(inner := AwaitHandle(e))];
      }
      assert Contents() == LookUpStep(old(Contents()), c, sid, newEntry);
    }

    /** The preset changed under the caller: give the lease back and start over. */
    method FindOutdated(c: CallerId)
      requires Valid() && Enabled(Contents(), Outdated(c))
      modifies this`entries, this`callers
      ensures Valid() && Contents() == Step(old(Contents()), Outdated(c))
    {
      hide Inv, MaybeDispose;
      StepInv(Contents(), Outdated(c));
      var e := callers[c].inner.entry;
      entries := entries[e := entries[e].(stale := true, leases := entries[e].leases - 1)];
      MaybeDisposeEntry(e);
      callers := callers[c := callers[c].(inner := AwaitRetry(e))];
      assert Contents() == OutdatedStep(old(Contents()), c);
    }

    /** The helper matches the preset: hand it out and retire the others. */
    method FindVerified(c: CallerId)
      requires Valid() && Enabled(Contents(), Verified(c))
      modifies this`entries, this`callers
      ensures Valid() && Contents() == Step(old(Contents()), Verified(c))
    {
      hide Inv, RetireOthers, MapOk;
      StepInv(Contents(), Verified(c));
      FreshMap(Contents(), callers[c].inner.entry);
      var e := callers[c].inner.entry;
      var sid := entries[e].sid;
      entries := entries[e := entries[e].(stale := false)];
      RetireOtherEntries(sid);
      callers := callers[c := callers[c].(inner := Acquired(e), acquired := callers[c].acquired + 1)];
    }

    /** The failure path of a caller that holds a lease. */
    method Fail(c: CallerId)
      requires Valid() && Enabled(Contents(), Fails(c))
      modifies this
      ensures Valid() && Contents() == Step(old(Contents()), Fails(c))
    {
      hide Inv, MaybeDispose;
      StepInv(Contents(), Fails(c));
      var e := callers[c].inner.entry;
      var sid := entries[e].sid;
      entries := entries[e := entries[e].(stale := true, leases := entries[e].leases - 1)];
      if callers[c].aborted && entries[e].leases == 0 && sid in handles && handles[sid] == e {
        handles := handles - {sid};
        entries := entries[e := entries[e].(abandoned := true, disposals := entries[e].disposals + 1)];
      } else {
        MaybeDisposeEntry(e);
      }
      callers := callers[c := callers[c].(inner := FailedToAcquire)];
      assert Contents() == FailsStep(old(Contents()), c);
    }

    method ReleaseCapability(c: CallerId)
      requires Valid() && Enabled(Contents(), Release(c))
      modifies this`entries, this`callers
      ensures Valid() && Contents() == Step(old(Contents()), Release(c))
    {
      hide Inv, MaybeDispose;
      StepInv(Contents(), Release(c));
      var e := callers[c].inner.entry;
      entries := entries[e := entries[e].(leases := entries[e].leases - 1)];
      MaybeDisposeEntry(e);
      callers := callers[c := callers[c].(inner := Released, releases := callers[c].releases + 1)];
      assert Contents() == ReleaseStep(old(Contents()), c);
    }

    /** One waiting caller looks the session up again. */
    method Resume(
        c: CallerId, sid: SessionId, newEntry: EntryId, ghost n: nat, ghost base: map<EntryId, Entry>,
        ghost map0: map<SessionId, EntryId>)
      requires c in callers && newEntry !in base && (sid in map0 ==> map0[sid] in base)
      requires entries == MidEntries(base, map0, sid, newEntry, n) && handles == MidHandles(map0, sid, newEntry, n)
      modifies this
      ensures var joins := !old(callers)[c].aborted;
              && entries == MidEntries(base, map0, sid, newEntry, if joins then n + 1 else n)
              && handles == MidHandles(map0, sid, newEntry, if joins then n + 1 else n)
              && callers == old(callers)[c := Woken(old(callers)[c], if sid in map0 then map0[sid] else newEntry)]
    {
      hide MidEntries, MidHandles;
      JoinMore(base, map0, sid, newEntry, n);
      if callers[c].aborted {
        callers := callers[c := callers[c].(inner := FailedToAcquire)];
      } else {
        if sid !in handles {
          entries := entries[newEntry := Entry(sid, Pending, 0, false, false, false, false, 0)];
          handles := handles[sid := newEntry];
        }
        var to := handles[sid];
        entries := entries[to := entries[to].(leases := entries[to].leases + 1)];
        callers := callers[c := callers[c].(inner := AwaitHandle(to))];
      }
    }

    /** Every caller waiting for the disposal of e, one after the other. */
    method ResumeAll(e: EntryId, sid: SessionId, newEntry: EntryId, ghost s: State, ghost to: EntryId)
      requires callers == s.callers && newEntry !in entries && (sid in handles ==> handles[sid] in entries)
      requires to == if sid in handles then handles[sid] else newEntry
      modifies this
      ensures var n := |Joined(s, Waiting(s.callers, e), {})|;
              Contents() == State(MidEntries(old(entries), old(handles), sid, newEntry, n),
                  MidHandles(old(handles), sid, newEntry, n),
                                  MidCallers(s.callers, Waiting(s.callers, e), {}, to))
    {
      hide MidEntries, MidHandles, MidCallers, Joined;
      ghost var base, map0 := entries, handles;
      var rest := Waiting(callers, e);
      ghost var waiting := rest;
      NobodyYet(s, base, map0, sid, newEntry, waiting, to);
      while rest != {}
        invariant rest <= waiting <= s.callers.Keys
        invariant entries == MidEntries(base, map0, sid, newEntry, |Joined(s, waiting, rest)|)
        invariant handles == MidHandles(map0, sid, newEntry, |Joined(s, waiting, rest)|)
        invariant callers == MidCallers(s.callers, waiting, rest, to)
      {
        var c :| c in rest;
        OneMore(s, waiting, rest, to, c);
        Resume(c, sid, newEntry, |Joined(s, waiting, rest)|, base, map0);
        rest := rest - {c};
      }
    }

    /** A settled disposal: the entry leaves the map, then every waiting caller looks again. */
    method SettleNow(e: EntryId, newEntry: EntryId)
      requires e in entries && newEntry !in entries
      requires var map0 := Drop(handles, entries[e].sid, e); entries[e].sid in map0 ==> map0[entries[e].sid] in entries
      modifies this
      ensures Contents() == Settle(old(Contents()), e, newEntry)
    {
      hide MidEntries, MidHandles, MidCallers, Drop, Settle, Joined, Waiting;
      ghost var s := Contents();
      var sid := entries[e].sid;
      DropEither(handles, sid, e);
      entries := entries[e := entries[e].(disposed := true)];
      if sid in handles && handles[sid] == e {
        handles := handles - {sid};
      }
      ghost var to := if sid in handles then handles[sid] else newEntry;
      AllResumed(s, e, newEntry, entries, handles, to);
      ResumeAll(e, sid, newEntry, s, to);
    }

    method SettleDisposal(e: EntryId, newEntry: EntryId)
      requires Valid() && Enabled(Contents(), DisposalEnds(e, newEntry))
      modifies this
      ensures Valid() && Contents() == Step(old(Contents()), DisposalEnds(e, newEntry))
    {
      hide Inv, Drop, Settle;
      StepInv(Contents(), DisposalEnds(e, newEntry));
      DroppedInEntries(Contents(), e);
      SettleNow(e, newEntry);
    }

    /** The creation fails: the entry leaves the map, and a disposal waiting for it is over. */
    method FailCreation(e: EntryId, newEntry: EntryId)
      requires Valid() && Enabled(Contents(), CreationFails(e, newEntry))
      modifies this
      ensures Valid() && Contents() == Step(old(Contents()), CreationFails(e, newEntry))
    {
      hide Inv, Drop, Settle;
      ghost var s := Contents();
      StepInv(s, CreationFails(e, newEntry));
      DroppedInEntries(s, e);
      var sid := entries[e].sid;
      DropEither(handles, sid, e);
      DropTwice(handles, sid, e);
      entries := entries[e := entries[e].(creation := Rejected)];
      if sid in handles && handles[sid] == e {
        handles := handles - {sid};
      }
      if entries[e].disposing && !entries[e].disposed {
        SettleNow(e, newEntry);
      }
    }
  }

  function Waiting(callers: map<CallerId, Caller>, e: EntryId): set<CallerId> {
    set c | c in callers && callers[c].inner == AwaitDisposal(e)
  }

  lemma FreshMap(s: State, e: EntryId)
    requires Inv(s) && e in s.entries
    ensures MapOk(s.entries[e := s.entries[e].(stale := false)], s.handles)
  {
    hide EntriesOk, CallersOk, LeasesOk;
  }

  lemma DroppedInEntries(s: State, e: EntryId)
    requires Inv(s) && e in s.entries
    ensures var map0 := Drop(s.handles, s.entries[e].sid, e);
            s.entries[e].sid in map0 ==> map0[s.entries[e].sid] in s.entries
  {
    hide EntriesOk, CallersOk, LeasesOk;
  }

  lemma DropEither(handles: map<SessionId, EntryId>, sid: SessionId, e: EntryId)
    ensures Drop(handles, sid, e) == if sid in handles && handles[sid] == e then handles - {sid} else handles
  {
  }

  lemma DropTwice(handles: map<SessionId, EntryId>, sid: SessionId, e: EntryId)
    ensures Drop(Drop(handles, sid, e), sid, e) == Drop(handles, sid, e)
  {
  }

  /** The waiters that have resumed and were not aborted. */
  function Joined(s: State, waiting: set<CallerId>, rest: set<CallerId>): set<CallerId> {
    set c | c in waiting && c !in rest && c in s.callers && !s.callers[c].aborted
  }

  /** The entries and the map once n waiters have joined the entry the first of them found or
      made. */
  function MidEntries(
      base: map<EntryId, Entry>, map0: map<SessionId, EntryId>, sid: SessionId, newEntry: EntryId, n: nat)
      : map<EntryId, Entry>
    requires sid in map0 ==> map0[sid] in base
  {
    if n == 0 then base
    else if sid in map0 then base[map0[sid] := base[map0[sid]].(leases := base[map0[sid]].leases + n)]
    else base[newEntry := NewEntry(sid, n)]
  }

  function MidHandles(
      map0: map<SessionId, EntryId>, sid: SessionId, newEntry: EntryId, n: nat): map<SessionId, EntryId> {
    if n == 0 || sid in map0 then map0 else map0[sid := newEntry]
  }

  function Woken(c: Caller, to: EntryId): Caller {
    c.(inner := if c.aborted then FailedToAcquire else AwaitHandle(to))
  }

  function MidCallers(
      callers: map<CallerId, Caller>, waiting: set<CallerId>, rest: set<CallerId>, to: EntryId): map<CallerId, Caller> {
    map c | c in callers :: if c in waiting && c !in rest then Woken(callers[c], to) else callers[c]
  }

  lemma JoinMore(base: map<EntryId, Entry>, map0: map<SessionId, EntryId>, sid: SessionId, newEntry: EntryId, n: nat)
    requires newEntry !in base && (sid in map0 ==> map0[sid] in base)
    ensures var entries, handles := MidEntries(base, map0, sid, newEntry, n), MidHandles(map0, sid, newEntry, n);
            var entries1 := if sid in handles then entries else entries[newEntry := NewEntry(sid, 0)];
            var handles1 := if sid in handles then handles else handles[sid := newEntry];
            && sid in handles1 && handles1[sid] in entries1
            && handles1[sid] == (if sid in map0 then map0[sid] else newEntry)
            && MidHandles(map0, sid, newEntry, n + 1) == handles1
            && MidEntries(base, map0, sid, newEntry, n + 1)
               == entries1[handles1[sid] := entries1[handles1[sid]].(leases := entries1[handles1[sid]].leases + 1)]
  {
  }

  lemma NobodyYet(
      s: State, base: map<EntryId, Entry>, map0: map<SessionId, EntryId>, sid: SessionId, newEntry: EntryId,
      waiting: set<CallerId>, to: EntryId)
    requires sid in map0 ==> map0[sid] in base
    ensures |Joined(s, waiting, waiting)| == 0
    ensures MidEntries(base, map0, sid, newEntry, 0) == base && MidHandles(map0, sid, newEntry, 0) == map0
    ensures MidCallers(s.callers, waiting, waiting, to) == s.callers
  {
    assert Joined(s, waiting, waiting) == {};
  }

  lemma OneMore(s: State, waiting: set<CallerId>, rest: set<CallerId>, to: EntryId, c: CallerId)
    requires c in rest && rest <= waiting <= s.callers.Keys
    ensures var callers := MidCallers(s.callers, waiting, rest, to);
            && c in callers && callers[c] == s.callers[c]
            && MidCallers(s.callers, waiting, rest - {c}, to) == callers[c := Woken(callers[c], to)]
            && |Joined(s, waiting, rest - {c})| == |Joined(s, waiting, rest)| + (if callers[c].aborted then 0 else 1)
  {
    assert Joined(s, waiting, rest - {c}) == Joined(s, waiting, rest) + (if s.callers[c].aborted then {} else {c});
  }

  lemma AllResumed(
      s: State, e: EntryId, newEntry: EntryId, base: map<EntryId, Entry>, map0: map<SessionId, EntryId>, to: EntryId)
    requires e in s.entries && newEntry !in s.entries && base == s.entries[e := s.entries[e].(disposed := true)]
        && map0 == Drop(s.handles, s.entries[e].sid, e)
    requires s.entries[e].sid in map0 ==> map0[s.entries[e].sid] in base
    requires to == if s.entries[e].sid in map0 then map0[s.entries[e].sid] else newEntry
    ensures var n := |Joined(s, Waiting(s.callers, e), {})|;
            Settle(s, e, newEntry) == State(MidEntries(base, map0, s.entries[e].sid, newEntry, n),
                MidHandles(map0, s.entries[e].sid, newEntry, n),
                                            MidCallers(s.callers, Waiting(s.callers, e), {}, to))
  {
    assert Joined(s, Waiting(s.callers, e), {}) == Alive(s, e);
    hide Drop;
  }
}
