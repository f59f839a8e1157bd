/** What becomes of a helper: exactly when it is out of date, being disposed of, abandoned or
    gone, step by step and over runs, and where each step leaves every caller. */
module CapabilityOutcomes {
  import opened CapabilityLeases
  import opened CapabilityProofs

  /** This caller is verifying, or waiting for, this entry. */
  predicate At(s: State, c: CallerId, e: EntryId) {
    c in s.callers && (s.callers[c].inner == Verifying(e) || s.callers[c].inner == AwaitHandle(e))
  }

  /** A caller finds the entry out of date, or fails on it; or a caller of another session finds
      its own entry current and so retires all others in the map. */
  predicate Dates(s: State, ev: Event, e: EntryId) {
    || ((ev.Outdated? || ev.Fails?) && At(s, ev.caller, e))
    || (ev.Verified? && ev.caller in s.callers && s.callers[ev.caller].inner.Verifying?
        && var own := s.callers[ev.caller].inner.entry;
           own in s.entries && e in s.entries && s.entries[own].sid != s.entries[e].sid && InMap(s, e))
  }

  /** A caller verifies the entry as current. */
  predicate Renews(s: State, ev: Event, e: EntryId) {
    ev.Verified? && ev.caller in s.callers && s.callers[ev.caller].inner == Verifying(e)
  }

  /** The last caller of an entry in the map fails on it after being aborted. */
  predicate Abandons(s: State, ev: Event, e: EntryId) {
    ev.Fails? && At(s, ev.caller, e) && s.callers[ev.caller].aborted && Holders(s.callers, e) == {ev.caller}
        && InMap(s, e)
  }

  /** The disposal of this entry is over: it ends, or waited for a creation that fails. */
  predicate Ends(s: State, ev: Event, e: EntryId) {
    || (ev.DisposalEnds? && ev.entry == e)
    || (ev.CreationFails? && ev.entry == e && e in s.entries && s.entries[e].disposing)
  }

  function CreationAfter(x: Entry, ev: Event, e: EntryId): Creation {
    if ev.Created? && ev.entry == e then Resolved
    else if ev.CreationFails? && ev.entry == e then Rejected
    else x.creation
  }

  /** What a step does to an entry there was before. */
  ghost predicate EntrySays(s: State, ev: Event, e: EntryId, t: State)
    requires e in s.entries
  {
    && e in t.entries
    && var x, y := s.entries[e], t.entries[e];
       && y.sid == x.sid && y.creation == CreationAfter(x, ev, e)
       && (y.stale <==> Dates(s, ev, e) || (x.stale && !Renews(s, ev, e)))
       && (y.abandoned <==> x.abandoned || Abandons(s, ev, e))
       && (y.disposed <==> x.disposed || Ends(s, ev, e))
       && (y.disposing ==> y.stale || x.disposing)
  }

  lemma OneHolder(s: State, c: CallerId, e: EntryId)
    requires Inv(s) && e in s.entries && c in s.callers && Holds(s.callers[c], e)
    ensures s.entries[e].leases == 1 <==> Holders(s.callers, e) == {c}
  {
    hide EntriesOk, MapOk, CallersOk;
    var h := Holders(s.callers, e);
    assert c in h && |h - {c}| == |h| - 1;
  }

  lemma FailsSays(s: State, c: CallerId, e: EntryId)
    requires Inv(s) && Enabled(s, Fails(c)) && e in s.entries
    ensures EntrySays(s, Fails(c), e, Step(s, Fails(c)))
  {
    CallerAt(s, c);
    var own := s.callers[c].inner.entry;
    OneHolder(s, c, own);
    EntryAt(s, own);
    hide Inv, Holders, EntryOk, CallerOk;
  }

  lemma VerifiedSays(s: State, c: CallerId, e: EntryId)
    requires Inv(s) && Enabled(s, Verified(c)) && e in s.entries
    ensures EntrySays(s, Verified(c), e, Step(s, Verified(c)))
  {
    EntryAt(s, e);
    hide Inv, Holders, EntryOk;
  }

  lemma SettleSays(s: State, x: EntryId, newEntry: EntryId, e: EntryId)
    requires x in s.entries && newEntry !in s.entries && e in s.entries
    ensures var t := Settle(s, x, newEntry);
            && e in t.entries
            && t.entries[e] == s.entries[e].(leases := t.entries[e].leases, disposed := s.entries[e].disposed || e == x)
  {
    hide Alive, Drop;
  }

  lemma EndsSays(s: State, ev: Event, e: EntryId)
    requires Inv(s) && Enabled(s, ev) && e in s.entries && (ev.DisposalEnds? || ev.CreationFails?)
    ensures EntrySays(s, ev, e, Step(s, ev))
  {
    EntryAt(s, ev.entry);
    hide Inv, Holders, Settle, Drop, InMap;
    if ev.DisposalEnds? {
      SettleSays(s, ev.entry, ev.newEntry, e);
    } else {
      var x := ev.entry;
      var rejected := s.(entries := s.entries[x := s.entries[x].(creation := Rejected)],
                         handles := Drop(s.handles, s.entries[x].sid, x));
      SettleSays(rejected, x, ev.newEntry, e);
    }
  }

  lemma ReturnSays(s: State, ev: Event, e: EntryId)
    requires Inv(s) && Enabled(s, ev) && e in s.entries && (ev.Outdated? || ev.Release?)
    ensures EntrySays(s, ev, e, Step(s, ev))
  {
    hide Inv, Holders;
  }

  lemma QuietSays(s: State, ev: Event, e: EntryId)
    requires Enabled(s, ev) && e in s.entries
    requires ev.Call? || ev.LookUp? || ev.LookUpFails? || ev.Created? || ev.HandleArrives? || ev.Retry? || ev.Abort?
             || ev.Deliver? || ev.GiveUp?
    ensures EntrySays(s, ev, e, Step(s, ev))
  {
    hide Holders, InMap;
  }

  /** For every step and entry. */
  lemma StepEntry(s: State, ev: Event, e: EntryId)
    requires Inv(s) && Enabled(s, ev) && e in s.entries
    ensures EntrySays(s, ev, e, Step(s, ev))
  {
    hide Inv, EntrySays, Step, Enabled;
    match ev
    case Fails(c) => FailsSays(s, c, e);
    case Verified(c) => VerifiedSays(s, c, e);
    case DisposalEnds(x, n) => EndsSays(s, ev, e);
    case CreationFails(x, n) => EndsSays(s, ev, e);
    case Outdated(c) => ReturnSays(s, ev, e);
    case Release(c) => ReturnSays(s, ev, e);
    case _ => QuietSays(s, ev, e);
  }

  // ----------------------------------------------------------- disposal exactly

  /** A helper is being disposed of, or was abandoned, exactly when it is out of date and nobody
      holds it. */
  ghost predicate DisposalOk(s: State) {
    forall e :: e in s.entries ==>
      (s.entries[e].disposing || s.entries[e].abandoned <==> s.entries[e].stale && Holders(s.callers, e) == {})
  }

  /** What a new entry starts as. */
  lemma NewEntrySays(s: State, ev: Event, e: EntryId)
    requires Inv(s) && Enabled(s, ev) && e !in s.entries && e in Step(s, ev).entries
    ensures (ev.LookUp? || ev.CreationFails? || ev.DisposalEnds?) && e == ev.newEntry
    ensures var y := Step(s, ev).entries[e];
            && y.creation == Pending && !y.stale && !y.disposing && !y.disposed && !y.abandoned && y.disposals == 0
            && y.sid == (if ev.LookUp? then ev.sid else s.entries[ev.entry].sid)
  {
    hide Inv, Holders;
  }

  lemma HoldersAt(s: State, e: EntryId)
    requires Inv(s) && e in s.entries
    ensures s.entries[e].leases == |Holders(s.callers, e)| && EntryOk(s.entries[e])
    ensures s.entries[e].leases == 0 <==> Holders(s.callers, e) == {}
  {
    hide EntryOk, MapOk, CallersOk, Holders;
  }

  lemma RenewerHolds(s: State, ev: Event, e: EntryId)
    requires Enabled(s, ev) && Renews(s, ev, e)
    ensures ev.caller in Holders(Step(s, ev).callers, e)
  {
    hide RetireOthers;
  }

  lemma StepDisposal(s: State, ev: Event)
    requires Inv(s) && DisposalOk(s) && Enabled(s, ev)
    ensures DisposalOk(Step(s, ev))
  {
    hide Inv, Step, Enabled, Holders, Dates, Renews, EntryOk, Abandons;
    StepInv(s, ev);
    var t := Step(s, ev);
    forall e | e in t.entries
      ensures t.entries[e].disposing || t.entries[e].abandoned <==> t.entries[e].stale && Holders(t.callers, e) == {}
    {
      HoldersAt(t, e);
      if e in s.entries {
        StepEntry(s, ev, e);
        HoldersAt(s, e);
        StillStale(s, ev, e);
      } else {
        NewEntrySays(s, ev, e);
      }
    }
  }

  /** Disposal starts only out of date and unheld, and then is not taken back. */
  lemma StillStale(s: State, ev: Event, e: EntryId)
    requires Inv(s) && Enabled(s, ev) && e in s.entries && e in Step(s, ev).entries && Inv(Step(s, ev))
    requires EntrySays(s, ev, e, Step(s, ev))
    requires (s.entries[e].disposing || s.entries[e].abandoned) ==> s.entries[e].stale
    ensures var y := Step(s, ev).entries[e];
            && (y.disposing || y.abandoned ==> y.stale && y.leases == 0)
            && (y.stale && y.leases == 0 ==> y.disposing || y.abandoned)
  {
    hide Inv, Step, Enabled, Holders;
    HoldersAt(Step(s, ev), e);
    if Renews(s, ev, e) {
      RenewerHolds(s, ev, e);
    }
  }

  lemma {:induction false} RunDisposal(ss: seq<State>, events: seq<Event>, i: nat)
    requires IsRun(ss, events) && i < |ss|
    ensures DisposalOk(ss[i])
  {
    hide Inv, Step, Enabled, DisposalOk;
    if i == 0 {
      NothingYet(ss[0]);
    } else {
      RunDisposal(ss, events, i - 1);
      RunInv(ss, events, i - 1);
      StepDisposal(ss[i - 1], events[i - 1]);
    }
  }

  lemma NothingYet(s: State)
    requires s.entries == map[]
    ensures DisposalOk(s)
  {
  }

  /** In every run, a helper whose caller found it out of date or failed on it is out of date at
      once; if nobody else holds it, its disposal has started or it was abandoned. */
  lemma OutdatedIsRetired(ss: seq<State>, events: seq<Event>, i: nat, e: EntryId)
    requires IsRun(ss, events) && i < |events| && (events[i].Outdated? || events[i].Fails?)
    requires e in ss[i].entries && At(ss[i], events[i].caller, e)
    ensures e in ss[i + 1].entries && ss[i + 1].entries[e].stale
    ensures Holders(ss[i + 1].callers, e) == {} <==> ss[i + 1].entries[e].disposing || ss[i + 1].entries[e].abandoned
  {
    hide Inv, Step, Enabled, Holders;
    RunInv(ss, events, i);
    assert Enabled(ss[i], events[i]) && ss[i + 1] == Step(ss[i], events[i]);
    StepEntry(ss[i], events[i], e);
    RunDisposal(ss, events, i + 1);
  }

  /** And it stays out of date until a caller that holds it verifies it as current. */
  lemma {:induction false} OutdatedUntilRenewed(ss: seq<State>, events: seq<Event>, i: nat, k: nat, e: EntryId)
    requires IsRun(ss, events) && i <= k < |ss| && e in ss[i].entries && ss[i].entries[e].stale
    requires forall j :: i <= j < k ==> !Renews(ss[j], events[j], e)
    ensures e in ss[k].entries && ss[k].entries[e].stale
    decreases k
  {
    hide Inv, Step, Enabled, Holders, Renews, Dates;
    if i < k {
      OutdatedUntilRenewed(ss, events, i, k - 1, e);
      RunInv(ss, events, k - 1);
      assert Enabled(ss[k - 1], events[k - 1]) && ss[k] == Step(ss[k - 1], events[k - 1]);
      assert !Renews(ss[k - 1], events[k - 1], e);
      StepEntry(ss[k - 1], events[k - 1], e);
    }
  }

  // ------------------------------------------------------------------- callers

  /** A step by this caller itself. */
  predicate Acts(ev: Event, c: CallerId) {
    !ev.Created? && !ev.CreationFails? && !ev.DisposalEnds? && ev.caller == c
  }

  /** Where a caller's own step takes it. */
  predicate OwnMove(s: State, ev: Event, x: Inner, y: Inner) {
    match ev
    case LookUp(_, sid, n) =>
      if sid !in s.handles then y == AwaitHandle(n)
      else s.handles[sid] in s.entries
           && y == if s.entries[s.handles[sid]].disposing then AwaitDisposal(s.handles[sid])
                else AwaitHandle(s.handles[sid])
    case LookUpFails(_) => y == FailedToAcquire
    case HandleArrives(_) => x.AwaitHandle? && y == Verifying(x.entry)
    case Outdated(_) => x.Verifying? && y == AwaitRetry(x.entry)
    case Retry(_) => x.AwaitRetry? && y == Looking
    case Verified(_) => x.Verifying? && y == Acquired(x.entry)
    case Fails(_) => y == FailedToAcquire
    case Release(_) => x.Acquired? && y == Released
    case _ => y == x
  }

  /** Where a step leaves a caller there was before: its own step moves it, and the end of a
      disposal resumes those that waited for it, on the entry then in the map. */
  ghost predicate CallerSays(s: State, ev: Event, c: CallerId, t: State)
    requires c in s.callers
  {
    && c in t.callers
    && var x, y := s.callers[c], t.callers[c];
       && y.outer == (if ev == Deliver(c) then Got else if ev == GiveUp(c) then Gone else x.outer)
       && y.aborted == (x.aborted || ev == Abort(c))
       && if Acts(ev, c) then OwnMove(s, ev, x.inner, y.inner)
          else if x.inner.AwaitDisposal? && x.inner.entry in s.entries && Ends(s, ev, x.inner.entry) then
            if x.aborted then y.inner == FailedToAcquire
            else
              var sid := s.entries[x.inner.entry].sid;
              sid in t.handles && y.inner == AwaitHandle(t.handles[sid])
          else y.inner == x.inner
  }

  lemma EndsCaller(s: State, ev: Event, c: CallerId)
    requires Inv(s) && Enabled(s, ev) && c in s.callers && (ev.DisposalEnds? || ev.CreationFails?)
    requires s.callers[c].inner.AwaitDisposal? ==> s.callers[c].inner.entry in s.entries
    requires ev.entry in s.entries && (s.entries[ev.entry].disposed ==> !s.entries[ev.entry].creation.Pending?)
    ensures CallerSays(s, ev, c, Step(s, ev))
  {
    hide Inv, Holders;
    var sid := s.entries[ev.entry].sid;
    if sid in s.handles {
      MapAt(s, sid);
    }
    if c in Alive(s, ev.entry) {
      assert Alive(s, ev.entry) != {};
    }
  }

  lemma OwnCaller(s: State, ev: Event, c: CallerId)
    requires Enabled(s, ev) && c in s.callers && !ev.DisposalEnds? && !ev.CreationFails?
    ensures CallerSays(s, ev, c, Step(s, ev))
  {
    hide Holders, InMap, RetireOthers, MaybeDispose;
  }

  /** For every step and caller. */
  lemma StepCaller(s: State, ev: Event, c: CallerId)
    requires Inv(s) && Enabled(s, ev) && c in s.callers
    ensures CallerSays(s, ev, c, Step(s, ev))
  {
    CallerAt(s, c);
    hide Inv, CallerSays, Step;
    if ev.DisposalEnds? || ev.CreationFails? {
      EntryAt(s, ev.entry);
      EndsCaller(s, ev, c);
    } else {
      OwnCaller(s, ev, c);
    }
  }

  /** A call starts by looking its session up. */
  lemma NewCaller(s: State, ev: Event, c: CallerId)
    requires Enabled(s, ev) && c !in s.callers && c in Step(s, ev).callers
    ensures ev == Call(c) && Step(s, ev).callers[c] == Caller(Looking, Racing, false, 0, 0)
  {
    hide Holders, InMap, RetireOthers, MaybeDispose;
  }
}
