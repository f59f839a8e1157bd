/** The limiter of failed PIN attempts: a sliding window per authorization request, kept by
    popping old failures off the front. It is proved to answer as if it kept every failure
    since the last clear and counted those inside the window. */
module PinLimiter {
  predicate Sorted(h: seq<real>) {
    forall i, j :: 0 <= i <= j < |h| ==> h[i] <= h[j]
  }

  predicate Inside(t: real, now: real, window: real) { now - t <= window }

  /** How many failures of the full history lie within the window. */
  function CountInside(h: seq<real>, now: real, window: real): nat {
    if h == [] then 0 else (if Inside(h[0], now, window) then 1 else 0) + CountInside(h[1..], now, window)
  }

  /** In a sorted history the failures inside the window are its tail. */
  lemma {:induction false} TailIsInside(h: seq<real>, k: nat, now: real, window: real)
    requires Sorted(h) && k <= |h|
    requires forall i :: 0 <= i < k ==> !Inside(h[i], now, window)
    requires k < |h| ==> Inside(h[k], now, window)
    ensures CountInside(h, now, window) == |h| - k
  {
    if h != [] {
      if k > 0 {
        TailIsInside(h[1..], k - 1, now, window);
      } else {
        assert |h| > 1 ==> Inside(h[1], now, window);
        TailIsInside(h[1..], 0, now, window);
      }
    }
  }

  /** kept is the tail of the history that has not been dropped; what was dropped is outside
      the window. */
  ghost predicate Keeps(kept: seq<real>, h: seq<real>, now: real, window: real) {
    && |kept| <= |h| && kept == h[|h| - |kept|..]
    && forall i :: 0 <= i < |h| - |kept| ==> !Inside(h[i], now, window)
  }

  /** Nothing outside the window is kept either. */
  predicate Pruned(kept: seq<real>, now: real, window: real) {
    kept != [] ==> Inside(kept[0], now, window)
  }

  lemma KeptCount(kept: seq<real>, h: seq<real>, now: real, window: real)
    requires Sorted(h) && Keeps(kept, h, now, window) && Pruned(kept, now, window)
    ensures |kept| == CountInside(h, now, window)
  {
    TailIsInside(h, |h| - |kept|, now, window);
  }

  lemma {:induction false} CountAppend(h: seq<real>, t: real, now: real, window: real)
    ensures CountInside(h + [t], now, window) == CountInside(h, now, window) + (if Inside(t, now, window) then 1 else 0)
  {
    if h != [] {
      assert (h + [t])[1..] == h[1..] + [t];
      CountAppend(h[1..], t, now, window);
    }
  }

  function Entry(m: map<string, seq<real>>, id: string): seq<real> {
    if id in m then m[id] else []
  }

  /** More than limit consecutive failures always span more than the window. */
  ghost predicate Spaced(h: seq<real>, limit: nat, window: real) {
    forall i :: limit <= i < |h| ==> h[i] - h[i - limit] > window
  }

  /** How many failures fall in a closed window. */
  function CountBetween(h: seq<real>, from: real, upto: real): nat {
    if h == [] then 0 else (if from <= h[0] <= upto then 1 else 0) + CountBetween(h[1..], from, upto)
  }

  lemma {:induction false} CountsPrefix(h: seq<real>, k: nat, from: real, upto: real)
    requires forall i :: k <= i < |h| ==> h[i] > upto
    ensures CountBetween(h, from, upto) <= k
  {
    if h != [] {
      CountsPrefix(h[1..], if k == 0 then 0 else k - 1, from, upto);
    }
  }

  /** So no closed window of that length, wherever it lies, holds more than limit failures. */
  lemma {:induction false} WindowHoldsLimit(h: seq<real>, limit: nat, window: real, from: real)
    requires Sorted(h) && Spaced(h, limit, window)
    ensures CountBetween(h, from, from + window) <= limit
  {
    if h != [] {
      if from <= h[0] {
        forall i | limit <= i < |h| ensures h[i] > from + window {
          assert h[i] - h[i - limit] > window && h[0] <= h[i - limit];
        }
        CountsPrefix(h, limit, from, from + window);
      } else {
        assert Spaced(h[1..], limit, window);
        WindowHoldsLimit(h[1..], limit, window, from);
      }
    }
  }

  /** What is kept for a request against its history since it was last cleared. */
  ghost predicate EntryOk(kept: seq<real>, h: seq<real>, clock: real, window: real) {
    && Sorted(h) && (forall i :: 0 <= i < |h| ==> h[i] <= clock)
    && Keeps(kept, h, clock, window)
  }

  ghost predicate AllOk(failures: map<string, seq<real>>, history: map<string, seq<real>>, clock: real, window: real) {
    forall id :: EntryOk(Entry(failures, id), Entry(history, id), clock, window)
  }

  /** Exactly the requests with a failure inside the window have an entry. */
  ghost predicate NoDeadKeys(
      failures: map<string, seq<real>>, history: map<string, seq<real>>, clock: real, window: real) {
    forall id :: id in failures <==> CountInside(Entry(history, id), clock, window) > 0
  }

  ghost predicate AllSpaced(history: map<string, seq<real>>, limit: nat, window: real) {
    forall id :: Spaced(Entry(history, id), limit, window)
  }

  lemma EntryPut(m: map<string, seq<real>>, id: string, v: seq<real>, other: string)
    ensures Entry(m[id := v], other) == if other == id then v else Entry(m, other)
    ensures Entry(m - {id}, other) == if other == id then [] else Entry(m, other)
  {
  }

  lemma AppendOk(kept: seq<real>, h: seq<real>, clock: real, window: real)
    requires EntryOk(kept, h, clock, window)
    ensures EntryOk(kept + [clock], h + [clock], clock, window)
  {
  }

  /** Recording a failure. */
  lemma FailOk(failures: map<string, seq<real>>, history: map<string, seq<real>>, clock: real, window: real, id: string)
    requires AllOk(failures, history, clock, window) && NoDeadKeys(failures, history, clock, window) && window > 0.0
    ensures var f, h := failures[id := Entry(failures, id) + [clock]], history[id := Entry(history, id) + [clock]];
            AllOk(f, h, clock, window) && NoDeadKeys(f, h, clock, window)
  {
    hide Entry, EntryOk, CountInside;
    var f, h := failures[id := Entry(failures, id) + [clock]], history[id := Entry(history, id) + [clock]];
    AppendOk(Entry(failures, id), Entry(history, id), clock, window);
    CountAppend(Entry(history, id), clock, clock, window);
    forall other ensures EntryOk(Entry(f, other), Entry(h, other), clock, window)
                         && (other in f <==> CountInside(Entry(h, other), clock, window) > 0) {
      EntryPut(failures, id, Entry(failures, id) + [clock], other);
      EntryPut(history, id, Entry(history, id) + [clock], other);
    }
  }

  lemma EmptyOk(clock: real, window: real)
    ensures EntryOk([], [], clock, window) && CountInside([], clock, window) == 0
  {
  }

  /** Clearing a request. */
  lemma ClearOk(
      failures: map<string, seq<real>>, history: map<string, seq<real>>, clock: real, window: real, id: string)
    requires AllOk(failures, history, clock, window)
    ensures AllOk(failures - {id}, history - {id}, clock, window)
    ensures NoDeadKeys(failures, history, clock, window) ==> NoDeadKeys(failures - {id}, history - {id}, clock, window)
  {
    hide Entry, EntryOk, CountInside;
    EmptyOk(clock, window);
    forall other ensures EntryOk(Entry(failures - {id}, other), Entry(history - {id}, other), clock, window)
                         && Entry(history - {id}, other) == (if other == id then [] else Entry(history, other)) {
      EntryPut(failures, id, [], other);
      EntryPut(history, id, [], other);
    }
  }

  lemma ClearSpaced(history: map<string, seq<real>>, limit: nat, window: real, id: string)
    requires AllSpaced(history, limit, window)
    ensures AllSpaced(history - {id}, limit, window)
  {
    forall other ensures Spaced(Entry(history - {id}, other), limit, window) {
      EntryPut(history, id, [], other);
      assert Spaced(Entry(history, other), limit, window);
    }
  }

  /** An allowed failure keeps the spacing. */
  lemma FailSpaced(history: map<string, seq<real>>, limit: nat, window: real, id: string, now: real, later: real)
    requires AllSpaced(history, limit, window) && limit > 0 && now <= later
    requires Sorted(Entry(history, id)) && CountInside(Entry(history, id), now, window) < limit
    ensures AllSpaced(history[id := Entry(history, id) + [later]], limit, window)
  {
    var h := Entry(history, id);
    FewInside(h, limit, now, window);
    assert Spaced(h, limit, window);
    assert Spaced(h + [later], limit, window);
    hide Spaced, Entry;
    var h1 := history[id := h + [later]];
    forall other ensures Spaced(Entry(h1, other), limit, window) {
      EntryPut(history, id, h + [later], other);
      assert Spaced(Entry(history, other), limit, window);
    }
  }

  /** Pruning every entry at a later time. */
  lemma PruneOk(
      before: map<string, seq<real>>, after: map<string, seq<real>>, history: map<string, seq<real>>, clock: real,
      now: real, window: real)
    requires AllOk(before, history, clock, window) && clock <= now
    requires forall id ::
        Keeps(Entry(after, id), Entry(before, id), now, window) && Pruned(Entry(after, id), now, window)
    requires forall id :: id in after ==> after[id] != []
    ensures AllOk(after, history, now, window) && NoDeadKeys(after, history, now, window)
  {
    hide CountInside, Keeps, Sorted, Pruned;
    forall id ensures EntryOk(Entry(after, id), Entry(history, id), now, window)
                      && |Entry(after, id)| == CountInside(Entry(history, id), now, window) {
      assert EntryOk(Entry(before, id), Entry(history, id), clock, window);
      KeepsMore(Entry(after, id), Entry(before, id), Entry(history, id), clock, now, window);
      KeptCount(Entry(after, id), Entry(history, id), now, window);
    }
  }

  lemma EmptyKeeps(now: real, window: real)
    ensures Keeps([], [], now, window) && Pruned([], now, window)
  {
  }

  datatype Outcome = TooManyAttempts | Accepted | Rejected

  class PinAttemptLimiter {
    const limit: nat
    const window: real
    var failures: map<string, seq<real>>
    ghost var history: map<string, seq<real>>
    ghost var clock: real

    /** history holds every failure of a request since it was last cleared. */
    ghost predicate Valid() reads this {
      limit > 0 && window > 0.0 && AllOk(failures, history, clock, window)
    }

    ghost predicate Tidy() reads this { NoDeadKeys(failures, history, clock, window) }

    /** Every request is limited to limit failures per window, counting those since it was last
        cleared. */
    ghost predicate RateLimited() reads this { AllSpaced(history, limit, window) }

    constructor (limit: nat, window: real)
      requires limit > 0 && window > 0.0
      ensures Valid() && Tidy() && RateLimited() && history == map[] && this.limit == limit && this.window == window
    {
      this.limit, this.window := limit, window;
      failures, history, clock := map[], map[], 0.0;
    }

    /** Limits that are not positive are refused. */
    static method Create(limit: int, window: real) returns (limiter: PinAttemptLimiter?)
      ensures limiter == null <==> limit <= 0 || window <= 0.0
      ensures limiter != null ==>
          fresh(limiter) && limiter.Valid() && limiter.history == map[] && limiter.limit == limit
          && limiter.window == window
    {
      if limit <= 0 || window <= 0.0 {
        limiter := null;
      } else {
        limiter := new PinAttemptLimiter(limit, window);
      }
    }

    static method Prune(failures: seq<real>, now: real, window: real) returns (kept: seq<real>)
      ensures Pruned(kept, now, window) && Keeps(kept, failures, now, window)
    {
      kept := failures;
      while kept != [] && now - kept[0] > window
        invariant Keeps(kept, failures, now, window)
      {
        assert kept[0] == failures[|failures| - |kept|];
        kept := kept[1..];
      }
    }

    /** Prune every deque, then drop the empty ones. */
    static method PruneEach(before: map<string, seq<real>>, now: real, window: real)
      returns (after: map<string, seq<real>>)
      ensures forall id ::
          Keeps(Entry(after, id), Entry(before, id), now, window) && Pruned(Entry(after, id), now, window)
      ensures forall id :: id in after ==> after[id] != []
    {
      hide Keeps, Pruned;
      EmptyKeeps(now, window);
      after := before;
      var stale: set<string> := {};
      var rest := before.Keys;
      while rest != {}
        invariant rest <= before.Keys && after.Keys == before.Keys && stale <= before.Keys
        invariant forall id :: id in rest ==> after[id] == before[id]
        invariant forall id :: id in before && id !in rest ==>
            Keeps(after[id], before[id], now, window) && Pruned(after[id], now, window)
        invariant forall id :: id in before && id !in rest ==> (id in stale <==> after[id] == [])
      {
        var id :| id in rest;
        var kept := Prune(after[id], now, window);
        after := after[id := kept];
        stale := if kept == [] then stale + {id} else stale - {id};
        rest := rest - {id};
      }
      after := map id | id in after && id !in stale :: after[id];
    }

    method PruneAll(now: real)
      requires Valid() && clock <= now
      modifies this`failures, this`clock
      ensures Valid() && Tidy() && clock == now
    {
      hide AllOk, NoDeadKeys;
      var after := PruneEach(failures, now, window);
      PruneOk(failures, after, history, clock, now, window);
      failures := after;
      clock := now;
    }

    /** An attempt is allowed exactly when fewer than limit failures since the last clear lie
        within the window now. */
    method Allowed(id: string, now: real) returns (ok: bool)
      requires Valid() && clock <= now
      modifies this`failures, this`clock
      ensures Valid() && Tidy() && clock == now
      ensures ok <==> CountInside(Entry(history, id), now, window) < limit
    {
      ghost var before := failures;
      var after := PruneEach(failures, now, window);
      hide AllOk, NoDeadKeys;
      PruneOk(failures, after, history, clock, now, window);
      PrunedCount(failures, after, history, clock, now, window, id);
      failures := after;
      clock := now;
      ok := id !in failures || |failures[id]| < limit;
    }

    method Fail(id: string, now: real)
      requires Valid() && clock <= now
      modifies this
      ensures Valid() && Tidy() && clock == now
      ensures history == old(history)[id := Entry(old(history), id) + [now]]
    {
      hide AllOk, NoDeadKeys;
      PruneAll(now);
      FailOk(failures, history, clock, window, id);
      var queue := if id in failures then failures[id] else [];
      failures := failures[id := queue + [now]];
      history := history[id := Entry(history, id) + [now]];
    }

    method Clear(id: string)
      requires Valid()
      modifies this`failures, this`history
      ensures Valid() && history == old(history) - {id}
      ensures old(Tidy()) ==> Tidy()
    {
      hide AllOk, NoDeadKeys;
      ClearOk(failures, history, clock, window, id);
      failures := failures - {id};
      history := history - {id};
    }

    /** One PIN posted for a pending request: checked only if allowed; a failure is recorded, a
        success clears. */
    method Attempt(id: string, pinMatches: bool, now: real, later: real) returns (outcome: Outcome)
      requires Valid() && RateLimited() && clock <= now <= later
      modifies this
      ensures Valid() && RateLimited() && Tidy()
      ensures outcome == TooManyAttempts <==> CountInside(Entry(old(history), id), now, window) >= limit
      ensures outcome == Accepted ==> pinMatches && history == old(history) - {id}
      ensures outcome == Rejected ==> !pinMatches && history == old(history)[id := Entry(old(history), id) + [later]]
      ensures outcome == TooManyAttempts ==> history == old(history)
    {
      hide AllOk, NoDeadKeys, AllSpaced, CountInside, Entry, Sorted;
      SortedEntry(failures, history, clock, window, id);
      var ok := Allowed(id, now);
      if !ok {
        outcome := TooManyAttempts;
      } else if pinMatches {
        ClearSpaced(history, limit, window, id);
        Clear(id);
        outcome := Accepted;
      } else {
        FailSpaced(history, limit, window, id, now, later);
        Fail(id, later);
        outcome := Rejected;
      }
    }

    /** One PIN posted for a request that is no longer pending: compared whatever failed before,
        and a mismatch is not recorded. A match clears if the request's code is still there. */
    method AttemptLate(id: string, pinMatches: bool, completed: bool) returns (redirected: bool)
      requires Valid() && RateLimited()
      modifies this
      ensures Valid() && RateLimited() && clock == old(clock)
      ensures redirected <==> pinMatches && completed
      ensures history == if redirected then old(history) - {id} else old(history)
    {
      redirected := false;
      if pinMatches {
        if completed {
          Deny(id);
          redirected := true;
        }
      }
    }

    /** A denial clears the request. */
    method Deny(id: string)
      requires Valid() && RateLimited()
      modifies this
      ensures Valid() && RateLimited() && history == old(history) - {id} && clock == old(clock)
    {
      hide AllOk, NoDeadKeys, AllSpaced;
      ClearSpaced(history, limit, window, id);
      Clear(id);
    }
  }

  lemma SortedEntry(
      failures: map<string, seq<real>>, history: map<string, seq<real>>, clock: real, window: real, id: string)
    requires AllOk(failures, history, clock, window)
    ensures Sorted(Entry(history, id))
  {
    assert EntryOk(Entry(failures, id), Entry(history, id), clock, window);
  }

  lemma PrunedCount(
      before: map<string, seq<real>>, after: map<string, seq<real>>, history: map<string, seq<real>>, clock: real,
      now: real, window: real, id: string)
    requires AllOk(before, history, clock, window) && clock <= now
    requires Keeps(Entry(after, id), Entry(before, id), now, window) && Pruned(Entry(after, id), now, window)
    ensures |Entry(after, id)| == CountInside(Entry(history, id), now, window)
  {
    hide CountInside, Keeps, Sorted, Pruned;
    assert EntryOk(Entry(before, id), Entry(history, id), clock, window);
    KeepsMore(Entry(after, id), Entry(before, id), Entry(history, id), clock, now, window);
    KeptCount(Entry(after, id), Entry(history, id), now, window);
  }

  lemma KeepsMore(kept: seq<real>, mid: seq<real>, h: seq<real>, clock: real, now: real, window: real)
    requires Keeps(mid, h, clock, window) && Keeps(kept, mid, now, window) && clock <= now
    ensures Keeps(kept, h, now, window)
  {
    forall i | 0 <= i < |h| - |kept| ensures !Inside(h[i], now, window) {
      if i >= |h| - |mid| {
        assert h[i] == mid[i - (|h| - |mid|)];
      }
    }
  }

  /** With fewer than limit failures inside the window, the limit-th last is outside it. */
  lemma {:induction false} FewInside(h: seq<real>, limit: nat, now: real, window: real)
    requires Sorted(h) && CountInside(h, now, window) < limit
    ensures |h| >= limit ==> !Inside(h[|h| - limit], now, window)
  {
    if |h| >= limit && Inside(h[|h| - limit], now, window) {
      AllInside(h, |h| - limit, now, window);
    }
  }

  lemma {:induction false} AllInside(h: seq<real>, k: nat, now: real, window: real)
    requires Sorted(h) && k < |h| && Inside(h[k], now, window)
    ensures CountInside(h, now, window) >= |h| - k
  {
    if k > 0 {
      AllInside(h[1..], k - 1, now, window);
    } else if |h| > 1 {
      assert h[0] <= h[1];
      AllInside(h[1..], 0, now, window);
    }
  }
}
