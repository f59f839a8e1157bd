/** The approval page of one authorization request, as the posts to it interleave: what the
    limiter of failed PIN attempts bounds, and what it does not. */
module ApprovalRoute {
  import opened PinLimiter

  /** What the provider says of the request: still to be decided, denied, approved with its code
      on record, or expired or exchanged. */
  datatype Status = Open | Denied | Approved | Gone

  /** Posts that found the request pending and have not been looked at yet; decisions and
      retries that were started and not finished; the failures the limiter knows, which are
      those since it was last cleared; and, never cleared, every wrong PIN ever compared. */
  datatype Page = Page(
    status: Status, passed: nat, denials: nat, approvals: nat, retries: nat,
    failures: seq<real>, log: seq<real>, clock: real)

  datatype Limits = Limits(limit: nat, window: real)

  datatype Event =
    | Arrive
    | PostDeny
    | PostPin(right: bool, now: real, later: real)
    | FinishDeny
    | FinishApprove
    | PostLate(right: bool, at: real)
    | FinishRetry
    | Lapse

  /** A post is looked at after it found the request pending; one that did not is compared at
      once. The clock does not run backwards. */
  predicate Enabled(s: Page, e: Event) {
    match e
    case Arrive => s.status.Open?
    case PostDeny => s.passed > 0
    case PostPin(_, now, later) => s.passed > 0 && s.clock <= now <= later
    case FinishDeny => s.denials > 0
    case FinishApprove => s.approvals > 0
    case PostLate(_, at) => !s.status.Open? && s.clock <= at
    case FinishRetry => s.retries > 0
    case Lapse => true
  }

  /** A PIN posted for a request found pending: compared only if the limiter allows it. */
  function Compared(s: Page, l: Limits, right: bool, now: real, later: real): Page {
    if CountInside(s.failures, now, l.window) >= l.limit then s.(clock := now)
    else if right then s.(failures := [], approvals := s.approvals + 1, clock := now)
    else s.(failures := s.failures + [later], log := s.log + [later], clock := later)
  }

  function Step(s: Page, l: Limits, e: Event): Page
    requires Enabled(s, e)
  {
    match e
    case Arrive => s.(passed := s.passed + 1)
    case PostDeny => s.(passed := s.passed - 1, failures := [], denials := s.denials + 1)
    case PostPin(right, now, later) => Compared(s, l, right, now, later).(passed := s.passed - 1)
    case FinishDeny => s.(denials := s.denials - 1, status := if s.status.Open? then Denied else s.status)
    case FinishApprove => s.(approvals := s.approvals - 1, status := if s.status.Open? then Approved else s.status)
    case PostLate(right, at) =>
      if right then s.(retries := s.retries + 1, clock := at) else s.(log := s.log + [at], clock := at)
    case FinishRetry => s.(retries := s.retries - 1, failures := if s.status.Approved? then [] else s.failures)
    case Lapse => s.(status := if s.status.Denied? then Denied else Gone)
  }

  predicate Started(s: Page) {
    s == Page(Open, 0, 0, 0, 0, [], [], s.clock)
  }

  ghost predicate IsRun(states: seq<Page>, l: Limits, events: seq<Event>) {
    && |states| == |events| + 1 && Started(states[0])
    && forall i :: 0 <= i < |events| ==> Enabled(states[i], events[i]) && states[i + 1] == Step(states[i], l, events[i])
  }

  /** Both records are in order and up to now. */
  ghost predicate Ordered(s: Page) {
    && Sorted(s.failures) && Sorted(s.log)
    && (forall i :: 0 <= i < |s.failures| ==> s.failures[i] <= s.clock)
    && (forall i :: 0 <= i < |s.log| ==> s.log[i] <= s.clock)
  }

  lemma StepOrdered(s: Page, l: Limits, e: Event)
    requires Ordered(s) && Enabled(s, e)
    ensures Ordered(Step(s, l, e))
  {
    hide CountInside;
  }

  lemma {:induction false} RunOrdered(states: seq<Page>, l: Limits, events: seq<Event>, i: nat)
    requires IsRun(states, l, events) && i < |states|
    ensures Ordered(states[i])
  {
    hide Ordered, Enabled, Step;
    if i == 0 {
      StartedOrdered(states[0]);
    } else {
      RunOrdered(states, l, events, i - 1);
      assert Enabled(states[i - 1], events[i - 1]) && states[i] == Step(states[i - 1], l, events[i - 1]);
      StepOrdered(states[i - 1], l, events[i - 1]);
    }
  }

  lemma StartedOrdered(s: Page)
    requires Started(s)
    ensures Ordered(s)
  {
  }

  /** When this event compares a wrong PIN, if it does. */
  function WrongAt(s: Page, l: Limits, e: Event): seq<real> {
    if e.PostPin? && !e.right && CountInside(s.failures, e.now, l.window) < l.limit then [e.later]
    else if e.PostLate? && !e.right then [e.at]
    else []
  }

  /** This event compares a wrong PIN although limit wrong ones were compared in the window
      before it. */
  predicate Exceeds(s: Page, l: Limits, e: Event) {
    WrongAt(s, l, e) != [] && CountInside(s.log, WrongAt(s, l, e)[0], l.window) >= l.limit
  }

  lemma StepLogs(s: Page, l: Limits, e: Event)
    requires Enabled(s, e)
    ensures Step(s, l, e).log == s.log + WrongAt(s, l, e)
    ensures WrongAt(s, l, e) != [] ==> s.clock <= WrongAt(s, l, e)[0]
  {
    hide CountInside;
  }

  /** One more comparison keeps the spacing exactly if fewer than limit lie in its window. */
  lemma AppendSpacedExactly(h: seq<real>, limit: nat, window: real, t: real)
    requires Sorted(h) && Spaced(h, limit, window) && limit > 0
    ensures Spaced(h + [t], limit, window) <==> CountInside(h, t, window) < limit
  {
    hide CountInside;
    if CountInside(h, t, window) < limit {
      FewInside(h, limit, t, window);
    } else {
      CountAtMost(h, t, window);
      ManyInside(h, limit, t, window);
      assert (h + [t])[|h|] - (h + [t])[|h| - limit] <= window;
    }
  }

  lemma {:induction false} CountAtMost(h: seq<real>, now: real, window: real)
    ensures CountInside(h, now, window) <= |h|
  {
    if h != [] { CountAtMost(h[1..], now, window); }
  }

  /** With limit of them inside the window, the limit-th last is inside it. */
  lemma {:induction false} ManyInside(h: seq<real>, limit: nat, now: real, window: real)
    requires Sorted(h) && 0 < limit <= CountInside(h, now, window) <= |h|
    ensures Inside(h[|h| - limit], now, window)
  {
    if |h| > limit {
      CountAtMost(h[1..], now, window);
      if CountInside(h[1..], now, window) >= limit {
        ManyInside(h[1..], limit, now, window);
      } else {
        assert Inside(h[0], now, window) && h[0] <= h[|h| - limit];
      }
    } else {
      CountAtMost(h[1..], now, window);
      assert h[0] <= h[|h| - limit];
    }
  }

  /** For every step: the bound on all wrong PINs ever compared, whatever was cleared, is kept
      exactly if the step does not exceed it. */
  lemma StepSpacedExactly(s: Page, l: Limits, e: Event)
    requires Ordered(s) && Enabled(s, e) && l.limit > 0 && Spaced(s.log, l.limit, l.window)
    ensures Spaced(Step(s, l, e).log, l.limit, l.window) <==> !Exceeds(s, l, e)
  {
    hide Spaced, Step, WrongAt, Enabled;
    StepLogs(s, l, e);
    var wrong := WrongAt(s, l, e);
    if wrong == [] {
      assert s.log + wrong == s.log;
    } else {
      WrongOnce(s, l, e);
      AppendSpacedExactly(s.log, l.limit, l.window, wrong[0]);
    }
  }

  lemma WrongOnce(s: Page, l: Limits, e: Event)
    requires WrongAt(s, l, e) != []
    ensures WrongAt(s, l, e) == [WrongAt(s, l, e)[0]]
  {
  }

  lemma SpacedPrefix(h: seq<real>, more: seq<real>, limit: nat, window: real)
    requires Spaced(h + more, limit, window)
    ensures Spaced(h, limit, window)
  {
    forall i | limit <= i < |h| ensures h[i] - h[i - limit] > window {
      assert (h + more)[i] == h[i] && (h + more)[i - limit] == h[i - limit];
    }
  }

  /** In every run, all wrong PINs ever compared for the request are spaced exactly if no event
      so far exceeded the bound. */
  lemma {:induction false} RunSpacedExactly(states: seq<Page>, l: Limits, events: seq<Event>, i: nat)
    requires IsRun(states, l, events) && i < |states| && l.limit > 0
    ensures Spaced(states[i].log, l.limit, l.window) <==> forall k :: 0 <= k < i ==> !Exceeds(states[k], l, events[k])
  {
    hide Spaced, Exceeds, Enabled, Step, Ordered;
    if i == 0 {
      NothingIsSpaced(l);
    } else {
      RunSpacedExactly(states, l, events, i - 1);
      var s, e := states[i - 1], events[i - 1];
      assert Enabled(s, e) && states[i] == Step(s, l, e);
      RunOrdered(states, l, events, i - 1);
      if Spaced(s.log, l.limit, l.window) {
        StepSpacedExactly(s, l, e);
      } else if Spaced(states[i].log, l.limit, l.window) {
        StepLogs(s, l, e);
        SpacedPrefix(s.log, WrongAt(s, l, e), l.limit, l.window);
        assert false;
      }
    }
  }

  lemma NothingIsSpaced(l: Limits)
    ensures Spaced([], l.limit, l.window)
  {
  }

  function One(b: bool): nat { if b then 1 else 0 }

  predicate LetThrough(s: Page, l: Limits, e: Event) {
    e.PostPin? && CountInside(s.failures, e.now, l.window) < l.limit
  }

  /** For every step: what is under way, what has been decided, and the time. */
  lemma StepExactly(s: Page, l: Limits, e: Event)
    requires Enabled(s, e)
    ensures var s1 := Step(s, l, e);
            && s1.passed + One(e.PostDeny? || e.PostPin?) == s.passed + One(e.Arrive?)
            && s1.denials + One(e.FinishDeny?) == s.denials + One(e.PostDeny?)
            && s1.approvals + One(e.FinishApprove?) == s.approvals + One(LetThrough(s, l, e) && e.right)
            && s1.retries + One(e.FinishRetry?) == s.retries + One(e.PostLate? && e.right)
            && (s1.status == s.status
                || (s.status.Open? && e.FinishDeny? && s1.status.Denied?)
                || (s.status.Open? && e.FinishApprove? && s1.status.Approved?)
                || (!s.status.Denied? && e.Lapse? && s1.status.Gone?))
            && (s1.status.Open? ==> !e.FinishDeny? && !e.FinishApprove?)
            && (e.Lapse? ==> s1.status.Denied? || s1.status.Gone?)
            && s1.clock == if e.PostLate? then e.at
                           else if !e.PostPin? then s.clock
                           else if LetThrough(s, l, e) && !e.right then e.later
                           else e.now
  {
    hide CountInside;
  }

  /** In every run the first decision stands: a denial for good, an approval until it lapses. */
  lemma {:induction false} DecisionStands(states: seq<Page>, l: Limits, events: seq<Event>, i: nat, j: nat)
    requires IsRun(states, l, events) && i <= j < |states|
    ensures states[i].status.Denied? ==> states[j].status.Denied?
    ensures states[i].status.Gone? ==> states[j].status.Gone?
    ensures states[i].status.Approved? ==> states[j].status.Approved? || states[j].status.Gone?
    ensures states[i].status.Approved? && states[j].status.Gone? ==> exists k :: i <= k < j && events[k].Lapse?
  {
    hide Enabled, Step, LetThrough, One;
    if i < j {
      DecisionStands(states, l, events, i, j - 1);
      assert Enabled(states[j - 1], events[j - 1]) && states[j] == Step(states[j - 1], l, events[j - 1]);
      StepExactly(states[j - 1], l, events[j - 1]);
    }
  }

  /** A clear: a denial, a right PIN the limiter lets through, or a retry whose code is there. */
  predicate Clears(s: Page, l: Limits, e: Event) {
    || e.PostDeny?
    || (LetThrough(s, l, e) && e.right)
    || (e.FinishRetry? && s.status.Approved?)
  }

  /** The wrong PINs compared while the request was pending, since the last clear. */
  ghost function Recorded(states: seq<Page>, l: Limits, events: seq<Event>, i: nat): seq<real>
    requires IsRun(states, l, events) && i < |states|
  {
    if i == 0 then []
    else if Clears(states[i - 1], l, events[i - 1]) then []
    else Recorded(states, l, events, i - 1)
         + if events[i - 1].PostPin? then WrongAt(states[i - 1], l, events[i - 1]) else []
  }

  lemma StepRecords(s: Page, l: Limits, e: Event)
    requires Enabled(s, e)
    ensures Step(s, l, e).failures ==
              if Clears(s, l, e) then [] else s.failures + if e.PostPin? then WrongAt(s, l, e) else []
  {
    hide CountInside;
  }

  /** In every run the limiter knows exactly these. */
  lemma {:induction false} RunRecords(states: seq<Page>, l: Limits, events: seq<Event>, i: nat)
    requires IsRun(states, l, events) && i < |states|
    ensures states[i].failures == Recorded(states, l, events, i)
  {
    hide Enabled, Step, Clears, WrongAt;
    if i > 0 {
      RunRecords(states, l, events, i - 1);
      assert Enabled(states[i - 1], events[i - 1]) && states[i] == Step(states[i - 1], l, events[i - 1]);
      StepRecords(states[i - 1], l, events[i - 1]);
    }
  }

  /** A comparison that the limiter knows nothing of, or a clear. */
  predicate Evades(s: Page, e: Event) {
    (e.PostLate? && !e.right) || e.PostDeny? || (e.PostPin? && e.right) || (e.FinishRetry? && s.status.Approved?)
  }

  /** Until then the limiter knows every wrong PIN compared, and the bound holds over all of
      them: one who posts no denial and no right PIN has limit attempts a window while the
      request is pending. */
  lemma {:induction false} UnclearedIsLimited(states: seq<Page>, l: Limits, events: seq<Event>, i: nat, from: real)
    requires IsRun(states, l, events) && i < |states| && l.limit > 0 && l.window > 0.0
    requires forall k :: 0 <= k < i ==> !Evades(states[k], events[k])
    ensures states[i].failures == states[i].log
    ensures Spaced(states[i].log, l.limit, l.window) && CountBetween(states[i].log, from, from + l.window) <= l.limit
  {
    RunKnown(states, l, events, i);
    RunOrdered(states, l, events, i);
    forall k | 0 <= k < i ensures !Exceeds(states[k], l, events[k]) {
      RunKnown(states, l, events, k);
      RunOrdered(states, l, events, k);
      KnownNeverExceeds(states[k], l, events[k]);
    }
    RunSpacedExactly(states, l, events, i);
    WindowHoldsLimit(states[i].log, l.limit, l.window, from);
  }

  lemma {:induction false} RunKnown(states: seq<Page>, l: Limits, events: seq<Event>, i: nat)
    requires IsRun(states, l, events) && i < |states|
    requires forall k :: 0 <= k < i ==> !Evades(states[k], events[k])
    ensures states[i].failures == states[i].log
  {
    hide Enabled, CountInside, Evades, Step;
    if i > 0 {
      RunKnown(states, l, events, i - 1);
      assert Enabled(states[i - 1], events[i - 1]) && states[i] == Step(states[i - 1], l, events[i - 1]);
      StepKnown(states[i - 1], l, events[i - 1]);
    }
  }

  lemma StepKnown(s: Page, l: Limits, e: Event)
    requires Enabled(s, e) && !Evades(s, e) && s.failures == s.log
    ensures Step(s, l, e).failures == Step(s, l, e).log
  {
    hide CountInside;
  }

  lemma KnownNeverExceeds(s: Page, l: Limits, e: Event)
    requires Ordered(s) && s.failures == s.log && !Evades(s, e) && (e.PostPin? ==> e.now <= e.later)
    ensures !Exceeds(s, l, e)
  {
    if e.PostPin? {
      LaterHoldsFewer(s.log, e.now, e.later, l.window);
    }
  }

  lemma {:induction false} LaterHoldsFewer(h: seq<real>, now: real, later: real, window: real)
    requires now <= later
    ensures CountInside(h, later, window) <= CountInside(h, now, window)
  {
    if h != [] { LaterHoldsFewer(h[1..], now, later, window); }
  }

  function Repeated(n: nat, t: real): (h: seq<real>)
    ensures |h| == n && forall i :: 0 <= i < n ==> h[i] == t
  {
    if n == 0 then [] else Repeated(n - 1, t) + [t]
  }

  /** What the limiter does not bound: once the request is approved, any number of wrong PINs can
      be compared, at one time even. */
  lemma {:induction false} LateIsUnbounded(l: Limits, n: nat, t: real) returns (states: seq<Page>, events: seq<Event>)
    requires l.limit > 0
    ensures IsRun(states, l, events) && |events| == n + 3 && states[0].clock == t
    ensures states[n + 3].log == Repeated(n, t) && states[n + 3].status == Approved && states[n + 3].clock == t
  {
    if n == 0 {
      var s := Page(Open, 0, 0, 0, 0, [], [], t);
      assert CountInside([], t, l.window) == 0;
      events := [Arrive, PostPin(true, t, t), FinishApprove];
      states := [s, s.(passed := 1), s.(approvals := 1), s.(status := Approved)];
    } else {
      hide CountInside;
      states, events := LateIsUnbounded(l, n - 1, t);
      var s := states[n + 2];
      states, events := states + [s.(log := s.log + [t])], events + [PostLate(false, t)];
    }
  }
}
