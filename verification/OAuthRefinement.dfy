/** Deleting expired rows is invisible: the store answers as one that never deletes a row
    because of its age and filters by time instead. */
module OAuthRefinement {
  import opened Collections
  import opened OAuthModel

  function LivePending(t: map<RequestId, PendingRow>, now: real): set<RequestId> {
    set r | r in t && t[r].expires > now
  }

  function LivePendingOf(t: map<RequestId, PendingRow>, client: ClientId, now: real): set<RequestId> {
    set r | r in t && t[r].expires > now && t[r].request.client == client
  }

  ghost function LiveCodeOf(t: map<Code, CodeRow>, id: RequestId, now: real): Option<Code> {
    if exists c :: c in t && t[c].requestId == id && t[c].expires > now then
      var c :| c in t && t[c].requestId == id && t[c].expires > now;
      Some(c)
    else None
  }

  predicate LiveToken(t: map<Token, TokenRow>, token: Token, now: real) {
    token in t && t[token].expires > now.Floor
  }

  /** The same calls on a store that keeps its history: no row is deleted for its age, and
      every lookup and count looks at live rows only. */
  ghost function KeepStep(k: Store, cfg: Settings, op: Op, now: real): (Store, Reply) {
    match op
    case SaveClient(client, metadata) =>
      if client !in k.clients && |k.clients| >= cfg.maxClients then (k, Stored(false))
      else (k.(clients := k.clients[client := metadata]), Stored(true))
    case LoadClient(client) =>
      (k, ClientIs(if client in k.clients then Some(k.clients[client]) else None))
    case SavePending(id, request, expires) =>
      if |LivePending(k.pending, now)| >= cfg.maxPending
          || |LivePendingOf(k.pending, request.client, now)| >= cfg.maxPendingPerClient then
        (k, Stored(false))
      else (k.(pending := k.pending[id := PendingRow(request, expires)]), Stored(true))
    case LoadPending(id) =>
      (k, PendingIs(if id in LivePending(k.pending, now) then Some(k.pending[id]) else None))
    case Approve(id, code) =>
      if id !in LivePending(k.pending, now) then (k, Missing)
      else
        var row := k.pending[id];
        (k.(pending := k.pending - {id}, codes := k.codes[code := CodeFor(row, id, cfg, now)]), Approved(row, code))
    case LoadCompleted(id) => (k, CompletedIs(LiveCodeOf(k.codes, id, now)))
    case Deny(id) =>
      if id !in LivePending(k.pending, now) then (k, Missing)
          else (k.(pending := k.pending - {id}), Denied(k.pending[id]))
    case LoadCode(code, client) =>
      (k, CodeIs(if code in k.codes && k.codes[code].request.client == client then Some(k.codes[code]) else None))
    case Exchange(code, client, newAccess, newRefresh, grant) =>
      if !CodeUsable(k, code, client, now) then (k, Missing)
      else
        var row := k.codes[code];
        var a, r := now.Floor + cfg.accessTtl, now.Floor + cfg.refreshTtl;
        (Exchanged(k, code, newAccess, FirstToken(row, client, grant, cfg, a), newRefresh,
            FirstToken(row, client, grant, cfg, r)),
         Issued(row.request.scopes, a, r))
    case LoadAccess(token) =>
      (k, TokenIs(if LiveToken(k.access, token, now) then Some(k.access[token]) else None))
    case LoadRefresh(token, client) =>
      (k, TokenIs(if RefreshUsable(k, token, client, now) then Some(k.refresh[token]) else None))
    case Rotate(token, client, scopes, newAccess, newRefresh) =>
      if !RefreshUsable(k, token, client, now) then (k, Missing)
      else if !Subscopes(scopes, k.refresh[token].scopes) then (k, ScopeError)
      else
        var row := k.refresh[token];
        var a, r := now.Floor + cfg.accessTtl, now.Floor + cfg.refreshTtl;
        (Rotated(k, token, newAccess, NextToken(row, client, scopes, a), newRefresh, NextToken(row, client, scopes, r)),
         Issued(scopes, a, r))
    case Revoke(token) =>
      if token !in k.access && token !in k.refresh then (k, Nothing)
      else
        var grant := GrantOf(k, token);
        (Revoked(k, grant), Nothing)
  }

  // ----------------------------------------------------------------- coupling

  ghost predicate PendingCovers(k: map<RequestId, PendingRow>, s: map<RequestId, PendingRow>, now: real) {
    && (forall r :: r in s ==> r in k && s[r] == k[r])
    && (forall r :: r in k && k[r].expires > now ==> r in s)
  }

  ghost predicate CodesCover(k: map<Code, CodeRow>, s: map<Code, CodeRow>, now: real) {
    && (forall c :: c in s ==> c in k && s[c] == k[c])
    && (forall c :: c in k && k[c].expires > now ==> c in s)
  }

  ghost predicate TokensCover(k: map<Token, TokenRow>, s: map<Token, TokenRow>, now: int) {
    && (forall t :: t in s ==> t in k && s[t] == k[t])
    && (forall t :: t in k && k[t].expires > now ==> t in s)
  }

  /** The store holds rows of the history only, and every row of it that is live. */
  ghost predicate Coupled(k: Store, s: Store, now: real) {
    && s.clients == k.clients
    && PendingCovers(k.pending, s.pending, now)
    && CodesCover(k.codes, s.codes, now)
    && TokensCover(k.access, s.access, now.Floor)
    && TokensCover(k.refresh, s.refresh, now.Floor)
  }

  /** A request leads to one code at most, and not while it is pending. */
  ghost predicate OneCode(k: Store) {
    && (forall c, d :: c in k.codes && d in k.codes && k.codes[c].requestId == k.codes[d].requestId ==> c == d)
    && (forall c :: c in k.codes ==> k.codes[c].requestId !in k.pending)
  }

  lemma FloorMonotone(a: real, b: real)
    requires a <= b
    ensures a.Floor <= b.Floor
  {
  }

  lemma CoupledLater(k: Store, s: Store, now: real, later: real)
    requires Coupled(k, s, now) && now <= later
    ensures Coupled(k, s, later)
  {
    FloorMonotone(now, later);
  }

  /** Pruning at any time that has come keeps the coupling. */
  lemma PruneCoupled(k: Store, s: Store, at: real, now: real)
    requires Coupled(k, s, now) && at <= now
    ensures Coupled(k, Prune(s, at), now)
  {
    FloorMonotone(at, now);
  }

  /** After pruning now, the tables hold exactly the live rows of the history. */
  lemma PrunedIsLive(k: Store, s: Store, now: real)
    requires Coupled(k, s, now)
    ensures var p := Prune(s, now);
            && p.pending.Keys == LivePending(k.pending, now)
            && (forall r :: r in p.pending ==> p.pending[r] == k.pending[r])
            && (forall c :: c in p.codes <==> c in k.codes && k.codes[c].expires > now)
            && (forall c :: c in p.codes ==> p.codes[c] == k.codes[c])
  {
  }

  lemma CountsAgree(k: Store, s: Store, client: ClientId, now: real)
    requires Coupled(k, s, now)
    ensures var p := Prune(s, now);
            && |p.pending| == |LivePending(k.pending, now)|
            && |PendingOfClient(p.pending, client)| == |LivePendingOf(k.pending, client, now)|
  {
    var p := Prune(s, now);
    PrunedIsLive(k, s, now);
    assert |p.pending| == |p.pending.Keys|;
    assert PendingOfClient(p.pending, client) == LivePendingOf(k.pending, client, now);
  }

  lemma CompletedAgrees(k: Store, s: Store, id: RequestId, now: real)
    requires Coupled(k, s, now) && OneCode(k)
    ensures CodeOf(Prune(s, now).codes, id) == LiveCodeOf(k.codes, id, now)
  {
    PrunedIsLive(k, s, now);
    var p := Prune(s, now);
    if exists c :: c in p.codes && p.codes[c].requestId == id {
      var c :| c in p.codes && p.codes[c].requestId == id;
      assert c in k.codes && k.codes[c].requestId == id && k.codes[c].expires > now;
    }
    if exists c :: c in k.codes && k.codes[c].requestId == id && k.codes[c].expires > now {
      var c :| c in k.codes && k.codes[c].requestId == id && k.codes[c].expires > now;
      assert c in p.codes && p.codes[c].requestId == id;
    }
  }

  /** Calls whose answer does not depend on when expired rows were deleted. Reading a code and
      revoking do not filter by time, so a row they find has to be live. */
  predicate Oblivious(k: Store, op: Op, now: real) {
    match op
    case LoadCode(code, client) =>
      code in k.codes && k.codes[code].request.client == client ==> k.codes[code].expires > now
    case Revoke(token) =>
      if token in k.access then k.access[token].expires > now.Floor
      else token in k.refresh ==> k.refresh[token].expires > now.Floor
    case _ => true
  }

  lemma TokensPut(k: map<Token, TokenRow>, s: map<Token, TokenRow>, now: int, t: Token, row: TokenRow)
    requires TokensCover(k, s, now)
    ensures TokensCover(k[t := row], s[t := row], now)
  {
  }

  lemma TokensDrop(k: map<Token, TokenRow>, s: map<Token, TokenRow>, now: int, t: Token)
    requires TokensCover(k, s, now)
    ensures TokensCover(k - {t}, s - {t}, now)
  {
  }

  lemma TokensRevoke(k: map<Token, TokenRow>, s: map<Token, TokenRow>, now: int, grant: GrantId)
    requires TokensCover(k, s, now)
    ensures TokensCover(WithoutGrant(k, grant), WithoutGrant(s, grant), now)
  {
  }

  lemma CodesPut(k: map<Code, CodeRow>, s: map<Code, CodeRow>, now: real, c: Code, row: CodeRow)
    requires CodesCover(k, s, now)
    ensures CodesCover(k[c := row], s[c := row], now)
  {
  }

  lemma PendingPut(
      k: map<RequestId, PendingRow>, s: map<RequestId, PendingRow>, now: real, r: RequestId, row: PendingRow)
    requires PendingCovers(k, s, now)
    ensures PendingCovers(k[r := row], s[r := row], now) && PendingCovers(k - {r}, s - {r}, now)
  {
  }

  /** The store answers this call as the history does, and stays coupled to it. */
  ghost predicate Agrees(k: Store, s: Store, cfg: Settings, op: Op, now: real) {
    && Step(s, cfg, op, now).1 == KeepStep(k, cfg, op, now).1
    && Coupled(KeepStep(k, cfg, op, now).0, Step(s, cfg, op, now).0, now)
  }

  lemma LookupsAgree(k: Store, s: Store, cfg: Settings, op: Op, now: real)
    requires Coupled(k, s, now) && Oblivious(k, op, now)
        && (op.LoadClient? || op.LoadCode? || op.LoadAccess? || op.LoadRefresh?)
    ensures Agrees(k, s, cfg, op, now)
  {
    hide PendingCovers;
  }

  lemma SaveClientAgrees(k: Store, s: Store, cfg: Settings, client: ClientId, metadata: string, now: real)
    requires Coupled(k, s, now)
    ensures Agrees(k, s, cfg, SaveClient(client, metadata), now)
  {
    PruneCoupled(k, s, now, now);
    PruneKeepsClients(s, now);
    hide Prune, PendingCovers, CodesCover, TokensCover;
  }

  lemma PruneKeepsClients(s: Store, now: real)
    ensures Prune(s, now).clients == s.clients
  {
  }

  lemma LoadPendingAgrees(k: Store, s: Store, cfg: Settings, id: RequestId, now: real)
    requires Coupled(k, s, now)
    ensures Agrees(k, s, cfg, LoadPending(id), now)
  {
    hide CodesCover, TokensCover;
  }

  lemma SavePendingAgrees(k: Store, s: Store, cfg: Settings, id: RequestId, request: Request, expires: real, now: real)
    requires Coupled(k, s, now)
    ensures Agrees(k, s, cfg, SavePending(id, request, expires), now)
  {
    hide Prune, LivePending, LivePendingOf, PendingOfClient;
    PruneCoupled(k, s, now, now);
    CountsAgree(k, s, request.client, now);
    PendingPut(k.pending, Prune(s, now).pending, now, id, PendingRow(request, expires));
  }

  lemma VerdictAgrees(k: Store, s: Store, cfg: Settings, op: Op, now: real)
    requires Coupled(k, s, now) && (op.Approve? || op.Deny?)
    ensures Agrees(k, s, cfg, op, now)
  {
    hide Prune, LivePending;
    PruneCoupled(k, s, now, now);
    PrunedIsLive(k, s, now);
    var p := Prune(s, now);
    if op.id in p.pending {
      var row := p.pending[op.id];
      PendingPut(k.pending, p.pending, now, op.id, row);
      if op.Approve? {
        CodesPut(k.codes, p.codes, now, op.code, CodeFor(row, op.id, cfg, now));
      }
    }
  }

  lemma CompletedCallAgrees(k: Store, s: Store, cfg: Settings, id: RequestId, now: real)
    requires Coupled(k, s, now) && OneCode(k)
    ensures Agrees(k, s, cfg, LoadCompleted(id), now)
  {
    hide Prune, CodeOf, LiveCodeOf, OneCode;
    PruneCoupled(k, s, now, now);
    CompletedAgrees(k, s, id, now);
  }

  /** One call: the same answer, and still coupled. */
  lemma StepAgrees(k: Store, s: Store, cfg: Settings, op: Op, now: real)
    requires Coupled(k, s, now) && OneCode(k) && Oblivious(k, op, now)
    ensures Agrees(k, s, cfg, op, now)
  {
    hide Coupled, OneCode, Agrees, Step, KeepStep, Oblivious;
    match op
    case SavePending(id, request, expires) => SavePendingAgrees(k, s, cfg, id, request, expires, now);
    case Approve(id, code) => VerdictAgrees(k, s, cfg, op, now);
    case LoadCompleted(id) => CompletedCallAgrees(k, s, cfg, id, now);
    case Deny(id) => VerdictAgrees(k, s, cfg, op, now);
    case Exchange(code, client, newAccess, newRefresh, grant) =>
      ExchangeAgrees(k, s, cfg, code, client, newAccess, newRefresh, grant, now);
    case Rotate(token, client, scopes, newAccess, newRefresh) =>
      RotateAgrees(k, s, cfg, token, client, scopes, newAccess, newRefresh, now);
    case Revoke(token) => RevokeAgrees(k, s, cfg, token, now);
    case SaveClient(client, metadata) => SaveClientAgrees(k, s, cfg, client, metadata, now);
    case LoadPending(id) => LoadPendingAgrees(k, s, cfg, id, now);
    case _ => LookupsAgree(k, s, cfg, op, now);
  }

  lemma CoveredCode(k: Store, s: Store, now: real, c: Code)
    requires Coupled(k, s, now)
    ensures c in s.codes ==> c in k.codes && s.codes[c] == k.codes[c]
    ensures c in k.codes && k.codes[c].expires > now ==> c in s.codes
  {
  }

  lemma CodesDrop(k: map<Code, CodeRow>, s: map<Code, CodeRow>, now: real, c: Code)
    requires CodesCover(k, s, now)
    ensures CodesCover(k - {c}, s - {c}, now)
  {
  }

  lemma ExchangedCoupled(
      k: Store, s: Store, now: real, code: Code, a: Token, accessRow: TokenRow, r: Token, refreshRow: TokenRow)
    requires Coupled(k, s, now)
    ensures Coupled(Exchanged(k, code, a, accessRow, r, refreshRow), Exchanged(s, code, a, accessRow, r, refreshRow),
        now)
  {
    CodesDrop(k.codes, s.codes, now, code);
    TokensPut(k.access, s.access, now.Floor, a, accessRow);
    TokensPut(k.refresh, s.refresh, now.Floor, r, refreshRow);
    hide PendingCovers, CodesCover, TokensCover;
  }

  lemma RotatedCoupled(
      k: Store, s: Store, now: real, spent: Token, a: Token, accessRow: TokenRow, r: Token, refreshRow: TokenRow)
    requires Coupled(k, s, now)
    ensures Coupled(Rotated(k, spent, a, accessRow, r, refreshRow), Rotated(s, spent, a, accessRow, r, refreshRow), now)
  {
    TokensPut(k.access, s.access, now.Floor, a, accessRow);
    TokensDrop(k.refresh, s.refresh, now.Floor, spent);
    TokensPut(k.refresh - {spent}, s.refresh - {spent}, now.Floor, r, refreshRow);
    hide PendingCovers, CodesCover, TokensCover;
  }

  lemma RevokedCoupled(k: Store, s: Store, now: real, grant: GrantId)
    requires Coupled(k, s, now)
    ensures Coupled(Revoked(k, grant), Revoked(s, grant), now)
  {
    TokensRevoke(k.access, s.access, now.Floor, grant);
    TokensRevoke(k.refresh, s.refresh, now.Floor, grant);
    hide PendingCovers, CodesCover, TokensCover, WithoutGrant;
  }

  lemma CoveredToken(k: Store, s: Store, now: real, t: Token, client: ClientId)
    requires Coupled(k, s, now)
    ensures t in s.access ==> t in k.access && s.access[t] == k.access[t]
    ensures t in k.access && k.access[t].expires > now.Floor ==> t in s.access
    ensures t in s.refresh ==> t in k.refresh && s.refresh[t] == k.refresh[t]
    ensures t in k.refresh && k.refresh[t].expires > now.Floor ==> t in s.refresh
    ensures RefreshUsable(s, t, client, now) <==> RefreshUsable(k, t, client, now)
  {
  }

  lemma ExchangeAgrees(
      k: Store, s: Store, cfg: Settings, code: Code, client: ClientId, newAccess: Token, newRefresh: Token,
      grant: GrantId, now: real)
    requires Coupled(k, s, now)
    ensures Agrees(k, s, cfg, Exchange(code, client, newAccess, newRefresh, grant), now)
  {
    hide Prune, Coupled, Exchanged, FirstToken;
    CoveredCode(k, s, now, code);
    PruneCoupled(k, s, now, now);
    if CodeUsable(k, code, client, now) {
      var row := k.codes[code];
      ExchangedCoupled(k, Prune(s, now), now, code,
        newAccess, FirstToken(row, client, grant, cfg, now.Floor + cfg.accessTtl),
        newRefresh, FirstToken(row, client, grant, cfg, now.Floor + cfg.refreshTtl));
    }
  }

  /** Rotation prunes at the whole second: some rows that just expired stay. */
  lemma RotateAgrees(
      k: Store, s: Store, cfg: Settings, token: Token, client: ClientId, scopes: seq<Scope>, newAccess: Token,
      newRefresh: Token, now: real)
    requires Coupled(k, s, now)
    ensures Agrees(k, s, cfg, Rotate(token, client, scopes, newAccess, newRefresh), now)
  {
    hide Prune, Coupled, Rotated, NextToken, Subscopes;
    CoveredToken(k, s, now, token, client);
    if RefreshUsable(k, token, client, now) {
      var at := now.Floor as real;
      PruneCoupled(k, s, at, now);
      var row := k.refresh[token];
      RotatedCoupled(k, Prune(s, at), now, token,
        newAccess, NextToken(row, client, scopes, now.Floor + cfg.accessTtl),
        newRefresh, NextToken(row, client, scopes, now.Floor + cfg.refreshTtl));
    }
  }

  lemma RevokeAgrees(k: Store, s: Store, cfg: Settings, token: Token, now: real)
    requires Coupled(k, s, now) && Oblivious(k, Revoke(token), now)
    ensures Agrees(k, s, cfg, Revoke(token), now)
  {
    hide Prune, Coupled, Revoked;
    CoveredToken(k, s, now, token, 0);
    if token in k.access || token in k.refresh {
      PruneCoupled(k, s, now, now);
      RevokedCoupled(k, Prune(s, now), now, GrantOf(k, token));
    }
  }

  lemma OneCodeStep(k: Store, cfg: Settings, op: Op, now: real)
    requires OneCode(k)
    requires op.SavePending? ==> forall c :: c in k.codes ==> k.codes[c].requestId != op.id
    requires op.Approve? ==> op.code !in k.codes
    ensures OneCode(KeepStep(k, cfg, op, now).0)
  {
    hide LivePending, LivePendingOf, LiveCodeOf, Subscopes, WithoutGrant;
    match op
    case Approve(id, code) => LiveIsPending(k.pending, id, now);
    case _ =>
  }

  lemma LiveIsPending(t: map<RequestId, PendingRow>, id: RequestId, now: real)
    ensures id in LivePending(t, now) ==> id in t
  {
  }

  // -------------------------------------------------------------------- runs

  /** A run of the pruning store beside the keeping store: calls at non-decreasing times,
      with further deletions of expired rows anywhere in between. */
  datatype Event = Call(op: Op) | Sweep

  ghost predicate IsRun(keep: seq<Store>, prune: seq<Store>, cfg: Settings, events: seq<Event>, times: seq<real>) {
    && |keep| == |prune| == |events| + 1 && |times| == |events|
    && keep[0] == prune[0] && OneCode(keep[0])
    && (forall i, j :: 0 <= i < j < |times| ==> times[i] <= times[j])
    && (forall i :: 0 <= i < |events| ==>
         RunStep(keep[i], prune[i], cfg, events[i], times[i], keep[i + 1], prune[i + 1]))
  }

  ghost predicate RunStep(k: Store, s: Store, cfg: Settings, e: Event, now: real, k1: Store, s1: Store) {
    match e
    case Sweep => k1 == k && s1 == Prune(s, now)
    case Call(op) =>
      && Oblivious(k, op, now)
      && (op.SavePending? ==> forall c :: c in k.codes ==> k.codes[c].requestId != op.id)
      && (op.Approve? ==> op.code !in k.codes)
      && k1 == KeepStep(k, cfg, op, now).0 && s1 == Step(s, cfg, op, now).0
  }

  lemma {:induction false} RunCoupled(
      keep: seq<Store>, prune: seq<Store>, cfg: Settings, events: seq<Event>, times: seq<real>, i: nat)
    requires IsRun(keep, prune, cfg, events, times) && i < |keep|
    ensures OneCode(keep[i])
    ensures i < |times| ==> Coupled(keep[i], prune[i], times[i])
    ensures i > 0 ==> Coupled(keep[i], prune[i], times[i - 1])
  {
    hide Coupled, OneCode, Step, KeepStep, Oblivious, Prune;
    if i == 0 {
      if |times| > 0 { SelfCoupled(keep[0], times[0]); }
    } else {
      RunCoupled(keep, prune, cfg, events, times, i - 1);
      var k, s, now := keep[i - 1], prune[i - 1], times[i - 1];
      assert RunStep(k, s, cfg, events[i - 1], now, keep[i], prune[i]);
      match events[i - 1] {
        case Sweep => PruneCoupled(k, s, now, now);
        case Call(op) =>
          StepAgrees(k, s, cfg, op, now);
          OneCodeStep(k, cfg, op, now);
      }
      if i < |times| {
        CoupledLater(keep[i], prune[i], now, times[i]);
      }
    }
  }

  lemma SelfCoupled(k: Store, now: real)
    ensures Coupled(k, k, now)
  {
  }

  /** In every run, every call gets the answer the history gives. */
  lemma PruningIsInvisible(
      keep: seq<Store>, prune: seq<Store>, cfg: Settings, events: seq<Event>, times: seq<real>, i: nat)
    requires IsRun(keep, prune, cfg, events, times) && i < |events| && events[i].Call?
    ensures Step(prune[i], cfg, events[i].op, times[i]).1 == KeepStep(keep[i], cfg, events[i].op, times[i]).1
  {
    hide Coupled, OneCode, Step, KeepStep, Oblivious;
    RunCoupled(keep, prune, cfg, events, times, i);
    assert RunStep(keep[i], prune[i], cfg, events[i], times[i], keep[i + 1], prune[i + 1]);
    StepAgrees(keep[i], prune[i], cfg, events[i].op, times[i]);
  }

  /** The exception: revoking an expired access token ends its grant only if the row has
      not been deleted yet. The refresh token here outlives the access token. */
  lemma RevokeSeesPruning(s: Store, cfg: Settings, token: Token, refresh: Token, now: real)
    requires token in s.access && s.access[token].expires <= now.Floor && token !in s.refresh
    requires refresh in s.refresh && s.refresh[refresh].grant == s.access[token].grant
        && s.refresh[refresh].expires > now.Floor
    ensures refresh !in Step(s, cfg, Revoke(token), now).0.refresh
    ensures refresh in Step(Prune(s, now), cfg, Revoke(token), now).0.refresh
  {
  }

  /** A live token of this grant. */
  ghost predicate LiveMember(k: Store, grant: GrantId, now: real) {
    || (exists t :: t in k.access && k.access[t].grant == grant && k.access[t].expires > now.Floor)
    || (exists t :: t in k.refresh && k.refresh[t].grant == grant && k.refresh[t].expires > now.Floor)
  }

  /** Revoking right after a deletion of expired rows ends up where revoking on the history does
      exactly when the token is unknown, or its row is live, or its grant has no live token. */
  lemma RevokeObliviousExactly(k: Store, cfg: Settings, token: Token, now: real)
    requires !(token in k.access && token in k.refresh)
    ensures Coupled(KeepStep(k, cfg, Revoke(token), now).0, Step(Prune(k, now), cfg, Revoke(token), now).0, now) <==>
            (token in k.access || token in k.refresh ==>
                Oblivious(k, Revoke(token), now) || !LiveMember(k, GrantOf(k, token), now))
  {
    SelfCoupled(k, now);
    PruneCoupled(k, k, now, now);
    if token in k.access || token in k.refresh {
      if Oblivious(k, Revoke(token), now) {
        hide Coupled, Step, KeepStep, Prune, Oblivious, LiveMember;
        RevokeAgrees(k, Prune(k, now), cfg, token, now);
      } else {
        RevokeMissesRow(k, cfg, token, now);
      }
    } else {
      hide Coupled;
    }
  }

  /** The row has expired: the store finds nothing to revoke, the history revokes the grant. */
  lemma RevokeMissesRow(k: Store, cfg: Settings, token: Token, now: real)
    requires !(token in k.access && token in k.refresh) && (token in k.access || token in k.refresh)
        && !Oblivious(k, Revoke(token), now)
    ensures Coupled(KeepStep(k, cfg, Revoke(token), now).0, Step(Prune(k, now), cfg, Revoke(token), now).0, now) <==>
        !LiveMember(k, GrantOf(k, token), now)
  {
    var g, p := GrantOf(k, token), Prune(k, now);
    assert Step(p, cfg, Revoke(token), now).0 == p;
    assert KeepStep(k, cfg, Revoke(token), now).0 == Revoked(k, g);
    hide Step, KeepStep, Oblivious, Prune, Revoked, LiveMember, Coupled;
    if LiveMember(k, g, now) {
      RevokedMisses(k, g, now);
    } else {
      RevokedCovers(k, g, now);
    }
  }

  lemma RevokedMisses(k: Store, g: GrantId, now: real)
    requires LiveMember(k, g, now)
    ensures !Coupled(Revoked(k, g), Prune(k, now), now)
  {
    var p := Prune(k, now);
    if t :| t in k.access && k.access[t].grant == g && k.access[t].expires > now.Floor {
      assert t in p.access && t !in Revoked(k, g).access;
    } else {
      var u :| u in k.refresh && k.refresh[u].grant == g && k.refresh[u].expires > now.Floor;
      assert u in p.refresh && u !in Revoked(k, g).refresh;
    }
  }

  lemma RevokedCovers(k: Store, g: GrantId, now: real)
    requires !LiveMember(k, g, now)
    ensures Coupled(Revoked(k, g), Prune(k, now), now)
  {
    var p := Prune(k, now);
    assert TokensCover(WithoutGrant(k.access, g), p.access, now.Floor);
    assert TokensCover(WithoutGrant(k.refresh, g), p.refresh, now.Floor);
  }

  /** Reading a code does not look at its expiry: it sees the deletion exactly when an expired
      row of that client is there to be deleted. */
  lemma LoadCodeSeesPruningExactly(k: Store, cfg: Settings, code: Code, client: ClientId, now: real)
    ensures Step(k, cfg, LoadCode(code, client), now).1 != Step(Prune(k, now), cfg, LoadCode(code, client), now).1 <==>
            !Oblivious(k, LoadCode(code, client), now)
    ensures Oblivious(k, LoadCode(code, client), now) <==>
            !(code in k.codes && k.codes[code].request.client == client && k.codes[code].expires <= now)
  {
  }
}
