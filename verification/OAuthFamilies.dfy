/** What every run of the grant store keeps: one verdict per request, one exchange per code,
    one grant per request, grant families with a single live refresh token and shrinking
    scopes, revocation that is final, and the table caps. */
module OAuthFamilies {
  import opened Collections
  import opened OAuthModel

  /** What has happened to authorization requests and codes. */
  datatype Requests = Requests(
    authorized: map<RequestId, PendingRow>,
    approvals: map<RequestId, Code>,
    denials: set<RequestId>,
    issued: map<Code, CodeRow>,
    exchanged: map<Code, GrantId>)

  /** What has happened to grants: the code each came from, every token row ever issued, which
      of those are access and which refresh tokens, the refresh tokens spent by rotation, the
      one each successor replaced, and the grants revoked. */
  datatype Grants = Grants(
    source: map<GrantId, Code>,
    tokens: map<Token, TokenRow>,
    accessIds: set<Token>,
    refreshIds: set<Token>,
    spent: set<Token>,
    parent: map<Token, Token>,
    revoked: set<GrantId>)

  function IssuePair(g: Grants, a: Token, accessRow: TokenRow, r: Token, refreshRow: TokenRow): Grants {
    g.(tokens := g.tokens[a := accessRow][r := refreshRow], accessIds := g.accessIds + {a},
        refreshIds := g.refreshIds + {r})
  }

  function OpenGrant(
      g: Grants, grant: GrantId, code: Code, a: Token, accessRow: TokenRow, r: Token, refreshRow: TokenRow): Grants {
    IssuePair(g, a, accessRow, r, refreshRow).(source := g.source[grant := code])
  }

  function SpendRefresh(
      g: Grants, spent: Token, a: Token, accessRow: TokenRow, r: Token, refreshRow: TokenRow): Grants {
    IssuePair(g, a, accessRow, r, refreshRow).(parent := g.parent[r := spent], spent := g.spent + {spent})
  }

  datatype World = World(store: Store, reqs: Requests, grants: Grants, clock: real)

  // ----------------------------------------------------------------- history

  function TrackRequests(q: Requests, op: Op, reply: Reply, cfg: Settings, now: real): Requests {
    match op
    case SavePending(id, request, expires) =>
      if reply == Stored(true) then q.(authorized := q.authorized[id := PendingRow(request, expires)]) else q
    case Approve(id, _) =>
      (match reply
       case Approved(row, code) =>
         q.(approvals := q.approvals[id := code], issued := q.issued[code := CodeFor(row, id, cfg, now)])
       case _ => q)
    case Deny(id) => if reply.Denied? then q.(denials := q.denials + {id}) else q
    case Exchange(code, _, _, _, grant) =>
      if reply.Issued? then q.(exchanged := q.exchanged[code := grant]) else q
    case _ => q
  }

  /** Rows are recorded as the store now holds them. */
  function TrackGrants(g: Grants, op: Op, reply: Reply, before: Store, after: Store): Grants {
    match op
    case Exchange(code, _, a, r, grant) =>
      if reply.Issued? && a in after.access && r in after.refresh then
        OpenGrant(g, grant, code, a, after.access[a], r, after.refresh[r])
      else g
    case Rotate(token, _, _, a, r) =>
      if reply.Issued? && a in after.access && r in after.refresh then
        SpendRefresh(g, token, a, after.access[a], r, after.refresh[r])
      else g
    case Revoke(token) =>
      if token in before.access || token in before.refresh then g.(revoked := g.revoked + {GrantOf(before, token)})
          else g
    case _ => g
  }

  ghost function Next(w: World, cfg: Settings, op: Op, now: real): World {
    var (after, reply) := Step(w.store, cfg, op, now);
    World(after, TrackRequests(w.reqs, op, reply, cfg, now), TrackGrants(w.grants, op, reply, w.store, after), now)
  }

  ghost function Answer(w: World, cfg: Settings, op: Op, now: real): Reply {
    Step(w.store, cfg, op, now).1
  }

  /** Random identifiers are new, and time does not go back. */
  predicate Enabled(w: World, op: Op, now: real) {
    && w.clock <= now
    && match op
       case SavePending(id, _, _) => id !in w.reqs.authorized
       case Approve(_, code) => code !in w.reqs.issued
       case Exchange(_, _, a, r, grant) =>
         a !in w.grants.tokens && r !in w.grants.tokens && a != r && grant !in w.grants.source
       case Rotate(_, _, _, a, r) => a !in w.grants.tokens && r !in w.grants.tokens && a != r
       case _ => true
  }

  function Start(now: real): World {
    World(Store(map[], map[], map[], map[], map[]), Requests(map[], map[], {}, map[], map[]),
        Grants(map[], map[], {}, {}, {}, map[], {}), now)
  }

  // --------------------------------------------------------------- invariant

  /** The pending table holds exactly the undecided requests, up to expiry. */
  ghost predicate PendingOk(q: Requests, pending: map<RequestId, PendingRow>, clock: real) {
    && (forall r :: r in pending ==>
         r in q.authorized && pending[r] == q.authorized[r] && r !in q.approvals && r !in q.denials)
    && (forall r :: r in q.authorized && r !in q.approvals && r !in q.denials && q.authorized[r].expires > clock ==>
         r in pending)
  }

  /** The code table holds exactly the unexchanged codes, up to expiry. */
  ghost predicate CodesOk(q: Requests, codes: map<Code, CodeRow>, clock: real) {
    && (forall c :: c in codes ==> c in q.issued && codes[c] == q.issued[c] && c !in q.exchanged)
    && (forall c :: c in q.issued && c !in q.exchanged && q.issued[c].expires > clock ==> c in codes)
  }

  /** Verdicts are exclusive, and codes and approvals correspond one to one. */
  ghost predicate VerdictsOk(q: Requests) {
    && (forall r :: r in q.approvals ==>
         r !in q.denials && q.approvals[r] in q.issued && q.issued[q.approvals[r]].requestId == r)
    && (forall c :: c in q.issued ==> q.issued[c].requestId in q.approvals && q.approvals[q.issued[c].requestId] == c)
    && (forall c :: c in q.issued ==>
         q.issued[c].requestId in q.authorized && q.issued[c].request == q.authorized[q.issued[c].requestId].request)
    && (forall r :: r in q.denials ==> r in q.authorized)
  }

  /** Exchanged codes and grants correspond one to one. */
  ghost predicate SourcesOk(q: Requests, g: Grants) {
    && (forall c :: c in q.exchanged ==> c in q.issued && q.exchanged[c] in g.source && g.source[q.exchanged[c]] == c)
    && (forall d :: d in g.source ==> g.source[d] in q.exchanged && q.exchanged[g.source[d]] == d)
    && g.revoked <= g.source.Keys
  }

  /** A row of a grant agrees with the authorization the grant came from. */
  ghost predicate RowOk(q: Requests, g: Grants, row: TokenRow, issuer: string) {
    && row.grant in g.source && g.source[row.grant] in q.issued
    && var code := q.issued[g.source[row.grant]];
       && row.client == code.request.client && row.resource == code.request.resource
       && row.subject == code.subject && row.issuer == issuer
       && Subscopes(row.scopes, code.request.scopes)
  }

  ghost predicate TokensOk(q: Requests, g: Grants, issuer: string) {
    forall t :: t in g.tokens ==> RowOk(q, g, g.tokens[t], issuer)
  }

  /** A token table holds recorded rows of unrevoked grants. */
  ghost predicate TableOk(g: Grants, table: map<Token, TokenRow>) {
    forall t :: t in table ==> t in g.tokens && table[t] == g.tokens[t] && table[t].grant !in g.revoked
  }

  /** A token table holds exactly the tokens issued for it that are neither spent nor revoked,
      up to expiry. */
  ghost predicate Complete(g: Grants, ids: set<Token>, spent: set<Token>, table: map<Token, TokenRow>, clock: int) {
    && (forall t :: t in table ==> t in ids && t !in spent)
    && (forall t :: t in ids ==> t in g.tokens)
    && (forall t :: t in ids && t !in spent && g.tokens[t].grant !in g.revoked && g.tokens[t].expires > clock ==>
         t in table)
  }

  ghost predicate TablesComplete(g: Grants, s: Store, clock: int) {
    && Complete(g, g.accessIds, {}, s.access, clock)
    && Complete(g, g.refreshIds, g.spent, s.refresh, clock)
    && g.spent <= g.refreshIds
  }

  ghost predicate OneRefresh(refresh: map<Token, TokenRow>) {
    forall t, u :: t in refresh && u in refresh && refresh[t].grant == refresh[u].grant ==> t == u
  }

  /** Rotation stays within the grant and never adds a scope. */
  ghost predicate ParentsOk(g: Grants) {
    forall t :: t in g.parent ==>
      && t in g.tokens && g.parent[t] in g.tokens
      && g.tokens[t].grant == g.tokens[g.parent[t]].grant
      && Subscopes(g.tokens[t].scopes, g.tokens[g.parent[t]].scopes)
  }

  ghost predicate Caps(clients: map<ClientId, string>, pending: map<RequestId, PendingRow>, cfg: Settings) {
    && |clients| <= cfg.maxClients
    && |pending| <= cfg.maxPending
    && forall c :: |PendingOfClient(pending, c)| <= cfg.maxPendingPerClient
  }

  ghost predicate Inv(w: World, cfg: Settings) {
    && PendingOk(w.reqs, w.store.pending, w.clock)
    && CodesOk(w.reqs, w.store.codes, w.clock)
    && VerdictsOk(w.reqs)
    && SourcesOk(w.reqs, w.grants)
    && TokensOk(w.reqs, w.grants, cfg.issuer)
    && TableOk(w.grants, w.store.access)
    && TableOk(w.grants, w.store.refresh)
    && TablesComplete(w.grants, w.store, w.clock.Floor)
    && OneRefresh(w.store.refresh)
    && ParentsOk(w.grants)
    && Caps(w.store.clients, w.store.pending, cfg)
  }

  // ----------------------------------------------------------------- pruning

  lemma SubsetCaps(
      clients: map<ClientId, string>, big: map<RequestId, PendingRow>, small: map<RequestId, PendingRow>,
      cfg: Settings)
    requires Caps(clients, big, cfg)
    requires forall r :: r in small ==> r in big && small[r] == big[r]
    ensures Caps(clients, small, cfg)
  {
    SubsetSize(small.Keys, big.Keys);
    assert |small| == |small.Keys| && |big| == |big.Keys|;
    forall c ensures |PendingOfClient(small, c)| <= cfg.maxPendingPerClient {
      assert PendingOfClient(small, c) <= PendingOfClient(big, c);
      SubsetSize(PendingOfClient(small, c), PendingOfClient(big, c));
    }
  }

  lemma PrunePendingOk(q: Requests, pending: map<RequestId, PendingRow>, clock: real, at: real, now: real)
    requires PendingOk(q, pending, clock) && clock <= now && at <= now
    ensures PendingOk(q, KeepPending(pending, at), now) && PendingOk(q, pending, now)
  {
  }

  lemma PruneCodesOk(q: Requests, codes: map<Code, CodeRow>, clock: real, at: real, now: real)
    requires CodesOk(q, codes, clock) && clock <= now && at <= now
    ensures CodesOk(q, KeepCodes(codes, at), now) && CodesOk(q, codes, now)
  {
  }

  lemma PruneTableOk(g: Grants, table: map<Token, TokenRow>, at: int)
    requires TableOk(g, table)
    ensures TableOk(g, KeepTokens(table, at))
    ensures OneRefresh(table) ==> OneRefresh(KeepTokens(table, at))
  {
  }

  lemma PruneComplete(
      g: Grants, ids: set<Token>, spent: set<Token>, table: map<Token, TokenRow>, clock: int, at: int, now: int)
    requires Complete(g, ids, spent, table, clock) && TableOk(g, table) && clock <= now && at <= now
    ensures Complete(g, ids, spent, KeepTokens(table, at), now) && Complete(g, ids, spent, table, now)
  {
  }

  lemma PruneTables(g: Grants, s: Store, clock: real, at: real, now: real)
    requires TablesComplete(g, s, clock.Floor) && TableOk(g, s.access) && TableOk(g, s.refresh) && clock <= now
        && at <= now
    ensures TablesComplete(g, Prune(s, at), now.Floor) && TablesComplete(g, s, now.Floor)
  {
    PruneComplete(g, g.accessIds, {}, s.access, clock.Floor, at.Floor, now.Floor);
    PruneComplete(g, g.refreshIds, g.spent, s.refresh, clock.Floor, at.Floor, now.Floor);
  }

  lemma SameTables(g: Grants, s: Store, s1: Store, clock: int)
    requires TablesComplete(g, s, clock) && s1.access == s.access && s1.refresh == s.refresh
    ensures TablesComplete(g, s1, clock)
  {
  }

  /** Time passing and pruning at a time that has come keep the invariant. */
  lemma PruneInv(w: World, cfg: Settings, at: real, now: real)
    requires Inv(w, cfg) && w.clock <= now && at <= now
    ensures Inv(w.(store := Prune(w.store, at), clock := now), cfg)
    ensures Inv(w.(clock := now), cfg)
  {
    hide PendingOk, CodesOk, VerdictsOk, SourcesOk, TokensOk, TableOk, TablesComplete, OneRefresh, ParentsOk, Caps,
      KeepCodes, KeepTokens;
    var s := w.store;
    PrunePendingOk(w.reqs, s.pending, w.clock, at, now);
    PruneCodesOk(w.reqs, s.codes, w.clock, at, now);
    PruneTableOk(w.grants, s.access, at.Floor);
    PruneTableOk(w.grants, s.refresh, at.Floor);
    PruneTables(w.grants, s, w.clock, at, now);
    SubsetCaps(s.clients, s.pending, KeepPending(s.pending, at), cfg);
  }

  // ---------------------------------------------------------------- requests

  lemma SaveInv(w: World, cfg: Settings, id: RequestId, row: PendingRow)
    requires Inv(w, cfg) && id !in w.reqs.authorized
    requires |w.store.pending| < cfg.maxPending
        && |PendingOfClient(w.store.pending, row.request.client)| < cfg.maxPendingPerClient
    ensures Inv(w.(store := w.store.(pending := w.store.pending[id := row]),
                   reqs := w.reqs.(authorized := w.reqs.authorized[id := row])), cfg)
  {
    hide TokensOk, TableOk, TablesComplete, OneRefresh, ParentsOk, RowOk, Caps, CodesOk, VerdictsOk, SourcesOk,
      PendingOk;
    var q := w.reqs.(authorized := w.reqs.authorized[id := row]);
    SavePendingOk(w.reqs, w.store.pending, w.clock, id, row);
    SaveOthersOk(w, q, id, row);
    SaveCaps(w.store.clients, w.store.pending, cfg, id, row);
    SameTables(w.grants, w.store, w.store.(pending := w.store.pending[id := row]), w.clock.Floor);
    SameIssued(w.reqs, q, w.grants, cfg.issuer);
    NotPending(w.reqs, w.store.pending, w.clock, id);
  }

  lemma NotPending(q: Requests, pending: map<RequestId, PendingRow>, clock: real, id: RequestId)
    requires PendingOk(q, pending, clock) && id !in q.authorized
    ensures id !in pending
  {
  }

  lemma SavePendingOk(q: Requests, pending: map<RequestId, PendingRow>, clock: real, id: RequestId, row: PendingRow)
    requires PendingOk(q, pending, clock) && VerdictsOk(q) && id !in q.authorized
    ensures PendingOk(q.(authorized := q.authorized[id := row]), pending[id := row], clock)
  {
  }

  lemma SaveOthersOk(w: World, q: Requests, id: RequestId, row: PendingRow)
    requires CodesOk(w.reqs, w.store.codes, w.clock) && VerdictsOk(w.reqs) && id !in w.reqs.authorized
    requires q == w.reqs.(authorized := w.reqs.authorized[id := row])
    ensures CodesOk(q, w.store.codes, w.clock) && VerdictsOk(q)
  {
  }

  lemma SaveCaps(
      clients: map<ClientId, string>, pending: map<RequestId, PendingRow>, cfg: Settings, id: RequestId,
      row: PendingRow)
    requires Caps(clients, pending, cfg)
    requires |pending| < cfg.maxPending && |PendingOfClient(pending, row.request.client)| < cfg.maxPendingPerClient
    ensures id !in pending ==> Caps(clients, pending[id := row], cfg)
  {
    if id !in pending {
      hide PendingOfClient;
      var more := pending[id := row];
      forall c ensures |PendingOfClient(more, c)| <= cfg.maxPendingPerClient {
        SavePendingOf(pending, id, row, c);
      }
    }
  }

  lemma SavePendingOf(pending: map<RequestId, PendingRow>, id: RequestId, row: PendingRow, c: ClientId)
    requires id !in pending
    ensures PendingOfClient(pending[id := row], c)
        == PendingOfClient(pending, c) + (if c == row.request.client then {id} else {})
  {
  }

  /** Grants only look at issued and exchanged codes. */
  lemma SameIssued(q: Requests, q1: Requests, g: Grants, issuer: string)
    requires SourcesOk(q, g) && TokensOk(q, g, issuer)
    requires q1.exchanged == q.exchanged
    requires forall c :: c in q.issued ==> c in q1.issued && q1.issued[c] == q.issued[c]
    ensures SourcesOk(q1, g) && TokensOk(q1, g, issuer)
  {
    forall t | t in g.tokens ensures RowOk(q1, g, g.tokens[t], issuer) {
      assert RowOk(q, g, g.tokens[t], issuer);
    }
  }

  lemma ApproveInv(w: World, cfg: Settings, id: RequestId, code: Code, row: CodeRow)
    requires Inv(w, cfg) && code !in w.reqs.issued
    requires id in w.store.pending && row.requestId == id && row.request == w.store.pending[id].request
    ensures Inv(w.(store := w.store.(pending := w.store.pending - {id}, codes := w.store.codes[code := row]),
                   reqs := w.reqs.(approvals := w.reqs.approvals[id := code], issued := w.reqs.issued[code := row])),
                cfg)
  {
    hide TokensOk, TableOk, TablesComplete, OneRefresh, ParentsOk, RowOk, Caps, CodesOk, VerdictsOk, SourcesOk,
      PendingOk;
    var q := w.reqs.(approvals := w.reqs.approvals[id := code], issued := w.reqs.issued[code := row]);
    ApprovePendingOk(w.reqs, q, w.store.pending, w.clock, id, code);
    ApproveVerdictsOk(w.reqs, id, code, row);
    ExchangedIssued(w.reqs, w.grants, code);
    SameTables(w.grants, w.store, w.store.(pending := w.store.pending - {id}, codes := w.store.codes[code := row]),
        w.clock.Floor);
    ApproveCodesOk(w.reqs, q, w.store.codes, w.clock, code, row);
    SameIssued(w.reqs, q, w.grants, cfg.issuer);
    SubsetCaps(w.store.clients, w.store.pending, w.store.pending - {id}, cfg);
  }

  lemma ExchangedIssued(q: Requests, g: Grants, code: Code)
    requires SourcesOk(q, g) && code !in q.issued
    ensures code !in q.exchanged
  {
  }

  lemma ApprovePendingOk(
      q: Requests, q1: Requests, pending: map<RequestId, PendingRow>, clock: real, id: RequestId, code: Code)
    requires PendingOk(q, pending, clock) && id in pending
    requires q1.authorized == q.authorized && q1.denials == q.denials && q1.approvals == q.approvals[id := code]
    ensures PendingOk(q1, pending - {id}, clock)
    ensures id in q.authorized && q.authorized[id] == pending[id] && id !in q.approvals && id !in q.denials
  {
  }

  lemma ApproveVerdictsOk(q: Requests, id: RequestId, code: Code, row: CodeRow)
    requires VerdictsOk(q) && code !in q.issued && row.requestId == id
    requires id in q.authorized && q.authorized[id].request == row.request && id !in q.approvals && id !in q.denials
    ensures VerdictsOk(q.(approvals := q.approvals[id := code], issued := q.issued[code := row]))
  {
  }

  lemma ApproveCodesOk(q: Requests, q1: Requests, codes: map<Code, CodeRow>, clock: real, code: Code, row: CodeRow)
    requires CodesOk(q, codes, clock) && code !in q.issued && code !in q.exchanged
    requires q1.exchanged == q.exchanged && q1.issued == q.issued[code := row]
    ensures CodesOk(q1, codes[code := row], clock)
  {
  }

  lemma DenyInv(w: World, cfg: Settings, id: RequestId)
    requires Inv(w, cfg) && id in w.store.pending
    ensures Inv(w.(store := w.store.(pending := w.store.pending - {id}),
        reqs := w.reqs.(denials := w.reqs.denials + {id})), cfg)
  {
    hide TokensOk, TableOk, TablesComplete, OneRefresh, ParentsOk, RowOk, Caps, SourcesOk, PendingOk, CodesOk,
      VerdictsOk;
    var q := w.reqs.(denials := w.reqs.denials + {id});
    DenyRequestsOk(w.reqs, q, w.store, w.clock, id);
    SameTables(w.grants, w.store, w.store.(pending := w.store.pending - {id}), w.clock.Floor);
    SameIssued(w.reqs, q, w.grants, cfg.issuer);
    SubsetCaps(w.store.clients, w.store.pending, w.store.pending - {id}, cfg);
  }

  lemma DenyRequestsOk(q: Requests, q1: Requests, s: Store, clock: real, id: RequestId)
    requires PendingOk(q, s.pending, clock) && VerdictsOk(q) && CodesOk(q, s.codes, clock) && id in s.pending
    requires q1 == q.(denials := q.denials + {id})
    ensures PendingOk(q1, s.pending - {id}, clock) && VerdictsOk(q1) && CodesOk(q1, s.codes, clock)
  {
  }

  lemma ClientInv(w: World, cfg: Settings, client: ClientId, metadata: string)
    requires Inv(w, cfg) && (client in w.store.clients || |w.store.clients| < cfg.maxClients)
    ensures Inv(w.(store := w.store.(clients := w.store.clients[client := metadata])), cfg)
  {
    hide PendingOk, CodesOk, VerdictsOk, SourcesOk, TokensOk, TableOk, TablesComplete, OneRefresh, ParentsOk;
    SameTables(w.grants, w.store, w.store.(clients := w.store.clients[client := metadata]), w.clock.Floor);
    if client in w.store.clients {
      assert w.store.clients[client := metadata].Keys == w.store.clients.Keys;
      assert |w.store.clients[client := metadata]| == |w.store.clients[client := metadata].Keys|;
      assert |w.store.clients| == |w.store.clients.Keys|;
    }
  }

  // ------------------------------------------------------------------ grants

  /** A new token of a live grant keeps the tables. */
  lemma TablePut(g: Grants, g1: Grants, table: map<Token, TokenRow>, t: Token, row: TokenRow)
    requires TableOk(g, table)
    requires forall x :: x in g.tokens ==> x in g1.tokens && g1.tokens[x] == g.tokens[x]
    requires t in g1.tokens && g1.tokens[t] == row && row.grant !in g.revoked && g1.revoked == g.revoked
    ensures TableOk(g1, table[t := row])
  {
  }

  lemma ExchangeInv(w: World, cfg: Settings, code: Code, a: Token, accessRow: TokenRow, r: Token, refreshRow: TokenRow)
    requires Inv(w, cfg) && code in w.store.codes
    requires a !in w.grants.tokens && r !in w.grants.tokens && a != r && accessRow.grant !in w.grants.source
    requires accessRow == FirstToken(w.store.codes[code], w.store.codes[code].request.client, accessRow.grant, cfg,
        accessRow.expires)
    requires refreshRow == FirstToken(w.store.codes[code], w.store.codes[code].request.client, accessRow.grant, cfg,
        refreshRow.expires)
    ensures Inv(w.(store := Exchanged(w.store, code, a, accessRow, r, refreshRow),
                   reqs := w.reqs.(exchanged := w.reqs.exchanged[code := accessRow.grant]),
                   grants := OpenGrant(w.grants, accessRow.grant, code, a, accessRow, r, refreshRow)), cfg)
  {
    hide TokensOk, TableOk, TablesComplete, OneRefresh, ParentsOk, RowOk, Caps, CodesOk, VerdictsOk, SourcesOk,
      PendingOk;
    var q := w.reqs.(exchanged := w.reqs.exchanged[code := accessRow.grant]);
    var g := OpenGrant(w.grants, accessRow.grant, code, a, accessRow, r, refreshRow);
    IssueTables(w.grants, g, w.store, Exchanged(w.store, code, a, accessRow, r, refreshRow), w.clock.Floor, a,
        accessRow, r, refreshRow);
    ExchangeCodesOk(w.reqs, q, w.store, w.clock, code, accessRow.grant);
    ExchangeSourcesOk(w.reqs, w.grants, q, g, code, accessRow.grant);
    FirstTokenOk(q, g, cfg, code, w.store.codes[code], accessRow);
    FirstTokenOk(q, g, cfg, code, w.store.codes[code], refreshRow);
    ExchangeTokensOk(w.reqs, w.grants, q, g, cfg.issuer, code, a, accessRow, r, refreshRow);
    TablePut(w.grants, g, w.store.access, a, accessRow);
    TablePut(w.grants, g, w.store.refresh, r, refreshRow);
    NewGrantRefresh(w.reqs, w.grants, w.store.refresh, cfg.issuer, r, refreshRow);
    ParentsGrow(w.grants, g);
  }

  lemma IssueComplete(
      g: Grants, g1: Grants, ids: set<Token>, spent: set<Token>, table: map<Token, TokenRow>, clock: int, t: Token,
      row: TokenRow)
    requires Complete(g, ids, spent, table, clock) && t !in g.tokens && spent <= ids
    requires g1.revoked == g.revoked && t in g1.tokens
    requires forall x :: x in g.tokens ==> x in g1.tokens && g1.tokens[x] == g.tokens[x]
    ensures Complete(g1, ids + {t}, spent, table[t := row], clock)
  {
  }

  lemma IssueTables(
      g: Grants, g1: Grants, s: Store, s1: Store, clock: int, a: Token, accessRow: TokenRow, r: Token,
      refreshRow: TokenRow)
    requires TablesComplete(g, s, clock) && a !in g.tokens && r !in g.tokens && a != r
    requires g1 == IssuePair(g, a, accessRow, r, refreshRow).(source := g1.source)
    requires s1.access == s.access[a := accessRow] && s1.refresh == s.refresh[r := refreshRow]
    ensures TablesComplete(g1, s1, clock)
  {
    IssueComplete(g, g1, g.accessIds, {}, s.access, clock, a, accessRow);
    IssueComplete(g, g1, g.refreshIds, g.spent, s.refresh, clock, r, refreshRow);
  }

  lemma ExchangeCodesOk(q: Requests, q1: Requests, s: Store, clock: real, code: Code, grant: GrantId)
    requires PendingOk(q, s.pending, clock) && CodesOk(q, s.codes, clock) && VerdictsOk(q) && code in s.codes
    requires q1 == q.(exchanged := q.exchanged[code := grant])
    ensures PendingOk(q1, s.pending, clock) && CodesOk(q1, s.codes - {code}, clock) && VerdictsOk(q1)
    ensures code in q.issued && s.codes[code] == q.issued[code] && code !in q.exchanged
  {
  }

  lemma ExchangeSourcesOk(q: Requests, g: Grants, q1: Requests, g1: Grants, code: Code, grant: GrantId)
    requires SourcesOk(q, g) && code in q.issued && code !in q.exchanged && grant !in g.source
    requires q1 == q.(exchanged := q.exchanged[code := grant]) && g1.source == g.source[grant := code]
        && g1.revoked == g.revoked
    ensures grant !in g.revoked
    ensures SourcesOk(q1, g1)
  {
  }

  lemma FirstTokenOk(q: Requests, g: Grants, cfg: Settings, code: Code, from: CodeRow, row: TokenRow)
    requires code in q.issued && q.issued[code] == from && row.grant in g.source && g.source[row.grant] == code
    requires row == FirstToken(from, from.request.client, row.grant, cfg, row.expires)
    ensures RowOk(q, g, row, cfg.issuer)
  {
  }

  lemma RowGrows(q: Requests, g: Grants, q1: Requests, g1: Grants, row: TokenRow, issuer: string)
    requires RowOk(q, g, row, issuer) && q1.issued == q.issued
    requires forall d :: d in g.source ==> d in g1.source && g1.source[d] == g.source[d]
    ensures RowOk(q1, g1, row, issuer)
  {
  }

  lemma ExchangeTokensOk(q: Requests, g: Grants, q1: Requests, g1: Grants, issuer: string,
                         code: Code, a: Token, accessRow: TokenRow, r: Token, refreshRow: TokenRow)
    requires TokensOk(q, g, issuer) && q1.issued == q.issued && accessRow.grant !in g.source
    requires g1.source == g.source[accessRow.grant := code] && g1.tokens == g.tokens[a := accessRow][r := refreshRow]
    requires RowOk(q1, g1, accessRow, issuer) && RowOk(q1, g1, refreshRow, issuer)
    ensures TokensOk(q1, g1, issuer)
  {
    hide RowOk;
    forall t | t in g1.tokens ensures RowOk(q1, g1, g1.tokens[t], issuer) {
      if t != a && t != r {
        RowGrows(q, g, q1, g1, g.tokens[t], issuer);
      }
    }
  }

  lemma NewGrantRefresh(q: Requests, g: Grants, refresh: map<Token, TokenRow>, issuer: string, r: Token, row: TokenRow)
    requires TokensOk(q, g, issuer) && TableOk(g, refresh) && OneRefresh(refresh) && row.grant !in g.source
        && r !in g.tokens
    ensures OneRefresh(refresh[r := row])
  {
    forall t | t in refresh ensures refresh[t].grant != row.grant {
      assert RowOk(q, g, g.tokens[t], issuer);
    }
  }

  lemma ParentsGrow(g: Grants, g1: Grants)
    requires ParentsOk(g) && g1.parent == g.parent
    requires forall x :: x in g.tokens ==> x in g1.tokens && g1.tokens[x] == g.tokens[x]
    ensures ParentsOk(g1)
  {
    hide Subscopes;
  }

  lemma RotateInv(
      w: World, cfg: Settings, from: TokenRow, spent: Token, a: Token, accessRow: TokenRow, r: Token,
      refreshRow: TokenRow)
    requires Inv(w, cfg) && spent in w.store.refresh && from == w.store.refresh[spent]
    requires a !in w.grants.tokens && r !in w.grants.tokens && a != r
    requires Subscopes(accessRow.scopes, from.scopes) && refreshRow.scopes == accessRow.scopes
    requires accessRow == NextToken(from, from.client, accessRow.scopes, accessRow.expires)
    requires refreshRow == NextToken(from, from.client, refreshRow.scopes, refreshRow.expires)
    ensures Inv(w.(store := Rotated(w.store, spent, a, accessRow, r, refreshRow),
                   grants := SpendRefresh(w.grants, spent, a, accessRow, r, refreshRow)), cfg)
  {
    hide TokensOk, TableOk, TablesComplete, OneRefresh, ParentsOk, RowOk, Caps, CodesOk, VerdictsOk, SourcesOk,
      PendingOk, Subscopes;
    var g := SpendRefresh(w.grants, spent, a, accessRow, r, refreshRow);
    RotateTables(w.grants, w.store, w.clock.Floor, spent, a, accessRow, r, refreshRow);
    RotateSourcesOk(w.reqs, w.grants, g);
    SpentToken(w.reqs, w.grants, w.store.refresh, cfg.issuer, spent);
    NextTokenOk(w.reqs, w.grants, cfg.issuer, from, accessRow);
    NextTokenOk(w.reqs, w.grants, cfg.issuer, from, refreshRow);
    RotateTokensOk(w.reqs, w.grants, g, cfg.issuer, a, accessRow, r, refreshRow);
    TablePut(w.grants, g, w.store.access, a, accessRow);
    TableDrop(w.grants, w.store.refresh, spent);
    TablePut(w.grants, g, w.store.refresh - {spent}, r, refreshRow);
    NextRefresh(w.store.refresh, spent, r, refreshRow);
    RotateParentsOk(w.grants, g, a, accessRow, spent, r, refreshRow);
  }

  lemma SpendComplete(g: Grants, refresh: map<Token, TokenRow>, clock: int, spent: Token)
    requires Complete(g, g.refreshIds, g.spent, refresh, clock) && spent in refresh
    ensures Complete(g, g.refreshIds, g.spent + {spent}, refresh - {spent}, clock) && spent in g.refreshIds
  {
  }

  lemma RotateTables(
      g: Grants, s: Store, clock: int, spent: Token, a: Token, accessRow: TokenRow, r: Token, refreshRow: TokenRow)
    requires TablesComplete(g, s, clock) && a !in g.tokens && r !in g.tokens && a != r && spent in s.refresh
    ensures TablesComplete(SpendRefresh(g, spent, a, accessRow, r, refreshRow),
        Rotated(s, spent, a, accessRow, r, refreshRow), clock)
  {
    var g1 := SpendRefresh(g, spent, a, accessRow, r, refreshRow);
    SpendComplete(g, s.refresh, clock, spent);
    hide Complete;
    IssueComplete(g, g1, g.accessIds, {}, s.access, clock, a, accessRow);
    IssueComplete(g, g1, g.refreshIds, g.spent + {spent}, s.refresh - {spent}, clock, r, refreshRow);
  }

  lemma RotateSourcesOk(q: Requests, g: Grants, g1: Grants)
    requires SourcesOk(q, g) && g1.source == g.source && g1.revoked == g.revoked
    ensures SourcesOk(q, g1)
  {
  }

  lemma SpentToken(q: Requests, g: Grants, refresh: map<Token, TokenRow>, issuer: string, spent: Token)
    requires TokensOk(q, g, issuer) && TableOk(g, refresh) && spent in refresh
    ensures spent in g.tokens && g.tokens[spent] == refresh[spent] && refresh[spent].grant !in g.revoked
    ensures RowOk(q, g, refresh[spent], issuer)
  {
  }

  lemma NextTokenOk(q: Requests, g: Grants, issuer: string, from: TokenRow, row: TokenRow)
    requires RowOk(q, g, from, issuer) && Subscopes(row.scopes, from.scopes)
    requires row == NextToken(from, from.client, row.scopes, row.expires)
    ensures RowOk(q, g, row, issuer)
  {
  }

  lemma RotateTokensOk(
      q: Requests, g: Grants, g1: Grants, issuer: string, a: Token, accessRow: TokenRow, r: Token,
      refreshRow: TokenRow)
    requires TokensOk(q, g, issuer) && RowOk(q, g, accessRow, issuer) && RowOk(q, g, refreshRow, issuer)
    requires g1.source == g.source && g1.tokens == g.tokens[a := accessRow][r := refreshRow]
    ensures TokensOk(q, g1, issuer)
  {
    hide RowOk;
    forall t | t in g1.tokens ensures RowOk(q, g1, g1.tokens[t], issuer) {
      RowGrows(q, g, q, g1, g1.tokens[t], issuer);
    }
  }

  lemma TableDrop(g: Grants, table: map<Token, TokenRow>, t: Token)
    requires TableOk(g, table)
    ensures TableOk(g, table - {t})
  {
  }

  lemma NextRefresh(refresh: map<Token, TokenRow>, spent: Token, r: Token, row: TokenRow)
    requires OneRefresh(refresh) && spent in refresh && row.grant == refresh[spent].grant
    ensures OneRefresh((refresh - {spent})[r := row])
  {
  }

  lemma RotateParentsOk(g: Grants, g1: Grants, a: Token, accessRow: TokenRow, spent: Token, r: Token, row: TokenRow)
    requires ParentsOk(g) && spent in g.tokens && a !in g.tokens && r !in g.tokens && a != r
    requires row.grant == g.tokens[spent].grant && Subscopes(row.scopes, g.tokens[spent].scopes)
    requires g1.tokens == g.tokens[a := accessRow][r := row] && g1.parent == g.parent[r := spent]
    ensures ParentsOk(g1)
  {
    hide Subscopes;
    ParentsGrow(g, g1.(parent := g.parent));
  }

  lemma RevokeInv(w: World, cfg: Settings, grant: GrantId)
    requires Inv(w, cfg) && grant in w.grants.source
    ensures Inv(w.(store := Revoked(w.store, grant), grants := w.grants.(revoked := w.grants.revoked + {grant})), cfg)
  {
    hide TokensOk, TableOk, TablesComplete, OneRefresh, ParentsOk, RowOk, Caps, CodesOk, VerdictsOk, SourcesOk,
      PendingOk;
    var g := w.grants.(revoked := w.grants.revoked + {grant});
    RevokeSourcesOk(w.reqs, w.grants, g, cfg.issuer, grant);
    RevokeTables(w.grants, w.store, w.clock.Floor, grant);
    RevokeTable(w.grants, g, w.store.access, grant);
    RevokeTable(w.grants, g, w.store.refresh, grant);
    ParentsGrow(w.grants, g);
  }

  lemma RevokeSourcesOk(q: Requests, g: Grants, g1: Grants, issuer: string, grant: GrantId)
    requires SourcesOk(q, g) && TokensOk(q, g, issuer) && grant in g.source && g1 == g.(revoked := g.revoked + {grant})
    ensures SourcesOk(q, g1) && TokensOk(q, g1, issuer)
  {
    hide RowOk;
    forall t | t in g1.tokens ensures RowOk(q, g1, g1.tokens[t], issuer) {
      RowGrows(q, g, q, g1, g1.tokens[t], issuer);
    }
  }

  lemma RevokeComplete(
      g: Grants, g1: Grants, ids: set<Token>, spent: set<Token>, table: map<Token, TokenRow>, clock: int,
      grant: GrantId)
    requires Complete(g, ids, spent, table, clock) && TableOk(g, table) && g1 == g.(revoked := g.revoked + {grant})
    ensures Complete(g1, ids, spent, WithoutGrant(table, grant), clock)
  {
  }

  lemma RevokeTables(g: Grants, s: Store, clock: int, grant: GrantId)
    requires TablesComplete(g, s, clock) && TableOk(g, s.access) && TableOk(g, s.refresh)
    ensures TablesComplete(g.(revoked := g.revoked + {grant}), Revoked(s, grant), clock)
  {
    var g1 := g.(revoked := g.revoked + {grant});
    RevokeComplete(g, g1, g.accessIds, {}, s.access, clock, grant);
    RevokeComplete(g, g1, g.refreshIds, g.spent, s.refresh, clock, grant);
  }

  lemma RevokeTable(g: Grants, g1: Grants, table: map<Token, TokenRow>, grant: GrantId)
    requires TableOk(g, table) && g1 == g.(revoked := g.revoked + {grant})
    ensures TableOk(g1, WithoutGrant(table, grant))
    ensures OneRefresh(table) ==> OneRefresh(WithoutGrant(table, grant))
  {
  }

  // -------------------------------------------------------------------- steps

  lemma GrantKnown(q: Requests, g: Grants, table: map<Token, TokenRow>, issuer: string, t: Token)
    requires TokensOk(q, g, issuer) && TableOk(g, table) && t in table
    ensures table[t].grant in g.source
  {
    assert RowOk(q, g, g.tokens[t], issuer);
  }

  lemma RequestStep(w: World, cfg: Settings, op: Op, now: real)
    requires Inv(w, cfg) && Enabled(w, op, now) && (op.SaveClient? || op.SavePending? || op.Approve? || op.Deny?)
    ensures Inv(Next(w, cfg, op, now), cfg)
  {
    hide Inv, Prune, CodeFor;
    PruneInv(w, cfg, now, now);
    var w1 := w.(store := Prune(w.store, now), clock := now);
    match op
    case SaveClient(client, metadata) =>
      if client in w1.store.clients || |w1.store.clients| < cfg.maxClients {
        ClientInv(w1, cfg, client, metadata);
      }
    case SavePending(id, request, expires) =>
      if |w1.store.pending| < cfg.maxPending
          && |PendingOfClient(w1.store.pending, request.client)| < cfg.maxPendingPerClient {
        SaveInv(w1, cfg, id, PendingRow(request, expires));
      }
    case Approve(id, code) =>
      if id in w1.store.pending {
        CodeForRow(w1.store.pending[id], id, cfg, now);
        ApproveInv(w1, cfg, id, code, CodeFor(w1.store.pending[id], id, cfg, now));
      }
    case Deny(id) =>
      if id in w1.store.pending {
        DenyInv(w1, cfg, id);
      }
  }

  lemma CodeForRow(row: PendingRow, id: RequestId, cfg: Settings, now: real)
    ensures CodeFor(row, id, cfg, now).requestId == id && CodeFor(row, id, cfg, now).request == row.request
  {
  }

  lemma LookupStep(w: World, cfg: Settings, op: Op, now: real)
    requires Inv(w, cfg) && Enabled(w, op, now)
    requires op.LoadClient? || op.LoadPending? || op.LoadCompleted? || op.LoadCode? || op.LoadAccess? || op.LoadRefresh?
    ensures Inv(Next(w, cfg, op, now), cfg)
  {
    hide PendingOk, CodesOk, VerdictsOk, SourcesOk, TokensOk, TableOk, TablesComplete, OneRefresh, ParentsOk, Caps,
      KeepPending, CodeOf;
    PruneInv(w, cfg, now, now);
    if op.LoadPending? {
      LoadPendingInv(w, cfg, now);
    } else if op.LoadCompleted? {
      assert Next(w, cfg, op, now) == w.(store := Prune(w.store, now), clock := now);
    } else {
      assert Next(w, cfg, op, now) == w.(clock := now);
    }
  }

  lemma LoadPendingInv(w: World, cfg: Settings, now: real)
    requires Inv(w, cfg) && w.clock <= now
    ensures Inv(w.(store := w.store.(pending := KeepPending(w.store.pending, now)), clock := now), cfg)
  {
    hide PendingOk, CodesOk, VerdictsOk, SourcesOk, TokensOk, TableOk, TablesComplete, OneRefresh, ParentsOk, Caps,
      Prune;
    PruneInv(w, cfg, now, now);
    PrunePendingOk(w.reqs, w.store.pending, w.clock, now, now);
    SameTables(w.grants, w.store, w.store.(pending := KeepPending(w.store.pending, now)), now.Floor);
    SubsetCaps(w.store.clients, w.store.pending, KeepPending(w.store.pending, now), cfg);
  }

  lemma ExchangeStep(w: World, cfg: Settings, op: Op, now: real)
    requires Inv(w, cfg) && Enabled(w, op, now) && op.Exchange?
    ensures Inv(Next(w, cfg, op, now), cfg)
  {
    hide Inv, Prune, FirstToken, OpenGrant, Exchanged;
    PruneInv(w, cfg, now, now);
    if CodeUsable(w.store, op.code, op.client, now) {
      var row := w.store.codes[op.code];
      var w1 := w.(store := Prune(w.store, now), clock := now);
      CodeKept(w.store, op.code, now);
      var arow := FirstToken(row, op.client, op.grant, cfg, now.Floor + cfg.accessTtl);
      var rrow := FirstToken(row, op.client, op.grant, cfg, now.Floor + cfg.refreshTtl);
      FirstTokenGrant(row, op.client, op.grant, cfg, now.Floor + cfg.accessTtl);
      FirstTokenGrant(row, op.client, op.grant, cfg, now.Floor + cfg.refreshTtl);
      ExchangedHolds(w1.store, op.code, op.newAccess, arow, op.newRefresh, rrow);
      ExchangeInv(w1, cfg, op.code, op.newAccess, arow, op.newRefresh, rrow);
    }
  }

  lemma ExchangedHolds(s: Store, code: Code, a: Token, accessRow: TokenRow, r: Token, refreshRow: TokenRow)
    ensures var s1 := Exchanged(s, code, a, accessRow, r, refreshRow);
            a in s1.access && s1.access[a] == accessRow && r in s1.refresh && s1.refresh[r] == refreshRow
  {
  }

  lemma RotatedHolds(s: Store, spent: Token, a: Token, accessRow: TokenRow, r: Token, refreshRow: TokenRow)
    ensures var s1 := Rotated(s, spent, a, accessRow, r, refreshRow);
            a in s1.access && s1.access[a] == accessRow && r in s1.refresh && s1.refresh[r] == refreshRow
  {
  }

  lemma CodeKept(s: Store, code: Code, now: real)
    requires code in s.codes && s.codes[code].expires > now
    ensures code in Prune(s, now).codes && Prune(s, now).codes[code] == s.codes[code]
  {
  }

  lemma FirstTokenGrant(row: CodeRow, client: ClientId, grant: GrantId, cfg: Settings, expires: int)
    ensures FirstToken(row, client, grant, cfg, expires).grant == grant
        && FirstToken(row, client, grant, cfg, expires).expires == expires
  {
  }

  lemma RotateStep(w: World, cfg: Settings, op: Op, now: real)
    requires Inv(w, cfg) && Enabled(w, op, now) && op.Rotate?
    ensures Inv(Next(w, cfg, op, now), cfg)
  {
    hide Inv, Prune, NextToken, Subscopes, SpendRefresh, Rotated;
    var at := now.Floor as real;
    PruneInv(w, cfg, at, now);
    if RefreshUsable(w.store, op.token, op.client, now) && Subscopes(op.scopes, w.store.refresh[op.token].scopes) {
      var row := w.store.refresh[op.token];
      var w1 := w.(store := Prune(w.store, at), clock := now);
      RefreshKept(w.store, op.token, at);
      NextTokenScopes(row, op.client, op.scopes, now.Floor + cfg.accessTtl);
      NextTokenScopes(row, op.client, op.scopes, now.Floor + cfg.refreshTtl);
      var arow := NextToken(row, op.client, op.scopes, now.Floor + cfg.accessTtl);
      var rrow := NextToken(row, op.client, op.scopes, now.Floor + cfg.refreshTtl);
      RotatedHolds(w1.store, op.token, op.newAccess, arow, op.newRefresh, rrow);
      RotateInv(w1, cfg, row, op.token, op.newAccess, arow, op.newRefresh, rrow);
    }
  }

  lemma RefreshKept(s: Store, t: Token, at: real)
    requires t in s.refresh && s.refresh[t].expires > at.Floor
    ensures t in Prune(s, at).refresh && Prune(s, at).refresh[t] == s.refresh[t]
  {
  }

  lemma NextTokenScopes(row: TokenRow, client: ClientId, scopes: seq<Scope>, expires: int)
    ensures NextToken(row, client, scopes, expires).scopes == scopes
        && NextToken(row, client, scopes, expires).expires == expires
    ensures NextToken(row, client, scopes, expires).grant == row.grant
  {
  }

  lemma RevokeStep(w: World, cfg: Settings, op: Op, now: real)
    requires Inv(w, cfg) && Enabled(w, op, now) && op.Revoke?
    ensures Inv(Next(w, cfg, op, now), cfg)
  {
    FoundGrant(w, cfg, op.token);
    hide Inv, Prune, Revoked, GrantOf;
    PruneInv(w, cfg, now, now);
    if op.token in w.store.access || op.token in w.store.refresh {
      RevokeInv(w.(store := Prune(w.store, now), clock := now), cfg, GrantOf(w.store, op.token));
    }
  }

  lemma FoundGrant(w: World, cfg: Settings, t: Token)
    requires Inv(w, cfg)
    ensures t in w.store.access || t in w.store.refresh ==> GrantOf(w.store, t) in w.grants.source
  {
    hide PendingOk, CodesOk, VerdictsOk, SourcesOk, TokensOk, TableOk, TablesComplete, OneRefresh, ParentsOk, Caps;
    if t in w.store.access { GrantKnown(w.reqs, w.grants, w.store.access, cfg.issuer, t); }
    if t in w.store.refresh { GrantKnown(w.reqs, w.grants, w.store.refresh, cfg.issuer, t); }
  }

  /** Every call keeps the invariant. */
  lemma StepInv(w: World, cfg: Settings, op: Op, now: real)
    requires Inv(w, cfg) && Enabled(w, op, now)
    ensures Inv(Next(w, cfg, op, now), cfg)
  {
    hide Inv, Next, Enabled;
    match op
    case SaveClient(_, _) => RequestStep(w, cfg, op, now);
    case SavePending(_, _, _) => RequestStep(w, cfg, op, now);
    case Approve(_, _) => RequestStep(w, cfg, op, now);
    case Deny(_) => RequestStep(w, cfg, op, now);
    case Exchange(_, _, _, _, _) => ExchangeStep(w, cfg, op, now);
    case Rotate(_, _, _, _, _) => RotateStep(w, cfg, op, now);
    case Revoke(_) => RevokeStep(w, cfg, op, now);
    case _ => LookupStep(w, cfg, op, now);
  }

  // --------------------------------------------------------------------- runs

  ghost predicate IsRun(ws: seq<World>, cfg: Settings, ops: seq<Op>, times: seq<real>) {
    && |ws| == |ops| + 1 && |times| == |ops|
    && (exists now :: ws[0] == Start(now))
    && forall i :: 0 <= i < |ops| ==>
         Enabled(ws[i], ops[i], times[i]) && ws[i + 1] == Next(ws[i], cfg, ops[i], times[i])
  }

  lemma {:induction false} RunInv(ws: seq<World>, cfg: Settings, ops: seq<Op>, times: seq<real>, i: nat)
    requires IsRun(ws, cfg, ops, times) && i < |ws|
    ensures Inv(ws[i], cfg)
  {
    hide Inv, Next, Enabled;
    if i == 0 {
      var now :| ws[0] == Start(now);
      StartInv(now, cfg);
    } else {
      RunInv(ws, cfg, ops, times, i - 1);
      StepInv(ws[i - 1], cfg, ops[i - 1], times[i - 1]);
    }
  }

  lemma StartInv(now: real, cfg: Settings)
    ensures Inv(Start(now), cfg)
  {
    forall c ensures |PendingOfClient(map[], c)| == 0 {
      assert PendingOfClient(map[], c) == {};
    }
  }
}
