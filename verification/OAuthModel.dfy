/** The OAuth grant store: five tables, one function per transaction. Times are seconds;
    pending requests and codes expire at fractional times, tokens at whole seconds. */
module OAuthModel {
  import opened Collections

  type ClientId = nat
  type RequestId = nat
  type Code = nat
  type Token = nat
  type GrantId = nat
  type Scope = string

  datatype Request = Request(
    client: ClientId,
    scopes: seq<Scope>,
    challenge: string,
    redirect: string,
    redirectExplicit: bool,
    resource: string,
    state: Option<string>)

  datatype PendingRow = PendingRow(request: Request, expires: real)

  datatype CodeRow = CodeRow(request: Request, subject: string, requestId: RequestId, expires: real)

  datatype TokenRow = TokenRow(
    grant: GrantId, client: ClientId, scopes: seq<Scope>, expires: int, issuer: string, resource: string,
        subject: string)

  datatype Store = Store(
    clients: map<ClientId, string>,
    pending: map<RequestId, PendingRow>,
    codes: map<Code, CodeRow>,
    access: map<Token, TokenRow>,
    refresh: map<Token, TokenRow>)

  /** The limits and lifetimes of one deployment. */
  datatype Settings = Settings(
    issuer: string, subject: string, codeTtl: real, accessTtl: int, refreshTtl: int,
    maxClients: nat, maxPending: nat, maxPendingPerClient: nat)

  /** One call on the store with the random values it draws. */
  datatype Op =
    | SaveClient(client: ClientId, metadata: string)
    | LoadClient(client: ClientId)
    | SavePending(id: RequestId, request: Request, expires: real)
    | LoadPending(id: RequestId)
    | Approve(id: RequestId, code: Code)
    | LoadCompleted(id: RequestId)
    | Deny(id: RequestId)
    | LoadCode(code: Code, client: ClientId)
    | Exchange(code: Code, client: ClientId, newAccess: Token, newRefresh: Token, grant: GrantId)
    | LoadAccess(token: Token)
    | LoadRefresh(token: Token, client: ClientId)
    | Rotate(token: Token, client: ClientId, scopes: seq<Scope>, newAccess: Token, newRefresh: Token)
    | Revoke(token: Token)

  datatype Reply =
    | Stored(ok: bool)
    | ClientIs(metadata: Option<string>)
    | PendingIs(pending: Option<PendingRow>)
    | Approved(request: PendingRow, code: Code)
    | CompletedIs(approval: Option<Code>)
    | Denied(request: PendingRow)
    | CodeIs(codeRow: Option<CodeRow>)
    | Issued(scopes: seq<Scope>, accessExpires: int, refreshExpires: int)
    | TokenIs(token: Option<TokenRow>)
    | ScopeError
    | Missing
    | Nothing

  // ----------------------------------------------------------------- pruning

  function KeepPending(t: map<RequestId, PendingRow>, now: real): map<RequestId, PendingRow> {
    map r | r in t && t[r].expires > now :: t[r]
  }

  function KeepCodes(t: map<Code, CodeRow>, now: real): map<Code, CodeRow> {
    map c | c in t && t[c].expires > now :: t[c]
  }

  function KeepTokens(t: map<Token, TokenRow>, now: int): map<Token, TokenRow> {
    map k | k in t && t[k].expires > now :: t[k]
  }

  /** Delete everything that has expired. */
  function Prune(s: Store, now: real): Store {
    s.(pending := KeepPending(s.pending, now),
       codes := KeepCodes(s.codes, now),
       access := KeepTokens(s.access, now.Floor),
       refresh := KeepTokens(s.refresh, now.Floor))
  }

  function PendingOfClient(t: map<RequestId, PendingRow>, client: ClientId): set<RequestId> {
    set r | r in t && t[r].request.client == client
  }

  /** The code a request was approved with, if it is still in the table. */
  ghost function CodeOf(t: map<Code, CodeRow>, id: RequestId): Option<Code> {
    if exists c :: c in t && t[c].requestId == id then
      var c :| c in t && t[c].requestId == id;
      Some(c)
    else None
  }

  predicate Subscopes(a: seq<Scope>, b: seq<Scope>) {
    forall x :: x in a ==> x in b
  }

  function CodeFor(row: PendingRow, id: RequestId, cfg: Settings, now: real): CodeRow {
    CodeRow(row.request, cfg.subject, id, now + cfg.codeTtl)
  }

  /** The access and refresh rows of a code exchange. */
  function FirstToken(row: CodeRow, client: ClientId, grant: GrantId, cfg: Settings, expires: int): TokenRow {
    TokenRow(grant, client, row.request.scopes, expires, cfg.issuer, row.request.resource, row.subject)
  }

  /** The rows of a rotation: everything but scopes and expiry is inherited. */
  function NextToken(row: TokenRow, client: ClientId, scopes: seq<Scope>, expires: int): TokenRow {
    TokenRow(row.grant, client, scopes, expires, row.issuer, row.resource, row.subject)
  }

  function WithoutGrant(t: map<Token, TokenRow>, grant: GrantId): map<Token, TokenRow> {
    map k | k in t && t[k].grant != grant :: t[k]
  }

  function Exchanged(s: Store, code: Code, a: Token, accessRow: TokenRow, r: Token, refreshRow: TokenRow): Store {
    s.(codes := s.codes - {code}, access := s.access[a := accessRow], refresh := s.refresh[r := refreshRow])
  }

  function Rotated(s: Store, spent: Token, a: Token, accessRow: TokenRow, r: Token, refreshRow: TokenRow): Store {
    s.(access := s.access[a := accessRow], refresh := (s.refresh - {spent})[r := refreshRow])
  }

  function Revoked(s: Store, grant: GrantId): Store {
    s.(access := WithoutGrant(s.access, grant), refresh := WithoutGrant(s.refresh, grant))
  }

  /** The grant a token belongs to; access tokens are looked up first. */
  function GrantOf(s: Store, token: Token): GrantId
    requires token in s.access || token in s.refresh
  {
    if token in s.access then s.access[token].grant else s.refresh[token].grant
  }

  predicate CodeUsable(s: Store, code: Code, client: ClientId, now: real) {
    code in s.codes && s.codes[code].request.client == client && s.codes[code].expires > now
  }

  predicate RefreshUsable(s: Store, token: Token, client: ClientId, now: real) {
    token in s.refresh && s.refresh[token].client == client && s.refresh[token].expires > now.Floor
  }

  // ------------------------------------------------------------ transactions

  ghost function Step(s0: Store, cfg: Settings, op: Op, now: real): (Store, Reply) {
    match op
    case SaveClient(client, metadata) =>
      var s := Prune(s0, now);
      if client !in s.clients && |s.clients| >= cfg.maxClients then (s, Stored(false))
      else (s.(clients := s.clients[client := metadata]), Stored(true))
    case LoadClient(client) =>
      (s0, ClientIs(if client in s0.clients then Some(s0.clients[client]) else None))
    case SavePending(id, request, expires) =>
      var s := Prune(s0, now);
      if |s.pending| >= cfg.maxPending || |PendingOfClient(s.pending, request.client)| >= cfg.maxPendingPerClient
          then (s, Stored(false))
      else (s.(pending := s.pending[id := PendingRow(request, expires)]), Stored(true))
    case LoadPending(id) =>
      var s := s0.(pending := KeepPending(s0.pending, now));
      (s, PendingIs(if id in s.pending then Some(s.pending[id]) else None))
    case Approve(id, code) =>
      var s := Prune(s0, now);
      if id !in s.pending then (s, Missing)
      else
        var row := s.pending[id];
        (s.(pending := s.pending - {id}, codes := s.codes[code := CodeFor(row, id, cfg, now)]), Approved(row, code))
    case LoadCompleted(id) =>
      var s := Prune(s0, now);
      (s, CompletedIs(CodeOf(s.codes, id)))
    case Deny(id) =>
      var s := Prune(s0, now);
      if id !in s.pending then (s, Missing) else (s.(pending := s.pending - {id}), Denied(s.pending[id]))
    case LoadCode(code, client) =>
      (s0, CodeIs(if code in s0.codes && s0.codes[code].request.client == client then Some(s0.codes[code]) else None))
    case Exchange(code, client, newAccess, newRefresh, grant) =>
      if !CodeUsable(s0, code, client, now) then (s0, Missing)
      else
        var row := s0.codes[code];
        var s := Prune(s0, now);
        var a, r := now.Floor + cfg.accessTtl, now.Floor + cfg.refreshTtl;
        (Exchanged(s, code, newAccess, FirstToken(row, client, grant, cfg, a), newRefresh,
            FirstToken(row, client, grant, cfg, r)),
         Issued(row.request.scopes, a, r))
    case LoadAccess(token) =>
      (s0, TokenIs(if token in s0.access && s0.access[token].expires > now.Floor then Some(s0.access[token]) else None))
    case LoadRefresh(token, client) =>
      (s0, TokenIs(if RefreshUsable(s0, token, client, now) then Some(s0.refresh[token]) else None))
    case Rotate(token, client, scopes, newAccess, newRefresh) =>
      if !RefreshUsable(s0, token, client, now) then (s0, Missing)
      else if !Subscopes(scopes, s0.refresh[token].scopes) then (s0, ScopeError)
      else
        var row := s0.refresh[token];
        var s := Prune(s0, now.Floor as real);
        var a, r := now.Floor + cfg.accessTtl, now.Floor + cfg.refreshTtl;
        (Rotated(s, token, newAccess, NextToken(row, client, scopes, a), newRefresh, NextToken(row, client, scopes, r)),
         Issued(scopes, a, r))
    case Revoke(token) =>
      if token !in s0.access && token !in s0.refresh then (s0, Nothing)
      else
        var grant := GrantOf(s0, token);
        var s := Prune(s0, now);
        (Revoked(s, grant), Nothing)
  }
}
