/** What each call of the OAuth store answers and what it leaves in the five tables, row by row. */
module OAuthEffects {
  import opened Collections
  import opened OAuthModel

  // -------------------------------------------------------------------- expiry

  predicate LivePending(s: Store, now: real, id: RequestId) { id in s.pending && s.pending[id].expires > now }

  predicate LiveCode(s: Store, now: real, code: Code) { code in s.codes && s.codes[code].expires > now }

  predicate LiveIn(t: map<Token, TokenRow>, now: real, token: Token) { token in t && t[token].expires > now.Floor }

  /** Exactly the expired rows are gone. */
  ghost predicate Cleaned(s: Store, s1: Store, now: real) {
    && s1.clients == s.clients
    && (forall id :: id in s1.pending <==> LivePending(s, now, id))
    && (forall id :: id in s1.pending ==> s1.pending[id] == s.pending[id])
    && (forall c :: c in s1.codes <==> LiveCode(s, now, c)) && (forall c :: c in s1.codes ==> s1.codes[c] == s.codes[c])
    && (forall t :: t in s1.access <==> LiveIn(s.access, now, t))
    && (forall t :: t in s1.access ==> s1.access[t] == s.access[t])
    && (forall t :: t in s1.refresh <==> LiveIn(s.refresh, now, t))
    && (forall t :: t in s1.refresh ==> s1.refresh[t] == s.refresh[t])
  }

  lemma PruneCleans(s: Store, now: real)
    ensures Cleaned(s, Prune(s, now), now)
  {
  }

  function LiveRequests(s: Store, now: real): set<RequestId> { set id | id in s.pending && s.pending[id].expires > now }

  function LiveRequestsOf(s: Store, now: real, client: ClientId): set<RequestId> {
    set id | id in s.pending && s.pending[id].expires > now && s.pending[id].request.client == client
  }

  lemma LiveCounts(s: Store, now: real, client: ClientId)
    ensures |Prune(s, now).pending| == |LiveRequests(s, now)|
    ensures PendingOfClient(Prune(s, now).pending, client) == LiveRequestsOf(s, now, client)
  {
    assert Prune(s, now).pending.Keys == LiveRequests(s, now);
  }

  // --------------------------------------------------------- clients, requests

  /** A client is stored unless it is new and the table is full; expired rows go either way. */
  lemma SaveClientExactly(s: Store, cfg: Settings, client: ClientId, metadata: string, now: real)
    ensures var (s1, r) := Step(s, cfg, SaveClient(client, metadata), now);
            var stored := client in s.clients || |s.clients| < cfg.maxClients;
            && r == Stored(stored)
            && exists s0 ::
                 Cleaned(s, s0, now) && s1 == if stored then s0.(clients := s.clients[client := metadata]) else s0
  {
    hide Prune, Cleaned;
    PruneCleans(s, now);
    PruneClients(s, now);
    assert Cleaned(s, Prune(s, now), now);
  }

  lemma PruneClients(s: Store, now: real)
    ensures Prune(s, now).clients == s.clients
  {
  }

  lemma LoadClientExactly(s: Store, cfg: Settings, client: ClientId, now: real)
    ensures Step(s, cfg, LoadClient(client), now) ==
              (s, ClientIs(if client in s.clients then Some(s.clients[client]) else None))
  {
  }

  /** A request is stored exactly while fewer than the caps are live, in all and of its client. */
  lemma SavePendingExactly(s: Store, cfg: Settings, id: RequestId, request: Request, expires: real, now: real)
    ensures var (s1, r) := Step(s, cfg, SavePending(id, request, expires), now);
            var stored := |LiveRequests(s, now)| < cfg.maxPending
                          && |LiveRequestsOf(s, now, request.client)| < cfg.maxPendingPerClient;
            && r == Stored(stored)
            && exists s0 :: Cleaned(s, s0, now)
                 && s1 == if stored then s0.(pending := s0.pending[id := PendingRow(request, expires)]) else s0
  {
    PruneCleans(s, now);
    LiveCounts(s, now, request.client);
    hide Prune, Cleaned, PendingOfClient;
    assert Cleaned(s, Prune(s, now), now);
  }

  /** A request can be seen while it is live. */
  lemma LoadPendingExactly(s: Store, cfg: Settings, id: RequestId, now: real)
    ensures var (s1, r) := Step(s, cfg, LoadPending(id), now);
            && r == PendingIs(if LivePending(s, now, id) then Some(s.pending[id]) else None)
            && s1 == s.(pending := s1.pending)
            && (forall x :: x in s1.pending <==> LivePending(s, now, x))
            && (forall x :: x in s1.pending ==> s1.pending[x] == s.pending[x])
  {
  }

  lemma PrunePending(s: Store, now: real, id: RequestId)
    ensures id in Prune(s, now).pending <==> LivePending(s, now, id)
    ensures id in Prune(s, now).pending ==> Prune(s, now).pending[id] == s.pending[id]
  {
  }

  /** A live request is approved: it becomes a code row with its request, for as long as codes
      last; any other is missing. */
  lemma ApproveExactly(s: Store, cfg: Settings, id: RequestId, code: Code, now: real)
    ensures var (s1, r) := Step(s, cfg, Approve(id, code), now);
            exists s0 :: Cleaned(s, s0, now)
              && if LivePending(s, now, id) then
                   var row := CodeRow(s.pending[id].request, cfg.subject, id, now + cfg.codeTtl);
                   && r == Approved(s.pending[id], code)
                   && s1 == s0.(pending := s0.pending - {id}, codes := s0.codes[code := row])
                 else r == Missing && s1 == s0
  {
    hide Prune, Cleaned;
    PruneCleans(s, now);
    PrunePending(s, now, id);
    assert Cleaned(s, Prune(s, now), now);
  }

  /** A live request is denied: it goes; any other is missing. */
  lemma DenyExactly(s: Store, cfg: Settings, id: RequestId, now: real)
    ensures var (s1, r) := Step(s, cfg, Deny(id), now);
            exists s0 :: Cleaned(s, s0, now)
              && if LivePending(s, now, id) then r == Denied(s.pending[id]) && s1 == s0.(pending := s0.pending - {id})
                 else r == Missing && s1 == s0
  {
    hide Prune, Cleaned;
    PruneCleans(s, now);
    PrunePending(s, now, id);
    assert Cleaned(s, Prune(s, now), now);
  }

  /** The code of a completed request is one that is live and was made from it. */
  lemma LoadCompletedExactly(s: Store, cfg: Settings, id: RequestId, now: real)
    ensures var (s1, r) := Step(s, cfg, LoadCompleted(id), now);
            && Cleaned(s, s1, now) && r.CompletedIs?
            && (r.approval.None? <==> forall c :: LiveCode(s, now, c) ==> s.codes[c].requestId != id)
            && (r.approval.Some? ==> LiveCode(s, now, r.approval.value) && s.codes[r.approval.value].requestId == id)
  {
    PruneCleans(s, now);
    hide Prune;
  }

  // --------------------------------------------------------------------- tokens

  lemma LoadExactly(s: Store, cfg: Settings, code: Code, client: ClientId, token: Token, now: real)
    ensures Step(s, cfg, LoadCode(code, client), now) ==
              (s, CodeIs(if code in s.codes && s.codes[code].request.client == client then Some(s.codes[code])
                  else None))
    ensures Step(s, cfg, LoadAccess(token), now) ==
              (s, TokenIs(if LiveIn(s.access, now, token) then Some(s.access[token]) else None))
    ensures Step(s, cfg, LoadRefresh(token, client), now) ==
              (s, TokenIs(if LiveIn(s.refresh, now, token) && s.refresh[token].client == client
                          then Some(s.refresh[token]) else None))
  {
  }

  lemma ExchangeStep(
      s: Store, cfg: Settings, code: Code, client: ClientId, a: Token, r: Token, grant: GrantId, now: real)
    ensures Step(s, cfg, Exchange(code, client, a, r, grant), now) ==
              if !CodeUsable(s, code, client, now) then (s, Missing) else
                var request, s0 := s.codes[code].request, Prune(s, now);
                var first := TokenRow(grant, client, request.scopes, now.Floor + cfg.accessTtl, cfg.issuer,
                    request.resource, s.codes[code].subject);
                (s0.(codes := s0.codes - {code}, access := s0.access[a := first],
                     refresh := s0.refresh[r := first.(expires := now.Floor + cfg.refreshTtl)]),
                 Issued(request.scopes, now.Floor + cfg.accessTtl, now.Floor + cfg.refreshTtl))
  {
    hide Prune;
  }

  /** A live code of this client is used up, and gives an access and a refresh row of the new grant
      with the scopes and resource of its request; anything else changes nothing. */
  lemma ExchangeExactly(
      s: Store, cfg: Settings, code: Code, client: ClientId, a: Token, r: Token, grant: GrantId, now: real)
    ensures var (s1, reply) := Step(s, cfg, Exchange(code, client, a, r, grant), now);
            var usable := LiveCode(s, now, code) && s.codes[code].request.client == client;
            && (!usable ==> reply == Missing && s1 == s)
            && (usable ==>
                  var row := s.codes[code];
                  var first := TokenRow(grant, client, row.request.scopes, now.Floor + cfg.accessTtl, cfg.issuer,
                      row.request.resource, row.subject);
                  && reply == Issued(row.request.scopes, now.Floor + cfg.accessTtl, now.Floor + cfg.refreshTtl)
                  && exists s0 :: Cleaned(s, s0, now)
                       && s1 == s0.(codes := s0.codes - {code},
                                    access := s0.access[a := first],
                                    refresh := s0.refresh[r := first.(expires := now.Floor + cfg.refreshTtl)]))
  {
    hide Prune, Cleaned, Step;
    PruneCleans(s, now);
    ExchangeStep(s, cfg, code, client, a, r, grant, now);
    assert Cleaned(s, Prune(s, now), now);
  }

  /** A live refresh token of this client, for scopes within its own, is replaced by a new pair of
      its grant with those scopes; anything else changes nothing. Rows are cleaned up as of the
      whole second. */
  lemma RotateExactly(
      s: Store, cfg: Settings, token: Token, client: ClientId, scopes: seq<Scope>, a: Token, r: Token, now: real)
    ensures var (s1, reply) := Step(s, cfg, Rotate(token, client, scopes, a, r), now);
            var usable := LiveIn(s.refresh, now, token) && s.refresh[token].client == client;
            var within := usable && forall x :: x in scopes ==> x in s.refresh[token].scopes;
            && (!usable ==> reply == Missing && s1 == s)
            && (usable && !within ==> reply == ScopeError && s1 == s)
            && (within ==>
                  var row := s.refresh[token];
                  var next := TokenRow(row.grant, client, scopes, now.Floor + cfg.accessTtl, row.issuer,
                      row.resource, row.subject);
                  && reply == Issued(scopes, now.Floor + cfg.accessTtl, now.Floor + cfg.refreshTtl)
                  && exists s0 :: Cleaned(s, s0, now.Floor as real)
                       && s1 == s0.(access := s0.access[a := next],
                                    refresh := (s0.refresh - {token})[r := next.(
                                        expires := now.Floor + cfg.refreshTtl)]))
  {
    hide Prune, Cleaned;
    PruneCleans(s, now.Floor as real);
    assert Cleaned(s, Prune(s, now.Floor as real), now.Floor as real);
  }

  /** Revoking a stored token removes every row of its grant, and the expired ones; the access row
      decides if there are two. */
  lemma RevokeExactly(s: Store, cfg: Settings, token: Token, now: real)
    ensures var (s1, reply) := Step(s, cfg, Revoke(token), now);
            && reply == Nothing
            && (token !in s.access && token !in s.refresh ==> s1 == s)
            && (token in s.access || token in s.refresh ==>
                  var grant := if token in s.access then s.access[token].grant else s.refresh[token].grant;
                  exists s0 :: Cleaned(s, s0, now) && s1 == s0.(access := s1.access, refresh := s1.refresh)
                    && (forall t :: t in s1.access <==> t in s0.access && s0.access[t].grant != grant)
                    && (forall t :: t in s1.access ==> s1.access[t] == s0.access[t])
                    && (forall t :: t in s1.refresh <==> t in s0.refresh && s0.refresh[t].grant != grant)
                    && (forall t :: t in s1.refresh ==> s1.refresh[t] == s0.refresh[t]))
  {
    PruneCleans(s, now);
    hide Prune, Cleaned;
    if token in s.access || token in s.refresh {
      assert Cleaned(s, Prune(s, now), now);
    }
  }
}
