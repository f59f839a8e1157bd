/** The grant store object. Its fields are the five tables; each method is one transaction,
    written as the statements it runs, and proved to be the corresponding step of the model. */
module OAuthStore {
  import opened Collections
  import opened OAuthModel
  import opened OAuthRefinement

  class Database {
    const cfg: Settings
    var clients: map<ClientId, string>
    var pending: map<RequestId, PendingRow>
    var codes: map<Code, CodeRow>
    var access: map<Token, TokenRow>
    var refresh: map<Token, TokenRow>

    ghost function Tables(): Store reads this { Store(clients, pending, codes, access, refresh) }

    /** The code table has a unique index on the request. */
    ghost predicate Valid() reads this { OneCode(Tables()) }

    constructor (cfg: Settings)
      ensures Valid() && this.cfg == cfg && Tables() == Store(map[], map[], map[], map[], map[])
    {
      this.cfg := cfg;
      clients, pending, codes, access, refresh := map[], map[], map[], map[], map[];
    }

    static method DropOldPending(t: map<RequestId, PendingRow>, now: real) returns (r: map<RequestId, PendingRow>)
      ensures r == KeepPending(t, now)
    {
      r := map id | id in t && !(t[id].expires <= now) :: t[id];
    }

    static method DropOldCodes(t: map<Code, CodeRow>, now: real) returns (r: map<Code, CodeRow>)
      ensures r == KeepCodes(t, now)
    {
      r := map c | c in t && !(t[c].expires <= now) :: t[c];
    }

    static method DropOldTokens(t: map<Token, TokenRow>, now: int) returns (r: map<Token, TokenRow>)
      ensures r == KeepTokens(t, now)
    {
      r := map k | k in t && !(t[k].expires <= now) :: t[k];
    }

    static method DropGrantTokens(t: map<Token, TokenRow>, grant: GrantId) returns (r: map<Token, TokenRow>)
      ensures r == WithoutGrant(t, grant)
    {
      r := map k | k in t && !(t[k].grant == grant) :: t[k];
    }

    method PruneExpired(now: real)
      requires Valid()
      modifies this`pending, this`codes, this`access, this`refresh
      ensures Valid() && Tables() == Prune(old(Tables()), now)
    {
      hide OneCode, KeepPending, KeepCodes, KeepTokens;
      PruneOneCode(Tables(), now);
      pending := DropOldPending(pending, now);
      codes := DropOldCodes(codes, now);
      access := DropOldTokens(access, now.Floor);
      refresh := DropOldTokens(refresh, now.Floor);
    }

    method SaveClientLimited(client: ClientId, metadata: string, now: real) returns (saved: bool)
      requires Valid()
      modifies this
      ensures Valid() && (Tables(), Stored(saved)) == Step(old(Tables()), cfg, SaveClient(client, metadata), now)
    {
      hide Prune, OneCode;
      PruneExpired(now);
      saved := client in clients || |clients| < cfg.maxClients;
      if saved {
        ClientsOneCode(Tables(), client, metadata);
        clients := clients[client := metadata];
      }
    }

    method SavePendingLimited(id: RequestId, request: Request, expires: real, now: real) returns (saved: bool)
      requires Valid() && forall c :: c in codes ==> codes[c].requestId != id
      modifies this
      ensures Valid() && (Tables(), Stored(saved)) == Step(old(Tables()), cfg, SavePending(id, request, expires), now)
    {
      PrunedCodes(Tables(), now);
      hide Prune, OneCode;
      PruneExpired(now);
      var total := |pending|;
      var perClient := |set r | r in pending && pending[r].request.client == request.client|;
      assert (set r | r in pending && pending[r].request.client == request.client)
          == PendingOfClient(pending, request.client);
      saved := total < cfg.maxPending && perClient < cfg.maxPendingPerClient;
      if saved {
        PendingOneCode(Tables(), id, PendingRow(request, expires));
        pending := pending[id := PendingRow(request, expires)];
      }
    }

    method LoadPendingRequest(id: RequestId, now: real) returns (row: Option<PendingRow>)
      requires Valid()
      modifies this`pending
      ensures Valid() && (Tables(), PendingIs(row)) == Step(old(Tables()), cfg, LoadPending(id), now)
    {
      hide OneCode, KeepPending;
      LoadedPending(Tables(), now);
      pending := DropOldPending(pending, now);
      row := if id in pending then Some(pending[id]) else None;
    }

    method ConsumePendingForCode(id: RequestId, code: Code, now: real) returns (row: Option<PendingRow>)
      requires Valid() && code !in codes
      modifies this
      ensures Valid()
      ensures (Tables(), if row.Some? then Approved(row.value, code) else Missing)
          == Step(old(Tables()), cfg, Approve(id, code), now)
    {
      PrunedCodes(Tables(), now);
      hide Prune, OneCode;
      PruneExpired(now);
      row := if id in pending then Some(pending[id]) else None;
      if row.Some? {
        ApproveOneCode(Tables(), id, code, CodeFor(row.value, id, cfg, now));
        pending := pending - {id};
        codes := codes[code := CodeRow(row.value.request, cfg.subject, id, now + cfg.codeTtl)];
      }
    }

    method LoadCompletedApproval(id: RequestId, now: real) returns (code: Option<Code>)
      requires Valid()
      modifies this
      ensures Valid() && (Tables(), CompletedIs(code)) == Step(old(Tables()), cfg, LoadCompleted(id), now)
    {
      hide Prune;
      PruneExpired(now);
      code := None;
      if c :| c in codes && codes[c].requestId == id {
        code := Some(c);
      }
    }

    /** Approving: consume the pending request, or answer a retry with the code it already got. */
    method ApproveOrRepeat(id: RequestId, newCode: Code, now: real, later: real) returns (code: Option<Code>)
      requires Valid() && newCode !in codes
      modifies this
      ensures Valid()
      ensures var first := Step(old(Tables()), cfg, Approve(id, newCode), now);
              var second := Step(first.0, cfg, LoadCompleted(id), later);
              if first.1.Approved? then Tables() == first.0 && code == Some(newCode)
              else Tables() == second.0 && CompletedIs(code) == second.1
    {
      hide Step, OneCode;
      var row := ConsumePendingForCode(id, newCode, now);
      if row.Some? {
        code := Some(newCode);
      } else {
        code := LoadCompletedApproval(id, later);
      }
    }

    method DeletePending(id: RequestId, now: real) returns (row: Option<PendingRow>)
      requires Valid()
      modifies this
      ensures Valid()
      ensures (Tables(), if row.Some? then Denied(row.value) else Missing) == Step(old(Tables()), cfg, Deny(id), now)
    {
      hide Prune, OneCode;
      PruneExpired(now);
      row := if id in pending then Some(pending[id]) else None;
      if row.Some? {
        DropPendingOneCode(Tables(), id);
        pending := pending - {id};
      }
    }

    method ConsumeCodeAndIssueTokens(
        code: Code, client: ClientId, newAccess: Token, newRefresh: Token, grant: GrantId, now: real)
      returns (scopes: Option<seq<Scope>>, accessExpires: int, refreshExpires: int)
      requires Valid()
      modifies this
      ensures Valid()
      ensures (Tables(), if scopes.Some? then Issued(scopes.value, accessExpires, refreshExpires) else Missing)
           == Step(old(Tables()), cfg, Exchange(code, client, newAccess, newRefresh, grant), now)
    {
      hide Prune, OneCode, Step;
      scopes, accessExpires, refreshExpires := None, now.Floor + cfg.accessTtl, now.Floor + cfg.refreshTtl;
      if !(code in codes && codes[code].request.client == client && codes[code].expires > now) {
        ExchangeRefused(Tables(), cfg, code, client, newAccess, newRefresh, grant, now);
      } else {
        var row := codes[code];
        ExchangeDone(Tables(), cfg, code, client, newAccess, newRefresh, grant, now);
        PruneExpired(now);
        DropCodeOneCode(Tables(), code);
        codes := codes - {code};
        scopes := Some(row.request.scopes);
        var issuer, resource := cfg.issuer, row.request.resource;
        InsertTokens(
          newAccess, TokenRow(grant, client, row.request.scopes, accessExpires, issuer, resource, row.subject),
          newRefresh, TokenRow(grant, client, row.request.scopes, refreshExpires, issuer, resource, row.subject));
      }
    }

    method InsertTokens(a: Token, accessRow: TokenRow, r: Token, refreshRow: TokenRow)
      requires Valid()
      modifies this`access, this`refresh
      ensures Valid() && access == old(access)[a := accessRow] && refresh == old(refresh)[r := refreshRow]
    {
      hide OneCode;
      TokensOneCode(Tables(), access[a := accessRow], refresh[r := refreshRow]);
      access := access[a := accessRow];
      refresh := refresh[r := refreshRow];
    }

    method DropRefresh(token: Token)
      requires Valid()
      modifies this`refresh
      ensures Valid() && refresh == old(refresh) - {token}
    {
      hide OneCode;
      TokensOneCode(Tables(), access, refresh - {token});
      refresh := refresh - {token};
    }

    method DropGrant(grant: GrantId)
      requires Valid()
      modifies this`access, this`refresh
      ensures Valid() && Tables() == Revoked(old(Tables()), grant)
    {
      hide OneCode, WithoutGrant;
      TokensOneCode(Tables(), WithoutGrant(access, grant), WithoutGrant(refresh, grant));
      access := DropGrantTokens(access, grant);
      refresh := DropGrantTokens(refresh, grant);
    }

    method LoadAccessToken(token: Token, now: real) returns (row: Option<TokenRow>)
      ensures TokenIs(row) == Step(Tables(), cfg, LoadAccess(token), now).1
    {
      row := if token in access && access[token].expires > now.Floor then Some(access[token]) else None;
    }

    method LoadRefreshToken(token: Token, client: ClientId, now: real) returns (row: Option<TokenRow>)
      ensures TokenIs(row) == Step(Tables(), cfg, LoadRefresh(token, client), now).1
    {
      row := if token in refresh && refresh[token].client == client && refresh[token].expires > now.Floor
          then Some(refresh[token]) else None;
    }

    method RotateRefresh(
        token: Token, client: ClientId, scopes: seq<Scope>, newAccess: Token, newRefresh: Token, now: real)
      returns (reply: Reply)
      requires Valid()
      modifies this
      ensures Valid() && (Tables(), reply)
          == Step(old(Tables()), cfg, Rotate(token, client, scopes, newAccess, newRefresh), now)
    {
      hide Prune, OneCode;
      var second := now.Floor;
      if !(token in refresh && refresh[token].client == client && refresh[token].expires > second) {
        reply := Missing;
      } else {
        var row := refresh[token];
        var within := IsSubset(scopes, row.scopes);
        if !within {
          reply := ScopeError;
        } else {
          PruneExpired(second as real);
          DropRefresh(token);
          var a, r := second + cfg.accessTtl, second + cfg.refreshTtl;
          InsertTokens(newAccess, TokenRow(row.grant, client, scopes, a, row.issuer, row.resource, row.subject),
                       newRefresh, TokenRow(row.grant, client, scopes, r, row.issuer, row.resource, row.subject));
          reply := Issued(scopes, a, r);
        }
      }
    }

    /** Whether every requested scope is among the allowed ones. */
    static method IsSubset(scopes: seq<Scope>, allowed: seq<Scope>) returns (within: bool)
      ensures within == Subscopes(scopes, allowed)
    {
      within := true;
      for i := 0 to |scopes|
        invariant within == Subscopes(scopes[..i], allowed)
      {
        within := within && scopes[i] in allowed;
      }
      assert scopes[..|scopes|] == scopes;
    }

    method RevokeToken(token: Token, now: real)
      requires Valid()
      modifies this
      ensures Valid() && (Tables(), Nothing) == Step(old(Tables()), cfg, Revoke(token), now)
    {
      hide Prune, OneCode;
      if token in access || token in refresh {
        var grant := if token in access then access[token].grant else refresh[token].grant;
        PruneExpired(now);
        DropGrant(grant);
      }
    }
  }

  lemma LoadedPending(s: Store, now: real)
    requires OneCode(s)
    ensures OneCode(s.(pending := KeepPending(s.pending, now)))
  {
  }

  /** The whole effect of a successful exchange. */
  lemma ExchangeDone(
      s: Store, cfg: Settings, code: Code, client: ClientId, a: Token, r: Token, grant: GrantId, now: real)
    requires CodeUsable(s, code, client, now)
    ensures var p, row := Prune(s, now), s.codes[code];
            Step(s, cfg, Exchange(code, client, a, r, grant), now) ==
            (p.(codes := p.codes - {code},
                access := p.access[a := TokenRow(grant, client, row.request.scopes, now.Floor + cfg.accessTtl,
                    cfg.issuer, row.request.resource, row.subject)],
                refresh := p.refresh[r := TokenRow(grant, client, row.request.scopes, now.Floor + cfg.refreshTtl,
                    cfg.issuer, row.request.resource, row.subject)]),
             Issued(row.request.scopes, now.Floor + cfg.accessTtl, now.Floor + cfg.refreshTtl))
  {
    hide Prune;
  }

  lemma ExchangeRefused(
      s: Store, cfg: Settings, code: Code, client: ClientId, a: Token, r: Token, grant: GrantId, now: real)
    requires !CodeUsable(s, code, client, now)
    ensures Step(s, cfg, Exchange(code, client, a, r, grant), now) == (s, Missing)
  {
    hide Prune;
  }

  lemma PruneOneCode(s: Store, now: real)
    requires OneCode(s)
    ensures OneCode(Prune(s, now))
  {
  }

  lemma PrunedCodes(s: Store, now: real)
    ensures forall c :: c in Prune(s, now).codes ==> c in s.codes && Prune(s, now).codes[c] == s.codes[c]
  {
  }

  lemma ClientsOneCode(s: Store, client: ClientId, metadata: string)
    requires OneCode(s)
    ensures OneCode(s.(clients := s.clients[client := metadata]))
  {
  }

  lemma PendingOneCode(s: Store, id: RequestId, row: PendingRow)
    requires OneCode(s) && forall c :: c in s.codes ==> s.codes[c].requestId != id
    ensures OneCode(s.(pending := s.pending[id := row]))
  {
  }

  lemma ApproveOneCode(s: Store, id: RequestId, code: Code, row: CodeRow)
    requires OneCode(s) && id in s.pending && code !in s.codes && row.requestId == id
    ensures OneCode(s.(pending := s.pending - {id}, codes := s.codes[code := row]))
  {
  }

  lemma DropPendingOneCode(s: Store, id: RequestId)
    requires OneCode(s)
    ensures OneCode(s.(pending := s.pending - {id}))
  {
  }

  lemma DropCodeOneCode(s: Store, code: Code)
    requires OneCode(s)
    ensures OneCode(s.(codes := s.codes - {code}))
  {
  }

  lemma TokensOneCode(s: Store, access: map<Token, TokenRow>, refresh: map<Token, TokenRow>)
    requires OneCode(s)
    ensures OneCode(s.(access := access, refresh := refresh))
  {
  }
}
