/** What the grant store promises over whole runs. */
module OAuthOutcomes {
  import opened Collections
  import opened OAuthModel
  import opened OAuthFamilies

  // ------------------------------------------------------- exact answers now

  /** A code can be exchanged exactly when it was issued to this client, has not been
      exchanged and has not expired. */
  lemma ExchangeExactly(
      w: World, cfg: Settings, code: Code, client: ClientId, a: Token, r: Token, grant: GrantId, now: real)
    requires Inv(w, cfg) && w.clock <= now
    ensures Answer(w, cfg, Exchange(code, client, a, r, grant), now).Issued? <==>
            code in w.reqs.issued && code !in w.reqs.exchanged && w.reqs.issued[code].expires > now
            && w.reqs.issued[code].request.client == client
  {
    hide PendingOk, VerdictsOk, SourcesOk, TokensOk, TableOk, TablesComplete, OneRefresh, ParentsOk, Caps, Prune,
      Exchanged, FirstToken;
  }

  /** A request on record that has not been decided and has not expired. */
  predicate Undecided(w: World, id: RequestId, now: real) {
    id in w.reqs.authorized && id !in w.reqs.approvals && id !in w.reqs.denials && w.reqs.authorized[id].expires > now
  }

  /** A request can be seen, approved and denied exactly while it is undecided and unexpired. */
  lemma DecidableExactly(w: World, cfg: Settings, id: RequestId, code: Code, now: real)
    requires Inv(w, cfg) && w.clock <= now
    ensures Answer(w, cfg, LoadPending(id), now)
        == PendingIs(if Undecided(w, id, now) then Some(w.reqs.authorized[id]) else None)
    ensures Answer(w, cfg, Approve(id, code), now) ==
        if Undecided(w, id, now) then Approved(w.reqs.authorized[id], code) else Missing
    ensures Answer(w, cfg, Deny(id), now) == if Undecided(w, id, now) then Denied(w.reqs.authorized[id]) else Missing
  {
    hide CodesOk, VerdictsOk, SourcesOk, TokensOk, TableOk, TablesComplete, OneRefresh, ParentsOk, Caps, CodeFor,
      KeepCodes, KeepTokens;
  }

  /** A retried approval gets the code of the first one exactly while that code is unexchanged
      and unexpired. */
  lemma CompletedExactly(w: World, cfg: Settings, id: RequestId, now: real)
    requires Inv(w, cfg) && w.clock <= now
    ensures Answer(w, cfg, LoadCompleted(id), now) == CompletedIs(
              if id in w.reqs.approvals && w.reqs.approvals[id] in w.reqs.issued
                 && w.reqs.approvals[id] !in w.reqs.exchanged && w.reqs.issued[w.reqs.approvals[id]].expires > now
              then Some(w.reqs.approvals[id]) else None)
  {
    var codes := Prune(w.store, now).codes;
    assert codes == KeepCodes(w.store.codes, now);
    CompletedCode(w.reqs, w.store.codes, w.clock, id, now);
  }

  lemma CompletedCode(q: Requests, codes: map<Code, CodeRow>, clock: real, id: RequestId, now: real)
    requires CodesOk(q, codes, clock) && VerdictsOk(q) && clock <= now
    ensures CodeOf(KeepCodes(codes, now), id) ==
            if id in q.approvals && q.approvals[id] !in q.exchanged && q.issued[q.approvals[id]].expires > now
            then Some(q.approvals[id]) else None
  {
    var kept := KeepCodes(codes, now);
    if exists c :: c in kept && kept[c].requestId == id {
      var c :| c in kept && kept[c].requestId == id;
      assert q.issued[c].requestId == id && q.approvals[id] == c;
    }
    if id in q.approvals && q.approvals[id] !in q.exchanged && q.issued[q.approvals[id]].expires > now {
      assert kept[q.approvals[id]].requestId == id;
    }
  }

  /** An access token is honoured exactly when it was issued, its grant is not revoked and it
      has not expired. */
  lemma AccessExactly(w: World, cfg: Settings, t: Token, now: real)
    requires Inv(w, cfg) && w.clock <= now
    ensures Answer(w, cfg, LoadAccess(t), now) == TokenIs(
              if t in w.grants.accessIds && t in w.grants.tokens && w.grants.tokens[t].grant !in w.grants.revoked
                 && w.grants.tokens[t].expires > now.Floor
              then Some(w.grants.tokens[t]) else None)
  {
    hide PendingOk, CodesOk, VerdictsOk, SourcesOk, TokensOk, OneRefresh, ParentsOk, Caps;
    assert w.clock.Floor <= now.Floor;
  }

  /** A refresh token is honoured exactly when it was issued to this client, has not been spent,
      its grant is not revoked and it has not expired. */
  ghost predicate RefreshGood(w: World, t: Token, client: ClientId, now: real) {
    && t in w.grants.refreshIds && t in w.grants.tokens && t !in w.grants.spent
    && w.grants.tokens[t].grant !in w.grants.revoked
    && w.grants.tokens[t].client == client && w.grants.tokens[t].expires > now.Floor
  }

  lemma RefreshExactly(w: World, cfg: Settings, t: Token, client: ClientId, now: real)
    requires Inv(w, cfg) && w.clock <= now
    ensures RefreshUsable(w.store, t, client, now) <==> RefreshGood(w, t, client, now)
    ensures Answer(w, cfg, LoadRefresh(t, client), now)
        == TokenIs(if RefreshGood(w, t, client, now) then Some(w.grants.tokens[t]) else None)
  {
    hide PendingOk, CodesOk, VerdictsOk, SourcesOk, TokensOk, OneRefresh, ParentsOk, Caps;
    assert w.clock.Floor <= now.Floor;
  }

  lemma RotateExactly(
      w: World, cfg: Settings, t: Token, client: ClientId, scopes: seq<Scope>, a: Token, r: Token, now: real)
    requires Inv(w, cfg) && w.clock <= now
    ensures var reply := Answer(w, cfg, Rotate(t, client, scopes, a, r), now);
            && (reply == Missing <==> !RefreshGood(w, t, client, now))
            && (reply.Issued? <==> RefreshGood(w, t, client, now) && Subscopes(scopes, w.grants.tokens[t].scopes))
            && (reply == ScopeError <==>
                 RefreshGood(w, t, client, now) && !Subscopes(scopes, w.grants.tokens[t].scopes))
  {
    hide Inv, Prune, Rotated, NextToken, Subscopes, RefreshGood;
    RefreshExactly(w, cfg, t, client, now);
  }

  // ---------------------------------------------------------- history grows

  ghost predicate Grows(w: World, v: World) {
    && w.clock <= v.clock
    && (forall r :: r in w.reqs.authorized ==> r in v.reqs.authorized && v.reqs.authorized[r] == w.reqs.authorized[r])
    && (forall r :: r in w.reqs.approvals ==> r in v.reqs.approvals && v.reqs.approvals[r] == w.reqs.approvals[r])
    && w.reqs.denials <= v.reqs.denials
    && (forall c :: c in w.reqs.issued ==> c in v.reqs.issued && v.reqs.issued[c] == w.reqs.issued[c])
    && (forall c :: c in w.reqs.exchanged ==> c in v.reqs.exchanged && v.reqs.exchanged[c] == w.reqs.exchanged[c])
    && GrantsGrow(w.grants, v.grants)
  }

  ghost predicate GrantsGrow(g: Grants, h: Grants) {
    && (forall d :: d in g.source ==> d in h.source && h.source[d] == g.source[d])
    && (forall t :: t in g.tokens ==> t in h.tokens && h.tokens[t] == g.tokens[t])
    && g.accessIds <= h.accessIds && g.refreshIds <= h.refreshIds && g.spent <= h.spent && g.revoked <= h.revoked
  }

  lemma StepGrows(w: World, cfg: Settings, op: Op, now: real)
    requires Inv(w, cfg) && Enabled(w, op, now)
    ensures Grows(w, Next(w, cfg, op, now))
  {
    hide VerdictsOk, SourcesOk, TokensOk, TableOk, TablesComplete, OneRefresh, ParentsOk, Caps, Inv, GrantsGrow,
      TrackRequests, TrackGrants, Step;
    var reply := Step(w.store, cfg, op, now).1;
    RequestsGrow(w, cfg, op, now);
    GrantsGrowStep(w.grants, op, reply, w.store, Step(w.store, cfg, op, now).0);
  }

  lemma GrantsGrowStep(g: Grants, op: Op, reply: Reply, before: Store, after: Store)
    requires match op
             case Exchange(_, _, a, r, grant) => a !in g.tokens && r !in g.tokens && grant !in g.source
             case Rotate(_, _, _, a, r) => a !in g.tokens && r !in g.tokens
             case _ => true
    ensures GrantsGrow(g, TrackGrants(g, op, reply, before, after))
  {
    hide GrantOf;
  }

  lemma RequestsGrow(w: World, cfg: Settings, op: Op, now: real)
    requires Inv(w, cfg) && Enabled(w, op, now)
    ensures var q, p := w.reqs, TrackRequests(w.reqs, op, Step(w.store, cfg, op, now).1, cfg, now);
            && (forall r :: r in q.authorized ==> r in p.authorized && p.authorized[r] == q.authorized[r])
            && (forall r :: r in q.approvals ==> r in p.approvals && p.approvals[r] == q.approvals[r])
            && q.denials <= p.denials
            && (forall c :: c in q.issued ==> c in p.issued && p.issued[c] == q.issued[c])
            && (forall c :: c in q.exchanged ==> c in p.exchanged && p.exchanged[c] == q.exchanged[c])
  {
    hide Inv, Step, CodeFor;
    var reply := Answer(w, cfg, op, now);
    if (op.Approve? || op.Deny?) && (reply.Approved? || reply.Denied?) {
      VerdictNeedsPending(w, cfg, op, now);
    }
    if op.Exchange? && reply.Issued? {
      ExchangeNeedsCode(w, cfg, op, now);
    }
  }

  /** Verdicts are only given on pending requests, which have had none. */
  lemma VerdictNeedsPending(w: World, cfg: Settings, op: Op, now: real)
    requires Inv(w, cfg) && (op.Approve? || op.Deny?)
    requires Answer(w, cfg, op, now).Approved? || Answer(w, cfg, op, now).Denied?
    ensures op.id in w.reqs.authorized && op.id !in w.reqs.approvals && op.id !in w.reqs.denials
    ensures op.Approve? ==> Answer(w, cfg, op, now).Approved? && Answer(w, cfg, op, now).code == op.code
  {
    hide CodesOk, VerdictsOk, SourcesOk, TokensOk, TableOk, TablesComplete, OneRefresh, ParentsOk, Caps, CodeFor,
      KeepCodes, KeepTokens;
  }

  lemma ExchangeNeedsCode(w: World, cfg: Settings, op: Op, now: real)
    requires Inv(w, cfg) && op.Exchange? && Answer(w, cfg, op, now).Issued?
    ensures op.code in w.reqs.issued && op.code !in w.reqs.exchanged
  {
    hide PendingOk, VerdictsOk, SourcesOk, TokensOk, TableOk, TablesComplete, OneRefresh, ParentsOk, Caps, Prune,
      Exchanged, FirstToken;
  }

  // ------------------------------------------------------------ over a run

  lemma {:induction false} RunGrows(ws: seq<World>, cfg: Settings, ops: seq<Op>, times: seq<real>, i: nat, j: nat)
    requires IsRun(ws, cfg, ops, times) && i <= j < |ws|
    ensures Grows(ws[i], ws[j])
    decreases j
  {
    hide Inv, Next, Enabled, Grows;
    if i == j {
      GrowsSelf(ws[i]);
    } else {
      RunGrows(ws, cfg, ops, times, i, j - 1);
      RunInv(ws, cfg, ops, times, j - 1);
      StepGrows(ws[j - 1], cfg, ops[j - 1], times[j - 1]);
      GrowsOn(ws[i], ws[j - 1], ws[j]);
    }
  }

  lemma GrowsSelf(w: World)
    ensures Grows(w, w)
  {
  }

  lemma GrowsOn(u: World, v: World, w: World)
    requires Grows(u, v) && Grows(v, w)
    ensures Grows(u, w)
  {
  }

  /** This call approves or denies request id. */
  ghost predicate Decides(w: World, cfg: Settings, op: Op, now: real, id: RequestId) {
    && (op.Approve? || op.Deny?) && op.id == id
    && (Answer(w, cfg, op, now).Approved? || Answer(w, cfg, op, now).Denied?)
  }

  /** After a decision the request is on record as decided. */
  lemma DecisionRecorded(w: World, cfg: Settings, op: Op, now: real, id: RequestId)
    requires Inv(w, cfg) && Decides(w, cfg, op, now, id)
    ensures var v := Next(w, cfg, op, now);
            && (op.Approve? ==> id in v.reqs.approvals && v.reqs.approvals[id] == op.code)
            && (op.Deny? ==> id in v.reqs.denials)
            && (op.Deny? <==> Answer(w, cfg, op, now).Denied?)
  {
    VerdictNeedsPending(w, cfg, op, now);
    hide Inv, Prune, CodeFor, TrackGrants;
  }

  /** A request is approved or denied at most once in a run, and never both. */
  lemma OneVerdict(ws: seq<World>, cfg: Settings, ops: seq<Op>, times: seq<real>, i: nat, j: nat, id: RequestId)
    requires IsRun(ws, cfg, ops, times) && i < |ops| && j < |ops|
    requires Decides(ws[i], cfg, ops[i], times[i], id) && Decides(ws[j], cfg, ops[j], times[j], id)
    ensures i == j
  {
    hide Inv, Next, Enabled, Answer;
    if i != j {
      var a, b := if i < j then i else j, if i < j then j else i;
      RunInv(ws, cfg, ops, times, a);
      RunInv(ws, cfg, ops, times, b);
      DecisionRecorded(ws[a], cfg, ops[a], times[a], id);
      RunGrows(ws, cfg, ops, times, a + 1, b);
      VerdictNeedsPending(ws[b], cfg, ops[b], times[b]);
    }
  }

  /** After an approval with code c, repeating it finds no pending request, and the fallback
      answers c as long as c is unexchanged and unexpired, and nothing afterwards. */
  lemma RetrySameCode(
      ws: seq<World>, cfg: Settings, ops: seq<Op>, times: seq<real>, i: nat, j: nat, id: RequestId, other: Code,
      now: real)
    requires IsRun(ws, cfg, ops, times) && i < j < |ws| && ws[j].clock <= now
    requires ops[i].Approve? && Decides(ws[i], cfg, ops[i], times[i], id)
    ensures Answer(ws[j], cfg, Approve(id, other), now) == Missing
    ensures ops[i].code in ws[j].reqs.issued
    ensures Answer(ws[j], cfg, LoadCompleted(id), now) == CompletedIs(
              if ops[i].code !in ws[j].reqs.exchanged && ws[j].reqs.issued[ops[i].code].expires > now
                  then Some(ops[i].code) else None)
  {
    hide Next, Enabled, Answer, PendingOk, CodesOk, SourcesOk, TokensOk, TableOk, TablesComplete, OneRefresh,
      ParentsOk, Caps;
    RunInv(ws, cfg, ops, times, i);
    RunInv(ws, cfg, ops, times, j);
    DecisionRecorded(ws[i], cfg, ops[i], times[i], id);
    RunGrows(ws, cfg, ops, times, i + 1, j);
    CompletedExactly(ws[j], cfg, id, now);
    ApprovedIsGone(ws[j], cfg, id, other, now);
  }

  lemma ApprovedIsGone(w: World, cfg: Settings, id: RequestId, code: Code, now: real)
    requires Inv(w, cfg) && id in w.reqs.approvals
    ensures Answer(w, cfg, Approve(id, code), now) == Missing
  {
    hide CodesOk, VerdictsOk, SourcesOk, TokensOk, TableOk, TablesComplete, OneRefresh, ParentsOk, Caps, CodeFor,
      KeepCodes, KeepTokens;
  }

  /** A code is exchanged at most once in a run. */
  lemma OneExchange(ws: seq<World>, cfg: Settings, ops: seq<Op>, times: seq<real>, i: nat, j: nat)
    requires IsRun(ws, cfg, ops, times) && i < |ops| && j < |ops|
    requires ops[i].Exchange? && ops[j].Exchange? && ops[i].code == ops[j].code
    requires Answer(ws[i], cfg, ops[i], times[i]).Issued? && Answer(ws[j], cfg, ops[j], times[j]).Issued?
    ensures i == j
  {
    hide Inv, Next, Enabled, Answer;
    if i != j {
      var a, b := if i < j then i else j, if i < j then j else i;
      RunInv(ws, cfg, ops, times, b);
      ExchangeRecorded(ws[a], cfg, ops[a], times[a]);
      RunGrows(ws, cfg, ops, times, a + 1, b);
      ExchangeNeedsCode(ws[b], cfg, ops[b], times[b]);
    }
  }

  lemma ExchangeRecorded(w: World, cfg: Settings, op: Op, now: real)
    requires op.Exchange? && Answer(w, cfg, op, now).Issued?
    ensures op.code in Next(w, cfg, op, now).reqs.exchanged
  {
    hide Prune, Exchanged, FirstToken, TrackGrants;
  }

  /** A request leads to one grant at most. */
  lemma OneGrantPerRequest(w: World, cfg: Settings, g: GrantId, h: GrantId)
    requires Inv(w, cfg) && g in w.grants.source && h in w.grants.source
    ensures w.grants.source[g] in w.reqs.issued && w.grants.source[h] in w.reqs.issued
    ensures w.reqs.issued[w.grants.source[g]].requestId == w.reqs.issued[w.grants.source[h]].requestId ==> g == h
  {
    hide PendingOk, CodesOk, TokensOk, TableOk, TablesComplete, OneRefresh, ParentsOk, Caps;
  }

  // ----------------------------------------------------------- grant families

  /** All tokens ever issued under one grant share client, issuer, resource and subject, and
      their scopes lie within what the request was authorized for. */
  lemma FamilyIsConstant(w: World, cfg: Settings, t: Token, u: Token)
    requires Inv(w, cfg) && t in w.grants.tokens && u in w.grants.tokens
        && w.grants.tokens[t].grant == w.grants.tokens[u].grant
    ensures var a, b := w.grants.tokens[t], w.grants.tokens[u];
            && a.client == b.client && a.issuer == b.issuer && a.resource == b.resource && a.subject == b.subject
            && a.grant in w.grants.source && w.grants.source[a.grant] in w.reqs.issued
            && var request := w.reqs.issued[w.grants.source[a.grant]].requestId;
               && request in w.reqs.authorized
               && a.client == w.reqs.authorized[request].request.client
                    && a.resource == w.reqs.authorized[request].request.resource
               && Subscopes(a.scopes, w.reqs.authorized[request].request.scopes)
  {
    hide PendingOk, CodesOk, SourcesOk, TableOk, TablesComplete, OneRefresh, ParentsOk, Caps, Subscopes;
    assert RowOk(w.reqs, w.grants, w.grants.tokens[t], cfg.issuer);
    assert RowOk(w.reqs, w.grants, w.grants.tokens[u], cfg.issuer);
  }

  /** A line of refresh tokens, each replaced by the next. */
  ghost predicate IsLine(g: Grants, line: seq<Token>) {
    && |line| > 0 && line[0] in g.tokens
    && forall i :: 0 < i < |line| ==> line[i] in g.parent && g.parent[line[i]] == line[i - 1]
  }

  /** Scopes only shrink along a line of rotations, which stays in one grant. */
  lemma {:induction false} ScopesShrink(w: World, cfg: Settings, line: seq<Token>)
    requires Inv(w, cfg) && IsLine(w.grants, line)
    ensures line[|line| - 1] in w.grants.tokens
    ensures w.grants.tokens[line[|line| - 1]].grant == w.grants.tokens[line[0]].grant
    ensures Subscopes(w.grants.tokens[line[|line| - 1]].scopes, w.grants.tokens[line[0]].scopes)
  {
    hide PendingOk, CodesOk, VerdictsOk, SourcesOk, TokensOk, TableOk, TablesComplete, OneRefresh, Caps;
    if |line| > 1 {
      var shorter := line[..|line| - 1];
      assert IsLine(w.grants, shorter);
      ScopesShrink(w, cfg, shorter);
      var last := line[|line| - 1];
      assert w.grants.parent[last] == shorter[|shorter| - 1];
    }
  }

  /** Every rotation is recorded as one link of the line, and spends the old token. */
  lemma RotationLinks(w: World, cfg: Settings, op: Op, now: real)
    requires Inv(w, cfg) && Enabled(w, op, now) && op.Rotate? && Answer(w, cfg, op, now).Issued?
    ensures var v := Next(w, cfg, op, now);
            && op.newRefresh in v.grants.parent && v.grants.parent[op.newRefresh] == op.token
            && op.token in v.grants.spent && op.newRefresh !in v.grants.spent
            && op.newRefresh in v.store.refresh && op.newAccess in v.store.access
            && v.store.refresh[op.newRefresh].scopes == op.scopes == v.store.access[op.newAccess].scopes
  {
    hide PendingOk, CodesOk, VerdictsOk, SourcesOk, TokensOk, TableOk, OneRefresh, ParentsOk, Caps, Prune, Subscopes,
      TrackRequests;
  }

  /** A grant has at most one refresh row at any time. */
  lemma OneRefreshRow(ws: seq<World>, cfg: Settings, ops: seq<Op>, times: seq<real>, i: nat, t: Token, u: Token)
    requires IsRun(ws, cfg, ops, times) && i < |ws|
    requires t in ws[i].store.refresh && u in ws[i].store.refresh
        && ws[i].store.refresh[t].grant == ws[i].store.refresh[u].grant
    ensures t == u
  {
    RunInv(ws, cfg, ops, times, i);
    hide Next, Enabled, IsRun, PendingOk, CodesOk, VerdictsOk, SourcesOk, TokensOk, TableOk, TablesComplete,
      ParentsOk, Caps;
  }

  /** Once a member token has been revoked, no token of its grant exists ever again, and none is
      honoured, whichever member was presented. */
  lemma RevokeIsFinal(
      ws: seq<World>, cfg: Settings, ops: seq<Op>, times: seq<real>, i: nat, j: nat, t: Token, client: ClientId,
      now: real)
    requires IsRun(ws, cfg, ops, times) && i < j < |ws| && ws[j].clock <= now
    requires ops[i].Revoke? && (ops[i].token in ws[i].store.access || ops[i].token in ws[i].store.refresh)
    ensures var grant := GrantOf(ws[i].store, ops[i].token);
            && (forall x :: x in ws[j].store.access ==> ws[j].store.access[x].grant != grant)
            && (forall x :: x in ws[j].store.refresh ==> ws[j].store.refresh[x].grant != grant)
            && (t in ws[j].grants.tokens && ws[j].grants.tokens[t].grant == grant ==>
                  && Answer(ws[j], cfg, LoadAccess(t), now) == TokenIs(None)
                  && Answer(ws[j], cfg, LoadRefresh(t, client), now) == TokenIs(None))
  {
    hide Next, Enabled, Answer, PendingOk, CodesOk, VerdictsOk, SourcesOk, TokensOk, TablesComplete, OneRefresh,
      ParentsOk, Caps, GrantOf;
    RunInv(ws, cfg, ops, times, j);
    RevokeRecorded(ws[i], cfg, ops[i], times[i]);
    RunGrows(ws, cfg, ops, times, i + 1, j);
    AccessExactly(ws[j], cfg, t, now);
    RefreshExactly(ws[j], cfg, t, client, now);
  }

  lemma RevokeRecorded(w: World, cfg: Settings, op: Op, now: real)
    requires op.Revoke? && (op.token in w.store.access || op.token in w.store.refresh)
    ensures GrantOf(w.store, op.token) in Next(w, cfg, op, now).grants.revoked
  {
    hide Prune, Revoked, TrackRequests;
  }

  /** The table caps hold in every state of every run. */
  lemma CapsHold(ws: seq<World>, cfg: Settings, ops: seq<Op>, times: seq<real>, i: nat, client: ClientId)
    requires IsRun(ws, cfg, ops, times) && i < |ws|
    ensures |ws[i].store.clients| <= cfg.maxClients
    ensures |ws[i].store.pending| <= cfg.maxPending
    ensures |PendingOfClient(ws[i].store.pending, client)| <= cfg.maxPendingPerClient
  {
    RunInv(ws, cfg, ops, times, i);
    hide Next, Enabled, IsRun, PendingOk, CodesOk, VerdictsOk, SourcesOk, TokensOk, TableOk, TablesComplete,
      OneRefresh, ParentsOk;
  }

  // ------------------------------------------------------------ authorization

  datatype Params = Params(
    scopes: Option<seq<Scope>>, resource: Option<string>, challenge: string, redirect: string, redirectExplicit: bool,
        state: Option<string>)

  datatype Authorization = InvalidTarget | InvalidScope | Authorized(request: Request)

  /** An authorization request of a client: missing or empty fields take the configured
      values, and only the configured resource and scopes are allowed. */
  function Authorize(client: ClientId, p: Params, resourceUrl: string, allowed: seq<Scope>): Authorization {
    var resource := if p.resource.None? || p.resource.value == "" then resourceUrl else p.resource.value;
    var scopes := if p.scopes.None? || p.scopes.value == [] then allowed else p.scopes.value;
    if resource != resourceUrl then InvalidTarget
    else if !Subscopes(scopes, allowed) then InvalidScope
    else Authorized(Request(client, scopes, p.challenge, p.redirect, p.redirectExplicit, resource, p.state))
  }

  /** Every pending request saved in the run came out of Authorize. */
  ghost predicate OnlyAuthorized(ops: seq<Op>, resourceUrl: string, allowed: seq<Scope>) {
    forall i :: 0 <= i < |ops| && ops[i].SavePending? ==>
      exists p :: Authorize(ops[i].request.client, p, resourceUrl, allowed) == Authorized(ops[i].request)
  }

  ghost predicate Within(q: Requests, resourceUrl: string, allowed: seq<Scope>) {
    forall r :: r in q.authorized ==>
        q.authorized[r].request.resource == resourceUrl && Subscopes(q.authorized[r].request.scopes, allowed)
  }

  lemma {:induction false} RunWithin(
      ws: seq<World>, cfg: Settings, ops: seq<Op>, times: seq<real>, resourceUrl: string, allowed: seq<Scope>, i: nat)
    requires IsRun(ws, cfg, ops, times) && OnlyAuthorized(ops, resourceUrl, allowed) && i < |ws|
    ensures Within(ws[i].reqs, resourceUrl, allowed)
  {
    hide Enabled, Step, TrackGrants, Subscopes;
    if i > 0 {
      RunWithin(ws, cfg, ops, times, resourceUrl, allowed, i - 1);
    }
  }

  /** With requests admitted by Authorize, no token ever issued, at any depth of rotation,
      exceeds the configured scopes or names another resource. */
  lemma TokensWithinConfiguration(
      ws: seq<World>, cfg: Settings, ops: seq<Op>, times: seq<real>, resourceUrl: string, allowed: seq<Scope>, i: nat,
      t: Token)
    requires IsRun(ws, cfg, ops, times) && OnlyAuthorized(ops, resourceUrl, allowed) && i < |ws|
        && t in ws[i].grants.tokens
    ensures ws[i].grants.tokens[t].resource == resourceUrl && Subscopes(ws[i].grants.tokens[t].scopes, allowed)
  {
    hide Next, Enabled, Inv, IsRun, OnlyAuthorized;
    RunInv(ws, cfg, ops, times, i);
    RunWithin(ws, cfg, ops, times, resourceUrl, allowed, i);
    FamilyIsConstant(ws[i], cfg, t, t);
  }
}
