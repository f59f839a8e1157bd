/** What each call to the job controller answers, and exactly what it leaves, stated on the records
    and not on the steps that write them. */
module RemoteWorkerCalls {
  import opened Collections
  import opened JsText
  import opened MachineNames
  import opened RemoteWorkerProfile
  import opened RemoteWorkerModel
  import opened RemoteWorkerProofs
  import opened RemoteWorkerProperties

  // ------------------------------------------------------------------- invites

  function LiveInvites(s: State): map<InviteCode, Invite> {
    map c | c in s.book.invites && s.now < s.book.invites[c].expiresAt :: s.book.invites[c]
  }

  predicate GoodDir(dir: string) { 1 <= |dir| <= 4096 }

  /** The state differs at most in the invites. */
  predicate OnlyInvites(s: State, s1: State, invites: map<InviteCode, Invite>) {
    s1 == s.(book := s.book.(invites := invites, issued := s1.book.issued))
  }

  lemma CreateInviteExactly(s: State, name: Option<string>, workdir: Option<string>, ttl: int, code: InviteCode)
    ensures var (s1, answer) := CreateInvite(s, name, workdir, ttl, code);
            var configured := s.cfg.publicBaseUrl != "";
            var full := |LiveInvites(s)| >= 32;
            var good := (name.Some? ==> ValidName(name.value)) && (workdir.Some? ==> GoodDir(workdir.value))
                        && 60 <= ttl <= 86400;
            var taken := name.Some? && name.value in s.ids.table;
            && (answer == Failed(ConfigurationError) <==> !configured)
            && (answer == Failed(ResourceLimit) <==> configured && full)
            && (answer == Failed(InvalidRequest) <==> configured && !full && !good)
            && (answer == Failed(Conflict) <==> configured && !full && good && taken)
            && (answer == Invited <==> configured && !full && good && !taken)
            && (if answer == Failed(ConfigurationError) then s1 == s
                else if answer == Invited then
                  OnlyInvites(s, s1, LiveInvites(s)[code := Invite(name, workdir, s.now + ttl * 1000)])
                  && s1.book.issued == s.book.issued + {code}
                else OnlyInvites(s, s1, LiveInvites(s)) && s1.book.issued == s.book.issued)
  {
    hide ValidName;
    assert LiveInvites(s) == PruneInvites(s.book, s.now).invites;
  }

  // -------------------------------------------------------------- registration

  /** The name a registration gives: trimmed, and none if it is empty. */
  predicate Asks(given: Option<string>, name: Option<string>) {
    if given == None || given == Some("") then name == None
    else name.Some? && name.value == (if |given.value| > 128 then given.value else Trim(given.value))
  }

  lemma GivenIs(given: Option<string>)
    ensures Asks(given, GivenName(given))
  {
    hide Trim;
  }

  predicate GoodItem(i: Item) { i.Str? && |i.chars| <= 128 && Trim(i.chars) != "" }

  predicate GoodCapabilities(c: Capabilities) {
    c == NoCapabilities || (c.Listed? && |c.items| <= 32 && forall i :: i in c.items ==> GoodItem(i))
  }

  ghost predicate GoodInfo(i: Info) {
    || i == NoInfo
    || (i.Fields? && |i.values| <= 32
        && forall k :: k in i.values ==> 1 <= |k| <= 128 && i.values[k] != Compound
                                         && (i.values[k].Text? ==> |i.values[k].chars| <= 2048))
  }

  predicate GoodVersion(v: Version) { v == Unstated || v == Stated(1) }

  lemma ProfileIs(p: Profile)
    ensures Supported(p.version) <==> GoodVersion(p.version)
    ensures ValidCapabilities(p.capabilities) <==> GoodCapabilities(p.capabilities)
    ensures ValidInfo(p.info) <==> GoodInfo(p.info)
  {
    hide Trim;
    if ValidCapabilities(p.capabilities) && p.capabilities.Listed? {
      forall i | i in p.capabilities.items ensures GoodItem(i) {
        var k :| 0 <= k < |p.capabilities.items| && p.capabilities.items[k] == i;
        assert ValidItem(p.capabilities.items[k]);
      }
    }
    if GoodCapabilities(p.capabilities) && p.capabilities.Listed? {
      forall k | 0 <= k < |p.capabilities.items| ensures ValidItem(p.capabilities.items[k]) {
        assert GoodItem(p.capabilities.items[k]);
      }
    }
  }

  /** A stored record says what its machine last said. */
  ghost predicate Records(w: Worker, token: Token, dir: string, p: Profile) {
    && w.token == token && w.workdir == dir
    && (p.capabilities.Listed? ==>
          && |w.capabilities| == |p.capabilities.items|
          && forall k :: 0 <= k < |w.capabilities| && p.capabilities.items[k].Str? ==>
               w.capabilities[k] == Trim(p.capabilities.items[k].chars))
    && (p.info.Fields? ==> w.info == p.info.values)
  }

  /** The working directory of a registration: its own, else the invite's. */
  function DirOf(invite: Invite, workdir: Option<string>): string {
    if workdir.Some? then workdir.value else if invite.workdir.Some? then invite.workdir.value else ""
  }

  /** The text of an info field a name is made from. */
  predicate InfoSays(p: Profile, key: string, text: string) {
    if p.info.Fields? && key in p.info.values && (p.info.values[key].Text? || p.info.values[key].Printed?)
    then text == p.info.values[key].chars else text == ""
  }

  lemma InfoIs(p: Profile, key: string)
    ensures InfoSays(p, key, InfoText(p.info, key))
  {
  }

  /** The name a registration asks for: its own, else the one the invite is bound to, else one made
      from user and host. */
  predicate Wants(invite: Invite, name: Option<string>, p: Profile, wanted: string) {
    if name.Some? then wanted == name.value
    else if invite.name.Some? then wanted == invite.name.value
    else wanted == DefaultName(InfoText(p.info, "user"), InfoText(p.info, "hostname"))
  }

  /** What a registration with a live invite runs into, in order. */
  ghost predicate RefusedFor(
      ids: Identities, invite: Invite, name: Option<string>, wanted: string, p: Profile, workdir: Option<string>,
          e: ErrorCode)
  {
    var named := name.Some? ==> ValidName(name.value);
    var bound := invite.name.Some? && name.Some? && invite.name.value != name.value;
    var taken := wanted in ids.table && (name.Some? || invite.name.Some?);
    var fits := GoodDir(DirOf(invite, workdir)) && GoodCapabilities(p.capabilities);
    match e
    case InvalidRequest => !named || (!bound && !GoodInfo(p.info)) || (!bound && !taken && !fits)
    case InvalidInvite => named && bound
    case Conflict => named && !bound && GoodInfo(p.info) && taken
    case _ => false
  }

  lemma RegisterErrorIs(
      ids: Identities, invite: Invite, name: Option<string>, p: Profile, workdir: Option<string>, e: ErrorCode)
    ensures var wanted := WantedName(invite, name, p);
            && Wants(invite, name, p, wanted)
            && (RegisterError(ids, invite, name, p, workdir) == Some(e) <==>
                  RefusedFor(ids, invite, name, wanted, p, workdir, e))
  {
    hide ValidName, ValidCapabilities, GoodCapabilities, ValidInfo, GoodInfo, DefaultName, InfoText, Supported;
    ProfileIs(p);
  }

  /** The name an enrolled machine gets: the wanted one if it is free, else that one with a suffix
      that makes it free. */
  predicate Enrols(table: map<string, Worker>, wanted: string, name: string) {
    name !in table && if wanted !in table then name == wanted
        else name == Candidate(wanted, NextFree(table.Keys, wanted, 2))
  }

  lemma RecordedIs(token: Token, invite: Invite, p: Profile, workdir: Option<string>)
    requires ValidCapabilities(p.capabilities)
    ensures Records(NewWorker(token, invite, p, workdir), token, DirOf(invite, workdir), p)
    ensures var w := NewWorker(token, invite, p, workdir);
            (p.capabilities == NoCapabilities ==> w.capabilities == []) && (p.info == NoInfo ==> w.info == map[])
  {
    hide Trim;
  }

  /** A registration is refused, for the first thing that is wrong, or enrols one machine: a new
      identity, a name that was free, a record of what the machine said, and a fresh runtime record;
      the invite is used up, and no other machine, job or poll changes. */
  lemma RegisterExactly(
      s: State, code: InviteCode, given: Option<string>, p: Profile, workdir: Option<string>, token: Token)
    requires Inv(s) && token !in s.ids.used && |s.ids.table| <= MAX_TABLE
    ensures var (s1, answer) := Register(s, code, given, p, workdir, token);
            var live := LiveInvites(s);
            var name := GivenName(given);
            && Asks(given, name)
            && (!GoodVersion(p.version) ==> answer == Failed(InvalidRequest) && s1 == s)
            && (GoodVersion(p.version) && code !in live ==>
                  answer == Failed(InvalidInvite) && s1 == s.(book := s.book.(invites := live)))
            && (GoodVersion(p.version) && code in live ==>
                  var wanted := WantedName(live[code], name, p);
                  && Wants(live[code], name, p, wanted)
                  && (forall e :: RefusedFor(s.ids, live[code], name, wanted, p, workdir, e) ==>
                        answer == Failed(e) && s1 == s.(book := s.book.(invites := live)))
                  && ((forall e :: !RefusedFor(s.ids, live[code], name, wanted, p, workdir, e)) ==>
                        && answer.Joined? && Enrols(s.ids.table, wanted, answer.name)
                        && Enrolled(s, s1, live, code, answer.name, token, DirOf(live[code], workdir), p)))
  {
    hide Inv, Register, RegisterError, ValidName, WantedName, Trim, GoodVersion, RefusedFor, Enrolled, GivenName,
      Asks, Wants,
      Enrols, LiveInvites;
    GivenIs(given);
    ProfileIs(p);
    var live, name := LiveInvites(s), GivenName(given);
    RegisterRefuses(s, code, given, p, workdir, token);
    if GoodVersion(p.version) && code in live {
      WantedExists(s.ids, live[code], name, p, workdir);
      forall e ensures RegisterError(s.ids, live[code], name, p, workdir) == Some(e) <==>
                       RefusedFor(s.ids, live[code], name, WantedName(live[code], name, p), p, workdir, e) {
        RegisterErrorIs(s.ids, live[code], name, p, workdir, e);
      }
      if RegisterError(s.ids, live[code], name, p, workdir).None? {
        RegisterEnrols(s, code, given, p, workdir, token);
      }
    }
  }

  lemma RegisterRefuses(
      s: State, code: InviteCode, given: Option<string>, p: Profile, workdir: Option<string>, token: Token)
    ensures var (s1, answer) := Register(s, code, given, p, workdir, token);
            var live := LiveInvites(s);
            && (!Supported(p.version) ==> answer == Failed(InvalidRequest) && s1 == s)
            && (Supported(p.version) && code !in live ==>
                  answer == Failed(InvalidInvite) && s1 == s.(book := s.book.(invites := live)))
            && (Supported(p.version) && code in live ==>
                  var error := RegisterError(s.ids, live[code], GivenName(given), p, workdir);
                  error.Some? ==> answer == Failed(error.value) && s1 == s.(book := s.book.(invites := live)))
  {
    hide RegisterError, Supported, GivenName, AddMachine, NewRuntime, Redeem, NewWorker, ChosenName, WantedName;
    assert LiveInvites(s) == PruneInvites(s.book, s.now).invites;
  }

  lemma RegisterEnrols(
      s: State, code: InviteCode, given: Option<string>, p: Profile, workdir: Option<string>, token: Token)
    requires Inv(s) && token !in s.ids.used && |s.ids.table| <= MAX_TABLE
    requires Supported(p.version) && code in LiveInvites(s)
    requires RegisterError(s.ids, LiveInvites(s)[code], GivenName(given), p, workdir).None?
    ensures var (s1, answer) := Register(s, code, given, p, workdir, token);
            var live := LiveInvites(s);
            && answer.Joined? && Enrols(s.ids.table, WantedName(live[code], GivenName(given), p), answer.name)
            && Enrolled(s, s1, live, code, answer.name, token, DirOf(live[code], workdir), p)
  {
    hide Inv, Register, ValidName, RegisterError, Supported, WantedName, ValidCapabilities, GivenName, Enrolled, Enrols,
      LiveInvites;
    var live, name := LiveInvites(s), GivenName(given);
    RegisterGoesThrough(s, code, given, p, workdir, token);
    NameIsFree(s, code, name, p, workdir);
    RecordedIs(token, live[code], p, workdir);
    var chosen := ChosenName(s.ids.table, WantedName(live[code], name, p));
    EnrolledIs(s, live, code, chosen, NewWorker(token, live[code], p, workdir), DirOf(live[code], workdir), p);
  }

  lemma RegisterGoesThrough(
      s: State, code: InviteCode, given: Option<string>, p: Profile, workdir: Option<string>, token: Token)
    requires Supported(p.version) && code in LiveInvites(s)
    requires RegisterError(s.ids, LiveInvites(s)[code], GivenName(given), p, workdir).None?
    ensures ValidCapabilities(p.capabilities)
    ensures var live := LiveInvites(s);
            var chosen := ChosenName(s.ids.table, WantedName(live[code], GivenName(given), p));
            Register(s, code, given, p, workdir, token) == (
              s.(book := Redeem(s.book.(invites := live), code),
                 ids := AddMachine(s.ids, chosen, NewWorker(token, live[code], p, workdir)),
                 mem := NewRuntime(s.mem, chosen, s.now)),
              Joined(chosen))
  {
    hide RegisterError, Supported, GivenName, AddMachine, NewRuntime, Redeem, NewWorker, ChosenName, WantedName;
    assert LiveInvites(s) == PruneInvites(s.book, s.now).invites;
  }

  lemma NameIsFree(s: State, code: InviteCode, name: Option<string>, p: Profile, workdir: Option<string>)
    requires Inv(s) && |s.ids.table| <= MAX_TABLE && code in LiveInvites(s)
    requires RegisterError(s.ids, LiveInvites(s)[code], name, p, workdir).None?
    ensures var wanted := WantedName(LiveInvites(s)[code], name, p);
            Enrols(s.ids.table, wanted, ChosenName(s.ids.table, wanted))
  {
    hide Registry, PollsOk, JobsOk, QueuesOk, ShortQueues, FewPending, ValidName, RegisterError, Candidate, NextFree,
      WantedName;
    assert LiveInvites(s) == PruneInvites(s.book, s.now).invites;
    PruneInvitesOk(s.book, s.now);
    NameAllowed(s.ids, LiveInvites(s)[code], name, p, workdir);
    WantedIsValid(PruneInvites(s.book, s.now), code, name, p);
    ChosenNameIsNew(s.ids, WantedName(LiveInvites(s)[code], name, p));
  }

  lemma EnrolledIs(
      s: State, live: map<InviteCode, Invite>, code: InviteCode, name: string, w: Worker, dir: string, p: Profile)
    requires Inv(s) && Records(w, w.token, dir, p)
    requires (p.capabilities == NoCapabilities ==> w.capabilities == []) && (p.info == NoInfo ==> w.info == map[])
    ensures Enrolled(
      s,
      s.(book := Redeem(s.book.(invites := live), code), ids := AddMachine(s.ids, name, w),
         mem := NewRuntime(s.mem, name, s.now)),
      live, code, name, w.token, dir, p)
  {
    hide Registry, PollsOk, JobsOk, QueuesOk, ShortQueues, FewPending, InvitesOk, Records;
    RuntimeExists(s.ids, s.mem, "");
  }

  lemma WantedExists(ids: Identities, invite: Invite, name: Option<string>, p: Profile, workdir: Option<string>)
    ensures Wants(invite, name, p, WantedName(invite, name, p))
  {
    hide DefaultName, InfoText;
  }

  lemma NameAllowed(ids: Identities, invite: Invite, name: Option<string>, p: Profile, workdir: Option<string>)
    requires RegisterError(ids, invite, name, p, workdir).None?
    ensures name.Some? ==> ValidName(name.value)
  {
    hide ValidName, WantedName, ValidCapabilities, ValidInfo;
  }

  /** One machine more. */
  ghost predicate Enrolled(
      s: State, s1: State, live: map<InviteCode, Invite>, code: InviteCode, name: string, token: Token, dir: string,
      p: Profile)
  {
    && s1.cfg == s.cfg && s1.now == s.now && s1.work == s.work && s1.polls == s.polls
    && s1.book == InviteBook(live - {code}, s.book.issued, s.book.redeemed + [code])
    && name in s1.ids.table && s1.ids.table == s.ids.table[name := s1.ids.table[name]]
    && Records(s1.ids.table[name], token, dir, p)
    && (p.capabilities == NoCapabilities ==> s1.ids.table[name].capabilities == [])
    && (p.info == NoInfo ==> s1.ids.table[name].info == map[])
    && s1.ids.tokens == s.ids.tokens[token := name] && s1.ids.used == s.ids.used + {token}
    && name in s1.mem.runtime && s1.mem.runtime == s.mem.runtime[name := s1.mem.runtime[name]]
    && s1.mem.runtime[name] !in s.mem.runtimes
    && s1.mem.runtimes == s.mem.runtimes[s1.mem.runtime[name] := Runtime(s.now, [], [])]
  }

  // ------------------------------------------------------------ known machines

  /** The machine's runtime record says that it was heard of now, and nothing else changed. */
  ghost predicate SeenNow(m: Memory, m1: Memory, name: string, now: int) {
    && name in m.runtime && m.runtime[name] in m.runtimes
    && var r := m.runtime[name];
       m1 == m.(runtimes := m.runtimes[r := Runtime(now, m.runtimes[r].queue, m.runtimes[r].waiters)])
  }

  lemma SeenIs(ids: Identities, m: Memory, token: Token, now: int)
    requires Registry(ids, m) && token in ids.tokens
    ensures ids.tokens[token] in ids.table && ids.table[ids.tokens[token]].token == token
    ensures SeenNow(m, MarkSeen(m, ids.tokens[token], now), ids.tokens[token], now)
    ensures Authenticate(ids, token) == None
  {
    TokenOfName(ids, m, token);
    RuntimeExists(ids, m, ids.tokens[token]);
    hide Registry;
  }

  /** A resuming machine's record: what it stated now, and otherwise what was stored. */
  ghost predicate Restated(a: Worker, b: Worker, workdir: Option<string>, p: Profile) {
    && Records(b, a.token, if workdir.Some? then workdir.value else a.workdir, p)
    && (p.capabilities == NoCapabilities ==> b.capabilities == a.capabilities)
    && (p.info == NoInfo ==> b.info == a.info)
  }

  lemma RestatedIs(w: Worker, workdir: Option<string>, p: Profile)
    requires ValidCapabilities(p.capabilities)
    ensures Restated(w, ResumedWorker(w, workdir, p), workdir, p)
  {
    hide Trim;
  }

  lemma ResumeExactly(s: State, token: Token, workdir: Option<string>, p: Profile)
    requires Inv(s)
    ensures var (s1, answer) := Resume(s, token, workdir, p);
            var known := token in s.ids.tokens;
            var good := GoodVersion(p.version) && (workdir.Some? ==> GoodDir(workdir.value))
                        && GoodCapabilities(p.capabilities) && GoodInfo(p.info);
            && (answer == Failed(Unauthorized) <==> !known)
            && (answer == Failed(InvalidRequest) <==> known && !good)
            && (answer.Joined? <==> known && good)
            && (answer.Joined? ==>
                  var name := s.ids.tokens[token];
                  && answer == Joined(name) && name in s.ids.table && name in s1.ids.table
                  && s1 == s.(ids := s.ids.(table := s.ids.table[name := s1.ids.table[name]]), mem := s1.mem)
                  && Restated(s.ids.table[name], s1.ids.table[name], workdir, p)
                  && SeenNow(s.mem, s1.mem, name, s.now))
            && (!answer.Joined? ==> s1 == s)
  {
    hide Registry, PollsOk, JobsOk, QueuesOk, ShortQueues, FewPending, InvitesOk, Supported, GoodVersion,
      ValidCapabilities,
      GoodCapabilities, ValidInfo, GoodInfo, ResumedWorker, Restated, MarkSeen, SeenNow;
    ProfileIs(p);
    if token in s.ids.tokens {
      SeenIs(s.ids, s.mem, token, s.now);
      if GoodCapabilities(p.capabilities) {
        RestatedIs(s.ids.table[s.ids.tokens[token]], workdir, p);
      }
    }
  }

  /** A heartbeat marks the machine seen and changes nothing else; what it answers is told by
      RemoteWorkerAnswers. */
  lemma HeartbeatExactly(s: State, token: Token, j: JobId)
    requires Inv(s)
    ensures var (s1, answer) := Heartbeat(s, token, j);
            && (answer == Failed(Unauthorized) <==> token !in s.ids.tokens)
            && (answer.Beat? <==> token in s.ids.tokens)
            && (answer.Beat? ==> s1 == s.(mem := s1.mem) && SeenNow(s.mem, s1.mem, s.ids.tokens[token], s.now))
            && (!answer.Beat? ==> s1 == s)
  {
    hide Registry, PollsOk, JobsOk, QueuesOk, ShortQueues, FewPending, InvitesOk, MarkSeen, SeenNow;
    if token in s.ids.tokens {
      SeenIs(s.ids, s.mem, token, s.now);
    }
  }

  /** The machine has another name, and everything else about it is the same. */
  ghost predicate Moved(s: State, s1: State, oldName: string, newName: string) {
    && s1.cfg == s.cfg && s1.now == s.now && s1.book == s.book && s1.polls == s.polls
    && oldName in s.ids.table && oldName in s.mem.runtime
    && s1.ids.table == (s.ids.table - {oldName})[newName := s.ids.table[oldName]]
    && s1.ids.tokens == s.ids.tokens[s.ids.table[oldName].token := newName] && s1.ids.used == s.ids.used
    && s1.mem.runtime == (s.mem.runtime - {oldName})[newName := s.mem.runtime[oldName]]
    && s1.mem.runtimes == s.mem.runtimes && s1.mem.next == s.mem.next
    && s1.work.pending == s.work.pending && s1.work.jobs.Keys == s.work.jobs.Keys
    && forall j :: j in s.work.jobs ==>
         if j in s.work.pending && s.work.jobs[j].machine == oldName
         then s1.work.jobs[j] == s.work.jobs[j].(machine := newName) else s1.work.jobs[j] == s.work.jobs[j]
  }

  lemma RenameExactly(s: State, oldName: string, newName: string)
    requires Inv(s)
    ensures var (s1, answer) := Rename(s, oldName, newName);
            var good := ValidName(oldName) && ValidName(newName);
            var moves := good && oldName != newName && newName !in s.ids.table && oldName in s.ids.table;
            && (answer == Failed(InvalidRequest) <==> !good)
            && (answer == Failed(Conflict) <==> good && oldName != newName && newName in s.ids.table)
            && (answer == Failed(NotFound) <==>
                  good && oldName != newName && newName !in s.ids.table && oldName !in s.ids.table)
            && (answer == Done <==> good && (oldName == newName || moves))
            && (if moves then Moved(s, s1, oldName, newName) else s1 == s)
  {
    hide Registry, PollsOk, JobsOk, QueuesOk, ShortQueues, FewPending, InvitesOk, ValidName;
    RuntimeExists(s.ids, s.mem, oldName);
  }

  /** The machine and its name are gone, and its parked polls told. */
  ghost predicate Removed(s: State, s1: State, name: string) {
    && s1.cfg == s.cfg && s1.now == s.now && s1.book == s.book
    && name in s.ids.table && name in s.mem.runtime && s.mem.runtime[name] in s.mem.runtimes
    && var r := s.mem.runtime[name];
       && s1.ids == Identities(s.ids.table - {name}, s.ids.tokens - {s.ids.table[name].token}, s.ids.used)
       && s1.mem.runtime == s.mem.runtime - {name} && s1.mem.next == s.mem.next
       && s1.mem.runtimes == s.mem.runtimes[r := s.mem.runtimes[r].(waiters := [])]
       && s1.polls.used == s.polls.used && s1.polls.open.Keys == s.polls.open.Keys
       && (forall p :: p in s.polls.open ==>
             s1.polls.open[p] == if p in s.mem.runtimes[r].waiters then s.polls.open[p].(wake := Some(WasRevoked))
                                 else s.polls.open[p])
  }

  /** The pending jobs of a machine are off the record; the callers that waited are told. */
  ghost predicate JobsClosed(w: Work, w1: Work, name: string) {
    && w1.jobs.Keys == w.jobs.Keys
    && (forall j :: j in w1.pending <==> j in w.pending && !(j in w.jobs && w.jobs[j].machine == name))
    && forall j :: j in w.jobs ==>
         if j in w.pending && w.jobs[j].machine == name then
           && w1.jobs[j].settlements == (if w.jobs[j].settlements == [] then [ByRevocation] else w.jobs[j].settlements)
           && w1.jobs[j] == w.jobs[j].(armed := false, settled := true, settlements := w1.jobs[j].settlements)
         else w1.jobs[j] == w.jobs[j]
  }

  lemma RevokeExactly(s: State, name: string)
    requires Inv(s)
    ensures var (s1, answer) := Revoke(s, name);
            && (answer == Failed(InvalidRequest) <==> !ValidName(name))
            && (answer == Failed(NotFound) <==> ValidName(name) && name !in s.ids.table)
            && (answer == Done <==> name in s.ids.table && ValidName(name))
            && (if answer == Done then Removed(s, s1, name) && JobsClosed(s.work, s1.work, name) else s1 == s)
  {
    hide Registry, PollsOk, QueuesOk, ShortQueues, FewPending, InvitesOk, ValidName;
    RuntimeExists(s.ids, s.mem, name);
    forall j | j in s.work.jobs ensures s.work.jobs[j].settlements == [] <==> !s.work.jobs[j].settled {
      JobFacts(s.ids, s.mem, s.work, j);
    }
    var none: seq<Settlement> := [];
    assert none + [ByRevocation] == [ByRevocation];
  }

  // --------------------------------------------------------------------- polls

  /** The first n entries of the queue are dead. */
  predicate DeadUpTo(w: Work, q: seq<JobId>, n: nat) {
    n <= |q| && forall i :: 0 <= i < n ==> !Live(w, q[i])
  }

  lemma {:induction false} SkipDeadIs(w: Work, q: seq<JobId>) returns (n: nat)
    ensures DeadUpTo(w, q, n) && SkipDead(w, q) == q[n..] && (n < |q| ==> Live(w, q[n]))
  {
    if q == [] || Live(w, q[0]) {
      n := 0;
    } else {
      n := SkipDeadIs(w, q[1..]);
      assert q[1..][n..] == q[n + 1..];
      n := n + 1;
    }
  }

  /** The job is handed out: claimed, and recorded as delivered to this poll of this identity. */
  predicate HandedOut(w: Work, w1: Work, j: JobId, p: PollId, token: Token) {
    && j in w.jobs && w1.pending == w.pending
    && w1.jobs == w.jobs[j := w.jobs[j].(claimed := true, deliveries := w.jobs[j].deliveries + [Delivery(p, token)])]
  }

  /** What a poll of a known machine finds: the first live job of its queue, or nothing, in which
      case it waits behind the polls that wait already. */
  lemma PollStartExactly(s: State, token: Token, p: PollId, v: Version)
    requires Inv(s)
    ensures var (s1, answer) := PollStart(s, token, p, v);
            var known := token in s.ids.tokens;
            && (answer == Failed(Unauthorized) <==> !known)
            && (answer == Failed(InvalidRequest) <==> known && !GoodVersion(v))
            && (answer.Failed? ==> s1 == s)
            && (known && GoodVersion(v) ==>
                  exists n :: PollFinds(s, s1, answer, s.ids.tokens[token], n, token, p))
  {
    hide Registry, PollsOk, JobsOk, QueuesOk, ShortQueues, FewPending, InvitesOk, MarkSeen, TakeQueued, Park,
      PollFinds, SeenNow;
    if token in s.ids.tokens {
      SeenIs(s.ids, s.mem, token, s.now);
      var name := s.ids.tokens[token];
      SeenHas(s.mem, MarkSeen(s.mem, name, s.now), name, s.now);
      var n := SkipDeadIs(s.work, RuntimeOf(s.mem, name).queue);
      if GoodVersion(v) {
        FindsAt(s, name, token, p, v, n);
      }
    }
  }

  lemma SeenHas(m: Memory, m1: Memory, name: string, now: int)
    requires SeenNow(m, m1, name, now)
    ensures name in m.runtime && m.runtime[name] in m.runtimes
  {
  }

  /** Taking from the queue of a machine, on its record. */
  lemma TakeExactly(m: Memory, w: Work, name: string, p: PollId, token: Token)
    requires name in m.runtime && m.runtime[name] in m.runtimes
    ensures var r := m.runtime[name];
            var rest := SkipDead(w, m.runtimes[r].queue);
            TakeQueued(m, w, name, p, token) ==
              if rest == [] || rest[0] !in w.jobs then
                (m.(runtimes := m.runtimes[r := m.runtimes[r].(queue := if rest == [] then [] else rest[1..])]), w,
                    None)
              else
                (m.(runtimes := m.runtimes[r := m.runtimes[r].(queue := rest[1..])]),
                    Claim(w, rest[0], Delivery(p, token)),
                 Some(rest[0]))
  {
    hide SkipDead;
  }

  lemma FindsAt(s: State, name: string, token: Token, p: PollId, v: Version, n: nat)
    requires token in s.ids.tokens && s.ids.tokens[token] == name && Authenticate(s.ids, token) == None
        && GoodVersion(v)
    requires name in s.mem.runtime && s.mem.runtime[name] in s.mem.runtimes
    requires SeenNow(s.mem, MarkSeen(s.mem, name, s.now), name, s.now)
    requires var q := s.mem.runtimes[s.mem.runtime[name]].queue;
             DeadUpTo(s.work, q, n) && SkipDead(s.work, q) == q[n..] && (n < |q| ==> Live(s.work, q[n]))
    ensures var (s1, answer) := PollStart(s, token, p, v); PollFinds(s, s1, answer, name, n, token, p)
  {
    hide MarkSeen, TakeQueued, SkipDead, DeadUpTo, Live;
    var r := s.mem.runtime[name];
    var q := s.mem.runtimes[r].queue;
    DeadWithin(s.work, q, n);
    if n < |q| { LiveHasRecord(s.work, q[n]); }
    var m0 := MarkSeen(s.mem, name, s.now);
    assert m0.runtimes[r] == Runtime(s.now, q, s.mem.runtimes[r].waiters);
    TakeExactly(m0, s.work, name, p, token);
    if n < |q| {
      assert m0.runtimes[r := m0.runtimes[r].(queue := q[n..][1..])]
          == s.mem.runtimes[r := Runtime(s.now, q[n + 1..], s.mem.runtimes[r].waiters)];
    }
  }

  lemma LiveHasRecord(w: Work, j: JobId)
    ensures Live(w, j) ==> j in w.jobs
  {
  }

  lemma DeadWithin(w: Work, q: seq<JobId>, n: nat)
    ensures DeadUpTo(w, q, n) ==> n <= |q|
  {
  }

  /** The poll finds the n-th entry of the machine's queue, behind dead ones only, or no live one. */
  ghost predicate PollFinds(s: State, s1: State, answer: Response, name: string, n: nat, token: Token, p: PollId) {
    && s1.cfg == s.cfg && s1.now == s.now && s1.book == s.book && s1.ids == s.ids
    && name in s.mem.runtime && s.mem.runtime[name] in s.mem.runtimes
    && var r := s.mem.runtime[name];
       var a := s.mem.runtimes[r];
       && DeadUpTo(s.work, a.queue, n) && n <= |a.queue|
       && if n < |a.queue| then
            && Live(s.work, a.queue[n])
            && answer == Delivered(a.queue[n]) && HandedOut(s.work, s1.work, a.queue[n], p, token)
            && s1.mem == s.mem.(runtimes := s.mem.runtimes[r := Runtime(s.now, a.queue[n + 1..], a.waiters)])
            && s1.polls == PollTable(s.polls.open, s.polls.used + {p})
          else
            && answer == Parked && s1.work == s.work
            && s1.mem == s.mem.(runtimes := s.mem.runtimes[r := Runtime(s.now, [], a.waiters + [p])])
            && s1.polls == PollTable(s.polls.open[p := Poll(name, token, r, None)], s.polls.used + {p})
  }

  /** The record a name leads to was seen now; a name that leads nowhere gets an empty one. */
  ghost predicate SeenOrMade(m: Memory, m1: Memory, name: string, now: int) {
    if name in m.runtime then SeenNow(m, m1, name, now)
    else m1 == Memory(m.runtime[name := m.next], m.runtimes[m.next := Runtime(now, [], [])], m.next + 1)
  }

  lemma SeenOrMadeIs(ids: Identities, m: Memory, name: string, now: int)
    requires Registry(ids, m)
    ensures SeenOrMade(m, MarkSeen(m, name, now), name, now)
  {
    RuntimeExists(ids, m, name);
    hide Registry;
  }

  /** The rest of a poll that waited: under the captured name, whoever that is by now, the first
      live job of its queue, or nothing; but after a revocation, only the refusal. */
  ghost predicate Resumes(s: State, s1: State, answer: Response, n: nat, p: PollId)
    requires p in s.polls.open
  {
    var poll := s.polls.open[p];
    var q := RuntimeOf(s.mem, poll.name).queue;
    && s1.cfg == s.cfg && s1.now == s.now && s1.book == s.book && s1.ids == s.ids
    && s1.polls == PollTable(s.polls.open - {p}, s.polls.used)
    && if poll.wake == Some(WasRevoked) then
         answer == Failed(Unauthorized) && s1.work == s.work && SeenOrMade(s.mem, s1.mem, poll.name, s.now)
       else
         && DeadUpTo(s.work, q, n) && n <= |q|
         && (n == |q| ==> answer == NoJob && s1.work == s.work)
         && (n < |q| ==>
               Live(s.work, q[n]) && answer == Delivered(q[n]) && HandedOut(s.work, s1.work, q[n], p, poll.token))
         && poll.name in s1.mem.runtime && s1.mem.runtime[poll.name] in s1.mem.runtimes
         && var r := s1.mem.runtime[poll.name];
            && s1.mem.runtimes[r].queue == (if n < |q| then q[n + 1..] else [])
            && SeenOrMade(s.mem, s1.mem.(runtimes := s1.mem.runtimes[r := s1.mem.runtimes[r].(queue := q)]),
                 poll.name, s.now)
  }

  lemma PollResumeExactly(s: State, p: PollId)
    requires Inv(s) && p in s.polls.open && s.polls.open[p].wake != None
    ensures var (s1, answer) := PollResume(s, p); exists n :: Resumes(s, s1, answer, n, p)
  {
    hide Registry, PollsOk, JobsOk, QueuesOk, ShortQueues, FewPending, InvitesOk, MarkSeen, TakeQueued, Resumes,
      SeenOrMade;
    var poll := s.polls.open[p];
    SeenOrMadeIs(s.ids, s.mem, poll.name, s.now);
    var n := SkipDeadIs(s.work, RuntimeOf(s.mem, poll.name).queue);
    ResumesAt(s, p, n);
  }

  lemma ResumesAt(s: State, p: PollId, n: nat)
    requires p in s.polls.open
    requires SeenOrMade(s.mem, MarkSeen(s.mem, s.polls.open[p].name, s.now), s.polls.open[p].name, s.now)
    requires var q := RuntimeOf(s.mem, s.polls.open[p].name).queue;
             DeadUpTo(s.work, q, n) && SkipDead(s.work, q) == q[n..] && (n < |q| ==> Live(s.work, q[n]))
    ensures var (s1, answer) := PollResume(s, p); Resumes(s, s1, answer, n, p)
  {
    hide MarkSeen, TakeQueued, SkipDead, DeadUpTo, Live;
    var poll := s.polls.open[p];
    var q := RuntimeOf(s.mem, poll.name).queue;
    DeadWithin(s.work, q, n);
    if n < |q| { LiveHasRecord(s.work, q[n]); }
    var m0 := MarkSeen(s.mem, poll.name, s.now);
    var r := m0.runtime[poll.name];
    assert m0.runtimes[r].queue == q;
    TakeExactly(m0, s.work, poll.name, p, poll.token);
    if poll.wake != Some(WasRevoked) {
      var s1 := PollResume(s, p).0;
      assert s1.mem.runtimes[r := s1.mem.runtimes[r].(queue := q)] == m0.runtimes;
    }
  }

  /** A poll whose time is up is resolved and no longer waits. */
  lemma PollTimeoutExactly(s: State, p: PollId)
    requires Inv(s) && p in s.polls.open && s.polls.open[p].wake == None
    ensures var s1 := PollTimeout(s, p);
            var r := s.polls.open[p].runtime;
            && r in s.mem.runtimes && p !in s1.mem.runtimes[r].waiters
            && |s1.mem.runtimes[r].waiters| == |s.mem.runtimes[r].waiters| - 1
            && (forall x :: x in s.mem.runtimes[r].waiters && x != p ==> x in s1.mem.runtimes[r].waiters)
            && s1 == s.(mem := s.mem.(runtimes :=
                 s.mem.runtimes[r := s.mem.runtimes[r].(waiters := s1.mem.runtimes[r].waiters)]),
                        polls := s.polls.(open := s.polls.open[p := s.polls.open[p].(wake := Some(TimedOut))]))
  {
    hide Registry, JobsOk, QueuesOk, ShortQueues, FewPending, InvitesOk, NoDup, Without;
    var r := s.polls.open[p].runtime;
    WaiterFacts(s.mem, s.polls, r);
    WithoutNoDup(s.mem.runtimes[r].waiters, p);
  }

  // ------------------------------------------------------------------- results

  /** The job is off the record, with these settlements of its caller; its expiry timer is off. */
  predicate OffRecord(w: Work, w1: Work, j: JobId, settled: bool, settlements: seq<Settlement>) {
    && j in w.jobs && w1.pending == w.pending - {j}
    && w1.jobs == w.jobs[j := w.jobs[j].(armed := false, settled := settled, settlements := settlements)]
  }

  /** What becomes of a result of a known machine: a job that is not on record is not accepted; a
      foreign one is refused; a late one is dropped; a live one settles its caller, or, with a
      malformed error, leaves the caller without an answer. */
  lemma SubmitExactly(s: State, token: Token, j: JobId, report: Report)
    requires Inv(s)
    ensures var (s1, answer) := SubmitResult(s, token, j, report);
            var known := token in s.ids.tokens;
            var recorded := j in s.work.pending && j in s.work.jobs;
            var own := recorded && s.work.jobs[j].owner == token;
            var waiting := own && s.work.jobs[j].settlements == [];
            && (answer == Failed(Unauthorized) <==> !known)
            && (answer == Failed(Forbidden) <==> known && recorded && !own)
            && (answer == Accepted <==> known && waiting && !report.Malformed?)
            && (answer == Failed(InvalidRequest) <==> known && waiting && report.Malformed?)
            && (answer == NotAccepted <==> known && (!recorded || (own && !waiting)))
            && (!known ==> s1 == s)
            && (known ==>
                  && s1 == s.(mem := s1.mem, work := s1.work) && SeenNow(s.mem, s1.mem, s.ids.tokens[token], s.now)
                  && (!own ==> s1.work == s.work)
                  && (own && !waiting ==> OffRecord(s.work, s1.work, j, true, s.work.jobs[j].settlements))
                  && (waiting ==>
                        OffRecord(s.work, s1.work, j, true,
                            [if report.Malformed? then Unanswered else ByResult(token)])))
  {
    hide PollsOk, QueuesOk, ShortQueues, FewPending, InvitesOk, MarkSeen, JobsOk, SeenNow;
    if token in s.ids.tokens {
      SeenIs(s.ids, s.mem, token, s.now);
    }
    if j in s.work.pending && j in s.work.jobs {
      JobFacts(s.ids, s.mem, s.work, j);
      var none: seq<Settlement> := [];
      assert none + [ByResult(token)] == [ByResult(token)] && none + [Unanswered] == [Unanswered];
      if token in s.ids.tokens { OwnerName(s.ids, s.mem, s.work, j, token); }
    }
    hide Registry;
  }

  lemma OwnerName(ids: Identities, m: Memory, w: Work, j: JobId, token: Token)
    requires Registry(ids, m) && JobsOk(ids, m, w) && j in w.pending && j in w.jobs && token in ids.tokens
    ensures w.jobs[j].machine == ids.tokens[token] <==> w.jobs[j].owner == token
  {
    JobFacts(ids, m, w, j);
    hide ValidName, MapOk, Hosted;
  }

  // ------------------------------------------------------------------ dispatch

  /** The jobs of this machine whose callers still wait. */
  function WaitingJobs(w: Work, token: Token): set<JobId> {
    set j | j in w.pending && j in w.jobs && w.jobs[j].owner == token && w.jobs[j].settlements == []
  }

  /** The machine was heard of lately enough. */
  ghost predicate HeardLately(s: State, name: string) {
    && name in s.mem.runtime && s.mem.runtime[name] in s.mem.runtimes
    && var seen := s.mem.runtimes[s.mem.runtime[name]].lastSeen;
       seen != 0 && s.now - seen <= s.cfg.offlineAfter
  }

  /** The job as recorded: for the identity that has this name now, due after the given or the
      default time. */
  predicate NewRecord(job: Job, name: string, token: Token, r: RuntimeId, due: int) {
    && job.machine == name && job.owner == token && job.runtime == r && job.due == due && job.grace == None
    && !job.claimed && job.deliveries == []
  }

  lemma CountsAre(s: State, name: string)
    requires Inv(s) && name in s.ids.table
    ensures PendingOf(s.work, name) == WaitingJobs(s.work, s.ids.table[name].token)
  {
    hide PollsOk, QueuesOk, ShortQueues, FewPending, InvitesOk;
    var token := s.ids.table[name].token;
    forall j ensures j in PendingOf(s.work, name) <==> j in WaitingJobs(s.work, token) {
      if j in s.work.pending && j in s.work.jobs {
        JobFacts(s.ids, s.mem, s.work, j);
      }
    }
  }

  lemma DispatchAnswers(s: State, name: string, timeout: Option<int>, aborted: bool, j: JobId)
    requires Inv(s) && j !in s.work.jobs
    ensures var answer := Dispatch(s, name, timeout, aborted, j).1;
            var known := name in s.ids.table;
            var online := HeardLately(s, name);
            var full := known && name in s.mem.runtime && s.mem.runtime[name] in s.mem.runtimes
                        && (|s.mem.runtimes[s.mem.runtime[name]].queue| >= s.cfg.maxPending
                            || |WaitingJobs(s.work, s.ids.table[name].token)| >= s.cfg.maxPending);
            var timely := timeout.Some? ==> 1000 <= timeout.value <= s.cfg.maxTimeout;
            && (answer == Failed(NotFound) <==> ValidName(name) && !known)
            && (answer == Failed(Offline) <==> known && !online)
            && (answer == Failed(ResourceLimit) <==> known && online && full)
            && (answer == Failed(InvalidRequest) <==> !ValidName(name) || (known && online && !full && !timely))
            && (answer == Dispatched <==> known && online && !full && timely)
            && (answer != Dispatched ==> Dispatch(s, name, timeout, aborted, j).0 == s)
  {
    hide PollsOk, JobsOk, QueuesOk, ShortQueues, FewPending, InvitesOk, ValidName, PendingOf, WaitingJobs, Cancel,
      WakeWorker,
      Push, AddJob;
    RuntimeExists(s.ids, s.mem, name);
    if name in s.ids.table {
      KnownIsValid(s.ids, s.mem, name);
      CountsAre(s, name);
    }
    hide Registry;
  }

  lemma KnownIsValid(ids: Identities, m: Memory, name: string)
    requires Registry(ids, m) && name in ids.table
    ensures ValidName(name)
  {
    hide ValidName, MapOk, Hosted;
  }

  /** The poll that waits longest, if any, is told of a job. */
  predicate FirstTold(t: PollTable, t1: PollTable, waiters: seq<PollId>) {
    if waiters == [] then t1 == t
    else waiters[0] in t.open
         && t1 == t.(open := t.open[waiters[0] := t.open[waiters[0]].(wake := Some(JobReady))])
  }

  /** A dispatched job goes to the end of its machine's queue, and the poll that waits longest is
      told; a job aborted at once leaves the queue and the record again, and its caller is told. */
  lemma DispatchExactly(s: State, name: string, timeout: Option<int>, aborted: bool, j: JobId)
    requires Inv(s) && j !in s.work.jobs && Dispatch(s, name, timeout, aborted, j).1 == Dispatched
    ensures name in s.ids.table && name in s.mem.runtime && s.mem.runtime[name] in s.mem.runtimes
    ensures var s1 := Dispatch(s, name, timeout, aborted, j).0;
            var r := s.mem.runtime[name];
            var a := s.mem.runtimes[r];
            && s1 == s.(mem := s1.mem, work := s1.work, polls := s1.polls)
            && s1.mem == s.mem.(runtimes := s.mem.runtimes[r := Runtime(
                 a.lastSeen, if aborted then a.queue else a.queue + [j],
                     if a.waiters == [] then [] else a.waiters[1..])])
            && FirstTold(s.polls, s1.polls, a.waiters)
            && s1.work.pending == (if aborted then s.work.pending else s.work.pending + {j})
            && j in s1.work.jobs && s1.work.jobs == s.work.jobs[j := s1.work.jobs[j]]
            && NewRecord(s1.work.jobs[j], name, s.ids.table[name].token, r,
                         s.now + (if timeout.Some? then timeout.value else s.cfg.defaultTimeout))
            && s1.work.jobs[j].armed == !aborted && s1.work.jobs[j].settled == aborted
            && s1.work.jobs[j].settlements == (if aborted then [ByAbort] else [])
  {
    hide PollsOk, JobsOk, QueuesOk, ShortQueues, FewPending, InvitesOk, ValidName, PendingOf, Without, Registry, NoDup;
    RuntimeExists(s.ids, s.mem, name);
    var r := s.mem.runtime[name];
    WaiterFacts(s.mem, s.polls, r);
    QueueFacts(s.mem, s.work, r);
    PendingHaveRecords(s.ids, s.mem, s.work);
    if s.mem.runtimes[r].waiters != [] {
      assert s.mem.runtimes[r].waiters[0] in s.mem.runtimes[r].waiters;
    }
    DropsLast(s.mem.runtimes[r].queue, j);
    var none: seq<Settlement> := [];
    assert none + [ByAbort] == [ByAbort];
  }

  lemma {:induction false} DropsLast(q: seq<JobId>, j: JobId)
    requires j !in q
    ensures Without(q + [j], j) == q
  {
    if q != [] {
      assert (q + [j])[1..] == q[1..] + [j];
      DropsLast(q[1..], j);
    } else {
      assert q + [j] == [j];
    }
  }

  // -------------------------------------------------------------------- timers

  /** How long a claimed job that ran out stays on record: two heartbeats, at least 30 s. */
  predicate GraceTime(cfg: Config, t: int) {
    t >= 30000 && t >= 2 * cfg.heartbeat && (t == 30000 || t == 2 * cfg.heartbeat)
  }

  /** The queues but for this job, which is in none of them any more. */
  ghost predicate Dequeued(m: Memory, m1: Memory, j: JobId) {
    && m1.runtime == m.runtime && m1.next == m.next && m1.runtimes.Keys == m.runtimes.Keys
    && forall r :: r in m.runtimes ==>
         && m1.runtimes[r].lastSeen == m.runtimes[r].lastSeen && m1.runtimes[r].waiters == m.runtimes[r].waiters
         && CutOut(m.runtimes[r].queue, m1.runtimes[r].queue, j)
  }

  /** The queue without this job, if it was there. */
  predicate CutOut(a: seq<JobId>, b: seq<JobId>, j: JobId) {
    && j !in b
    && (j !in a ==> b == a)
    && (j in a ==> exists k :: 0 <= k < |a| && a[k] == j && b == a[..k] + a[k + 1..])
  }

  /** The caller gives up in this way: an unclaimed job leaves queue and record; a claimed one stays
      on record, cancelled; the caller is told. */
  ghost predicate GivesUp(m: Memory, w: Work, m1: Memory, w1: Work, j: JobId, how: Settlement) {
    && j in w.jobs && j in w1.jobs && w1.jobs == w.jobs[j := w1.jobs[j]]
    && w1.jobs[j].settlements == [how] && w1.jobs[j].cancelled && w1.jobs[j].settled
    && w1.jobs[j].machine == w.jobs[j].machine && w1.jobs[j].owner == w.jobs[j].owner
    && w1.jobs[j].runtime == w.jobs[j].runtime && w1.jobs[j].due == w.jobs[j].due
    && w1.jobs[j].claimed == w.jobs[j].claimed && w1.jobs[j].deliveries == w.jobs[j].deliveries
    && (if w.jobs[j].claimed then m1 == m && w1.pending == w.pending
        else Dequeued(m, m1, j) && w1.pending == w.pending - {j} && !w1.jobs[j].armed)
  }

  lemma {:induction false} WithoutAt(q: seq<JobId>, j: JobId) returns (k: nat)
    requires j in q
    ensures k < |q| && q[k] == j && Without(q, j) == q[..k] + q[k + 1..]
  {
    if q[0] == j {
      k := 0;
    } else {
      assert q == [q[0]] + q[1..];
      k := WithoutAt(q[1..], j);
      assert q[..k + 1] == [q[0]] + q[1..][..k] && q[k + 2..] == q[1..][k + 1..];
      k := k + 1;
    }
  }

  lemma CutIs(q: seq<JobId>, j: JobId)
    requires NoDup(q)
    ensures CutOut(q, Without(q, j), j)
  {
    hide NoDup, Without;
    WithoutNoDup(q, j);
    if j in q {
      var k := WithoutAt(q, j);
    } else {
      NothingToCut(q, j);
    }
  }

  lemma NothingToCut(q: seq<JobId>, j: JobId)
    requires j !in q
    ensures Without(q, j) == q
  {
  }

  lemma DequeuedIs(ids: Identities, m: Memory, w: Work, j: JobId)
    requires QueuesOk(m, w) && JobsOk(ids, m, w) && j in w.jobs
    ensures Dequeued(m, Unqueue(m, w.jobs[j].runtime, j), j)
  {
    hide NoDup, Without, JobsOk, QueuesOk, CutOut;
    OnlyOwnQueue(m, w, j);
    var m1 := Unqueue(m, w.jobs[j].runtime, j);
    forall i | i in m.runtimes ensures CutOut(m.runtimes[i].queue, m1.runtimes[i].queue, j) {
      QueueFacts(m, w, i);
      CutIs(m.runtimes[i].queue, j);
      if i != w.jobs[j].runtime {
        NothingToCut(m.runtimes[i].queue, j);
      }
    }
  }

  lemma CancelExactly(ids: Identities, m: Memory, w: Work, j: JobId, how: Settlement)
    requires QueuesOk(m, w) && JobsOk(ids, m, w) && j in w.jobs
    ensures var (m1, w1) := Cancel(m, w, j, how);
            if w.jobs[j].settlements != [] then m1 == m && w1 == w else GivesUp(m, w, m1, w1, j, how)
  {
    hide QueuesOk, JobsOk, Unqueue, Dequeued;
    JobFacts(ids, m, w, j);
    DequeuedIs(ids, m, w, j);
    var none: seq<Settlement> := [];
    assert none + [how] == [how];
  }

  /** The caller aborts. */
  lemma AbortExactly(s: State, j: JobId)
    requires Inv(s) && j in s.work.jobs
    ensures var s1 := Abort(s, j);
            && s1 == s.(mem := s1.mem, work := s1.work)
            && if s.work.jobs[j].settlements != [] then s1 == s
               else GivesUp(s.mem, s.work, s1.mem, s1.work, j, ByAbort)
  {
    hide Registry, PollsOk, JobsOk, QueuesOk, ShortQueues, FewPending, InvitesOk, Cancel, GivesUp;
    CancelExactly(s.ids, s.mem, s.work, j, ByAbort);
  }

  /** The job's time is up: a caller that still waits gives up, and the record of a claimed job
      goes after the grace time. */
  lemma ExpireExactly(s: State, j: JobId)
    requires Inv(s) && j in s.work.jobs
    ensures var s1 := Expire(s, j);
            var off := SetJob(s.work, j, s.work.jobs[j].(armed := false));
            && s1 == s.(mem := s1.mem, work := s1.work) && j in s1.work.jobs
            && var w1 := SetJob(s1.work, j, s1.work.jobs[j].(grace := s.work.jobs[j].grace));
               && (if s.work.jobs[j].settlements != [] then s1.mem == s.mem && w1 == off
                   else GivesUp(s.mem, off, s1.mem, w1, j, ByTimeout))
               && (if s.work.jobs[j].claimed then
                     s1.work.jobs[j].grace.Some? && GraceTime(s.cfg, s1.work.jobs[j].grace.value - s.now)
                   else s1.work.jobs[j].grace == s.work.jobs[j].grace)
  {
    hide Registry, PollsOk, JobsOk, QueuesOk, ShortQueues, FewPending, InvitesOk, Dequeued;
    JobFacts(s.ids, s.mem, s.work, j);
    DequeuedIs(s.ids, s.mem, s.work, j);
    var none: seq<Settlement> := [];
    assert none + [ByTimeout] == [ByTimeout];
  }

  /** The grace time is over: the job goes off the record. */
  lemma GraceOverExactly(s: State, j: JobId)
    requires j in s.work.jobs
    ensures GraceOver(s, j) == s.(work := Work(s.work.pending - {j}, s.work.jobs[j := s.work.jobs[j].(grace := None)]))
  {
  }

  /** No call changes the configuration or the time; time passes, and then nothing else changes. */
  lemma TimeExactly(s: State, e: Event)
    requires Enabled(s, e)
    ensures Apply(s, e).cfg == s.cfg
    ensures if e.EvTick? then Apply(s, e) == s.(now := e.time) else Apply(s, e).now == s.now
  {
    hide MarkSeen, Authenticate, Supported, ValidInfo, ValidCapabilities, ValidName;
  }
}
