/** What is stored of a machine can be read back: the record checks against the calls that write
    records. */
module RemoteWorkerRecords {
  import opened Collections
  import opened JsText
  import opened RemoteWorkerProfile
  import opened RemoteWorkerModel

  function Items(capabilities: seq<string>): seq<Item> {
    seq(|capabilities|, i requires 0 <= i < |capabilities| => Str(capabilities[i]))
  }

  /** Reading a stored record; the working directory may be empty here. */
  function ParseStoredWorker(w: Worker): Option<Worker> {
    var capabilities := Listed(Items(w.capabilities));
    if |w.workdir| > MAX_WORKDIR || !ValidCapabilities(capabilities) || !ValidInfo(Fields(w.info)) then None
    else Some(w.(capabilities := CapabilitiesOf(capabilities)))
  }

  predicate Readable(w: Worker) { ParseStoredWorker(w) == Some(w) }

  ghost predicate AllReadable(table: map<string, Worker>) {
    forall n :: n in table ==> Readable(table[n])
  }

  // ------------------------------------------------------------------ trimming

  lemma {:induction false} TrimEndIs(s: string)
    ensures TrimEnd(s) <= s && (TrimEnd(s) == "" || !Space(TrimEnd(s)[|TrimEnd(s)| - 1]))
  {
    if s != "" && Space(s[|s| - 1]) {
      TrimEndIs(s[..|s| - 1]);
    }
  }

  lemma {:induction false} TrimStartIs(s: string)
    ensures |TrimStart(s)| <= |s| && (TrimStart(s) == "" || !Space(TrimStart(s)[0]))
  {
    if s != "" && Space(s[0]) {
      TrimStartIs(s[1..]);
    }
  }

  /** Trimming makes a text no longer, and trims it for good. */
  lemma TrimTwice(s: string)
    ensures |Trim(s)| <= |s| && Trim(Trim(s)) == Trim(s)
  {
    var start := TrimStart(s);
    TrimStartIs(s);
    TrimEndIs(start);
    var t := TrimEnd(start);
    if t != "" {
      assert t[0] == start[0];
      assert TrimStart(t) == t && TrimEnd(t) == t;
    }
  }

  // -------------------------------------------------------------------- writes

  /** Checked capabilities are stored in a form that reads back as it is. */
  lemma CapabilitiesReadBack(c: Capabilities)
    requires ValidCapabilities(c)
    ensures var stored := Listed(Items(CapabilitiesOf(c)));
            ValidCapabilities(stored) && CapabilitiesOf(stored) == CapabilitiesOf(c)
  {
    hide Trim;
    if c.Listed? {
      forall i | 0 <= i < |c.items|
        ensures |Trim(c.items[i].chars)| <= |c.items[i].chars| && Trim(Trim(c.items[i].chars)) == Trim(c.items[i].chars)
      {
        TrimTwice(c.items[i].chars);
      }
      assert forall i :: 0 <= i < |c.items| ==> ValidItem(c.items[i]);
    }
  }

  lemma InfoReadsBack(i: Info)
    requires ValidInfo(i)
    ensures ValidInfo(Fields(InfoOf(i)))
  {
  }

  lemma WrittenIsReadable(w: Worker, c: Capabilities, i: Info)
    requires |w.workdir| <= MAX_WORKDIR
    requires ValidCapabilities(c) && w.capabilities == CapabilitiesOf(c) && ValidInfo(i) && w.info == InfoOf(i)
    ensures Readable(w)
  {
    hide ValidCapabilities, CapabilitiesOf, ValidInfo, Items;
    CapabilitiesReadBack(c);
    InfoReadsBack(i);
  }

  lemma RegisterReadable(
      s: State, code: InviteCode, given: Option<string>, profile: Profile, workdir: Option<string>, token: Token)
    requires AllReadable(s.ids.table)
    ensures AllReadable(Register(s, code, given, profile, workdir, token).0.ids.table)
  {
    hide PruneInvites, Redeem, ChosenName, WantedName, Readable, CapabilitiesOf, ValidCapabilities, ValidInfo,
      GivenName, WorkdirOf;
    var b := PruneInvites(s.book, s.now);
    if Register(s, code, given, profile, workdir, token).1.Joined? {
      WrittenIsReadable(NewWorker(token, b.invites[code], profile, workdir), profile.capabilities, profile.info);
    }
  }

  /** A readable record is what checked fields leave. */
  lemma ReadableFields(w: Worker)
    requires Readable(w)
    ensures |w.workdir| <= MAX_WORKDIR && ValidCapabilities(Listed(Items(w.capabilities))) && ValidInfo(Fields(w.info))
    ensures CapabilitiesOf(Listed(Items(w.capabilities))) == w.capabilities && InfoOf(Fields(w.info)) == w.info
  {
    hide ValidCapabilities, CapabilitiesOf, ValidInfo, Items;
  }

  lemma ResumeReadable(s: State, token: Token, workdir: Option<string>, profile: Profile)
    requires AllReadable(s.ids.table)
    ensures AllReadable(Resume(s, token, workdir, profile).0.ids.table)
  {
    hide MarkSeen, Readable, CapabilitiesOf, ValidCapabilities, ValidInfo, Items, InfoOf;
    if Resume(s, token, workdir, profile).1.Joined? {
      var before := s.ids.table[s.ids.tokens[token]];
      ReadableFields(before);
      var capabilities :=
        if profile.capabilities.NoCapabilities? then Listed(Items(before.capabilities)) else profile.capabilities;
      var info := if profile.info.NoInfo? then Fields(before.info) else profile.info;
      WrittenIsReadable(ResumedWorker(before, workdir, profile), capabilities, info);
    }
  }

  lemma StepReadable(s: State, e: Event)
    requires AllReadable(s.ids.table) && Enabled(s, e)
    ensures AllReadable(Apply(s, e).ids.table)
  {
    hide Readable, Register, Resume, MarkSeen, TakeQueued, Cancel, Park, RuntimeFor, PruneInvites, RevokeJobs,
      RenameJobs;
    match e
    case EvRegister(code, given, profile, workdir, token) => RegisterReadable(s, code, given, profile, workdir, token);
    case EvResume(token, workdir, profile) => ResumeReadable(s, token, workdir, profile);
    case _ =>
  }

  /** In every run that starts from records that could be read, every record stored can be read,
      and reads back as what was stored. */
  lemma {:induction false} RecordsReadBack(states: seq<State>, events: seq<Event>, i: nat)
    requires IsRun(states, events) && i < |states| && AllReadable(states[0].ids.table)
    ensures AllReadable(states[i].ids.table)
  {
    hide AllReadable, Initial, Enabled, Apply;
    if i > 0 {
      RecordsReadBack(states, events, i - 1);
      assert Enabled(states[i - 1], events[i - 1]) && states[i] == Apply(states[i - 1], events[i - 1]);
      StepReadable(states[i - 1], events[i - 1]);
    }
  }
}
