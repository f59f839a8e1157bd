/** How a joining machine gets its name: the normalisation of user and host strings,
    the generated default name, and the search for a free name after a collision. */
module MachineNames {
  import opened Collections

  const MAX_NAME: nat := 128
  const MAX_TABLE: nat := 9007199254740992

  predicate Alnum(c: char) {
    'A' <= c <= 'Z' || 'a' <= c <= 'z' || '0' <= c <= '9'
  }

  predicate Allowed(c: char) {
    Alnum(c) || c == '.' || c == '_' || c == '@' || c == '-'
  }

  predicate AllAllowed(s: string) {
    forall i :: 0 <= i < |s| ==> Allowed(s[i])
  }

  /** A machine name as the registry accepts it. */
  predicate ValidName(s: string) {
    && 1 <= |s| <= MAX_NAME
    && Alnum(s[0])
    && Alnum(s[|s| - 1])
    && AllAllowed(s)
  }

  /** Every maximal run of characters outside the alphabet becomes one underscore. */
  function Squash(s: string, inRun: bool): (r: string)
    ensures AllAllowed(r)
  {
    if s == "" then ""
    else if Allowed(s[0]) then [s[0]] + Squash(s[1..], false)
    else (if inRun then "" else "_") + Squash(s[1..], true)
  }

  function TrimLeft(s: string): (r: string)
    ensures AllAllowed(s) ==> AllAllowed(r)
    ensures r != "" ==> Alnum(r[0])
    ensures |r| <= |s| && r == s[|s| - |r|..]
  {
    if s == "" || Alnum(s[0]) then s else TrimLeft(s[1..])
  }

  function TrimRight(s: string): (r: string)
    ensures r <= s
    ensures AllAllowed(s) ==> AllAllowed(r)
    ensures r != "" ==> Alnum(r[|r| - 1])
  {
    if s == "" || Alnum(s[|s| - 1]) then s else TrimRight(s[..|s| - 1])
  }

  function NamePart(value: string, fallback: string): string {
    var normalized := TrimRight(TrimLeft(Squash(value, false)));
    if normalized == "" then fallback else normalized
  }

  function Clip(s: string, n: nat): (r: string)
    ensures r <= s && |r| <= n
    ensures |s| <= n ==> r == s
  {
    if |s| <= n then s else s[..n]
  }

  function JoinParts(user: string, host: string): string {
    var combined := TrimRight(Clip(user + "@" + host, MAX_NAME));
    if combined == "" then "remote" else combined
  }

  function DefaultName(user: string, host: string): string {
    JoinParts(NamePart(user, "user"), NamePart(host, "remote"))
  }

  /** A part of a generated name: within the alphabet, alphanumeric at both ends. */
  predicate Part(p: string) {
    p != "" && AllAllowed(p) && Alnum(p[0]) && Alnum(p[|p| - 1])
  }

  lemma NamePartIsPart(value: string, fallback: string)
    requires Part(fallback)
    ensures Part(NamePart(value, fallback))
  {
    hide AllAllowed, TrimLeft, TrimRight, Squash, Alnum;
  }

  lemma JoinPartsIsValid(u: string, h: string)
    requires Part(u) && Part(h)
    ensures ValidName(JoinParts(u, h))
  {
    var joined := u + "@" + h;
    assert AllAllowed(joined) && joined[0] == u[0];
    var clipped := Clip(joined, MAX_NAME);
    TrimRightKeepsAlnumHead(clipped);
  }

  lemma UserIsPart(user: string)
    ensures Part(NamePart(user, "user"))
  {
    NamePartIsPart(user, "user");
  }

  lemma HostIsPart(host: string)
    ensures Part(NamePart(host, "remote"))
  {
    NamePartIsPart(host, "remote");
  }

  /** Whatever the operating system reports, the generated name is one the registry accepts. */
  lemma DefaultNameIsValid(user: string, host: string)
    ensures ValidName(DefaultName(user, host))
  {
    UserIsPart(user);
    HostIsPart(host);
    JoinPartsIsValid(NamePart(user, "user"), NamePart(host, "remote"));
  }

  lemma {:induction false} TrimRightKeepsAlnumHead(s: string)
    requires s != "" && Alnum(s[0])
    ensures TrimRight(s) != "" && TrimRight(s)[0] == s[0]
  {
    if !Alnum(s[|s| - 1]) {
      TrimRightKeepsAlnumHead(s[..|s| - 1]);
    }
  }

  lemma {:induction false} SquashKeepsAllowed(s: string)
    requires AllAllowed(s)
    ensures Squash(s, false) == s
  {
    if s != "" {
      SquashKeepsAllowed(s[1..]);
    }
  }

  lemma NamePartKeepsValid(value: string, fallback: string)
    requires ValidName(value)
    ensures NamePart(value, fallback) == value
  {
    SquashKeepsAllowed(value);
  }

  /** Normalisation changes nothing that was already acceptable. */
  lemma DefaultNameKeepsValidParts(user: string, host: string)
    requires ValidName(user) && ValidName(host) && |user| + |host| < MAX_NAME
    ensures DefaultName(user, host) == user + "@" + host
  {
    NamePartKeepsValid(user, "user");
    NamePartKeepsValid(host, "remote");
    JoinPartsKeeps(user, host);
  }

  lemma JoinPartsKeeps(user: string, host: string)
    requires ValidName(user) && ValidName(host) && |user| + |host| < MAX_NAME
    ensures JoinParts(user, host) == user + "@" + host
  {
    var joined := user + "@" + host;
    assert joined[|joined| - 1] == host[|host| - 1];
  }

  // ------------------------------------------- what the default name consists of

  /** By character code: the ranges of letters and digits, and dot, underscore, at and minus. */
  lemma AlphabetIs(c: char)
    ensures Alnum(c) <==> 48 <= c as int <= 57 || 65 <= c as int <= 90 || 97 <= c as int <= 122
    ensures Allowed(c) <==> Alnum(c) || c as int in {45, 46, 64, 95}
  {
  }

  /** Acceptable characters stay. */
  lemma {:induction false} SquashKeeps(a: string, rest: string)
    requires AllAllowed(a) && a != ""
    ensures Squash(a + rest, false) == a + Squash(rest, false)
    ensures Squash(a + rest, true) == a + Squash(rest, false)
  {
    assert (a + rest)[1..] == a[1..] + rest;
    if |a| > 1 {
      SquashKeeps(a[1..], rest);
    }
  }

  /** A run of others, up to the next acceptable character or the end, becomes one underscore. */
  lemma {:induction false} SquashReplaces(u: string, rest: string)
    requires u != "" && (forall i :: 0 <= i < |u| ==> !Allowed(u[i])) && (rest != "" ==> Allowed(rest[0]))
    ensures Squash(u + rest, false) == "_" + Squash(rest, false)
    ensures Squash(u + rest, true) == Squash(rest, false)
  {
    assert (u + rest)[1..] == u[1..] + rest;
    if |u| > 1 {
      SquashReplaces(u[1..], rest);
    } else {
      assert u[1..] + rest == rest;
    }
  }

  ghost predicate NoAlnum(s: string) { forall i :: 0 <= i < |s| ==> !Alnum(s[i]) }

  lemma {:induction false} DroppedIsNoAlnum(s: string)
    ensures NoAlnum(s[..|s| - |TrimLeft(s)|])
  {
    if s != "" && !Alnum(s[0]) {
      DroppedIsNoAlnum(s[1..]);
    }
  }

  lemma TrimLeftDrops(s: string) returns (before: string)
    ensures s == before + TrimLeft(s) && NoAlnum(before)
  {
    hide TrimLeft, NoAlnum, AllAllowed;
    before := s[..|s| - |TrimLeft(s)|];
    DroppedIsNoAlnum(s);
  }

  lemma {:induction false} TrimRightDrops(s: string) returns (after: string)
    ensures s == TrimRight(s) + after && NoAlnum(after)
  {
    after := "";
    if s != "" && !Alnum(s[|s| - 1]) {
      after := TrimRightDrops(s[..|s| - 1]);
      assert s == s[..|s| - 1] + [s[|s| - 1]];
      after := after + [s[|s| - 1]];
    }
  }

  lemma Between(before: string, part: string, after: string)
    requires NoAlnum(before) && NoAlnum(after) && (part != "" ==> Alnum(part[|part| - 1]))
    ensures part == "" <==> NoAlnum(before + part + after)
  {
    var s := before + part + after;
    if part != "" {
      assert s[|before| + |part| - 1] == part[|part| - 1];
    }
  }

  lemma TrimmedIs(s: string) returns (before: string, after: string)
    ensures s == before + TrimRight(TrimLeft(s)) + after && NoAlnum(before) && NoAlnum(after)
    ensures TrimRight(TrimLeft(s)) == "" <==> NoAlnum(s)
  {
    hide NoAlnum, AllAllowed, TrimLeft, TrimRight;
    before := TrimLeftDrops(s);
    after := TrimRightDrops(TrimLeft(s));
    Between(before, TrimRight(TrimLeft(s)), after);
  }

  /** A part is the squashed value between its first and its last letter or digit, and the
      fallback if it has none. */
  lemma NamePartExactly(value: string, fallback: string) returns (before: string, after: string)
    ensures var squashed, part := Squash(value, false), NamePart(value, fallback);
            if NoAlnum(squashed) then part == fallback
            else
              && squashed == before + part + after && NoAlnum(before) && NoAlnum(after)
              && part != "" && Alnum(part[0]) && Alnum(part[|part| - 1])
  {
    var squashed := Squash(value, false);
    before, after := TrimmedIs(squashed);
    var left := TrimLeft(squashed);
    var part := TrimRight(left);
    assert part != "" ==> Alnum(part[|part| - 1]) && part[0] == left[0];
    hide Squash, NoAlnum;
  }

  /** The default name is the longest beginning of user@host of at most 128 characters that ends
      with a letter or digit. */
  lemma DefaultNameExactly(user: string, host: string, longer: string)
    ensures var joined, name := NamePart(user, "user") + "@" + NamePart(host, "remote"), DefaultName(user, host);
            && name <= joined && 1 <= |name| <= MAX_NAME && Alnum(name[|name| - 1])
            && (longer <= joined && |name| < |longer| <= MAX_NAME ==> !Alnum(longer[|longer| - 1]))
  {
    hide AllAllowed, TrimLeft, TrimRight, Squash;
    var u, h := NamePart(user, "user"), NamePart(host, "remote");
    UserIsPart(user);
    var joined := u + "@" + h;
    var clipped := Clip(joined, MAX_NAME);
    assert clipped[0] == u[0];
    TrimRightKeepsAlnumHead(clipped);
    var after := TrimRightDrops(clipped);
    var name := TrimRight(clipped);
    assert DefaultName(user, host) == name;
    if longer <= joined && |name| < |longer| <= MAX_NAME {
      var k := |longer| - 1;
      assert longer[k] == clipped[k] == after[k - |name|];
    }
  }

  // ---------------------------------------------------------------- collisions

  function Decimal(n: nat): (r: string)
    ensures r != ""
    ensures forall i :: 0 <= i < |r| ==> '0' <= r[i] <= '9'
  {
    if n < 10 then [Digit(n)] else Decimal(n / 10) + [Digit(n % 10)]
  }

  function Digit(d: nat): (c: char)
    requires d < 10
    ensures '0' <= c <= '9'
  {
    '0' + d as char
  }

  lemma {:induction false} DecimalInjective(m: nat, n: nat)
    requires Decimal(m) == Decimal(n)
    ensures m == n
  {
    var a, b := Decimal(m), Decimal(n);
    assert a[|a| - 1] == Digit(m % 10) && b[|b| - 1] == Digit(n % 10);
    if m >= 10 && n >= 10 {
      assert a[..|a| - 1] == Decimal(m / 10) && b[..|b| - 1] == Decimal(n / 10);
      DecimalInjective(m / 10, n / 10);
    }
  }

  function Power10(k: nat): nat {
    if k == 0 then 1 else 10 * Power10(k - 1)
  }

  lemma {:induction false} DecimalLength(n: nat, k: nat)
    requires 1 <= k && n < Power10(k)
    ensures |Decimal(n)| <= k
  {
    if n >= 10 {
      assert k > 1;
      DecimalLength(n / 10, k - 1);
    }
  }

  lemma TableSuffixLength(n: nat)
    requires n <= MAX_TABLE + 2
    ensures |Decimal(n)| <= 16
  {
    assert Power10(16) == 10000000000000000 by {
      assert Power10(4) == 10000;
      assert Power10(8) == 100000000;
      assert Power10(12) == 1000000000000;
    }
    DecimalLength(n, 16);
  }

  /** The name tried with a given collision suffix: the base is clipped so that
      "-" and the suffix still fit. */
  function Candidate(base: string, suffix: nat): string {
    var room := MAX_NAME - |Decimal(suffix)| - 1;
    Clip(base, if room < 1 then 1 else room) + "-" + Decimal(suffix)
  }

  /** Clipping never makes two suffixes collide. */
  lemma CandidateInjective(base: string, i: nat, j: nat)
    requires Candidate(base, i) == Candidate(base, j)
    ensures i == j
  {
    var c, d, e := Candidate(base, i), Decimal(i), Decimal(j);
    assert c[|c| - |d|..] == d && c[|c| - |e|..] == e;
    assert c[|c| - |d| - 1] == '-' && c[|c| - |e| - 1] == '-';
    DecimalInjective(i, j);
  }

  lemma CandidateIsValid(base: string, suffix: nat)
    requires ValidName(base) && suffix <= MAX_TABLE + 2
    ensures ValidName(Candidate(base, suffix))
  {
    TableSuffixLength(suffix);
    var c, d := Candidate(base, suffix), Decimal(suffix);
    assert c[|c| - 1] == d[|d| - 1];
    assert c[0] == base[0];
  }

  ghost function Tried(base: string, k: nat): set<string> {
    set i | 2 <= i < k :: Candidate(base, i)
  }

  lemma TriedGrows(base: string, k: nat)
    requires 2 <= k
    ensures Candidate(base, k) !in Tried(base, k)
    ensures Tried(base, k + 1) == Tried(base, k) + {Candidate(base, k)}
  {
    forall i | 2 <= i < k ensures Candidate(base, i) != Candidate(base, k) {
      if Candidate(base, i) == Candidate(base, k) {
        CandidateInjective(base, i, k);
      }
    }
  }

  /** The suffix the collision search ends with, counting up from k. The search ends
      because every further try would take a name of the table not tried before. */
  function NextFree(taken: set<string>, base: string, k: nat): (r: nat)
    requires 2 <= k
    ensures r >= k && Candidate(base, r) !in taken
    ensures forall i :: k <= i < r ==> Candidate(base, i) in taken
    decreases taken - Tried(base, k)
  {
    if Candidate(base, k) !in taken then k
    else
      TriedGrows(base, k);
      assert Candidate(base, k) in taken - Tried(base, k);
      NextFree(taken, base, k + 1)
  }

  lemma {:induction false} TriedSize(base: string, k: nat)
    requires 2 <= k
    ensures |Tried(base, k)| == k - 2
  {
    if k == 2 {
      assert Tried(base, 2) == {};
    } else {
      TriedSize(base, k - 1);
      TriedGrows(base, k - 1);
    }
  }

  /** At most one try more than there are machines. */
  lemma SearchIsShort(taken: set<string>, base: string)
    ensures NextFree(taken, base, 2) <= |taken| + 2
  {
    var r := NextFree(taken, base, 2);
    assert Tried(base, r) <= taken;
    TriedSize(base, r);
    SubsetSize(Tried(base, r), taken);
  }

  /** The collision loop of registration. */
  method FreshName(taken: set<string>, base: string) returns (name: string, suffix: nat)
    requires ValidName(base) && |taken| <= MAX_TABLE
    ensures name !in taken && ValidName(name)
    ensures 2 <= suffix <= |taken| + 2
    ensures suffix == NextFree(taken, base, 2) && name == Candidate(base, suffix)
  {
    suffix := 2;
    while Candidate(base, suffix) in taken
      invariant 2 <= suffix
      invariant forall i :: 2 <= i < suffix ==> Candidate(base, i) in taken
      invariant NextFree(taken, base, suffix) == NextFree(taken, base, 2)
      decreases taken - Tried(base, suffix)
    {
      TriedGrows(base, suffix);
      assert Candidate(base, suffix) in taken - Tried(base, suffix);
      suffix := suffix + 1;
    }
    SearchIsShort(taken, base);
    name := Candidate(base, suffix);
    CandidateIsValid(base, suffix);
  }
}
