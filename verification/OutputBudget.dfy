/** How the worker agent keeps the output of a command within a number of characters: a byte
    budget while reading the two pipes, then decoding and a final clip. */
module OutputBudget {
  import opened Utf8

  datatype Stream = Stdout | Stderr

  /** One read of at least one byte from a pipe. */
  datatype Read = Read(stream: Stream, chunk: seq<Byte>)

  /** Everything the command wrote to one pipe, as it was read. */
  function Full(input: seq<Read>, stream: Stream): seq<Byte> {
    if input == [] then []
    else
      Full(input[..|input| - 1], stream)
          + (if input[|input| - 1].stream == stream then input[|input| - 1].chunk else [])
  }

  lemma FullAppend(input: seq<Read>, i: nat, stream: Stream)
    requires i < |input|
    ensures Full(input[..i + 1], stream)
        == Full(input[..i], stream) + (if input[i].stream == stream then input[i].chunk else [])
  {
    assert input[..i + 1][..i] == input[..i];
  }

  /** What the reading loop leaves behind: beginnings of both outputs, together as long as the
      budget allows, and whether anything was dropped. */
  ghost predicate Captured(
      stdout: seq<Byte>, stderr: seq<Byte>, budget: nat, out: seq<Byte>, err: seq<Byte>, dropped: bool) {
    && out <= stdout && err <= stderr
    && |out| + |err| == (if |stdout| + |stderr| <= budget then |stdout| + |stderr| else budget)
    && (dropped <==> |stdout| + |stderr| > budget)
  }

  function Least(a: nat, b: nat): nat { if a <= b then a else b }

  /** Append to one stream as much of a chunk as the budget leaves. */
  method Append(captured: seq<Byte>, other: seq<Byte>, budget: nat, chunk: seq<Byte>)
    returns (more: seq<Byte>, dropped: bool)
    requires |captured| + |other| <= budget
    ensures captured <= more && more <= captured + chunk
    ensures |more| == |captured| + Least(|chunk|, budget - |captured| - |other|)
    ensures dropped <==> |captured| + |other| + |chunk| > budget
  {
    var used := |captured| + |other|;
    var remaining := if budget - used > 0 then budget - used else 0;
    more := captured;
    if remaining > 0 {
      more := more + (if |chunk| <= remaining then chunk else chunk[..remaining]);
    }
    dropped := |chunk| > remaining;
  }

  /** A beginning that is not everything has used the whole budget, so nothing more is added. */
  lemma StillPrefix(captured: seq<Byte>, full: seq<Byte>, more: seq<Byte>, chunk: seq<Byte>)
    requires captured <= full && captured <= more && more <= captured + chunk
    requires captured == full || more == captured
    ensures more <= full + chunk
  {
  }

  /** How many bytes of each pipe fit the budget, in the order of the reads. */
  function Taken(input: seq<Read>, budget: nat): (t: (nat, nat))
    ensures t.0 <= |Full(input, Stdout)| && t.1 <= |Full(input, Stderr)|
    ensures t.0 + t.1 == Least(|Full(input, Stdout)| + |Full(input, Stderr)|, budget)
  {
    if input == [] then (0, 0)
    else
      var (o, e) := Taken(input[..|input| - 1], budget);
      var last := input[|input| - 1];
      var room := budget - o - e;
      if last.stream == Stdout then (o + Least(|last.chunk|, room), e) else (o, e + Least(|last.chunk|, room))
  }

  lemma TakenAppend(input: seq<Read>, i: nat, budget: nat)
    requires i < |input|
    ensures var (o, e) := Taken(input[..i], budget);
            var more := Least(|input[i].chunk|, budget - o - e);
            Taken(input[..i + 1], budget) == if input[i].stream == Stdout then (o + more, e) else (o, e + more)
  {
    hide Full;
    assert input[..i + 1][..i] == input[..i];
  }

  lemma CapturedStep(
      full: seq<Byte>, other: seq<Byte>, budget: nat, kept: seq<Byte>, keptOther: seq<Byte>, truncated: bool,
      chunk: seq<Byte>, more: seq<Byte>, dropped: bool)
    requires Captured(full, other, budget, kept, keptOther, truncated)
    requires kept <= more && more <= kept + chunk
    requires |more| == |kept| + Least(|chunk|, budget - |kept| - |keptOther|)
    requires dropped <==> |kept| + |keptOther| + |chunk| > budget
    ensures Captured(full + chunk, other, budget, more, keptOther, truncated || dropped)
  {
    StillPrefix(kept, full, more, chunk);
  }

  lemma CapturedSwaps(stdout: seq<Byte>, stderr: seq<Byte>, budget: nat, out: seq<Byte>, err: seq<Byte>, dropped: bool)
    ensures Captured(stdout, stderr, budget, out, err, dropped) <==> Captured(stderr, stdout, budget, err, out, dropped)
  {
  }

  lemma CapturedFits(stdout: seq<Byte>, stderr: seq<Byte>, budget: nat, out: seq<Byte>, err: seq<Byte>, dropped: bool)
    requires Captured(stdout, stderr, budget, out, err, dropped)
    ensures |out| + |err| <= budget
  {
  }

  method CaptureOutput(input: seq<Read>, budget: nat) returns (out: seq<Byte>, err: seq<Byte>, truncated: bool)
    ensures Captured(Full(input, Stdout), Full(input, Stderr), budget, out, err, truncated)
    ensures (|out|, |err|) == Taken(input, budget)
  {
    hide Captured, Full, Taken;
    out, err, truncated := [], [], false;
    NothingCaptured(budget);
    assert input[..0] == [];
    for i := 0 to |input|
      invariant Captured(Full(input[..i], Stdout), Full(input[..i], Stderr), budget, out, err, truncated)
      invariant (|out|, |err|) == Taken(input[..i], budget)
    {
      TakenAppend(input, i, budget);
      FullAppend(input, i, Stdout);
      FullAppend(input, i, Stderr);
      var stdout, stderr, chunk := Full(input[..i], Stdout), Full(input[..i], Stderr), input[i].chunk;
      CapturedFits(stdout, stderr, budget, out, err, truncated);
      var more, dropped;
      if input[i].stream == Stdout {
        more, dropped := Append(out, err, budget, chunk);
        CapturedStep(stdout, stderr, budget, out, err, truncated, chunk, more, dropped);
        assert stderr + [] == stderr;
        out := more;
      } else {
        more, dropped := Append(err, out, budget, chunk);
        CapturedSwaps(stdout, stderr, budget, out, err, truncated);
        CapturedStep(stderr, stdout, budget, err, out, truncated, chunk, more, dropped);
        CapturedSwaps(stdout, stderr + chunk, budget, out, more, truncated || dropped);
        assert stdout + [] == stdout;
        err := more;
      }
      truncated := truncated || dropped;
    }
    assert input[..|input|] == input;
  }

  lemma NothingCaptured(budget: nat)
    ensures Captured(Full([], Stdout), Full([], Stderr), budget, [], [], false) && Taken([], budget) == (0, 0)
  {
  }

  function Clip(text: seq<CodePoint>, n: nat): seq<CodePoint> {
    if |text| <= n then text else text[..n]
  }

  /** The final clip: standard output first, standard error in what is left. */
  function Clipped(
      out: seq<CodePoint>, err: seq<CodePoint>, truncated: bool, max: nat): (seq<CodePoint>, seq<CodePoint>, bool) {
    if |out| + |err| > max then (Clip(out, max), Clip(err, max - |Clip(out, max)|), true) else (out, err, truncated)
  }

  method RunShell(input: seq<Read>, max: nat) returns (stdout: seq<CodePoint>, stderr: seq<CodePoint>, truncated: bool)
    requires max > 0
    ensures truncated <==> |Decode(Full(input, Stdout))| + |Decode(Full(input, Stderr))| > max
    ensures |stdout| + |stderr| <= max
    ensures truncated ==> |stdout| + |stderr| == max
    ensures !truncated ==> stdout == Decode(Full(input, Stdout)) && stderr == Decode(Full(input, Stderr))
    ensures var (k, l) := Taken(input, max * 4);
            && stdout == Clip(CutText(Full(input, Stdout), k), max)
            && stderr == Clip(CutText(Full(input, Stderr), l), max - |stdout|)
            && (Begins(stdout, Decode(Full(input, Stdout))) <==> TrueUpTo(Full(input, Stdout), k, max))
            && (Begins(stderr, Decode(Full(input, Stderr))) <==> TrueUpTo(Full(input, Stderr), l, max - |stdout|))
  {
    hide Captured, CutText, TrueUpTo, Full, Taken, Begins, Decode;
    var out, err, dropped := CaptureOutput(input, max * 4);
    ExactBudget(Full(input, Stdout), Full(input, Stderr), out, err, dropped, max);
    BothTrueExactly(Full(input, Stdout), Full(input, Stderr), out, err, dropped, max);
    stdout, stderr, truncated := Decode(out), Decode(err), dropped;
    if |stdout| + |stderr| > max {
      var remaining := max;
      stdout := Clip(stdout, remaining);
      remaining := remaining - |stdout|;
      stderr := Clip(stderr, remaining);
      truncated := true;
    }
  }

  predicate Begins(shown: seq<CodePoint>, whole: seq<CodePoint>) { shown <= whole }

  /** When a text cut after k bytes and clipped to n characters is a true beginning: byte k is
      between characters, or the cut character is clipped away, or it was a replacement
      character itself. */
  predicate TrueUpTo(bs: seq<Byte>, k: nat, n: nat)
    requires k <= |bs|
  {
    Boundary(bs, k) || n <= Whole(bs, k) || (Whole(bs, k) < |Decode(bs)| && Decode(bs)[Whole(bs, k)] == REPLACEMENT)
  }

  /** For all bytes, cuts and limits. */
  lemma TrueBeginningExactly(bs: seq<Byte>, k: nat, n: nat)
    requires k <= |bs|
    ensures Begins(Clip(Decode(bs[..k]), n), Decode(bs)) <==> TrueUpTo(bs, k, n)
  {
    hide Decode, Whole, Boundary, CutText;
    DecodePrefix(bs, k);
    CutTextIs(bs, k);
    CutBeginning(Decode(bs), Whole(bs, k), Boundary(bs, k), n);
  }

  lemma CutTextIs(bs: seq<Byte>, k: nat)
    requires k <= |bs|
    ensures CutText(bs, k) == Decode(bs)[..Whole(bs, k)] + (if Boundary(bs, k) then [] else [REPLACEMENT])
  {
  }

  lemma CutBeginning(whole: seq<CodePoint>, w: nat, boundary: bool, n: nat)
    requires w <= |whole| && (!boundary ==> w < |whole|)
    ensures var cut := whole[..w] + (if boundary then [] else [REPLACEMENT]);
            Begins(Clip(cut, n), whole) <==> boundary || n <= w || whole[w] == REPLACEMENT
  {
    var cut := whole[..w] + (if boundary then [] else [REPLACEMENT]);
    if boundary || n <= w {
      assert Clip(cut, n) == whole[..|Clip(cut, n)|];
    } else {
      assert Clip(cut, n) == cut && cut[w] == REPLACEMENT;
      if whole[w] == REPLACEMENT {
        assert cut == whole[..w + 1];
      }
    }
  }

  /** The final clip clips each text by itself. */
  lemma ClippedAre(out: seq<CodePoint>, err: seq<CodePoint>, truncated: bool, max: nat)
    ensures |Clip(out, max)| <= max
    ensures Clipped(out, err, truncated, max).0 == Clip(out, max)
    ensures Clipped(out, err, truncated, max).1 == Clip(err, max - |Clip(out, max)|)
  {
  }

  lemma KeptIsTrueExactly(bs: seq<Byte>, kept: seq<Byte>, n: nat)
    requires kept <= bs
    ensures Decode(kept) == CutText(bs, |kept|)
    ensures Begins(Clip(Decode(kept), n), Decode(bs)) <==> TrueUpTo(bs, |kept|, n)
  {
    hide Decode, CutText, TrueUpTo, Begins, Clip;
    assert bs[..|kept|] == kept;
    DecodePrefix(bs, |kept|);
    TrueBeginningExactly(bs, |kept|, n);
  }

  lemma CapturedAre(stdout: seq<Byte>, stderr: seq<Byte>, budget: nat, out: seq<Byte>, err: seq<Byte>, dropped: bool)
    requires Captured(stdout, stderr, budget, out, err, dropped)
    ensures out <= stdout && err <= stderr
  {
  }

  /** The texts returned, exactly, and when each is a true beginning of its stream. */
  lemma BothTrueExactly(stdout: seq<Byte>, stderr: seq<Byte>, out: seq<Byte>, err: seq<Byte>, dropped: bool, max: nat)
    requires Captured(stdout, stderr, max * 4, out, err, dropped)
    ensures |out| <= |stdout| && |err| <= |stderr|
    ensures var (o, e, truncated) := Clipped(Decode(out), Decode(err), dropped, max);
            && o == Clip(CutText(stdout, |out|), max) && |o| <= max && e == Clip(CutText(stderr, |err|), max - |o|)
            && (Begins(o, Decode(stdout)) <==> TrueUpTo(stdout, |out|, max))
            && (Begins(e, Decode(stderr)) <==> TrueUpTo(stderr, |err|, max - |o|))
  {
    hide Decode, CutText, TrueUpTo, Captured, Begins, Clip, Clipped;
    CapturedAre(stdout, stderr, max * 4, out, err, dropped);
    ClippedAre(Decode(out), Decode(err), dropped, max);
    KeptIsTrueExactly(stdout, out, max);
    KeptIsTrueExactly(stderr, err, max - |Clip(Decode(out), max)|);
  }

  /** A command that writes to one stream only always gets back a true beginning: a cut character
      is always clipped away. */
  lemma OneStreamIsTrue(bs: seq<Byte>, max: nat)
    ensures TrueUpTo(bs, Least(|bs|, max * 4), max)
  {
    EndIsBoundary(bs);
    WholeIsLong(bs, Least(|bs|, max * 4));
  }

  lemma SilentStream(input: seq<Read>, max: nat)
    ensures Full(input, Stderr) == [] ==> TrueUpTo(Full(input, Stdout), Taken(input, max * 4).0, max)
    ensures Full(input, Stdout) == [] ==> TrueUpTo(Full(input, Stderr), Taken(input, max * 4).1, max)
  {
    hide Full, Taken, TrueUpTo;
    OneStreamIsTrue(Full(input, Stdout), max);
    OneStreamIsTrue(Full(input, Stderr), max);
  }

  /** The budget of four bytes a character never truncates on its own. For all byte streams:
      truncated is set exactly when the two decoded outputs together exceed the limit, and then
      exactly the limit is returned. */
  lemma ExactBudget(stdout: seq<Byte>, stderr: seq<Byte>, out: seq<Byte>, err: seq<Byte>, dropped: bool, max: nat)
    requires Captured(stdout, stderr, max * 4, out, err, dropped)
    ensures var (o, e, truncated) := Clipped(Decode(out), Decode(err), dropped, max);
            && (truncated <==> |Decode(stdout)| + |Decode(stderr)| > max)
            && |o| + |e| <= max
            && (truncated ==> |o| + |e| == max)
            && (!truncated ==> o == Decode(stdout) && e == Decode(stderr))
  {
    hide Decode, Whole, Boundary, CutText;
    CutLength(stdout, out);
    CutLength(stderr, err);
    if dropped {
      assert |out| + |err| == max * 4;
    } else {
      assert out == stdout && err == stderr;
    }
  }

  /** A beginning of the bytes decodes to no more characters, each of at most four bytes. */
  lemma CutLength(bs: seq<Byte>, cut: seq<Byte>)
    requires cut <= bs
    ensures |Decode(cut)| <= |Decode(bs)|
    ensures |cut| <= 4 * |Decode(cut)| && |bs| <= 4 * |Decode(bs)|
  {
    hide Decode, Whole, Boundary;
    DecodePrefix(bs, |cut|);
    assert bs[..|cut|] == cut;
    FourBytesEach(cut);
    FourBytesEach(bs);
  }

  /** For outputs that are valid UTF-8, in terms of the characters written. */
  lemma ExactBudgetForText(
      o: seq<CodePoint>, e: seq<CodePoint>, out: seq<Byte>, err: seq<Byte>, dropped: bool, max: nat)
    requires Captured(Encode(o), Encode(e), max * 4, out, err, dropped)
    ensures var (shownOut, shownErr, truncated) := Clipped(Decode(out), Decode(err), dropped, max);
            && (truncated <==> |o| + |e| > max)
            && |shownOut| + |shownErr| == (if truncated then max else |o| + |e|)
            && (!truncated ==> shownOut == o && shownErr == e)
  {
    hide Clipped, Encode, Decode, Captured;
    ExactBudget(Encode(o), Encode(e), out, err, dropped, max);
    RoundTrip(o);
    RoundTrip(e);
  }

  lemma TextIsTrueExactly(o: seq<CodePoint>, e: seq<CodePoint>, out: seq<Byte>, err: seq<Byte>, dropped: bool, max: nat)
    requires Captured(Encode(o), Encode(e), max * 4, out, err, dropped)
    ensures |out| <= |Encode(o)| && |err| <= |Encode(e)|
    ensures var (shownOut, shownErr, truncated) := Clipped(Decode(out), Decode(err), dropped, max);
            && |shownOut| <= max
            && (Begins(shownOut, o) <==> TrueUpTo(Encode(o), |out|, max))
            && (Begins(shownErr, e) <==> TrueUpTo(Encode(e), |err|, max - |shownOut|))
  {
    hide Clipped, Encode, Decode, TrueUpTo, CutText, Clip, Begins, Captured;
    BothTrueExactly(Encode(o), Encode(e), out, err, dropped, max);
    RoundTrip(o);
    RoundTrip(e);
  }

  const FACE: CodePoint := 0x1F600

  /** An unfinished character decodes to one replacement character. */
  lemma UnfinishedOne(part: seq<Byte>)
    requires part != [] && Subpart(part) == |part| && !Complete(part)
    ensures Decode(part) == [REPLACEMENT]
  {
    hide Subpart, Complete;
    assert part[|part|..] == [];
  }

  lemma DecodeBehind(c: CodePoint, rest: seq<Byte>)
    ensures Decode(EncodeOne(c) + rest) == [c] + Decode(rest)
  {
    hide EncodeOne, Subpart, First;
    EncodedFirst(c, rest);
    assert (EncodeOne(c) + rest)[|EncodeOne(c)|..] == rest;
  }

  lemma FaceBytes(face: seq<Byte>, part: seq<Byte>)
    requires face == EncodeOne(FACE) && part == [0xF0, 0x9F, 0x98]
    ensures face == [0xF0, 0x9F, 0x98, 0x80]
    ensures Subpart(part) == |part| && !Complete(part)
  {
  }

  lemma LetterByte()
    ensures EncodeOne(0x61) == [0x61]
  {
  }

  lemma EncodePair(a: CodePoint, b: CodePoint)
    ensures Encode([a, b]) == EncodeOne(a) + EncodeOne(b) && Encode([a]) == EncodeOne(a)
  {
    hide EncodeOne;
    assert Encode([]) == [];
    assert [a, b][1..] == [b] && [b][1..] == [] && [a][1..] == [];
    assert Encode([b]) == EncodeOne(b) + Encode([]);
    assert Encode([a, b]) == EncodeOne(a) + Encode([b]);
  }

  /** A cut character can be returned: with a limit of two characters, one byte on standard
      error and two four-byte characters on standard output, the second is cut and shown as its
      replacement. */
  lemma CutCharacterIsReturned()
    ensures Captured(Encode([FACE, FACE]), Encode([0x61]), 8, Encode([FACE]) + [0xF0, 0x9F, 0x98], Encode([0x61]), true)
    ensures Clipped(Decode(Encode([FACE]) + [0xF0, 0x9F, 0x98]), Decode(Encode([0x61])), true, 2)
        == ([FACE, REPLACEMENT], [], true)
  {
    hide Decode, Encode, EncodeOne, Subpart, Complete;
    var part: seq<Byte> := [0xF0, 0x9F, 0x98];
    FaceBytes(EncodeOne(FACE), part);
    UnfinishedOne(part);
    DecodeBehind(FACE, part);
    EncodePair(FACE, FACE);
    LetterByte();
    EncodePair(0x61, 0x61);
    RoundTrip([0x61]);
    var shown := Decode(EncodeOne(FACE) + part);
    assert shown == [FACE, REPLACEMENT] && shown[..2] == shown;
    var letter: seq<CodePoint> := [0x61];
    assert letter[..0] == [];
  }
}
