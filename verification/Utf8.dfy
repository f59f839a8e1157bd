/** UTF-8: encoding of code points, and decoding that replaces each malformed subsequence by
    one replacement character. */
module Utf8 {

  type Byte = b: int | 0 <= b < 256

  newtype CodePoint = c: int | 0 <= c < 0xD800 || 0xE000 <= c < 0x110000

  const REPLACEMENT: CodePoint := 0xFFFD

  function EncodeOne(c: CodePoint): (bs: seq<Byte>)
    ensures 1 <= |bs| <= 4
  {
    var n := c as int;
    if n < 0x80 then [n]
    else if n < 0x800 then [0xC0 + n / 64, 0x80 + n % 64]
    else if n < 0x10000 then [0xE0 + n / 64 / 64, 0x80 + n / 64 % 64, 0x80 + n % 64]
    else [0xF0 + n / 64 / 64 / 64, 0x80 + n / 64 / 64 % 64, 0x80 + n / 64 % 64, 0x80 + n % 64]
  }

  function Encode(text: seq<CodePoint>): seq<Byte> {
    if text == [] then [] else EncodeOne(text[0]) + Encode(text[1..])
  }

  predicate Tail(b: Byte) { 0x80 <= b < 0xC0 }

  /** How many bytes a lead byte announces; zero if it cannot lead. */
  function Announced(b: Byte): (n: nat)
    ensures n <= 4
  {
    if b < 0x80 then 1
    else if 0xC2 <= b < 0xE0 then 2
    else if 0xE0 <= b < 0xF0 then 3
    else if 0xF0 <= b < 0xF5 then 4
    else 0
  }

  /** Whether b may follow the lead byte: no overlong forms, surrogates or values out of range. */
  predicate Second(lead: Byte, b: Byte) {
    && Tail(b)
    && (lead == 0xE0 ==> b >= 0xA0) && (lead == 0xED ==> b < 0xA0)
    && (lead == 0xF0 ==> b >= 0x90) && (lead == 0xF4 ==> b < 0x90)
  }

  /** The longest beginning of bs that could still start one character. */
  function Subpart(bs: seq<Byte>): (n: nat)
    requires bs != []
    ensures 1 <= n <= 4 && n <= |bs|
    ensures Announced(bs[0]) > 0 ==> n <= Announced(bs[0])
  {
    var want := Announced(bs[0]);
    if want <= 1 || |bs| == 1 || !Second(bs[0], bs[1]) then 1
    else if want == 2 || |bs| == 2 || !Tail(bs[2]) then 2
    else if want == 3 || |bs| == 3 || !Tail(bs[3]) then 3
    else 4
  }

  predicate Complete(bs: seq<Byte>)
    requires bs != []
  {
    Announced(bs[0]) > 0 && Subpart(bs) == Announced(bs[0])
  }

  /** Six more bits. */
  function Shift(high: int, low: Byte): int { high * 64 + (low as int - 0x80) }

  function Value(bs: seq<Byte>): CodePoint
    requires bs != [] && Complete(bs)
  {
    var want := Announced(bs[0]);
    var lead: int := bs[0];
    if want == 1 then lead as CodePoint
    else if want == 2 then Shift(lead - 0xC0, bs[1]) as CodePoint
    else if want == 3 then Shift(Shift(lead - 0xE0, bs[1]), bs[2]) as CodePoint
    else Shift(Shift(Shift(lead - 0xF0, bs[1]), bs[2]), bs[3]) as CodePoint
  }

  function First(bs: seq<Byte>): CodePoint
    requires bs != []
  {
    if Complete(bs) then Value(bs) else REPLACEMENT
  }

  function Decode(bs: seq<Byte>): seq<CodePoint> {
    if bs == [] then [] else [First(bs)] + Decode(bs[Subpart(bs)..])
  }

  /** A decoded character stands for at most four bytes. */
  lemma {:induction false} FourBytesEach(bs: seq<Byte>)
    ensures |bs| <= 4 * |Decode(bs)|
  {
    if bs != [] {
      FourBytesEach(bs[Subpart(bs)..]);
    }
  }

  lemma CutSubpart(bs: seq<Byte>, k: nat)
    requires bs != [] && 0 < k <= |bs|
    ensures k < Subpart(bs) ==> Subpart(bs[..k]) == k && !Complete(bs[..k])
    ensures k >= Subpart(bs) ==> Subpart(bs[..k]) == Subpart(bs) && First(bs[..k]) == First(bs)
  {
  }

  /** How many decoded characters lie wholly within the first k bytes. */
  function Whole(bs: seq<Byte>, k: nat): (n: nat)
    requires k <= |bs|
    ensures n <= |Decode(bs)|
  {
    if k == 0 || k < Subpart(bs) then 0 else 1 + Whole(bs[Subpart(bs)..], k - Subpart(bs))
  }

  /** Whether byte k is where a decoded character starts, or the end. */
  predicate Boundary(bs: seq<Byte>, k: nat)
    requires k <= |bs|
  {
    k == 0 || (k >= Subpart(bs) && Boundary(bs[Subpart(bs)..], k - Subpart(bs)))
  }

  /** The decoded text up to byte k: a character cut in the middle shows as one replacement. */
  function CutText(bs: seq<Byte>, k: nat): seq<CodePoint>
    requires k <= |bs|
  {
    Decode(bs)[..Whole(bs, k)] + (if Boundary(bs, k) then [] else [REPLACEMENT])
  }

  /** Decoding the first k bytes gives the text cut there. */
  lemma {:induction false} DecodePrefix(bs: seq<Byte>, k: nat)
    requires k <= |bs|
    ensures Decode(bs[..k]) == CutText(bs, k)
    ensures !Boundary(bs, k) ==> Whole(bs, k) < |Decode(bs)|
    decreases |bs|
  {
    hide Subpart, Complete, Value;
    if k > 0 {
      CutSubpart(bs, k);
      var n := Subpart(bs);
      if k < n {
        assert bs[..k][k..] == [];
        assert Decode(bs[..k]) == [REPLACEMENT];
      } else {
        assert bs[..k][n..] == bs[n..][..k - n];
        DecodePrefix(bs[n..], k - n);
        ConsTake(First(bs), Decode(bs[n..]), Whole(bs[n..], k - n));
      }
    }
  }

  lemma ConsTake(c: CodePoint, rest: seq<CodePoint>, n: nat)
    requires n <= |rest|
    ensures ([c] + rest)[..n + 1] == [c] + rest[..n]
  {
  }

  /** The whole characters before byte k take up all of them but at most three. */
  lemma {:induction false} WholeIsLong(bs: seq<Byte>, k: nat)
    requires k <= |bs|
    ensures k <= 4 * Whole(bs, k) + (if Boundary(bs, k) then 0 else 3)
    decreases |bs|
  {
    hide Subpart;
    if k > 0 && k >= Subpart(bs) {
      WholeIsLong(bs[Subpart(bs)..], k - Subpart(bs));
    }
  }

  /** All of the bytes are a boundary. */
  lemma {:induction false} EndIsBoundary(bs: seq<Byte>)
    ensures Boundary(bs, |bs|) && Whole(bs, |bs|) == |Decode(bs)|
  {
    if bs != [] {
      EndIsBoundary(bs[Subpart(bs)..]);
    }
  }

  lemma ShiftBack(n: nat, low: Byte)
    requires low as int == 0x80 + n % 64
    ensures Shift(n / 64, low) == n
  {
  }

  lemma EncodedOne(c: CodePoint, bs: seq<Byte>)
    requires bs == EncodeOne(c)
    ensures Subpart(bs) == |bs| && Complete(bs) && Value(bs) == c
  {
    var n := c as int;
    hide Shift;
    if 0x80 <= n < 0x800 {
      ShiftBack(n, bs[1]);
    } else if 0x800 <= n < 0x10000 {
      ShiftBack(n, bs[2]);
      ShiftBack(n / 64, bs[1]);
    } else if n >= 0x10000 {
      ShiftBack(n, bs[3]);
      ShiftBack(n / 64, bs[2]);
      ShiftBack(n / 64 / 64, bs[1]);
    }
  }

  lemma EncodedFirst(c: CodePoint, rest: seq<Byte>)
    ensures var bs := EncodeOne(c) + rest;
            Subpart(bs) == |EncodeOne(c)| && First(bs) == c
  {
    EncodedOne(c, EncodeOne(c));
    hide EncodeOne;
    var bs := EncodeOne(c) + rest;
    assert bs[..|EncodeOne(c)|] == EncodeOne(c);
    CutSubpart(bs, |EncodeOne(c)|);
  }

  /** Decoding gives back every encoded text. */
  lemma {:induction false} RoundTrip(text: seq<CodePoint>)
    ensures Decode(Encode(text)) == text
  {
    if text != [] {
      var rest := Encode(text[1..]);
      EncodedFirst(text[0], rest);
      assert (EncodeOne(text[0]) + rest)[|EncodeOne(text[0])|..] == rest;
      RoundTrip(text[1..]);
    }
  }

  // -------------------------------------------------- which bytes are characters

  lemma {:induction false} ShiftForth(high: nat, low: Byte)
    requires Tail(low)
    ensures Shift(high, low) / 64 == high && 0x80 + Shift(high, low) % 64 == low as int
  {
  }

  lemma TwoBytes(bs: seq<Byte>)
    requires bs != [] && Complete(bs) && Announced(bs[0]) == 2
    ensures EncodeOne(Value(bs)) == bs[..2]
  {
    ShiftForth(bs[0] as int - 0xC0, bs[1]);
  }

  lemma ThreeBytes(bs: seq<Byte>)
    requires bs != [] && Complete(bs) && Announced(bs[0]) == 3
    ensures EncodeOne(Value(bs)) == bs[..3]
  {
    var high := Shift(bs[0] as int - 0xE0, bs[1]);
    ShiftForth(bs[0] as int - 0xE0, bs[1]);
    ShiftForth(high, bs[2]);
    assert 0x800 <= Shift(high, bs[2]) < 0x10000;
    hide Shift;
    assert Value(bs) as int == Shift(high, bs[2]);
  }

  lemma FourBytes(bs: seq<Byte>)
    requires bs != [] && Complete(bs) && Announced(bs[0]) == 4
    ensures EncodeOne(Value(bs)) == bs[..4]
  {
    var top := Shift(bs[0] as int - 0xF0, bs[1]);
    var high := Shift(top, bs[2]);
    ShiftForth(bs[0] as int - 0xF0, bs[1]);
    ShiftForth(top, bs[2]);
    ShiftForth(high, bs[3]);
    assert Shift(high, bs[3]) >= 0x10000;
    hide Shift;
    assert Value(bs) as int == Shift(high, bs[3]);
  }

  /** What is decoded as a character is the encoding of that character: no overlong form, no
      surrogate, nothing out of range. */
  lemma CompleteIsEncoding(bs: seq<Byte>)
    requires bs != [] && Complete(bs)
    ensures EncodeOne(Value(bs)) == bs[..Subpart(bs)]
  {
    var want := Announced(bs[0]);
    hide Second;
    if want == 2 {
      TwoBytes(bs);
    } else if want == 3 {
      ThreeBytes(bs);
    } else if want == 4 {
      FourBytes(bs);
    }
  }

  /** The first decoded character is c because c is encoded there, or it replaces bytes at which
      no character is encoded. */
  lemma FirstExactly(bs: seq<Byte>, c: CodePoint)
    requires bs != []
    ensures EncodeOne(c) <= bs <==> Complete(bs) && Value(bs) == c
    ensures !Complete(bs) ==> First(bs) == REPLACEMENT
  {
    hide EncodeOne, Subpart, Announced;
    if Complete(bs) {
      CompleteIsEncoding(bs);
    }
    if EncodeOne(c) <= bs {
      EncodedComplete(c, bs);
    }
  }

  lemma EncodedComplete(c: CodePoint, bs: seq<Byte>)
    requires EncodeOne(c) <= bs
    ensures bs != [] && Complete(bs) && Value(bs) == c
  {
    EncodedOne(c, EncodeOne(c));
    hide EncodeOne;
    assert bs[..|EncodeOne(c)|] == EncodeOne(c);
    CutSubpart(bs, |EncodeOne(c)|);
  }

  /** bs with what is missing of the character it starts. */
  function Completed(bs: seq<Byte>): seq<Byte>
    requires bs != []
  {
    var second: Byte := if bs[0] == 0xE0 then 0xA0 else if bs[0] == 0xF0 then 0x90 else 0x80;
    (if |bs| == 1 then bs + [second] else bs) + [0x80, 0x80]
  }

  lemma LeadAnnounces(c: CodePoint)
    ensures Announced(EncodeOne(c)[0]) == |EncodeOne(c)|
  {
  }

  lemma NotLonger(bs: seq<Byte>, c: CodePoint)
    requires bs != [] && !Complete(bs) && Subpart(bs) < |bs|
    ensures !(bs[..Subpart(bs) + 1] <= EncodeOne(c))
  {
    var n := Subpart(bs);
    EncodedOne(c, EncodeOne(c));
    hide EncodeOne, Subpart;
    if bs[..n + 1] <= EncodeOne(c) {
      assert EncodeOne(c)[..n + 1] == bs[..n + 1];
      CutSubpart(bs, n + 1);
      CutSubpart(EncodeOne(c), n + 1);
    }
  }

  /** One replacement stands for as many bytes as still begin some character, and for one byte
      if the first does not begin any. */
  lemma SubpartExactly(bs: seq<Byte>, c: CodePoint)
    requires bs != [] && !Complete(bs)
    ensures Subpart(bs) < |bs| ==> !(bs[..Subpart(bs) + 1] <= EncodeOne(c))
    ensures Announced(bs[0]) == 0 ==> Subpart(bs) == 1 && !([bs[0]] <= EncodeOne(c))
    ensures Announced(bs[0]) > 0 ==> exists d :: bs[..Subpart(bs)] <= EncodeOne(d)
  {
    if Announced(bs[0]) > 0 {
      var d := CompletedIs(bs);
    } else {
      LeadAnnounces(c);
    }
    if Subpart(bs) < |bs| {
      NotLonger(bs, c);
    }
    hide EncodeOne, Second, Tail;
  }

  lemma CompletedIs(bs: seq<Byte>) returns (d: CodePoint)
    requires bs != [] && Announced(bs[0]) > 0
    ensures bs[..Subpart(bs)] <= EncodeOne(d)
  {
    var n := Subpart(bs);
    var whole := Completed(bs[..n]);
    assert Complete(whole) && n <= Subpart(whole);
    d := Value(whole);
    CompleteIsEncoding(whole);
  }
}
