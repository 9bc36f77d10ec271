/** Canonical base64url cursors (shared/contracts/activity.ts, server/modules/activity/service.ts; RFC 4648, sections 3.5 and 5). */
module ActivityCursor {
  import opened Utf16

  newtype Byte = b: int | 0 <= b < 256

  /** A value of one base64url character. */
  type Sextet = v: nat | v < 64

  // ---------------------------------------------------------------- the alphabet of section 5

  /** [A-Za-z0-9_-] */
  predicate InAlphabet(u: CodeUnit) {
    0x41 <= u <= 0x5a || 0x61 <= u <= 0x7a || 0x30 <= u <= 0x39 || u == 0x2d || u == 0x5f
  }

  function ValueOf(u: CodeUnit): Sextet
    requires InAlphabet(u)
  {
    if 0x41 <= u <= 0x5a then u as int - 0x41
    else if 0x61 <= u <= 0x7a then u as int - 0x61 + 26
    else if 0x30 <= u <= 0x39 then u as int - 0x30 + 52
    else if u == 0x2d then 62
    else 63
  }

  function CharOf(v: Sextet): (u: CodeUnit)
    ensures InAlphabet(u) && ValueOf(u) == v
  {
    if v < 26 then (v + 0x41) as CodeUnit
    else if v < 52 then (v - 26 + 0x61) as CodeUnit
    else if v < 62 then (v - 52 + 0x30) as CodeUnit
    else if v == 62 then 0x2d
    else 0x5f
  }

  lemma CharOfValue(u: CodeUnit)
    requires InAlphabet(u)
    ensures CharOf(ValueOf(u)) == u
  {
  }

  predicate AllInAlphabet(t: Text) {
    forall i :: 0 <= i < |t| ==> InAlphabet(t[i])
  }

  // ---------------------------------------------------------------- encoding and decoding

  function First(a: Byte): Sextet { a as int / 4 }

  function Second(a: Byte, b: Byte): Sextet { a as int % 4 * 16 + b as int / 16 }

  function Third(b: Byte, c: Byte): Sextet { b as int % 16 * 4 + c as int / 64 }

  function Fourth(c: Byte): Sextet { c as int % 64 }

  /** toString("base64url"): without padding, unused bits zero. */
  function Encode(bytes: seq<Byte>): (t: Text)
    ensures AllInAlphabet(t)
    ensures bytes != [] ==> t != []
  {
    if bytes == [] then []
    else if |bytes| == 1 then [CharOf(First(bytes[0])), CharOf(Second(bytes[0], 0))]
    else if |bytes| == 2 then [CharOf(First(bytes[0])), CharOf(Second(bytes[0], bytes[1])), CharOf(Third(bytes[1], 0))]
    else
      [CharOf(First(bytes[0])), CharOf(Second(bytes[0], bytes[1])), CharOf(Third(bytes[1], bytes[2])), CharOf(Fourth(bytes[2]))]
      + Encode(bytes[3..])
  }

  function ByteA(p: Sextet, q: Sextet): Byte { (p * 4 + q / 16) as Byte }

  function ByteB(q: Sextet, r: Sextet): Byte { (q % 16 * 16 + r / 4) as Byte }

  function ByteC(r: Sextet, s: Sextet): Byte { (r % 4 * 64 + s) as Byte }

  /** Buffer.from(text, "base64url"): leftover bits are dropped, and so is a single leftover character. */
  function Decode(t: Text): seq<Byte>
    requires AllInAlphabet(t)
  {
    if |t| < 2 then []
    else if |t| == 2 then [ByteA(ValueOf(t[0]), ValueOf(t[1]))]
    else if |t| == 3 then [ByteA(ValueOf(t[0]), ValueOf(t[1])), ByteB(ValueOf(t[1]), ValueOf(t[2]))]
    else
      [ByteA(ValueOf(t[0]), ValueOf(t[1])), ByteB(ValueOf(t[1]), ValueOf(t[2])), ByteC(ValueOf(t[2]), ValueOf(t[3]))] + Decode(t[4..])
  }

  lemma BytesSurvive(a: Byte, b: Byte, c: Byte)
    ensures ByteA(First(a), Second(a, b)) == a
    ensures ByteB(Second(a, b), Third(b, c)) == b
    ensures ByteC(Third(b, c), Fourth(c)) == c
  {
  }

  lemma SextetsSurvive(p: Sextet, q: Sextet, r: Sextet, s: Sextet)
    ensures First(ByteA(p, q)) == p
    ensures Second(ByteA(p, q), ByteB(q, r)) == q
    ensures Third(ByteB(q, r), ByteC(r, s)) == r
    ensures Fourth(ByteC(r, s)) == s
  {
  }

  /** The last character of a short group survives exactly when its unused bits are zero (section 3.5). */
  lemma TailsSurvive(p: Sextet, q: Sextet, r: Sextet)
    ensures Second(ByteA(p, q), 0) == q <==> q % 16 == 0
    ensures Third(ByteB(q, r), 0) == r <==> r % 4 == 0
  {
  }

  /** What a cursor carries comes back. */
  lemma {:induction false} DecodingUndoesEncoding(bytes: seq<Byte>)
    ensures Decode(Encode(bytes)) == bytes
  {
    hide First, Second, Third, Fourth, ByteA, ByteB, ByteC;
    if |bytes| == 1 {
      BytesSurvive(bytes[0], 0, 0);
    } else if |bytes| == 2 {
      BytesSurvive(bytes[0], bytes[1], 0);
    } else if |bytes| > 2 {
      BytesSurvive(bytes[0], bytes[1], bytes[2]);
      DecodingUndoesEncoding(bytes[3..]);
      assert Encode(bytes)[4..] == Encode(bytes[3..]);
      assert bytes == [bytes[0], bytes[1], bytes[2]] + bytes[3..];
    }
  }

  // ---------------------------------------------------------------- the two checks

  /** [AQgw] */
  predicate EndsTwo(u: CodeUnit) {
    u in {0x41, 0x51, 0x67, 0x77}
  }

  /** [AEIMQUYcgkosw048] */
  predicate EndsThree(u: CodeUnit) {
    u in {0x41, 0x45, 0x49, 0x4d, 0x51, 0x55, 0x59, 0x63, 0x67, 0x6b, 0x6f, 0x73, 0x77, 0x30, 0x34, 0x38}
  }

  /** ^(?:[A-Za-z0-9_-]{4})*(?:[A-Za-z0-9_-][AQgw]|[A-Za-z0-9_-]{2}[AEIMQUYcgkosw048])?$ */
  predicate MatchesPattern(t: Text) {
    if |t| >= 4 then AllInAlphabet(t[..4]) && MatchesPattern(t[4..])
    else if |t| == 3 then InAlphabet(t[0]) && InAlphabet(t[1]) && EndsThree(t[2])
    else if |t| == 2 then InAlphabet(t[0]) && EndsTwo(t[1])
    else t == []
  }

  /** decodeCursor's checks on the text: alphabet, length, and that encoding the decoded bytes gives the text back. */
  predicate DecoderAccepts(t: Text) {
    t != [] && AllInAlphabet(t) && |t| % 4 != 1 && Encode(Decode(t)) == t
  }

  lemma EndingsAreTheZeroBits(u: CodeUnit)
    ensures EndsTwo(u) <==> InAlphabet(u) && ValueOf(u) % 16 == 0
    ensures EndsThree(u) <==> InAlphabet(u) && ValueOf(u) % 4 == 0
  {
  }

  /** Encoding what a text of whole and short groups decodes to gives the text back exactly when the pattern accepts it. */
  lemma {:induction false} PatternIsReEncoding(t: Text)
    requires AllInAlphabet(t) && |t| % 4 != 1
    ensures MatchesPattern(t) <==> Encode(Decode(t)) == t
    decreases |t|
  {
    hide First, Second, Third, Fourth, ByteA, ByteB, ByteC, EndsTwo, EndsThree, CharOf, ValueOf;
    if |t| == 2 {
      EndingsAreTheZeroBits(t[1]);
      TailsSurvive(ValueOf(t[0]), ValueOf(t[1]), 0);
      SextetsSurvive(ValueOf(t[0]), ValueOf(t[1]), 0, 0);
      CharOfValue(t[0]);
      CharOfValue(t[1]);
      assert t == [t[0], t[1]];
    } else if |t| == 3 {
      EndingsAreTheZeroBits(t[2]);
      TailsSurvive(ValueOf(t[0]), ValueOf(t[1]), ValueOf(t[2]));
      SextetsSurvive(ValueOf(t[0]), ValueOf(t[1]), ValueOf(t[2]), 0);
      CharOfValue(t[0]);
      CharOfValue(t[1]);
      CharOfValue(t[2]);
      assert t == [t[0], t[1], t[2]];
    } else if |t| >= 4 {
      PatternIsReEncoding(t[4..]);
      WholeGroupsSurvive(t);
      assert t == t[..4] + t[4..];
    }
  }

  lemma DecodingAGroup(t: Text)
    requires |t| >= 4 && AllInAlphabet(t)
    ensures Decode(t)
         == [ByteA(ValueOf(t[0]), ValueOf(t[1])), ByteB(ValueOf(t[1]), ValueOf(t[2])), ByteC(ValueOf(t[2]), ValueOf(t[3]))] + Decode(t[4..])
  {
    hide ByteA, ByteB, ByteC, ValueOf;
  }

  lemma EncodingAGroup(a: Byte, b: Byte, c: Byte, rest: seq<Byte>)
    ensures Encode([a, b, c] + rest) == [CharOf(First(a)), CharOf(Second(a, b)), CharOf(Third(b, c)), CharOf(Fourth(c))] + Encode(rest)
  {
    hide First, Second, Third, Fourth, CharOf;
    assert ([a, b, c] + rest)[3..] == rest;
  }

  lemma WholeGroupsSurvive(t: Text)
    requires |t| >= 4 && AllInAlphabet(t)
    ensures Encode(Decode(t)) == t[..4] + Encode(Decode(t[4..]))
  {
    hide First, Second, Third, Fourth, ByteA, ByteB, ByteC, CharOf, ValueOf, Encode, Decode;
    var p, q, r, s := ValueOf(t[0]), ValueOf(t[1]), ValueOf(t[2]), ValueOf(t[3]);
    DecodingAGroup(t);
    EncodingAGroup(ByteA(p, q), ByteB(q, r), ByteC(r, s), Decode(t[4..]));
    SextetsSurvive(p, q, r, s);
    CharOfValue(t[0]);
    CharOfValue(t[1]);
    CharOfValue(t[2]);
    CharOfValue(t[3]);
    assert t[..4] == [t[0], t[1], t[2], t[3]];
  }

  lemma {:induction false} PatternStaysInAlphabet(t: Text)
    requires MatchesPattern(t)
    ensures AllInAlphabet(t) && |t| % 4 != 1
    decreases |t|
  {
    if |t| >= 4 {
      PatternStaysInAlphabet(t[4..]);
      assert t == t[..4] + t[4..];
    } else if |t| == 3 {
      EndingsAreTheZeroBits(t[2]);
    } else if |t| == 2 {
      EndingsAreTheZeroBits(t[1]);
    }
  }

  /** The schema's pattern and the decoder's checks accept the same non-empty texts. */
  lemma PatternIffDecoder(t: Text)
    requires t != []
    ensures MatchesPattern(t) <==> DecoderAccepts(t)
  {
    hide Encode, Decode;
    if MatchesPattern(t) {
      PatternStaysInAlphabet(t);
    }
    if AllInAlphabet(t) && |t| % 4 != 1 {
      PatternIsReEncoding(t);
    }
  }

  /** Every cursor the service hands out passes both checks. */
  lemma EncodedCursorsAreAccepted(bytes: seq<Byte>)
    requires bytes != []
    ensures MatchesPattern(Encode(bytes)) && DecoderAccepts(Encode(bytes))
  {
    hide MatchesPattern;
    DecodingUndoesEncoding(bytes);
    EncodedLength(bytes);
    PatternIffDecoder(Encode(bytes));
  }

  lemma {:induction false} EncodedLength(bytes: seq<Byte>)
    ensures |Encode(bytes)| % 4 != 1
  {
    hide First, Second, Third, Fourth, CharOf;
    if |bytes| > 2 {
      EncodedLength(bytes[3..]);
    }
  }
}
