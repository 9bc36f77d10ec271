/** UTF-16 text as ECMAScript strings hold it: a sequence of 16-bit code units that need not be well formed. */
module Utf16 {

  newtype CodeUnit = u: int | 0 <= u < 0x1_0000

  type Text = seq<CodeUnit>

  const NUL: CodeUnit := 0x00

  const LINE_FEED: CodeUnit := 0x0a

  predicate IsHighSurrogate(u: CodeUnit) {
    0xd800 <= u <= 0xdbff
  }

  predicate IsLowSurrogate(u: CodeUnit) {
    0xdc00 <= u <= 0xdfff
  }

  /** The class that `\s` matches and that `trim` strips. */
  predicate IsSpace(u: CodeUnit) {
    || 0x09 <= u <= 0x0d
    || u == 0x20 || u == 0xa0 || u == 0x1680
    || 0x2000 <= u <= 0x200a
    || u == 0x2028 || u == 0x2029 || u == 0x202f || u == 0x205f || u == 0x3000 || u == 0xfeff
  }

  predicate IsDigit(u: CodeUnit) {
    0x30 <= u <= 0x39
  }

  /** Position i lies between the two halves of a surrogate pair. */
  predicate SplitsPair(text: Text, i: int) {
    0 < i < |text| && IsHighSurrogate(text[i - 1]) && IsLowSurrogate(text[i])
  }

  /** The code unit at i is no surrogate, or half of a pair. */
  predicate PairedAt(text: Text, i: nat)
    requires i < |text|
  {
    && (IsHighSurrogate(text[i]) ==> i + 1 < |text| && IsLowSurrogate(text[i + 1]))
    && (IsLowSurrogate(text[i]) ==> 0 < i && IsHighSurrogate(text[i - 1]))
  }

  /** Every surrogate code unit belongs to a pair (Unicode Standard, section 3.9, D91). */
  predicate WellFormed(text: Text) {
    forall i :: 0 <= i < |text| ==> PairedAt(text, i)
  }

  function TrimStart(text: Text): (r: Text)
    ensures |r| <= |text| && r == text[|text| - |r|..]
    ensures r != [] ==> !IsSpace(r[0])
  {
    if text != [] && IsSpace(text[0]) then TrimStart(text[1..]) else text
  }

  function TrimEnd(text: Text): (r: Text)
    ensures r <= text
    ensures r != [] ==> !IsSpace(r[|r| - 1])
  {
    if text != [] && IsSpace(text[|text| - 1]) then TrimEnd(text[..|text| - 1]) else text
  }

  function Trim(text: Text): (r: Text)
    ensures r != [] ==> !IsSpace(r[0]) && !IsSpace(r[|r| - 1])
  {
    TrimEnd(TrimStart(text))
  }

  predicate AllSpace(text: Text) {
    forall i :: 0 <= i < |text| ==> IsSpace(text[i])
  }

  lemma {:induction false} TrimStartCutsSpace(text: Text)
    ensures AllSpace(text[..|text| - |TrimStart(text)|])
  {
    if text != [] && IsSpace(text[0]) {
      TrimStartCutsSpace(text[1..]);
      var n := |text| - |TrimStart(text)|;
      assert text[..n] == [text[0]] + text[1..][..n - 1];
    }
  }

  lemma {:induction false} TrimEndCutsSpace(text: Text)
    ensures AllSpace(text[|TrimEnd(text)|..])
  {
    if text != [] && IsSpace(text[|text| - 1]) {
      var front := text[..|text| - 1];
      TrimEndCutsSpace(front);
      assert text[|TrimEnd(text)|..] == front[|TrimEnd(front)|..] + [text[|text| - 1]];
    }
  }

  /** Nothing but white space is stripped, and only at the ends. */
  lemma TrimCutsSpace(text: Text) returns (before: Text, after: Text)
    ensures text == before + Trim(text) + after && AllSpace(before) && AllSpace(after)
  {
    hide TrimStart, TrimEnd, AllSpace;
    var rest := TrimStart(text);
    TrimStartCutsSpace(text);
    TrimEndCutsSpace(rest);
    before, after := text[..|text| - |rest|], rest[|Trim(text)|..];
  }

  lemma TrimIsIdempotent(text: Text)
    ensures Trim(Trim(text)) == Trim(text)
  {
  }
}
