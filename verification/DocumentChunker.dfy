/** The deterministic document chunker (server/modules/documents/document-chunker.ts). */
module DocumentChunker {
  import opened Common
  import opened Utf16

  const MAX_CHUNK_CHARS := 3000
  const CHUNK_OVERLAP_CHARS := 300
  const MAX_PRIMARY_CHARS := MAX_CHUNK_CHARS - CHUNK_OVERLAP_CHARS
  const MAX_DOCUMENT_CHUNKS := 1000

  // ---------------------------------------------------------------- the three patterns as scanners

  predicate IsBlank(u: CodeUnit) {
    IsSpace(u) && u != LINE_FEED
  }

  /** . ! ? and their full-width forms. */
  predicate IsTerminator(u: CodeUnit) {
    u in {0x2e, 0x21, 0x3f, 0x3002, 0xff01, 0xff1f}
  }

  /** Closing quotation marks and brackets. */
  predicate IsCloser(u: CodeUnit) {
    u in {0x22, 0x27, 0x201d, 0x2019, 0x29, 0x5d, 0x7d}
  }

  datatype Class = Blank | Space | Closer

  predicate InClass(charClass: Class, u: CodeUnit) {
    match charClass
    case Blank => IsBlank(u)
    case Space => IsSpace(u)
    case Closer => IsCloser(u)
  }

  /** One past the longest run of the class that starts at i and stays below limit. */
  function RunEnd(text: Text, i: nat, limit: nat, charClass: Class): (r: nat)
    requires i <= limit <= |text|
    ensures i <= r <= limit
    ensures i < r ==> InClass(charClass, text[r - 1])
    ensures r < limit ==> !InClass(charClass, text[r])
    decreases limit - i
  {
    if i < limit && InClass(charClass, text[i]) then RunEnd(text, i + 1, limit, charClass) else i
  }

  lemma {:induction false} RunsAreInClass(text: Text, i: nat, limit: nat, charClass: Class)
    requires i <= limit <= |text|
    ensures forall k :: i <= k < RunEnd(text, i, limit, charClass) ==> InClass(charClass, text[k])
    decreases limit - i
  {
    if i < limit && InClass(charClass, text[i]) {
      RunsAreInClass(text, i + 1, limit, charClass);
    }
  }

  /** One past as many blank lines as follow position i. */
  function BlankLinesEnd(text: Text, i: nat, limit: nat): (r: nat)
    requires i <= limit <= |text|
    ensures i <= r <= limit
    ensures i < r ==> text[r - 1] == LINE_FEED
    decreases limit - i
  {
    var k := RunEnd(text, i, limit, Blank);
    if k < limit && text[k] == LINE_FEED then BlankLinesEnd(text, k + 1, limit) else i
  }

  datatype CutKind = Paragraph | Sentence | Whitespace | Hard

  /** The end of the pattern's match that starts at i, in the text cut off at limit. */
  function MatchEnd(kind: CutKind, text: Text, i: nat, limit: nat): (r: Option<nat>)
    requires i < limit <= |text|
    ensures r.Some? ==> i < r.value <= limit && IsSpace(text[r.value - 1])
    ensures kind == Hard ==> r.None?
  {
    match kind
    case Paragraph =>
      if text[i] == LINE_FEED then
        var r := BlankLinesEnd(text, i + 1, limit);
        if r > i + 1 then Some(r) else None
      else None
    case Sentence =>
      if IsTerminator(text[i]) then
        var s := RunEnd(text, i + 1, limit, Closer);
        var r := RunEnd(text, s, limit, Space);
        if r > s then Some(r) else None
      else None
    case Whitespace =>
      var r := RunEnd(text, i, limit, Space);
      if r > i then Some(r) else None
    case Hard => None
  }

  predicate AllInClass(text: Text, i: nat, r: nat, charClass: Class)
    requires r <= |text|
  {
    forall k :: i <= k < r ==> InClass(charClass, text[k])
  }

  /** Some split into one terminator, closers, and at least one white space. */
  predicate TerminatorClosersSpaces(text: Text, i: nat, r: nat)
    requires i < r <= |text|
  {
    IsTerminator(text[i]) && exists m :: i < m < r && AllInClass(text, i + 1, m, Closer) && AllInClass(text, m, r, Space)
  }

  /** text[i..r] is in the language of the pattern. A paragraph break is white space that starts and ends with distinct line feeds. */
  predicate InPattern(kind: CutKind, text: Text, i: nat, r: nat)
    requires i < r <= |text|
  {
    match kind
    case Paragraph => i + 1 < r && text[i] == LINE_FEED && text[r - 1] == LINE_FEED && AllInClass(text, i, r, Space)
    case Sentence => TerminatorClosersSpaces(text, i, r)
    case Whitespace => AllInClass(text, i, r, Space)
    case Hard => false
  }

  lemma {:induction false} BlankLinesAreLongest(text: Text, i: nat, limit: nat)
    requires i <= limit <= |text|
    ensures AllInClass(text, i, BlankLinesEnd(text, i, limit), Space)
    ensures forall q :: BlankLinesEnd(text, i, limit) < q <= limit && text[q - 1] == LINE_FEED ==> !AllInClass(text, i, q, Space)
    decreases limit - i
  {
    var k := RunEnd(text, i, limit, Blank);
    RunsAreInClass(text, i, limit, Blank);
    if k < limit && text[k] == LINE_FEED {
      BlankLinesAreLongest(text, k + 1, limit);
      var e := BlankLinesEnd(text, k + 1, limit);
      forall q | e < q <= limit && text[q - 1] == LINE_FEED
        ensures !AllInClass(text, i, q, Space)
      {
        assert !AllInClass(text, k + 1, q, Space);
        var bad :| k + 1 <= bad < q && !InClass(Space, text[bad]);
      }
    } else {
      forall q | i < q <= limit && text[q - 1] == LINE_FEED
        ensures !AllInClass(text, i, q, Space)
      {
        assert k < q;
        assert !InClass(Space, text[k]);
      }
    }
  }

  lemma RunsAreLongest(text: Text, i: nat, limit: nat, charClass: Class)
    requires i <= limit <= |text|
    ensures var e := RunEnd(text, i, limit, charClass);
      AllInClass(text, i, e, charClass) && forall q :: e < q <= limit ==> !AllInClass(text, i, q, charClass)
  {
    RunsAreInClass(text, i, limit, charClass);
    var e := RunEnd(text, i, limit, charClass);
    forall q | e < q <= limit
      ensures !AllInClass(text, i, q, charClass)
    {
      assert !InClass(charClass, text[e]);
    }
  }

  lemma SentencesAreLongest(text: Text, i: nat, limit: nat, q: nat)
    requires i < q <= limit <= |text| && TerminatorClosersSpaces(text, i, q)
    ensures MatchEnd(Sentence, text, i, limit).Some? && q <= MatchEnd(Sentence, text, i, limit).value
  {
    var m :| i < m < q && AllInClass(text, i + 1, m, Closer) && AllInClass(text, m, q, Space);
    var s := RunEnd(text, i + 1, limit, Closer);
    RunsAreLongest(text, i + 1, limit, Closer);
    assert InClass(Space, text[m]) && !InClass(Closer, text[m]);
    assert s == m;
    RunsAreLongest(text, s, limit, Space);
  }

  lemma SentencesMatch(text: Text, i: nat, limit: nat)
    requires i < limit <= |text| && MatchEnd(Sentence, text, i, limit).Some?
    ensures TerminatorClosersSpaces(text, i, MatchEnd(Sentence, text, i, limit).value)
  {
    var s := RunEnd(text, i + 1, limit, Closer);
    RunsAreInClass(text, i + 1, limit, Closer);
    RunsAreInClass(text, s, limit, Space);
    assert AllInClass(text, i + 1, s, Closer) && AllInClass(text, s, MatchEnd(Sentence, text, i, limit).value, Space);
  }

  /** The scanner finds the longest text of the pattern's language that starts at i, or there is none. */
  lemma MatchesAreLongest(kind: CutKind, text: Text, i: nat, limit: nat)
    requires i < limit <= |text|
    ensures var e := MatchEnd(kind, text, i, limit);
      && (e.Some? ==> InPattern(kind, text, i, e.value))
      && forall q :: (if e.Some? then e.value else i) < q <= limit ==> !InPattern(kind, text, i, q)
  {
    var e := MatchEnd(kind, text, i, limit);
    match kind
    case Paragraph =>
      if text[i] == LINE_FEED {
        BlankLinesAreLongest(text, i + 1, limit);
        forall q | (if e.Some? then e.value else i) < q <= limit && i + 1 < q && text[q - 1] == LINE_FEED
          ensures !AllInClass(text, i, q, Space)
        {
          assert !AllInClass(text, i + 1, q, Space);
        }
      }
    case Sentence =>
      if e.Some? {
        SentencesMatch(text, i, limit);
      }
      forall q | (if e.Some? then e.value else i) < q <= limit
        ensures !TerminatorClosersSpaces(text, i, q)
      {
        if TerminatorClosersSpaces(text, i, q) {
          SentencesAreLongest(text, i, limit, q);
        }
      }
    case Whitespace => RunsAreLongest(text, i, limit, Space);
    case Hard =>
  }

  /** The end of the last of the successive matches in text[from..limit]. */
  function LastMatch(kind: CutKind, text: Text, from: nat, limit: nat): Option<nat>
    requires from <= limit <= |text|
    decreases limit - from
  {
    if from == limit then None
    else
      match MatchEnd(kind, text, from, limit)
      case None => LastMatch(kind, text, from + 1, limit)
      case Some(e) => if LastMatch(kind, text, e, limit).Some? then LastMatch(kind, text, e, limit) else Some(e)
  }

  method LastMatchEnd(text: Text, start: nat, end: nat, kind: CutKind) returns (result: Option<nat>)
    requires start <= end <= |text|
    ensures result == LastMatch(kind, text, start, end)
  {
    result := None;
    var position := start;
    while position < end
      invariant start <= position <= end
      invariant LastMatch(kind, text, start, end)
             == if LastMatch(kind, text, position, end).Some? then LastMatch(kind, text, position, end) else result
    {
      var candidate := MatchEnd(kind, text, position, end);
      if candidate.Some? {
        result := candidate;
        position := candidate.value;
      } else {
        position := position + 1;
      }
    }
  }

  /** No match starts in text[from..limit]. */
  predicate Clear(kind: CutKind, text: Text, from: nat, limit: nat)
    requires limit <= |text|
  {
    forall i :: from <= i < limit ==> MatchEnd(kind, text, i, limit).None?
  }

  /** The match that ends at r starts at or after from. */
  predicate EndsMatch(kind: CutKind, text: Text, from: nat, limit: nat, r: nat)
    requires limit <= |text|
  {
    exists i :: from <= i < limit && MatchEnd(kind, text, i, limit) == Some(r)
  }

  /** The result ends a match, no match is left after it, and there is none only when the window holds no match at all. */
  lemma {:induction false} LastMatchIsLast(kind: CutKind, text: Text, from: nat, limit: nat)
    requires from <= limit <= |text|
    ensures var r := LastMatch(kind, text, from, limit);
      match r
      case None => Clear(kind, text, from, limit)
      case Some(e) => from < e <= limit && EndsMatch(kind, text, from, limit, e) && Clear(kind, text, e, limit)
    decreases limit - from
  {
    if from < limit {
      var e := MatchEnd(kind, text, from, limit);
      if e.None? {
        LastMatchIsLast(kind, text, from + 1, limit);
      } else {
        LastMatchIsLast(kind, text, e.value, limit);
      }
    }
  }

  // ---------------------------------------------------------------- choosing a cut

  function SafeEndBoundary(text: Text, proposed: nat, minimum: nat): nat {
    if proposed > minimum && proposed < |text| && proposed > 0 && IsHighSurrogate(text[proposed - 1]) && IsLowSurrogate(text[proposed])
    then proposed - 1 else proposed
  }

  function SafeStartBoundary(text: Text, proposed: nat): nat {
    if 0 < proposed < |text| && IsHighSurrogate(text[proposed - 1]) && IsLowSurrogate(text[proposed])
    then proposed + 1 else proposed
  }

  datatype Cut = Cut(end: nat, kind: CutKind)

  /** The rest of the text fits one chunk. */
  predicate Fits(text: Text, start: nat) {
    |text| - start <= MAX_PRIMARY_CHARS
  }

  function WindowEnd(text: Text, start: nat): (r: nat)
    requires !Fits(text, start)
    ensures start + MAX_PRIMARY_CHARS - 1 <= r <= start + MAX_PRIMARY_CHARS && r < |text|
  {
    SafeEndBoundary(text, start + MAX_PRIMARY_CHARS, start)
  }

  /** The cut inside a full window: the last paragraph break, else the last sentence end, else the last white space, else its end. */
  function CutIn(text: Text, start: nat, windowEnd: nat): Cut
    requires start <= windowEnd <= |text|
  {
    var paragraph := LastMatch(Paragraph, text, start, windowEnd);
    var sentence := LastMatch(Sentence, text, start, windowEnd);
    var whitespace := LastMatch(Whitespace, text, start, windowEnd);
    if paragraph.Some? then Cut(paragraph.value, Paragraph)
    else if sentence.Some? then Cut(sentence.value, Sentence)
    else if whitespace.Some? then Cut(whitespace.value, Whitespace)
    else Cut(windowEnd, Hard)
  }

  function PrimaryEnd(text: Text, start: nat): nat
    requires start < |text|
  {
    if Fits(text, start) then |text| else CutIn(text, start, WindowEnd(text, start)).end
  }

  method ChoosePrimaryEnd(text: Text, start: nat) returns (end: nat)
    requires start < |text|
    ensures end == PrimaryEnd(text, start)
  {
    if |text| - start <= MAX_PRIMARY_CHARS {
      return |text|;
    }
    var windowEnd := SafeEndBoundary(text, start + MAX_PRIMARY_CHARS, start);
    var paragraph := LastMatchEnd(text, start, windowEnd, Paragraph);
    if paragraph.Some? {
      return paragraph.value;
    }
    var sentence := LastMatchEnd(text, start, windowEnd, Sentence);
    if sentence.Some? {
      return sentence.value;
    }
    var whitespace := LastMatchEnd(text, start, windowEnd, Whitespace);
    if whitespace.Some? {
      return whitespace.value;
    }
    end := windowEnd;
  }

  function Rank(kind: CutKind): nat {
    match kind
    case Paragraph => 3
    case Sentence => 2
    case Whitespace => 1
    case Hard => 0
  }

  /** A cut lies in its window, ends a match of its kind or the window, and leaves no match of its kind or of a better one after it. */
  lemma CutIsBest(text: Text, start: nat, windowEnd: nat)
    requires start < windowEnd <= |text|
    ensures var cut := CutIn(text, start, windowEnd);
      && start < cut.end <= windowEnd
      && (if cut.kind == Hard then cut.end == windowEnd else EndsMatch(cut.kind, text, start, windowEnd, cut.end))
      && (forall kind :: Rank(kind) >= Rank(cut.kind) ==> Clear(kind, text, cut.end, windowEnd))
      && (forall kind :: Rank(kind) > Rank(cut.kind) ==> Clear(kind, text, start, windowEnd))
  {
    hide MatchEnd, LastMatch, EndsMatch;
    LastMatchIsLast(Paragraph, text, start, windowEnd);
    LastMatchIsLast(Sentence, text, start, windowEnd);
    LastMatchIsLast(Whitespace, text, start, windowEnd);
  }

  /** A chunk always makes progress, and never cuts a surrogate pair. */
  lemma PrimaryEndIsSafe(text: Text, start: nat)
    requires start < |text|
    ensures var end := PrimaryEnd(text, start);
      start < end <= |text| && end - start <= MAX_PRIMARY_CHARS && !SplitsPair(text, end)
  {
    hide LastMatch, MatchEnd;
    if !Fits(text, start) {
      var windowEnd := WindowEnd(text, start);
      CutIsBest(text, start, windowEnd);
      var cut := CutIn(text, start, windowEnd);
      if cut.kind != Hard {
        var i :| start <= i < windowEnd && MatchEnd(cut.kind, text, i, windowEnd) == Some(cut.end);
      }
    }
  }

  // ---------------------------------------------------------------- chunks

  /** One page or file of extracted text. */
  datatype TextUnit = TextUnit(pageNumber: Option<nat>, text: Text)

  datatype ChunkDraft = ChunkDraft(ordinal: nat, content: Text, pageNumber: Option<nat>, startOffset: nat, endOffset: nat)

  datatype ChunkError = ChunkLimitExceeded

  function OverlapStart(text: Text, primaryStart: nat): (r: nat)
    ensures r <= primaryStart && primaryStart - r <= CHUNK_OVERLAP_CHARS
    ensures !SplitsPair(text, r)
  {
    SafeStartBoundary(text, Max(0, primaryStart - CHUNK_OVERLAP_CHARS))
  }

  function Draft(u: TextUnit, primaryStart: nat, ordinal: nat): (d: ChunkDraft)
    requires primaryStart < |u.text|
    ensures primaryStart < d.endOffset <= |u.text|
  {
    PrimaryEndIsSafe(u.text, primaryStart);
    var startOffset, primaryEnd := OverlapStart(u.text, primaryStart), PrimaryEnd(u.text, primaryStart);
    ChunkDraft(ordinal, u.text[startOffset..primaryEnd], u.pageNumber, startOffset, primaryEnd)
  }

  /** The chunks of one unit from a start, numbered from ordinal. */
  function UnitDrafts(u: TextUnit, primaryStart: nat, ordinal: nat): seq<ChunkDraft>
    requires primaryStart <= |u.text|
    decreases |u.text| - primaryStart
  {
    if primaryStart == |u.text| then []
    else
      var d := Draft(u, primaryStart, ordinal);
      [d] + UnitDrafts(u, d.endOffset, ordinal + 1)
  }

  function DocumentDrafts(units: seq<TextUnit>): seq<ChunkDraft> {
    if units == [] then []
    else
      var earlier := DocumentDrafts(units[..|units| - 1]);
      earlier + UnitDrafts(units[|units| - 1], 0, |earlier|)
  }

  method Chunk(units: seq<TextUnit>) returns (r: Result<seq<ChunkDraft>, ChunkError>)
    ensures r == if |DocumentDrafts(units)| <= MAX_DOCUMENT_CHUNKS then Ok(DocumentDrafts(units)) else Err(ChunkLimitExceeded)
  {
    hide PrimaryEnd;
    var chunks: seq<ChunkDraft> := [];
    for k := 0 to |units|
      invariant chunks == DocumentDrafts(units[..k]) && |chunks| <= MAX_DOCUMENT_CHUNKS
    {
      var u := units[k];
      assert units[..k + 1][..k] == units[..k];
      ghost var earlier := chunks;
      var primaryStart := 0;
      while primaryStart < |u.text|
        invariant primaryStart <= |u.text| && |chunks| <= MAX_DOCUMENT_CHUNKS
        invariant DocumentDrafts(units[..k + 1]) == chunks + UnitDrafts(u, primaryStart, |chunks|)
      {
        var primaryEnd := ChoosePrimaryEnd(u.text, primaryStart);
        PrimaryEndIsSafe(u.text, primaryStart);
        if primaryEnd <= primaryStart {
          assert false;
        }
        var overlapStart := Max(0, primaryStart - CHUNK_OVERLAP_CHARS);
        var startOffset := SafeStartBoundary(u.text, overlapStart);
        assert startOffset == OverlapStart(u.text, primaryStart);
        var content := u.text[startOffset..primaryEnd];
        var d := ChunkDraft(|chunks|, content, u.pageNumber, startOffset, primaryEnd);
        assert d == Draft(u, primaryStart, |chunks|);
        assert chunks + UnitDrafts(u, primaryStart, |chunks|) == (chunks + [d]) + UnitDrafts(u, primaryEnd, |chunks| + 1);
        chunks := chunks + [d];
        if |chunks| > MAX_DOCUMENT_CHUNKS {
          MoreUnitsMoreDrafts(units, k + 1);
          return Err(ChunkLimitExceeded);
        }
        primaryStart := primaryEnd;
      }
    }
    assert units[..|units|] == units;
    r := Ok(chunks);
  }

  lemma {:induction false} MoreUnitsMoreDrafts(units: seq<TextUnit>, k: nat)
    requires k <= |units|
    ensures |DocumentDrafts(units[..k])| <= |DocumentDrafts(units)|
    decreases |units| - k
  {
    if k < |units| {
      assert units[..k + 1][..k] == units[..k];
      MoreUnitsMoreDrafts(units, k + 1);
    } else {
      assert units[..k] == units;
    }
  }

  // ---------------------------------------------------------------- every chunk, and all chunks together

  /** What the index relies on for one chunk of a unit. */
  predicate DraftOk(u: TextUnit, d: ChunkDraft) {
    && d.startOffset < d.endOffset <= |u.text|
    && d.content == u.text[d.startOffset..d.endOffset]
    && |d.content| <= MAX_CHUNK_CHARS
    && d.pageNumber == u.pageNumber
    && !SplitsPair(u.text, d.startOffset) && !SplitsPair(u.text, d.endOffset)
    && (WellFormed(u.text) ==> WellFormed(d.content))
  }

  /** Cutting where no pair is split keeps text well formed. */
  lemma SlicesStayWellFormed(text: Text, i: nat, j: nat)
    requires i <= j <= |text| && WellFormed(text) && !SplitsPair(text, i) && !SplitsPair(text, j)
    ensures WellFormed(text[i..j])
  {
    var slice := text[i..j];
    forall k | 0 <= k < |slice|
      ensures PairedAt(slice, k)
    {
      assert PairedAt(text, i + k);
      assert slice[k] == text[i + k];
      assert k + 1 < |slice| ==> slice[k + 1] == text[i + k + 1];
      assert 0 < k ==> slice[k - 1] == text[i + k - 1];
    }
  }

  lemma DraftIsOk(u: TextUnit, primaryStart: nat, ordinal: nat)
    requires primaryStart < |u.text|
    ensures DraftOk(u, Draft(u, primaryStart, ordinal))
  {
    hide PrimaryEnd, OverlapStart, WellFormed;
    var d := Draft(u, primaryStart, ordinal);
    PrimaryEndIsSafe(u.text, primaryStart);
    if WellFormed(u.text) {
      SlicesStayWellFormed(u.text, d.startOffset, d.endOffset);
    }
  }

  /** The text that the chunks spell out when each drops its overlap with the one before. */
  function Rebuilt(drafts: seq<ChunkDraft>, previousEnd: nat): Text {
    if drafts == [] then []
    else
      var d := drafts[0];
      (if d.startOffset <= previousEnd <= d.endOffset then d.content[Min(previousEnd - d.startOffset, |d.content|)..] else d.content)
      + Rebuilt(drafts[1..], d.endOffset)
  }

  /** Each chunk starts at most 300 code units before the end of the previous one, and never after it. */
  predicate Overlaps(drafts: seq<ChunkDraft>, previousEnd: nat) {
    drafts != [] ==>
      && 0 <= previousEnd - drafts[0].startOffset <= CHUNK_OVERLAP_CHARS
      && previousEnd < drafts[0].endOffset
      && Overlaps(drafts[1..], drafts[0].endOffset)
  }

  /** The window that a cut is chosen in: 2700 code units, or one fewer where they would split a pair. */
  predicate IsWindow(text: Text, start: nat, windowEnd: nat) {
    windowEnd == start + 2700 - if SplitsPair(text, start + 2700) then 1 else 0
  }

  /** The end is a cut of this kind, with no match of the kind after it in the window and none of a better kind at all. */
  ghost predicate IsBestCut(text: Text, start: nat, windowEnd: nat, end: nat, kind: CutKind)
    requires start <= end <= windowEnd <= |text|
  {
    && (if kind == Hard then end == windowEnd else EndsMatch(kind, text, start, windowEnd, end))
    && (forall other :: Rank(other) >= Rank(kind) ==> Clear(other, text, end, windowEnd))
    && (forall other :: Rank(other) > Rank(kind) ==> Clear(other, text, start, windowEnd))
  }

  ghost predicate SomeBestCut(text: Text, start: nat, windowEnd: nat, end: nat)
    requires start <= end <= windowEnd <= |text|
  {
    exists kind :: IsBestCut(text, start, windowEnd, end, kind)
  }

  /** The rest of the text in one chunk, or a best cut of a full window. */
  ghost predicate EndsWell(text: Text, start: nat, end: nat) {
    if |text| - start <= 2700 then end == |text|
    else exists windowEnd: nat :: IsWindow(text, start, windowEnd) && start < end <= windowEnd <= |text| && SomeBestCut(text, start, windowEnd, end)
  }

  /** Three hundred code units before the end of the chunk before, or one fewer where that would split a pair. */
  predicate StartsWell(text: Text, previousEnd: nat, start: nat) {
    var s := if previousEnd < 300 then 0 else previousEnd - 300;
    start == if SplitsPair(text, s) then s + 1 else s
  }

  ghost predicate AllWell(text: Text, drafts: seq<ChunkDraft>, previousEnd: nat) {
    drafts != [] ==>
      && StartsWell(text, previousEnd, drafts[0].startOffset)
      && EndsWell(text, previousEnd, drafts[0].endOffset)
      && AllWell(text, drafts[1..], drafts[0].endOffset)
  }

  lemma PrimaryEndsWell(text: Text, start: nat)
    requires start < |text|
    ensures EndsWell(text, start, PrimaryEnd(text, start))
  {
    hide MatchEnd, LastMatch, EndsMatch, Clear, CutIn;
    if |text| - start > 2700 {
      var windowEnd := WindowEnd(text, start);
      CutIsBest(text, start, windowEnd);
      assert IsWindow(text, start, windowEnd);
      assert IsBestCut(text, start, windowEnd, CutIn(text, start, windowEnd).end, CutIn(text, start, windowEnd).kind);
      assert SomeBestCut(text, start, windowEnd, PrimaryEnd(text, start));
    }
  }

  /** Every chunk starts the full overlap before the end of the one before, and ends at the best cut there is. */
  lemma {:induction false} ChunksStartAndEndWell(u: TextUnit, primaryStart: nat, ordinal: nat)
    requires primaryStart <= |u.text|
    ensures AllWell(u.text, UnitDrafts(u, primaryStart, ordinal), primaryStart)
    decreases |u.text| - primaryStart
  {
    hide PrimaryEnd, EndsWell;
    if primaryStart < |u.text| {
      var d := Draft(u, primaryStart, ordinal);
      PrimaryEndsWell(u.text, primaryStart);
      ChunksStartAndEndWell(u, d.endOffset, ordinal + 1);
      assert UnitDrafts(u, primaryStart, ordinal)[1..] == UnitDrafts(u, d.endOffset, ordinal + 1);
    }
  }

  predicate Numbered(drafts: seq<ChunkDraft>, ordinal: nat) {
    forall i :: 0 <= i < |drafts| ==> drafts[i].ordinal == ordinal + i
  }

  lemma OneDraftMore(text: Text, previousEnd: nat, d: ChunkDraft, rest: seq<ChunkDraft>)
    requires d.startOffset <= previousEnd < d.endOffset <= |text| && previousEnd - d.startOffset <= CHUNK_OVERLAP_CHARS
    requires d.content == text[d.startOffset..d.endOffset]
    requires Rebuilt(rest, d.endOffset) == text[d.endOffset..] && Overlaps(rest, d.endOffset)
    ensures Rebuilt([d] + rest, previousEnd) == text[previousEnd..] && Overlaps([d] + rest, previousEnd)
  {
    assert ([d] + rest)[1..] == rest;
    assert d.content[previousEnd - d.startOffset..] == text[previousEnd..d.endOffset];
    assert text[previousEnd..d.endOffset] + text[d.endOffset..] == text[previousEnd..];
  }

  /** The chunks of a unit rebuild its text exactly and overlap as promised. */
  lemma {:induction false} UnitDraftsRebuild(u: TextUnit, primaryStart: nat, ordinal: nat)
    requires primaryStart <= |u.text|
    ensures var drafts := UnitDrafts(u, primaryStart, ordinal);
      Rebuilt(drafts, primaryStart) == u.text[primaryStart..] && Overlaps(drafts, primaryStart)
    decreases |u.text| - primaryStart
  {
    if primaryStart < |u.text| {
      hide PrimaryEnd, OverlapStart, Rebuilt, Overlaps;
      var d := Draft(u, primaryStart, ordinal);
      UnitDraftsRebuild(u, d.endOffset, ordinal + 1);
      OneDraftMore(u.text, primaryStart, d, UnitDrafts(u, d.endOffset, ordinal + 1));
    }
  }

  /** They are numbered consecutively, and each is the slice at its offsets, within size, with no surrogate pair split. */
  lemma {:induction false} UnitDraftsAreOk(u: TextUnit, primaryStart: nat, ordinal: nat)
    requires primaryStart <= |u.text|
    ensures var drafts := UnitDrafts(u, primaryStart, ordinal);
      Numbered(drafts, ordinal) && forall i :: 0 <= i < |drafts| ==> DraftOk(u, drafts[i])
    decreases |u.text| - primaryStart
  {
    hide PrimaryEnd, OverlapStart, DraftOk;
    if primaryStart < |u.text| {
      var d := Draft(u, primaryStart, ordinal);
      DraftIsOk(u, primaryStart, ordinal);
      UnitDraftsAreOk(u, d.endOffset, ordinal + 1);
      assert UnitDrafts(u, primaryStart, ordinal)[1..] == UnitDrafts(u, d.endOffset, ordinal + 1);
    }
  }

  /** Ordinals run on through the units of a document. */
  lemma {:induction false} DocumentIsNumbered(units: seq<TextUnit>)
    ensures Numbered(DocumentDrafts(units), 0)
  {
    if units != [] {
      DocumentIsNumbered(units[..|units| - 1]);
      UnitDraftsAreOk(units[|units| - 1], 0, |DocumentDrafts(units[..|units| - 1])|);
    }
  }

  /** Where the chunks of unit k begin in the document's. */
  function ChunksBefore(units: seq<TextUnit>, k: nat): nat
    requires k <= |units|
  {
    |DocumentDrafts(units[..k])|
  }

  /** The document's chunks are those of its first unit, then those of its second, and so on: none is left out and none repeated. */
  lemma {:induction false} EveryUnitIsChunked(units: seq<TextUnit>, k: nat)
    requires k < |units|
    ensures var all, from, to := DocumentDrafts(units), ChunksBefore(units, k), ChunksBefore(units, k + 1);
      from <= to <= |all| && all[from..to] == UnitDrafts(units[k], 0, from)
    ensures ChunksBefore(units, 0) == 0 && ChunksBefore(units, |units|) == |DocumentDrafts(units)|
  {
    hide UnitDrafts;
    var front := units[..|units| - 1];
    assert units[..|units|] == units;
    if k < |front| {
      EveryUnitIsChunked(front, k);
      assert front[..k] == units[..k] && front[..k + 1] == units[..k + 1];
    } else {
      assert units[..k] == front;
    }
  }

  // ---------------------------------------------------------------- amortised progress

  lemma {:induction false} ShorterRun(text: Text, i: nat, limit: nat, shorter: nat, charClass: Class)
    requires i <= shorter <= limit <= |text|
    ensures RunEnd(text, i, shorter, charClass) == Min(RunEnd(text, i, limit, charClass), shorter)
    decreases limit - i
  {
    if i < shorter && InClass(charClass, text[i]) {
      ShorterRun(text, i + 1, limit, shorter, charClass);
    }
  }

  lemma {:induction false} ShorterBlankLines(text: Text, i: nat, limit: nat, shorter: nat)
    requires i <= shorter <= limit <= |text| && BlankLinesEnd(text, i, limit) <= shorter
    ensures BlankLinesEnd(text, i, shorter) == BlankLinesEnd(text, i, limit)
    decreases limit - i
  {
    hide RunEnd, InClass;
    ShorterRun(text, i, limit, shorter, Blank);
    var k := RunEnd(text, i, limit, Blank);
    if k < limit && text[k] == LINE_FEED {
      ShorterBlankLines(text, k + 1, limit, shorter);
    }
  }

  /** A match that ends inside a shorter window is a match of that window. */
  lemma ShorterMatch(kind: CutKind, text: Text, i: nat, limit: nat, shorter: nat)
    requires i < limit && shorter <= limit <= |text|
    requires MatchEnd(kind, text, i, limit).Some? && MatchEnd(kind, text, i, limit).value <= shorter
    ensures i < shorter && MatchEnd(kind, text, i, shorter) == MatchEnd(kind, text, i, limit)
  {
    hide RunEnd, InClass, BlankLinesEnd;
    match kind
    case Paragraph => ShorterBlankLines(text, i + 1, limit, shorter);
    case Sentence =>
      var s := RunEnd(text, i + 1, limit, Closer);
      ShorterRun(text, i + 1, limit, shorter, Closer);
      ShorterRun(text, s, limit, shorter, Space);
    case Whitespace => ShorterRun(text, i, limit, shorter, Space);
    case Hard =>
  }

  function CutFrom(text: Text, start: nat): Cut
    requires !Fits(text, start)
  {
    CutIn(text, start, WindowEnd(text, start))
  }

  /** To stay inside the window of the cut before it, a cut must be of a strictly worse kind. */
  lemma NextKindDrops(text: Text, start: nat)
    requires !Fits(text, start) && !Fits(text, CutFrom(text, start).end)
    requires CutFrom(text, CutFrom(text, start).end).end <= WindowEnd(text, start)
    ensures CutFrom(text, start).kind == Hard || Rank(CutFrom(text, CutFrom(text, start).end).kind) < Rank(CutFrom(text, start).kind)
  {
    hide MatchEnd, LastMatch, CutIn, WindowEnd;
    var e := WindowEnd(text, start);
    var cut := CutFrom(text, start);
    var next := CutFrom(text, cut.end);
    CutIsBest(text, start, e);
    CutIsBest(text, cut.end, WindowEnd(text, cut.end));
    if next.kind != Hard && Rank(next.kind) >= Rank(cut.kind) {
      var limit := WindowEnd(text, cut.end);
      var i :| cut.end <= i < limit && MatchEnd(next.kind, text, i, limit) == Some(next.end);
      if e <= limit {
        ShorterMatch(next.kind, text, i, limit, e);
      }
    }
  }

  /** A hard cut fills its window. */
  lemma HardCutsAreLong(text: Text, start: nat)
    requires !Fits(text, start)
    ensures start < CutFrom(text, start).end <= start + MAX_PRIMARY_CHARS
    ensures CutFrom(text, start).kind == Hard ==> CutFrom(text, start).end >= start + MAX_PRIMARY_CHARS - 1
  {
    hide LastMatch, CutIn;
    CutIsBest(text, start, WindowEnd(text, start));
  }

  /** Where the text has been cut after so many cuts from a start; the end of the text is cut no further. */
  function CutAfter(text: Text, start: nat, cuts: nat): (r: nat)
    requires start <= |text|
    ensures start <= r <= |text|
    decreases cuts
  {
    if cuts == 0 || start == |text| then start
    else
      PrimaryEndIsSafe(text, start);
      CutAfter(text, PrimaryEnd(text, start), cuts - 1)
  }

  /** Three cuts that stay inside the first window leave a fourth cut no kind but a hard one, which is too long to stay. */
  lemma FourCutsLeaveTheWindow(text: Text, start: nat, a: nat, b: nat, c: nat, d: nat)
    requires start < |text|
    ensures (&& a == PrimaryEnd(text, start) && a < |text| && b == PrimaryEnd(text, a) && b < |text|
             && c == PrimaryEnd(text, b) && c < |text| && d == PrimaryEnd(text, c) && d < |text|) ==>
      d >= start + MAX_PRIMARY_CHARS
  {
    hide CutIn;
    if a == PrimaryEnd(text, start) && a < |text| && b == PrimaryEnd(text, a) && b < |text|
       && c == PrimaryEnd(text, b) && c < |text| && d == PrimaryEnd(text, c) && d < |text| {
      HardCutsAreLong(text, start);
      HardCutsAreLong(text, a);
      HardCutsAreLong(text, b);
      HardCutsAreLong(text, c);
      if d < start + MAX_PRIMARY_CHARS {
        NextKindDrops(text, start);
        NextKindDrops(text, a);
        NextKindDrops(text, b);
        assert false;
      }
    }
  }

  /** Four consecutive cuts advance by at least a full window, unless they reach the end of the text. */
  lemma FourCutsAdvance(text: Text, start: nat)
    requires start <= |text|
    ensures var d := CutAfter(text, start, 4); d == |text| || d >= start + MAX_PRIMARY_CHARS
  {
    hide PrimaryEnd;
    if start < |text| {
      PrimaryEndIsSafe(text, start);
      var a := PrimaryEnd(text, start);
      assert CutAfter(text, start, 4) == CutAfter(text, a, 3);
      if a < |text| {
        PrimaryEndIsSafe(text, a);
        var b := PrimaryEnd(text, a);
        assert CutAfter(text, a, 3) == CutAfter(text, b, 2);
        if b < |text| {
          PrimaryEndIsSafe(text, b);
          var c := PrimaryEnd(text, b);
          assert CutAfter(text, b, 2) == CutAfter(text, c, 1);
          if c < |text| {
            PrimaryEndIsSafe(text, c);
            var d := PrimaryEnd(text, c);
            assert CutAfter(text, c, 1) == CutAfter(text, d, 0) == d;
            if d < |text| {
              FourCutsLeaveTheWindow(text, start, a, b, c, d);
            }
          }
        }
      }
    }
  }

  lemma NothingLeft(u: TextUnit, ordinal: nat)
    ensures UnitDrafts(u, |u.text|, ordinal) == []
  {
  }

  /** So many cuts make at most so many chunks. */
  lemma {:induction false} CutsCountChunks(u: TextUnit, primaryStart: nat, ordinal: nat, cuts: nat)
    requires primaryStart <= |u.text|
    ensures |UnitDrafts(u, primaryStart, ordinal)| <= cuts + |UnitDrafts(u, CutAfter(u.text, primaryStart, cuts), ordinal + cuts)|
    decreases cuts
  {
    hide PrimaryEnd, OverlapStart;
    if primaryStart == |u.text| {
      NothingLeft(u, ordinal);
    } else if cuts > 0 {
      PrimaryEndIsSafe(u.text, primaryStart);
      CutsCountChunks(u, PrimaryEnd(u.text, primaryStart), ordinal + 1, cuts - 1);
    }
  }

  /** Text of n > 0 code units makes at most 4 * ((n - 1) div 2700) + 4 chunks. */
  lemma {:induction false} ChunksAreFew(u: TextUnit, primaryStart: nat, ordinal: nat)
    requires primaryStart < |u.text|
    ensures |UnitDrafts(u, primaryStart, ordinal)| <= 4 * ((|u.text| - primaryStart - 1) / MAX_PRIMARY_CHARS) + 4
    decreases |u.text| - primaryStart
  {
    hide PrimaryEnd, UnitDrafts, CutAfter;
    var n, d := |u.text|, CutAfter(u.text, primaryStart, 4);
    CutsCountChunks(u, primaryStart, ordinal, 4);
    FourCutsAdvance(u.text, primaryStart);
    if d == n {
      NothingLeft(u, ordinal + 4);
    } else {
      ChunksAreFew(u, d, ordinal + 4);
      assert (n - d - 1) / MAX_PRIMARY_CHARS <= (n - primaryStart - MAX_PRIMARY_CHARS - 1) / MAX_PRIMARY_CHARS;
    }
  }

  /** A text of up to 675,000 code units is never refused for its number of chunks. */
  lemma LongTextsFit(u: TextUnit)
    requires |u.text| <= 250 * MAX_PRIMARY_CHARS
    ensures |DocumentDrafts([u])| <= MAX_DOCUMENT_CHUNKS
  {
    hide UnitDrafts;
    assert DocumentDrafts([u]) == UnitDrafts(u, 0, 0) by {
      assert [u][..0] == [];
    }
    if u.text == [] {
      NothingLeft(u, 0);
    } else {
      ChunksAreFew(u, 0, 0);
    }
  }
}
