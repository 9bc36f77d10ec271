/** The vocabulary of Agent runs, evidence identifiers and final answers (shared/contracts/agents.ts). */
module AgentContracts {
  import opened Common
  import opened Utf16

  const AGENT_MAX_STEPS := 8
  const AGENT_MAX_TOOL_CALLS := 6
  const AGENT_MAX_EVIDENCE := 32
  const AGENT_OBSERVATION_MAX_BYTES := 32 * 1024
  const AGENT_CONTEXT_MAX_BYTES := 128 * 1024
  const AGENT_FINAL_ANSWER_MAX_CHARACTERS := 8000

  datatype RunStatus = Queued | Running | Completed | Failed | Cancelled

  datatype StepKind = ToolCall | FinalAnswer | DecisionError

  datatype StepStatus = StepRunning | StepCompleted | StepFailed | StepCancelled

  datatype ToolName = SearchArxiv | SearchKnowledgeBase | AskKnowledge

  datatype AnswerStatus = Answered | InsufficientContext

  /** The error codes the run protocol itself names; every other code a provider or tool may report is Reported. */
  datatype ErrorCode =
    | SpaceAccessRevoked
    | WallTimeExceeded
    | StepLimit
    | ToolCallLimit
    | ContextLimit
    | EvidenceLimit
    | ObservationLimit
    | InvalidFinalAnswer
    | PersistenceFailed
    | ProviderUnavailable
    | ToolInvalidResponse
    | ToolTimeout
    | Reported(code: nat)

  datatype Limits = Limits(
    maxSteps: nat,
    maxToolCalls: nat,
    wallTimeSeconds: nat,
    providerAttempts: nat,
    observationMaxBytes: nat,
    contextMaxBytes: nat,
    finalAnswerMaxCharacters: nat,
    maxEvidence: nat
  )

  predicate ValidLimits(l: Limits) {
    && 1 <= l.maxSteps <= AGENT_MAX_STEPS
    && 1 <= l.maxToolCalls <= AGENT_MAX_TOOL_CALLS
    && 1 <= l.wallTimeSeconds <= 180
    && 1 <= l.providerAttempts <= 2
    && 1 <= l.observationMaxBytes <= AGENT_OBSERVATION_MAX_BYTES
    && 1 <= l.contextMaxBytes <= AGENT_CONTEXT_MAX_BYTES
    && 1 <= l.finalAnswerMaxCharacters <= AGENT_FINAL_ANSWER_MAX_CHARACTERS
    && 1 <= l.maxEvidence <= AGENT_MAX_EVIDENCE
  }

  // ---------------------------------------------------------------- evidence identifiers

  /** Decimal digits of n, as a template literal prints them. */
  function Decimal(n: nat): (r: Text)
    ensures |r| > 0 && forall i :: 0 <= i < |r| ==> IsDigit(r[i])
  {
    if n < 10 then [(0x30 + n) as CodeUnit] else Decimal(n / 10) + [(0x30 + n % 10) as CodeUnit]
  }

  function EvidenceKey(n: nat): (r: Text)
    ensures |r| > 1 && r[0] == 0x45
  {
    [0x45] + Decimal(n)
  }

  lemma {:induction false} DecimalIsInjective(m: nat, n: nat)
    requires Decimal(m) == Decimal(n)
    ensures m == n
  {
    if m >= 10 && n >= 10 {
      var dm, dn := Decimal(m / 10), Decimal(n / 10);
      assert Decimal(m) == dm + [(0x30 + m % 10) as CodeUnit];
      assert Decimal(n) == dn + [(0x30 + n % 10) as CodeUnit];
      assert |dm| == |dn|;
      assert dm == Decimal(m)[..|dm|] && dn == Decimal(n)[..|dn|];
      assert Decimal(m)[|dm|] == Decimal(n)[|dn|];
      DecimalIsInjective(m / 10, n / 10);
    }
  }

  lemma EvidenceKeyIsInjective(m: nat, n: nat)
    requires EvidenceKey(m) == EvidenceKey(n)
    ensures m == n
  {
    assert Decimal(m) == EvidenceKey(m)[1..] && Decimal(n) == EvidenceKey(n)[1..];
    DecimalIsInjective(m, n);
  }

  /** The pattern ^E(?:[1-9]|[12][0-9]|3[0-2])$. */
  predicate IsEvidenceId(key: Text) {
    || (|key| == 2 && key[0] == 0x45 && 0x31 <= key[1] <= 0x39)
    || (|key| == 3 && key[0] == 0x45 && 0x31 <= key[1] <= 0x32 && IsDigit(key[2]))
    || (|key| == 3 && key[0] == 0x45 && key[1] == 0x33 && 0x30 <= key[2] <= 0x32)
  }

  /** The identifier pattern accepts exactly the keys E1 to E32. */
  lemma EvidenceIdsAreE1ToE32(key: Text)
    ensures IsEvidenceId(key) <==> exists n: nat :: 1 <= n <= AGENT_MAX_EVIDENCE && key == EvidenceKey(n)
  {
    if IsEvidenceId(key) {
      var n: nat := if |key| == 2 then key[1] as int - 0x30 else 10 * (key[1] as int - 0x30) + (key[2] as int - 0x30);
      if |key| == 3 {
        assert n / 10 == key[1] as int - 0x30 && n % 10 == key[2] as int - 0x30;
        assert Decimal(n) == Decimal(n / 10) + [key[2]];
        assert Decimal(n / 10) == [key[1]];
      }
      assert Decimal(n) == key[1..];
      assert key == EvidenceKey(n);
    }
    forall n: nat | 1 <= n <= AGENT_MAX_EVIDENCE
      ensures IsEvidenceId(EvidenceKey(n))
    {
      if n >= 10 {
        assert Decimal(n) == [(0x30 + n / 10) as CodeUnit, (0x30 + n % 10) as CodeUnit];
      }
    }
  }

  // ---------------------------------------------------------------- final results

  datatype FinalResult = FinalResult(status: AnswerStatus, answer: Text, evidenceIds: seq<Text>)

  /** One past the digits that start at i. */
  function DigitsEnd(t: Text, i: nat): (r: nat)
    requires i <= |t|
    ensures i <= r <= |t|
    ensures forall j :: i <= j < r ==> IsDigit(t[j])
    ensures r < |t| ==> !IsDigit(t[r])
    decreases |t| - i
  {
    if i < |t| && IsDigit(t[i]) then DigitsEnd(t, i + 1) else i
  }

  /** End of a match of \[(E\d+)\] that starts at i. */
  function MarkerEnd(t: Text, i: nat): (r: Option<nat>)
    ensures r.Some? ==> i + 4 <= r.value <= |t|
  {
    if i + 1 < |t| && t[i] == 0x5b && t[i + 1] == 0x45 then
      var e := DigitsEnd(t, i + 2);
      if i + 2 < e < |t| && t[e] == 0x5d then Some(e + 1) else None
    else
      None
  }

  /** The first capture group of every match, in order. */
  function EvidenceMarkers(t: Text, from: nat := 0): seq<Text>
    decreases |t| - from
  {
    if from >= |t| then []
    else match MarkerEnd(t, from)
      case Some(e) => [t[from + 1..e - 1]] + EvidenceMarkers(t, e)
      case None => EvidenceMarkers(t, from + 1)
  }

  predicate NoDuplicates<T(==)>(s: seq<T>) {
    forall i, j :: 0 <= i < j < |s| ==> s[i] != s[j]
  }

  /** Keeps the first occurrence of every value. */
  function UniqueInOrder<T(==,!new)>(values: seq<T>): (r: seq<T>)
    ensures NoDuplicates(r)
    ensures forall v :: v in r <==> v in values
  {
    if values == [] then []
    else
      var front, last := values[..|values| - 1], values[|values| - 1];
      assert values == front + [last];
      if last in front then UniqueInOrder(front) else UniqueInOrder(front) + [last]
  }

  /** text[i..e] is a marker: "[E", digits, "]". */
  predicate MarkerAt(t: Text, i: nat, e: nat) {
    && i + 4 <= e <= |t| && t[i] == 0x5b && t[i + 1] == 0x45 && t[e - 1] == 0x5d
    && forall j :: i + 2 <= j < e - 1 ==> IsDigit(t[j])
  }

  lemma MarkersAreRead(t: Text, i: nat, e: nat)
    ensures MarkerEnd(t, i) == Some(e) <==> MarkerAt(t, i, e)
  {
    if MarkerAt(t, i, e) {
      var d := DigitsEnd(t, i + 2);
      assert d == e - 1;
    }
  }

  /** The marker at i bears this name. */
  predicate MarkerNamed(t: Text, i: nat, e: nat, name: Text) {
    MarkerAt(t, i, e) && name == t[i + 1..e - 1]
  }

  /** After the marker at i, the next one starts no earlier than its end. */
  lemma MarkersDoNotOverlap(t: Text, i: nat, e: nat, j: nat, f: nat)
    requires MarkerAt(t, i, e) && MarkerAt(t, j, f) && i <= j
    ensures (j == i && f == e) || e <= j
  {
    MarkersAreRead(t, i, e);
    MarkersAreRead(t, j, f);
  }

  /** A marker that starts at from or later bears this name. */
  ghost predicate NamedFrom(t: Text, from: nat, name: Text) {
    exists i: nat, e: nat :: from <= i && MarkerNamed(t, i, e, name)
  }

  lemma NamedHereOrLater(t: Text, from: nat, name: Text)
    requires MarkerEnd(t, from).Some?
    ensures var end := MarkerEnd(t, from).value; NamedFrom(t, from, name) <==> name == t[from + 1..end - 1] || NamedFrom(t, end, name)
  {
    hide MarkerEnd, MarkerAt;
    var end := MarkerEnd(t, from).value;
    MarkersAreRead(t, from, end);
    if NamedFrom(t, from, name) {
      var i: nat, e: nat :| from <= i && MarkerNamed(t, i, e, name);
      MarkersDoNotOverlap(t, from, end, i, e);
    }
    if name == t[from + 1..end - 1] {
      assert MarkerNamed(t, from, end, name);
    } else if NamedFrom(t, end, name) {
      var i: nat, e: nat :| end <= i && MarkerNamed(t, i, e, name);
      assert from <= i;
    }
  }

  lemma NamedLater(t: Text, from: nat, name: Text)
    requires MarkerEnd(t, from).None?
    ensures NamedFrom(t, from, name) <==> NamedFrom(t, from + 1, name)
  {
    hide MarkerEnd, MarkerAt;
    if NamedFrom(t, from, name) {
      var i: nat, e: nat :| from <= i && MarkerNamed(t, i, e, name);
      MarkersAreRead(t, i, e);
      assert from + 1 <= i;
    }
    if NamedFrom(t, from + 1, name) {
      var i: nat, e: nat :| from + 1 <= i && MarkerNamed(t, i, e, name);
      assert from <= i;
    }
  }

  lemma NothingIsNamedAtTheEnd(t: Text, from: nat, name: Text)
    requires from >= |t|
    ensures !NamedFrom(t, from, name)
  {
  }

  /** The names in the answer are those between the brackets of its markers, wherever they stand. */
  lemma {:induction false} MarkersAreAllFound(t: Text, from: nat, name: Text)
    ensures name in EvidenceMarkers(t, from) <==> NamedFrom(t, from, name)
    decreases |t| - from
  {
    hide MarkerEnd, MarkerAt, NamedFrom;
    if from >= |t| {
      NothingIsNamedAtTheEnd(t, from, name);
    } else if MarkerEnd(t, from).Some? {
      NamedHereOrLater(t, from, name);
      MarkersAreAllFound(t, MarkerEnd(t, from).value, name);
    } else {
      NamedLater(t, from, name);
      MarkersAreAllFound(t, from + 1, name);
    }
  }

  /** values[i] is the first occurrence of v. */
  predicate FirstAt<T(==)>(values: seq<T>, v: T, i: nat) {
    i < |values| && values[i] == v && v !in values[..i]
  }

  /** Unique values stand in the order in which they first appear. */
  lemma {:induction false} FirstOccurrencesInOrder<T(!new)>(values: seq<T>, a: nat, b: nat, i: nat, j: nat)
    requires a < b < |UniqueInOrder(values)|
    requires FirstAt(values, UniqueInOrder(values)[a], i) && FirstAt(values, UniqueInOrder(values)[b], j)
    ensures i < j
  {
    var front, last := values[..|values| - 1], values[|values| - 1];
    assert values == front + [last];
    var earlier := UniqueInOrder(front);
    if b < |earlier| {
      assert earlier[a] in front && earlier[b] in front;
      assert FirstAt(front, earlier[a], i) by { FirstInFront(front, last, earlier[a], i); }
      assert FirstAt(front, earlier[b], j) by { FirstInFront(front, last, earlier[b], j); }
      FirstOccurrencesInOrder(front, a, b, i, j);
    } else {
      assert earlier[a] in front && last !in front;
      FirstInFront(front, last, earlier[a], i);
      forall n | 0 <= n < |front|
        ensures values[n] != last
      {
        assert front[n] == values[n];
      }
    }
  }

  lemma FirstInFront<T>(front: seq<T>, last: T, v: T, i: nat)
    requires v in front && FirstAt(front + [last], v, i)
    ensures FirstAt(front, v, i)
  {
    var k :| 0 <= k < |front| && front[k] == v;
    forall n | 0 <= n < i
      ensures (front + [last])[n] != v
    {
      assert (front + [last])[..i][n] == (front + [last])[n];
    }
    assert (front + [last])[..i] == front[..i];
  }

  /** agentFinalResultSchema: the trimmed result when it is accepted. */
  function ParseFinalResult(raw: FinalResult): (r: Option<FinalResult>)
    ensures r.Some? ==> r.value.status == raw.status && r.value.answer == Trim(raw.answer) && r.value.evidenceIds == raw.evidenceIds
  {
    var answer := Trim(raw.answer);
    var markers := EvidenceMarkers(answer);
    var ids := raw.evidenceIds;
    if !(1 <= |answer| <= AGENT_FINAL_ANSWER_MAX_CHARACTERS) then None
    else match raw.status
      case Answered =>
        if && 1 <= |ids| <= AGENT_MAX_EVIDENCE
           && (forall id :: id in ids ==> IsEvidenceId(id))
           && NoDuplicates(ids)
           && UniqueInOrder(markers) == ids
        then Some(FinalResult(Answered, answer, ids)) else None
      case InsufficientContext =>
        if ids == [] && markers == [] then Some(FinalResult(InsufficientContext, answer, [])) else None
  }

  /** The key is one of E1 to E32. */
  predicate IsOneOf32(key: Text) {
    exists n: nat :: 1 <= n <= AGENT_MAX_EVIDENCE && key == EvidenceKey(n)
  }

  /** The keys of 1 to n. */
  function KeySet(n: nat): (r: set<Text>)
    ensures |r| <= n && forall k :: 1 <= k <= n ==> EvidenceKey(k) in r
  {
    if n == 0 then {} else KeySet(n - 1) + {EvidenceKey(n)}
  }

  lemma {:induction false} DistinctIdsFit(ids: seq<Text>, keys: set<Text>)
    requires NoDuplicates(ids) && forall id :: id in ids ==> id in keys
    ensures |ids| <= |keys|
  {
    if ids != [] {
      var front, last := ids[..|ids| - 1], ids[|ids| - 1];
      DistinctIdsFit(front, keys - {last});
    }
  }

  lemma DistinctIdsAreFew(ids: seq<Text>)
    requires NoDuplicates(ids) && forall id :: id in ids ==> IsOneOf32(id)
    ensures |ids| <= AGENT_MAX_EVIDENCE
  {
    hide EvidenceKey;
    DistinctIdsFit(ids, KeySet(AGENT_MAX_EVIDENCE));
  }

  lemma TheIdsAreThose(ids: seq<Text>)
    ensures forall id :: id in ids ==> (IsEvidenceId(id) <==> IsOneOf32(id))
  {
    hide IsEvidenceId, EvidenceKey;
    forall id | id in ids
      ensures IsEvidenceId(id) <==> IsOneOf32(id)
    {
      EvidenceIdsAreE1ToE32(id);
    }
  }

  /**
   * A result is accepted exactly when its trimmed answer has 1 to 8000 code units and its identifiers are the answer's markers, once
   * each in first-appearance order: for an answer, at least one and each of E1 to E32; for insufficient context, none.
   */
  lemma AcceptedExactlyWhen(raw: FinalResult)
    ensures var answer, ids := Trim(raw.answer), raw.evidenceIds;
      ParseFinalResult(raw).Some? <==>
        && 1 <= |answer| <= AGENT_FINAL_ANSWER_MAX_CHARACTERS && ids == UniqueInOrder(EvidenceMarkers(answer))
        && match raw.status
           case Answered => ids != [] && forall id :: id in ids ==> IsOneOf32(id)
           case InsufficientContext => ids == []
  {
    hide Trim, EvidenceMarkers, UniqueInOrder, IsEvidenceId, IsOneOf32, NoDuplicates;
    var markers, ids := EvidenceMarkers(Trim(raw.answer)), raw.evidenceIds;
    TheIdsAreThose(ids);
    if UniqueInOrder(markers) == ids && forall id :: id in ids ==> IsOneOf32(id) {
      DistinctIdsAreFew(ids);
    }
    assert markers != [] ==> markers[0] in UniqueInOrder(markers);
    assert UniqueInOrder(markers) != [] ==> UniqueInOrder(markers)[0] in markers;
  }

  /** Parsing an accepted result again accepts it unchanged. */
  lemma ParsedResultsStayParsed(raw: FinalResult)
    requires ParseFinalResult(raw).Some?
    ensures ParseFinalResult(ParseFinalResult(raw).value) == ParseFinalResult(raw)
  {
    TrimIsIdempotent(raw.answer);
  }

  /** In both kinds of accepted result the identifiers are the answer's markers, once each, in first-appearance order. */
  lemma AcceptedIdsAreTheMarkers(raw: FinalResult)
    requires ParseFinalResult(raw).Some?
    ensures ParseFinalResult(raw).value.evidenceIds == UniqueInOrder(EvidenceMarkers(Trim(raw.answer)))
  {
  }
}
