/** Reading finished runs back: evidence references, the trace response and the terminal-state rule. */
module RunViews {
  import opened Common
  import opened Utf16
  import opened AgentContracts
  import opened AgentRows
  import opened AgentTransactions
  import opened AgentInvariant
  import opened AgentHistory
  import opened ContextRoundTrip
  import opened Sorting

  /** A row of the query for evidence with a final ordinal. */
  datatype Reference = Reference(runId: RunId, key: Text, ordinal: nat)

  datatype View = View(record: RunRecord, finalEvidenceIds: seq<Text>)

  datatype ViewError =
    | DuplicateRecords
    | UnknownRun
    | ReferencesWithoutCompletion
    | AnswerWithoutReferences
    | ReferencesWithoutAnswer
    | OrdinalsNotContiguous
    | RepeatedReference

  function OrdinalOf(r: Reference): int {
    r.ordinal
  }

  // ---------------------------------------------------------------- buildAgentRunPersistenceViews

  /** The references of one run, in query order. */
  function ReferencesOf(references: seq<Reference>, id: RunId): seq<Reference> {
    if references == [] then []
    else
      var last := references[|references| - 1];
      ReferencesOf(references[..|references| - 1], id) + if last.runId == id then [last] else []
  }

  function KeysOfReferences(refs: seq<Reference>): (r: seq<Text>)
    ensures |r| == |refs| && forall i :: 0 <= i < |r| ==> r[i] == refs[i].key
  {
    seq(|refs|, i requires 0 <= i < |refs| => refs[i].key)
  }

  /** The first reference that is out of order or repeated. */
  function BrokenReference(refs: seq<Reference>, from: nat := 0): Option<ViewError>
    decreases |refs| - from
  {
    if from >= |refs| then None
    else if refs[from].ordinal != from + 1 then Some(OrdinalsNotContiguous)
    else if refs[from].key in KeysOfReferences(refs[..from]) then Some(RepeatedReference)
    else BrokenReference(refs, from + 1)
  }

  function ViewOf(run: RunRecord, references: seq<Reference>): Result<View, ViewError> {
    var refs := SortBy(references, OrdinalOf);
    if run.status != Completed && refs != [] then Err(ReferencesWithoutCompletion)
    else if run.status == Completed && run.finalStatus == Some(Answered) && refs == [] then Err(AnswerWithoutReferences)
    else if run.status == Completed && run.finalStatus == Some(InsufficientContext) && refs != [] then Err(ReferencesWithoutAnswer)
    else if BrokenReference(refs).Some? then Err(BrokenReference(refs).value)
    else Ok(View(run, KeysOfReferences(refs)))
  }

  type Records = seq<(RunId, RunRecord)>

  function IdsOf(records: Records): (r: seq<RunId>)
    ensures |r| == |records| && forall i :: 0 <= i < |r| ==> r[i] == records[i].0
  {
    seq(|records|, i requires 0 <= i < |records| => records[i].0)
  }

  function AllViews(records: Records, references: seq<Reference>): Result<seq<View>, ViewError> {
    if records == [] then Ok([])
    else
      var last := records[|records| - 1];
      match AllViews(records[..|records| - 1], references)
      case Err(e) => Err(e)
      case Ok(views) =>
        match ViewOf(last.1, ReferencesOf(references, last.0))
        case Err(e) => Err(e)
        case Ok(view) => Ok(views + [view])
  }

  predicate Known(references: seq<Reference>, ids: seq<RunId>) {
    forall i :: 0 <= i < |references| ==> references[i].runId in ids
  }

  function Views(records: Records, references: seq<Reference>): Result<seq<View>, ViewError> {
    if !NoDuplicates(IdsOf(records)) then Err(DuplicateRecords)
    else if !Known(references, IdsOf(records)) then Err(UnknownRun)
    else AllViews(records, references)
  }

  method CheckReferences(refs: seq<Reference>) returns (r: Option<ViewError>)
    ensures r == BrokenReference(refs)
  {
    var evidenceKeys: set<Text> := {};
    for index := 0 to |refs|
      invariant forall key :: key in evidenceKeys <==> key in KeysOfReferences(refs[..index])
      invariant BrokenReference(refs) == BrokenReference(refs, index)
    {
      if refs[index].ordinal != index + 1 {
        return Some(OrdinalsNotContiguous);
      }
      if refs[index].key in evidenceKeys {
        return Some(RepeatedReference);
      }
      assert refs[..index + 1] == refs[..index] + [refs[index]];
      assert KeysOfReferences(refs[..index + 1]) == KeysOfReferences(refs[..index]) + [refs[index].key];
      evidenceKeys := evidenceKeys + {refs[index].key};
    }
    r := None;
  }

  lemma PrefixIds(records: Records, i: nat)
    requires i < |records|
    ensures IdsOf(records[..i + 1]) == IdsOf(records[..i]) + [records[i].0]
  {
  }

  lemma NoDuplicatesGrows(ids: seq<RunId>, id: RunId)
    ensures NoDuplicates(ids + [id]) <==> NoDuplicates(ids) && id !in ids
  {
    var longer := ids + [id];
    if NoDuplicates(longer) {
      forall i, j | 0 <= i < j < |ids|
        ensures ids[i] != ids[j]
      {
        assert longer[i] == ids[i] && longer[j] == ids[j];
      }
    }
    if id in ids {
      var i :| 0 <= i < |ids| && ids[i] == id;
      assert longer[i] == longer[|ids|];
    }
  }

  /** The map of records by identifier: it is smaller than the list exactly when an identifier repeats. */
  method IndexRecords(records: Records) returns (byId: map<RunId, RunRecord>)
    ensures forall id :: id in byId <==> id in IdsOf(records)
    ensures |byId| != |records| <==> !NoDuplicates(IdsOf(records))
  {
    byId := map[];
    for i := 0 to |records|
      invariant forall id :: id in byId <==> id in IdsOf(records[..i])
      invariant |byId| <= i && (|byId| == i <==> NoDuplicates(IdsOf(records[..i])))
    {
      PrefixIds(records, i);
      NoDuplicatesGrows(IdsOf(records[..i]), records[i].0);
      byId := byId[records[i].0 := records[i].1];
    }
    assert records[..|records|] == records;
  }

  lemma ReferencesOfOneMore(references: seq<Reference>, i: nat, id: RunId)
    requires i < |references|
    ensures ReferencesOf(references[..i + 1], id)
         == ReferencesOf(references[..i], id) + if references[i].runId == id then [references[i]] else []
  {
    assert references[..i + 1][..i] == references[..i];
  }

  lemma KnownOneMore(references: seq<Reference>, i: nat, ids: seq<RunId>)
    requires i < |references|
    ensures Known(references[..i + 1], ids) <==> Known(references[..i], ids) && references[i].runId in ids
    ensures Known(references, ids) ==> Known(references[..i + 1], ids)
  {
    assert references[..i + 1] == references[..i] + [references[i]];
  }

  /** Groups the references by run, each group in query order. */
  method GroupReferences(references: seq<Reference>, ids: seq<RunId>, known: set<RunId>) returns (r: Option<map<RunId, seq<Reference>>>)
    requires forall id :: id in known <==> id in ids
    ensures r.Some? <==> Known(references, ids)
    ensures r.Some? ==> forall id :: (if id in r.value then r.value[id] else []) == ReferencesOf(references, id)
  {
    var byRun: map<RunId, seq<Reference>> := map[];
    assert Known(references[..0], ids);
    for i := 0 to |references|
      invariant Known(references[..i], ids)
      invariant forall id :: (if id in byRun then byRun[id] else []) == ReferencesOf(references[..i], id)
    {
      hide ReferencesOf, Known;
      KnownOneMore(references, i, ids);
      var reference := references[i];
      forall id {
        ReferencesOfOneMore(references, i, id);
      }
      if reference.runId !in known {
        return None;
      }
      var group := if reference.runId in byRun then byRun[reference.runId] else [];
      byRun := byRun[reference.runId := group + [reference]];
    }
    assert references[..|references|] == references;
    r := Some(byRun);
  }

  method BuildView(run: RunRecord, references: seq<Reference>) returns (r: Result<View, ViewError>)
    ensures r == ViewOf(run, references)
  {
    var runReferences := SortBy(references, OrdinalOf);
    if run.status != Completed && |runReferences| > 0 {
      return Err(ReferencesWithoutCompletion);
    }
    if run.status == Completed {
      if run.finalStatus == Some(Answered) && |runReferences| == 0 {
        return Err(AnswerWithoutReferences);
      }
      if run.finalStatus == Some(InsufficientContext) && |runReferences| > 0 {
        return Err(ReferencesWithoutAnswer);
      }
    }
    var broken := CheckReferences(runReferences);
    r := if broken.Some? then Err(broken.value) else Ok(View(run, KeysOfReferences(runReferences)));
  }

  method BuildRunPersistenceViews(records: Records, references: seq<Reference>) returns (r: Result<seq<View>, ViewError>)
    ensures r == Views(records, references)
  {
    hide ViewOf, ReferencesOf, Known, NoDuplicates;
    var byId := IndexRecords(records);
    if |byId| != |records| {
      return Err(DuplicateRecords);
    }
    var grouped := GroupReferences(references, IdsOf(records), byId.Keys);
    if grouped.None? {
      return Err(UnknownRun);
    }
    var views: seq<View> := [];
    for i := 0 to |records|
      invariant AllViews(records[..i], references) == Ok(views)
    {
      var (id, run) := records[i];
      assert records[..i + 1][..i] == records[..i];
      var view := BuildView(run, if id in grouped.value then grouped.value[id] else []);
      if view.Err? {
        FirstErrorWins(records, references, i + 1);
        return Err(view.error);
      }
      views := views + [view.value];
    }
    assert records[..|records|] == records;
    r := Ok(views);
  }

  lemma {:induction false} FirstErrorWins(records: Records, references: seq<Reference>, i: nat)
    requires i <= |records| && AllViews(records[..i], references).Err?
    ensures AllViews(records, references) == AllViews(records[..i], references)
    decreases |records| - i
  {
    if i < |records| {
      assert records[..i + 1][..i] == records[..i];
      FirstErrorWins(records, references, i + 1);
    } else {
      assert records[..i] == records;
    }
  }

  // ---------------------------------------------------------------- reading published answers back

  /** The references the query selects for one run, in evidence order. */
  function FinalReferences(id: RunId, evidence: seq<EvidenceRecord>): seq<Reference> {
    if evidence == [] then []
    else
      var last := evidence[|evidence| - 1];
      FinalReferences(id, evidence[..|evidence| - 1])
      + if last.finalOrdinal.Some? then [Reference(id, last.key, last.finalOrdinal.value)] else []
  }

  predicate HasReference(evidence: seq<EvidenceRecord>, r: Reference) {
    exists i :: 0 <= i < |evidence| && evidence[i].key == r.key && evidence[i].finalOrdinal == Some(r.ordinal)
  }

  lemma {:induction false} FinalReferencesAreTheCitedRows(id: RunId, evidence: seq<EvidenceRecord>, r: Reference)
    ensures r in FinalReferences(id, evidence) <==> r.runId == id && HasReference(evidence, r)
  {
    if evidence != [] {
      var front, last := evidence[..|evidence| - 1], evidence[|evidence| - 1];
      FinalReferencesAreTheCitedRows(id, front, r);
      assert evidence == front + [last];
      if HasReference(evidence, r) && !HasReference(front, r) {
        var i :| 0 <= i < |evidence| && evidence[i].key == r.key && evidence[i].finalOrdinal == Some(r.ordinal);
        assert i == |front|;
      }
      if HasReference(front, r) {
        var i :| 0 <= i < |front| && front[i].key == r.key && front[i].finalOrdinal == Some(r.ordinal);
        assert evidence[i] == front[i];
      }
    }
  }

  lemma {:induction false} FinalReferencesHaveDistinctKeys(id: RunId, evidence: seq<EvidenceRecord>)
    requires KeysInOrder(evidence)
    ensures NoDuplicates(KeysOfReferences(FinalReferences(id, evidence)))
  {
    if evidence != [] {
      var front, last := evidence[..|evidence| - 1], evidence[|evidence| - 1];
      FinalReferencesHaveDistinctKeys(id, front);
      var refs := FinalReferences(id, front);
      forall i | 0 <= i < |refs|
        ensures refs[i].key != last.key
      {
        FinalReferencesAreTheCitedRows(id, front, refs[i]);
        var j :| 0 <= j < |front| && front[j].key == refs[i].key;
        if refs[i].key == last.key {
          EvidenceKeyIsInjective(j + 1, |evidence|);
        }
      }
    }
  }

  /** The ordinals of a stored answer's references are 1 to n, each on one reference. */
  lemma CitedRowsAreOneToN(id: RunId, evidence: seq<EvidenceRecord>, ids: seq<Text>)
    requires KeysInOrder(evidence) && Cites(evidence, ids)
    ensures OneToN(FinalReferences(id, evidence), OrdinalOf, |ids|)
    ensures forall r :: r in FinalReferences(id, evidence) ==> 1 <= r.ordinal <= |ids| && ids[r.ordinal - 1] == r.key
  {
    var refs := FinalReferences(id, evidence);
    forall r | r in refs
      ensures 1 <= r.ordinal <= |ids| && ids[r.ordinal - 1] == r.key
    {
      FinalReferencesAreTheCitedRows(id, evidence, r);
    }
    forall k | 1 <= k <= |ids|
      ensures HasKey(refs, OrdinalOf, k)
    {
      assert HasOrdinal(evidence, ids[k - 1], (k - 1) + 1);
      var r := Reference(id, ids[k - 1], k);
      assert HasReference(evidence, r);
      FinalReferencesAreTheCitedRows(id, evidence, r);
      var i :| 0 <= i < |refs| && refs[i] == r;
      assert OrdinalOf(refs[i]) == k;
    }
    OneOrdinalOneReference(id, evidence, ids);
  }

  lemma OneOrdinalOneReference(id: RunId, evidence: seq<EvidenceRecord>, ids: seq<Text>)
    requires KeysInOrder(evidence)
    requires forall r :: r in FinalReferences(id, evidence) ==> 1 <= r.ordinal <= |ids| && ids[r.ordinal - 1] == r.key
    ensures var refs := FinalReferences(id, evidence);
      forall i, j :: 0 <= i < j < |refs| ==> OrdinalOf(refs[i]) != OrdinalOf(refs[j])
  {
    var refs := FinalReferences(id, evidence);
    FinalReferencesHaveDistinctKeys(id, evidence);
    forall i, j | 0 <= i < j < |refs|
      ensures OrdinalOf(refs[i]) != OrdinalOf(refs[j])
    {
      assert KeysOfReferences(refs)[i] != KeysOfReferences(refs)[j];
      assert refs[i] in refs && refs[j] in refs;
    }
  }

  lemma {:induction false} NothingIsBroken(refs: seq<Reference>, from: nat)
    requires Contiguous(refs, OrdinalOf) && NoDuplicates(KeysOfReferences(refs))
    ensures BrokenReference(refs, from).None?
    decreases |refs| - from
  {
    if from < |refs| {
      assert OrdinalOf(refs[from]) == from + 1;
      forall j | 0 <= j < from
        ensures refs[j].key != refs[from].key
      {
        assert KeysOfReferences(refs)[j] != KeysOfReferences(refs)[from];
      }
      NothingIsBroken(refs, from + 1);
    }
  }

  /** A group holds the references of its run and no others, as often as they occur. */
  lemma {:induction false} GroupsAreTheRuns(references: seq<Reference>, id: RunId, r: Reference)
    ensures multiset(ReferencesOf(references, id))[r] == if r.runId == id then multiset(references)[r] else 0
  {
    if references != [] {
      var front, last := references[..|references| - 1], references[|references| - 1];
      assert references == front + [last];
      GroupsAreTheRuns(front, id, r);
    }
  }

  lemma {:induction false} BrokenMeans(refs: seq<Reference>, from: nat)
    requires from <= |refs| && (forall i :: 0 <= i < from ==> refs[i].ordinal == i + 1) && NoDuplicates(KeysOfReferences(refs[..from]))
    ensures BrokenReference(refs, from).None? <==> Contiguous(refs, OrdinalOf) && NoDuplicates(KeysOfReferences(refs))
    ensures BrokenReference(refs, from) == Some(OrdinalsNotContiguous) ==> !Contiguous(refs, OrdinalOf)
    ensures BrokenReference(refs, from) == Some(RepeatedReference) ==> !NoDuplicates(KeysOfReferences(refs))
    ensures BrokenReference(refs, from) in {None, Some(OrdinalsNotContiguous), Some(RepeatedReference)}
    decreases |refs| - from
  {
    var keys := KeysOfReferences(refs);
    assert KeysOfReferences(refs[..from]) == keys[..from];
    if from == |refs| {
      assert keys[..from] == keys;
    } else {
      assert OrdinalOf(refs[from]) == refs[from].ordinal;
      assert KeysOfReferences(refs[..from + 1]) == keys[..from] + [keys[from]];
      if keys[from] in keys[..from] {
        var j :| 0 <= j < from && keys[..from][j] == keys[from];
        assert keys[j] == keys[from];
      } else if refs[from].ordinal == from + 1 {
        BrokenMeans(refs, from + 1);
      }
    }
  }

  /** The ordinals are 1 to the number of references, and no key occurs twice. */
  ghost predicate Spelled(refs: seq<Reference>) {
    OneToN(refs, OrdinalOf, |refs|) && NoDuplicates(KeysOfReferences(SortBy(refs, OrdinalOf)))
  }

  /**
   * A run is refused a view exactly for references it should not have or lacks, or for references that do not spell a list; otherwise
   * its view lists each reference's key at its ordinal, in whatever order the query returned them.
   */
  lemma ViewsMean(run: RunRecord, refs: seq<Reference>)
    ensures var r, completed := ViewOf(run, refs), run.status == Completed;
      && (r == Err(ReferencesWithoutCompletion) <==> !completed && refs != [])
      && (r == Err(AnswerWithoutReferences) <==> completed && run.finalStatus == Some(Answered) && refs == [])
      && (r == Err(ReferencesWithoutAnswer) <==> completed && run.finalStatus == Some(InsufficientContext) && refs != [])
      && (r == Err(OrdinalsNotContiguous) ==> !OneToN(refs, OrdinalOf, |refs|))
      && (r == Err(RepeatedReference) ==> !Spelled(refs))
      && (r.Ok? ==>
            && Spelled(refs) && r.value.record == run && |r.value.finalEvidenceIds| == |refs|
            && forall ref :: ref in refs ==> 1 <= ref.ordinal <= |refs| && r.value.finalEvidenceIds[ref.ordinal - 1] == ref.key)
  {
    hide SortBy, BrokenReference, OneToN, Contiguous;
    var sorted := SortBy(refs, OrdinalOf);
    assert |multiset(sorted)| == |sorted| && |multiset(refs)| == |refs|;
    assert KeysOfReferences(sorted[..0]) == [];
    BrokenMeans(sorted, 0);
    if OneToN(refs, OrdinalOf, |refs|) {
      SortingOneToN(refs, OrdinalOf, |refs|);
    }
    if Contiguous(sorted, OrdinalOf) {
      ContiguousIsOneToN(refs, OrdinalOf);
      SortedInPlace(refs, sorted);
    }
  }

  lemma SortedInPlace(refs: seq<Reference>, sorted: seq<Reference>)
    requires multiset(sorted) == multiset(refs) && Contiguous(sorted, OrdinalOf)
    ensures forall ref :: ref in refs ==> 1 <= ref.ordinal <= |sorted| && sorted[ref.ordinal - 1].key == ref.key
  {
    forall ref | ref in refs
      ensures 1 <= ref.ordinal <= |sorted| && sorted[ref.ordinal - 1].key == ref.key
    {
      assert ref in multiset(sorted);
      var i :| 0 <= i < |sorted| && sorted[i] == ref;
      assert OrdinalOf(sorted[i]) == i + 1;
    }
  }

  /** References whose ordinals are their places in ids spell ids when they are sorted. */
  lemma SortingSpells(refs: seq<Reference>, final: seq<Reference>, ids: seq<Text>)
    requires multiset(refs) == multiset(final) && OneToN(final, OrdinalOf, |ids|)
    requires forall r :: r in final ==> 1 <= r.ordinal <= |ids| && ids[r.ordinal - 1] == r.key
    ensures KeysOfReferences(SortBy(refs, OrdinalOf)) == ids && Contiguous(SortBy(refs, OrdinalOf), OrdinalOf)
  {
    hide SortBy, OneToN;
    SameBagSameKeys(final, refs, OrdinalOf, |ids|);
    SortingOneToN(refs, OrdinalOf, |ids|);
    var sorted := SortBy(refs, OrdinalOf);
    assert |multiset(sorted)| == |sorted| && |multiset(refs)| == |refs|;
    forall i | 0 <= i < |ids|
      ensures sorted[i].key == ids[i]
    {
      assert OrdinalOf(sorted[i]) == i + 1;
      assert sorted[i] in multiset(sorted);
      assert sorted[i] in final;
    }
  }

  /** Sorting a run's references, in whatever order the query returns them, spells out the cited identifiers. */
  lemma SortedReferencesSpellTheIds(id: RunId, rows: RunRows, refs: seq<Reference>)
    requires Consistent(rows) && multiset(refs) == multiset(FinalReferences(id, rows.evidence))
    ensures KeysOfReferences(SortBy(refs, OrdinalOf)) == CitedIds(rows.run)
    ensures BrokenReference(SortBy(refs, OrdinalOf)).None?
  {
    hide StepsOk, RunRowOk, SortBy, OneToN, BrokenReference, FinalReferences;
    CitedRowsAreOneToN(id, rows.evidence, CitedIds(rows.run));
    SortingSpells(refs, FinalReferences(id, rows.evidence), CitedIds(rows.run));
    NothingIsBroken(SortBy(refs, OrdinalOf), 0);
  }

  lemma ConsistentRunsHaveViews(id: RunId, rows: RunRows, refs: seq<Reference>)
    requires Consistent(rows) && multiset(refs) == multiset(FinalReferences(id, rows.evidence))
    ensures ViewOf(rows.run, refs) == Ok(View(rows.run, CitedIds(rows.run)))
  {
    hide StepsOk, EvidenceOk, BrokenReference, SortBy, FinalReferences, EvidenceMarkers, UniqueInOrder, Cites;
    SortedReferencesSpellTheIds(id, rows, refs);
    assert |KeysOfReferences(SortBy(refs, OrdinalOf))| == |SortBy(refs, OrdinalOf)|;
  }

  function RecordsOf(runs: map<RunId, RunRows>, ids: seq<RunId>): Records
    requires forall i :: 0 <= i < |ids| ==> ids[i] in runs
  {
    seq(|ids|, i requires 0 <= i < |ids| => (ids[i], runs[ids[i]].run))
  }

  function ExpectedViews(runs: map<RunId, RunRows>, ids: seq<RunId>): seq<View>
    requires forall i :: 0 <= i < |ids| ==> ids[i] in runs
  {
    seq(|ids|, i requires 0 <= i < |ids| => View(runs[ids[i]].run, CitedIds(runs[ids[i]].run)))
  }

  /** The query answered with every final reference of these runs, in any order. */
  ghost predicate ReferencesSelected(runs: map<RunId, RunRows>, ids: seq<RunId>, references: seq<Reference>) {
    && Known(references, ids)
    && forall id :: id in ids ==> id in runs && multiset(ReferencesOf(references, id)) == multiset(FinalReferences(id, runs[id].evidence))
  }

  lemma NoViews(references: seq<Reference>)
    ensures AllViews([], references) == Ok([])
  {
  }

  lemma AllViewsAppend(records: Records, last: (RunId, RunRecord), references: seq<Reference>)
    requires AllViews(records, references).Ok? && ViewOf(last.1, ReferencesOf(references, last.0)).Ok?
    ensures AllViews(records + [last], references)
         == Ok(AllViews(records, references).value + [ViewOf(last.1, ReferencesOf(references, last.0)).value])
  {
    hide ViewOf, ReferencesOf;
    assert (records + [last])[..|records|] == records;
  }

  lemma {:induction false} AllViewsReadBack(runs: map<RunId, RunRows>, all: seq<RunId>, ids: seq<RunId>, references: seq<Reference>)
    requires ReferencesSelected(runs, all, references)
    requires forall i :: 0 <= i < |ids| ==> ids[i] in all
    requires forall id :: id in all ==> Consistent(runs[id])
    ensures AllViews(RecordsOf(runs, ids), references) == Ok(ExpectedViews(runs, ids))
  {
    hide Consistent, ViewOf, ReferencesOf, FinalReferences, CitedIds, AllViews, Known;
    if ids == [] {
      NoViews(references);
    } else {
      var front, last := ids[..|ids| - 1], ids[|ids| - 1];
      AllViewsReadBack(runs, all, front, references);
      ConsistentRunsHaveViews(last, runs[last], ReferencesOf(references, last));
      AllViewsAppend(RecordsOf(runs, front), (last, runs[last].run), references);
      assert RecordsOf(runs, ids) == RecordsOf(runs, front) + [(last, runs[last].run)];
      assert ExpectedViews(runs, ids) == ExpectedViews(runs, front) + [View(runs[last].run, CitedIds(runs[last].run))];
    }
  }

  /**
   * Building views never throws on consistent rows: every requested run comes back with the identifiers its
   * stored answer cites, in first-appearance order, and a run without an answer with none.
   */
  lemma ViewsReadBackCitations(runs: map<RunId, RunRows>, ids: seq<RunId>, references: seq<Reference>)
    requires NoDuplicates(ids) && ReferencesSelected(runs, ids, references)
    requires forall id :: id in ids ==> Consistent(runs[id])
    ensures Views(RecordsOf(runs, ids), references) == Ok(ExpectedViews(runs, ids))
  {
    hide Consistent, AllViews;
    assert IdsOf(RecordsOf(runs, ids)) == ids;
    AllViewsReadBack(runs, ids, ids, references);
  }

  /** Every cited identifier belongs to evidence of a completed tool step of that run. */
  lemma CitedIdsAreCitable(rows: RunRows, key: Text)
    requires Consistent(rows) && key in CitedIds(rows.run)
    ensures Citable(rows, key)
  {
    hide StepsOk, RunRowOk;
    var ids := CitedIds(rows.run);
    var k :| 0 <= k < |ids| && ids[k] == key;
    assert HasOrdinal(rows.evidence, ids[k], k + 1);
    var i :| 0 <= i < |rows.evidence| && rows.evidence[i].key == key;
    assert FromCompletedTool(rows.steps, rows.evidence[i].stepId);
  }

  /** Publishing an answer and reading the run back, at any later time, yields exactly the identifiers that were published. */
  lemma PublishedAnswersReadBack(
      rows: RunRows, member: bool, fence: Fence, input: CompleteRunInput, now: Time, events: seq<Event>, id: RunId, refs: seq<Reference>)
    requires Consistent(rows)
    ensures var (after, answer) := CompleteRun(rows, member, fence, input, now);
      var parsed, later := ParseFinalResult(input.finalResult), Replay(after, events);
      answer.RunCompleted? && multiset(refs) == multiset(FinalReferences(id, later.evidence)) ==>
        && parsed.Some?
        && later.run.finalAnswer == Some(parsed.value.answer)
        && ViewOf(later.run, refs) == Ok(View(later.run, parsed.value.evidenceIds))
  {
    hide Consistent, ViewOf, ParseFinalResult, Trim, Replay, CompleteRun;
    if CompleteRun(rows, member, fence, input, now).1.RunCompleted? {
      PublishedAfter(rows, member, fence, input, now);
      var after := Published(rows, input.finalStepId, ParseFinalResult(input.finalResult).value, now);
      var later := Replay(after, events);
      TerminalRunsStayFrozen(after, events);
      HistoriesMoveForward(after, events);
      if multiset(refs) == multiset(FinalReferences(id, later.evidence)) {
        ConsistentRunsHaveViews(id, later, refs);
      }
    }
  }

  lemma ParsedAndPublished(rows: RunRows, member: bool, fence: Fence, id: StepId, idTaken: bool, result: FinalResult, now: Time)
    requires PublishParsed(rows, member, fence, id, idTaken, result, now).1.RunCompleted?
    ensures PublishParsed(rows, member, fence, id, idTaken, result, now).0 == Published(rows, id, result, now)
  {
    hide AllCitable, HasId, HasFinalAnswer, LastRunning, Published, SettleRunning;
  }

  lemma PublishedCites(rows: RunRows, id: StepId, result: FinalResult, now: Time)
    requires Storable(result)
    ensures CitedIds(Published(rows, id, result, now).run) == result.evidenceIds
  {
    hide ParseFinalResult, Trim, CiteAll, UniqueInOrder, EvidenceMarkers;
  }

  lemma PublishedAfter(rows: RunRows, member: bool, fence: Fence, input: CompleteRunInput, now: Time)
    requires Consistent(rows) && CompleteRun(rows, member, fence, input, now).1.RunCompleted?
    ensures ParseFinalResult(input.finalResult).Some?
    ensures var result := ParseFinalResult(input.finalResult).value;
      var after := CompleteRun(rows, member, fence, input, now).0;
      && after == Published(rows, input.finalStepId, result, now) && Consistent(after)
      && CitedIds(after.run) == result.evidenceIds
  {
    hide Consistent, ParseFinalResult, Trim, PublishParsed, Published, Storable, CitedIds;
    ParsedResultsAreStorable(input.finalResult);
    var result := ParseFinalResult(input.finalResult).value;
    PublishKeepsConsistent(rows, member, fence, input.finalStepId, input.idTaken, result, now);
    ParsedAndPublished(rows, member, fence, input.finalStepId, input.idTaken, result, now);
    PublishedCites(rows, input.finalStepId, result, now);
  }
}
