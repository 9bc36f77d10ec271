/** Indexing attempts and the visible index of a document (server/modules/documents/repository.ts). */
module DocumentIndex {
  import opened Common
  import opened DocumentChunker

  type DocumentId = nat
  type SpaceId = nat
  type UserId = nat
  type Time = int

  datatype DocumentStatus = Queued | Processing | Ready | Failed

  datatype Stage = Extracting | Chunking | Embedding

  datatype IngestionError =
    | SourceUnavailable
    | NoIndexableText
    | ChunkLimitError
    | ExtractionFailed
    | EmbeddingUnavailable
    | EmbeddingInvalid
    | IndexPersistenceFailed
    | OtherIngestionError(code: nat)

  /** One component of an embedding; None is anything that is not a finite number. */
  type Component = Option<real>

  datatype IndexChunk = IndexChunk(draft: ChunkDraft, embedding: seq<Component>)

  /** The columns an activation replaces together. */
  datatype IndexColumns = IndexColumns(
    pageCount: Option<nat>,
    characterCount: Option<nat>,
    chunkCount: nat,
    extractorVersion: Option<nat>,
    chunkerVersion: Option<nat>,
    embeddingModel: Option<nat>,
    embeddingDimensions: Option<nat>,
    indexFingerprint: Option<nat>,
    indexedAt: Option<Time>
  )

  datatype DocumentRecord = DocumentRecord(
    spaceId: SpaceId,
    uploadedBy: Option<UserId>,
    status: DocumentStatus,
    stage: Option<Stage>,
    attemptCount: nat,
    lastAttemptAt: Option<Time>,
    errorCode: Option<IngestionError>,
    failedAt: Option<Time>,
    index: IndexColumns,
    updatedAt: Time
  )

  /** A document with its chunk rows, in insertion order. */
  datatype Document = Document(record: DocumentRecord, chunks: seq<IndexChunk>)

  datatype ActivationInput = ActivationInput(
    attemptNumber: nat,
    pageCount: Option<nat>,
    characterCount: nat,
    extractorVersion: nat,
    chunkerVersion: nat,
    embeddingModel: nat,
    embeddingDimensions: nat,
    indexFingerprint: nat,
    chunks: seq<IndexChunk>
  )

  // ---------------------------------------------------------------- transactions on one document

  datatype Action =
    | Recover
    | Claim
    | UpdateStage(attempt: nat, stage: Stage)
    | MarkFailed(attempt: nat, stage: Stage, code: IngestionError)
    | Activate(input: ActivationInput)
    | QueueReindex

  /** The attempt is the one being processed. */
  predicate Current(record: DocumentRecord, attempt: nat) {
    record.status == Processing && record.attemptCount == attempt
  }

  function ColumnsOf(input: ActivationInput, now: Time): IndexColumns {
    IndexColumns(input.pageCount, Some(input.characterCount), |input.chunks|, Some(input.extractorVersion), Some(input.chunkerVersion),
                 Some(input.embeddingModel), Some(input.embeddingDimensions), Some(input.indexFingerprint), Some(now))
  }

  function Activated(d: Document, input: ActivationInput, now: Time): Document {
    Document(
      d.record.(status := Ready, stage := None, errorCode := None, failedAt := None, index := ColumnsOf(input, now), updatedAt := now),
      input.chunks)
  }

  function Apply(d: Document, action: Action, now: Time): Document {
    var record := d.record;
    match action
    case Recover => if record.status == Processing then d.(record := record.(status := Queued, stage := None, updatedAt := now)) else d
    case Claim =>
      if record.status == Queued
      then d.(record := record.(status := Processing, stage := Some(Extracting), attemptCount := record.attemptCount + 1,
                                lastAttemptAt := Some(now), errorCode := None, failedAt := None, updatedAt := now))
      else d
    case UpdateStage(attempt, stage) =>
      if Current(record, attempt) then d.(record := record.(stage := Some(stage), updatedAt := now)) else d
    case MarkFailed(attempt, stage, code) =>
      if Current(record, attempt)
      then d.(record := record.(status := Failed, stage := Some(stage), errorCode := Some(code), failedAt := Some(now), updatedAt := now))
      else d
    case Activate(input) => if Current(record, input.attemptNumber) then Activated(d, input, now) else d
    case QueueReindex =>
      if record.status in {Queued, Processing} then d
      else d.(record := record.(status := Queued, stage := None, errorCode := None, failedAt := None, updatedAt := now))
  }

  // ---------------------------------------------------------------- histories

  datatype Event = Event(action: Action, now: Time)

  const NO_INDEX := IndexColumns(None, None, 0, None, None, None, None, None, None)

  function Uploaded(spaceId: SpaceId, uploadedBy: Option<UserId>, now: Time): Document {
    Document(DocumentRecord(spaceId, uploadedBy, Queued, None, 0, None, None, None, NO_INDEX, now), [])
  }

  function Replay(d: Document, events: seq<Event>): Document {
    if events == [] then d
    else Apply(Replay(d, events[..|events| - 1]), events[|events| - 1].action, events[|events| - 1].now)
  }

  /** The last activation that was accepted, with its time. */
  function LastActivation(d: Document, events: seq<Event>): Option<(ActivationInput, Time)> {
    if events == [] then None
    else
      var before, e := Replay(d, events[..|events| - 1]), events[|events| - 1];
      if e.action.Activate? && Current(before.record, e.action.input.attemptNumber) then Some((e.action.input, e.now))
      else LastActivation(d, events[..|events| - 1])
  }

  /**
   * Through any mix of recovery, reindexing, failures and concurrent attempts, the visible chunks and index columns
   * are those of the last accepted activation, and there are none before the first.
   */
  lemma {:induction false} VisibleIndexIsTheLastActivation(spaceId: SpaceId, uploadedBy: Option<UserId>, uploadedAt: Time, events: seq<Event>)
    ensures var start := Uploaded(spaceId, uploadedBy, uploadedAt);
      var d := Replay(start, events);
      && d.record.index.chunkCount == |d.chunks|
      && match LastActivation(start, events)
         case None => d.chunks == [] && d.record.index == NO_INDEX
         case Some((input, now)) => d.chunks == input.chunks && d.record.index == ColumnsOf(input, now)
  {
    if events != [] {
      VisibleIndexIsTheLastActivation(spaceId, uploadedBy, uploadedAt, events[..|events| - 1]);
    }
  }

  /** Nothing in the schema checks it: the columns beside the status say what the status says. */
  predicate StatusColumnsOk(record: DocumentRecord) {
    && (record.errorCode.Some? <==> record.status == Failed)
    && (record.failedAt.Some? <==> record.status == Failed)
    && (record.stage.Some? <==> record.status in {Processing, Failed})
    && (record.lastAttemptAt.Some? <==> record.attemptCount > 0)
    && (record.status in {Processing, Ready, Failed} ==> record.attemptCount > 0)
    && (record.status == Ready ==> record.index.indexedAt.Some?)
  }

  lemma {:induction false} StatusColumnsStayOk(spaceId: SpaceId, uploadedBy: Option<UserId>, uploadedAt: Time, events: seq<Event>)
    ensures StatusColumnsOk(Replay(Uploaded(spaceId, uploadedBy, uploadedAt), events).record)
  {
    if events != [] {
      StatusColumnsStayOk(spaceId, uploadedBy, uploadedAt, events[..|events| - 1]);
    }
  }

  /** Where each kind of action finds a document, and where it leaves it. */
  predicate FindsIt(action: Action, status: DocumentStatus) {
    match action
    case Claim => status == Queued
    case QueueReindex => status == Ready || status == Failed
    case _ => status == Processing
  }

  function LeavesIt(action: Action): DocumentStatus {
    match action
    case Recover => Queued
    case Claim => Processing
    case UpdateStage(_, _) => Processing
    case MarkFailed(_, _, _) => Failed
    case Activate(_) => Ready
    case QueueReindex => Queued
  }

  /** The attempt an action names, which must be the one being processed. */
  predicate Named(record: DocumentRecord, action: Action) {
    match action
    case UpdateStage(attempt, _) => attempt == record.attemptCount
    case MarkFailed(attempt, _, _) => attempt == record.attemptCount
    case Activate(input) => input.attemptNumber == record.attemptCount
    case _ => true
  }

  /** Only the columns that describe the work at hand have changed, and the row is stamped. */
  predicate SameDocument(a: Document, b: Document, now: Time) {
    && b.record.spaceId == a.record.spaceId && b.record.uploadedBy == a.record.uploadedBy && b.record.updatedAt == now
  }

  /** The index columns say how the chunks were made, how many there are, and when. */
  predicate Describes(index: IndexColumns, input: ActivationInput, now: Time) {
    && index.indexedAt == Some(now) && index.chunkCount == |input.chunks|
    && index.pageCount == input.pageCount && index.characterCount == Some(input.characterCount)
    && index.extractorVersion == Some(input.extractorVersion) && index.chunkerVersion == Some(input.chunkerVersion)
    && index.embeddingModel == Some(input.embeddingModel) && index.embeddingDimensions == Some(input.embeddingDimensions)
    && index.indexFingerprint == Some(input.indexFingerprint)
  }

  /**
   * An action takes a document from where it finds it to where it leaves it, if the attempt it names is current, and otherwise
   * changes nothing. Only a claim counts an attempt, only an activation touches the index, only a failure has a code.
   */
  lemma ActionsMoveTheStatus(d: Document, action: Action, now: Time)
    ensures var after := Apply(d, action, now);
      if FindsIt(action, d.record.status) && Named(d.record, action) then
        && after.record.status == LeavesIt(action) && SameDocument(d, after, now)
        && after.record.attemptCount == d.record.attemptCount + (if action.Claim? then 1 else 0)
        && after.record.lastAttemptAt == (if action.Claim? then Some(now) else d.record.lastAttemptAt)
        && (!action.Activate? ==> after.chunks == d.chunks && after.record.index == d.record.index)
        && (action.Activate? ==> after.chunks == action.input.chunks && Describes(after.record.index, action.input, now))
        && (action.MarkFailed? ==> after.record.errorCode == Some(action.code) && after.record.stage == Some(action.stage) && after.record.failedAt == Some(now))
        && (action.UpdateStage? ==> after.record.stage == Some(action.stage))
        && (action.Claim? ==> after.record.stage == Some(Extracting))
      else after == d
  {
  }

  /** A failure or an activation that took effect. */
  predicate AcceptedEnding(d: Document, e: Event) {
    || (e.action.MarkFailed? && Current(d.record, e.action.attempt))
    || (e.action.Activate? && Current(d.record, e.action.input.attemptNumber))
  }

  function AttemptOf(action: Action): nat
    requires action.MarkFailed? || action.Activate?
  {
    if action.MarkFailed? then action.attempt else action.input.attemptNumber
  }

  /** Since attempt a ended, only later attempts have been processed. */
  predicate Past(d: Document, a: nat) {
    d.record.attemptCount >= a && (d.record.status == Processing ==> d.record.attemptCount > a)
  }

  lemma {:induction false} EndedAttemptsStayPast(d: Document, events: seq<Event>, a: nat)
    requires Past(d, a)
    ensures Past(Replay(d, events), a)
  {
    if events != [] {
      EndedAttemptsStayPast(d, events[..|events| - 1], a);
    }
  }

  lemma {:induction false} ReplayConcat(d: Document, a: seq<Event>, b: seq<Event>)
    ensures Replay(d, a + b) == Replay(Replay(d, a), b)
  {
    if b == [] {
      assert a + b == a;
    } else {
      ReplayConcat(d, a, b[..|b| - 1]);
      assert (a + b)[..|a + b| - 1] == a + b[..|b| - 1];
    }
  }

  /** Accepted endings carry strictly increasing attempt numbers, so no attempt ends twice. */
  lemma AttemptsEndOnceInOrder(d: Document, events: seq<Event>, i: nat, j: nat)
    requires i < j < |events|
    requires AcceptedEnding(Replay(d, events[..i]), events[i]) && AcceptedEnding(Replay(d, events[..j]), events[j])
    ensures AttemptOf(events[i].action) < AttemptOf(events[j].action)
  {
    var after := Replay(d, events[..i + 1]);
    assert events[..i + 1][..i] == events[..i];
    assert Past(after, AttemptOf(events[i].action));
    EndedAttemptsStayPast(after, events[i + 1..j], AttemptOf(events[i].action));
    ReplayConcat(d, events[..i + 1], events[i + 1..j]);
    assert events[..j] == events[..i + 1] + events[i + 1..j];
  }

  /** An attempt that is no longer current changes nothing, ever again. */
  lemma StaleAttemptsChangeNothing(d: Document, action: Action, now: Time)
    requires action.UpdateStage? || action.MarkFailed? || action.Activate?
    requires !Current(d.record, if action.Activate? then action.input.attemptNumber else action.attempt)
    ensures Apply(d, action, now) == d
  {
  }

  // ---------------------------------------------------------------- the repository

  datatype Role = Owner | Member

  datatype ReindexResult = Accepted(record: DocumentRecord) | SpaceNotFound | DocumentNotFound | Forbidden

  datatype ClaimResult = NothingQueued | Claimed(id: DocumentId, attempt: nat)

  predicate Before(docs: map<DocumentId, Document>, a: DocumentId, b: DocumentId)
    requires a in docs && b in docs
  {
    var x, y := docs[a].record.updatedAt, docs[b].record.updatedAt;
    x < y || (x == y && a < b)
  }

  function QueuedIds(docs: map<DocumentId, Document>, locked: set<DocumentId>): set<DocumentId> {
    set id | id in docs && id !in locked && docs[id].record.status == Queued
  }

  predicate IsFirst(docs: map<DocumentId, Document>, ids: set<DocumentId>, id: DocumentId)
    requires ids <= docs.Keys
  {
    id in ids && forall other :: other in ids && other != id ==> Before(docs, id, other)
  }

  lemma {:induction false} SomeIsFirst(docs: map<DocumentId, Document>, ids: set<DocumentId>)
    requires ids != {} && ids <= docs.Keys
    ensures exists id :: IsFirst(docs, ids, id)
  {
    var any :| any in ids;
    var rest := ids - {any};
    if rest == {} {
      assert ids == {any};
      assert IsFirst(docs, ids, any);
    } else {
      SomeIsFirst(docs, rest);
      var first :| IsFirst(docs, rest, first);
      var id := if Before(docs, any, first) then any else first;
      forall other | other in ids && other != id
        ensures Before(docs, id, other)
      {
        assert other == any || other == first || Before(docs, first, other);
      }
      assert IsFirst(docs, ids, id);
    }
  }

  /** The first document is the one changed longest ago, and of those the one with the smallest identifier. */
  lemma FirstIsOldest(docs: map<DocumentId, Document>, ids: set<DocumentId>, id: DocumentId)
    requires ids <= docs.Keys && IsFirst(docs, ids, id)
    ensures id in ids
    ensures forall other :: other in ids ==>
      docs[id].record.updatedAt < docs[other].record.updatedAt || (docs[id].record.updatedAt == docs[other].record.updatedAt && id <= other)
  {
  }

  class DocumentRepository {
    var docs: map<DocumentId, Document>

    /** update documents set status = 'queued' … where status = 'processing'. */
    method RecoverProcessingDocuments(now: Time) returns (recovered: nat)
      modifies this`docs
      ensures docs == map id | id in old(docs) :: Apply(old(docs)[id], Recover, now)
      ensures recovered == |set id | id in old(docs) && old(docs)[id].record.status == Processing|
    {
      recovered := |set id | id in docs && docs[id].record.status == Processing|;
      docs := map id | id in docs ::
        if docs[id].record.status == Processing
        then docs[id].(record := docs[id].record.(status := Queued, stage := None, updatedAt := now))
        else docs[id];
    }

    method ClaimNextQueuedDocument(now: Time, locked: set<DocumentId>) returns (r: ClaimResult)
      modifies this`docs
      ensures r.NothingQueued? <==> forall id :: id in old(docs) && id !in locked ==> old(docs)[id].record.status != Queued
      ensures r.NothingQueued? ==> docs == old(docs)
      ensures r.Claimed? ==>
        && r.id in old(docs) && r.id !in locked && old(docs)[r.id].record.status == Queued
        && IsFirst(old(docs), QueuedIds(old(docs), locked), r.id)
        && docs == old(docs)[r.id := Apply(old(docs)[r.id], Claim, now)]
        && Current(docs[r.id].record, r.attempt) && r.attempt == old(docs)[r.id].record.attemptCount + 1
    {
      var queued := QueuedIds(docs, locked);
      assert forall id :: id in queued <==> id in docs && id !in locked && docs[id].record.status == Queued;
      if queued == {} {
        return NothingQueued;
      }
      SomeIsFirst(docs, queued);
      var id :| id in queued && IsFirst(docs, queued, id);
      var record := docs[id].record;
      var attemptNumber := record.attemptCount + 1;
      docs := docs[id := docs[id].(record := record.(
        status := Processing, stage := Some(Extracting), attemptCount := attemptNumber, lastAttemptAt := Some(now),
        errorCode := None, failedAt := None, updatedAt := now))];
      r := Claimed(id, attemptNumber);
    }

    method UpdateProcessingStage(id: DocumentId, attempt: nat, stage: Stage, now: Time) returns (updated: bool)
      modifies this`docs
      ensures id !in old(docs) ==> docs == old(docs) && !updated
      ensures id in old(docs) ==>
        docs == old(docs)[id := Apply(old(docs)[id], UpdateStage(attempt, stage), now)] && updated == Current(old(docs)[id].record, attempt)
    {
      updated := id in docs && Current(docs[id].record, attempt);
      if updated {
        docs := docs[id := docs[id].(record := docs[id].record.(stage := Some(stage), updatedAt := now))];
      }
    }

    method MarkIndexingFailed(id: DocumentId, attempt: nat, stage: Stage, code: IngestionError, now: Time) returns (updated: bool)
      modifies this`docs
      ensures id !in old(docs) ==> docs == old(docs) && !updated
      ensures id in old(docs) ==>
        docs == old(docs)[id := Apply(old(docs)[id], MarkFailed(attempt, stage, code), now)]
        && updated == Current(old(docs)[id].record, attempt)
    {
      updated := id in docs && Current(docs[id].record, attempt);
      if updated {
        docs := docs[id := docs[id].(record := docs[id].record.(
          status := Failed, stage := Some(stage), errorCode := Some(code), failedAt := Some(now), updatedAt := now))];
      }
    }

    /** Deletes the old chunk rows, then inserts the new ones in batches of 100. */
    method ReplaceChunks(id: DocumentId, chunks: seq<IndexChunk>)
      requires id in docs
      modifies this`docs
      ensures docs == old(docs)[id := old(docs)[id].(chunks := chunks)]
    {
      docs := docs[id := docs[id].(chunks := [])];
      var offset := 0;
      while offset < |chunks|
        invariant offset <= |chunks| + 99 && offset % 100 == 0
        invariant id in docs && docs == old(docs)[id := old(docs)[id].(chunks := chunks[..Min(offset, |chunks|)])]
        decreases |chunks| - offset
      {
        var batch := chunks[offset..Min(offset + 100, |chunks|)];
        assert chunks[..Min(offset + 100, |chunks|)] == chunks[..offset] + batch;
        docs := docs[id := docs[id].(chunks := docs[id].chunks + batch)];
        offset := offset + 100;
      }
      assert chunks[..|chunks|] == chunks;
    }

    method ActivateDocumentIndex(id: DocumentId, input: ActivationInput, now: Time) returns (activated: bool)
      modifies this`docs
      ensures id !in old(docs) ==> docs == old(docs) && !activated
      ensures id in old(docs) ==>
        docs == old(docs)[id := Apply(old(docs)[id], Activate(input), now)] && activated == Current(old(docs)[id].record, input.attemptNumber)
    {
      if id !in docs || docs[id].record.status != Processing || docs[id].record.attemptCount != input.attemptNumber {
        return false;
      }
      ReplaceChunks(id, input.chunks);
      var index := IndexColumns(
        input.pageCount, Some(input.characterCount), |input.chunks|, Some(input.extractorVersion), Some(input.chunkerVersion),
        Some(input.embeddingModel), Some(input.embeddingDimensions), Some(input.indexFingerprint), Some(now));
      docs := docs[id := docs[id].(record := docs[id].record.(
        status := Ready, stage := None, errorCode := None, failedAt := None, index := index, updatedAt := now))];
      activated := true;
    }

    method QueueReindexForMember(id: DocumentId, spaceId: SpaceId, actor: UserId, role: Option<Role>, now: Time) returns (r: ReindexResult)
      modifies this`docs
      ensures role.None? <==> r == SpaceNotFound
      ensures role.Some? ==> (r == DocumentNotFound <==> id !in old(docs) || old(docs)[id].record.spaceId != spaceId)
      ensures role.Some? && r != DocumentNotFound ==>
        (r == Forbidden <==> role == Some(Member) && old(docs)[id].record.uploadedBy != Some(actor))
      ensures r == Forbidden ==> id in docs && role == Some(Member) && docs[id].record.uploadedBy != Some(actor)
      ensures r.Accepted? ==>
        && id in old(docs) && docs == old(docs)[id := Apply(old(docs)[id], Action.QueueReindex, now)]
        && r.record == docs[id].record && docs[id].record.status in {Queued, Processing}
        && (role == Some(Owner) || docs[id].record.uploadedBy == Some(actor))
      ensures !r.Accepted? ==> docs == old(docs)
    {
      if role.None? {
        return SpaceNotFound;
      }
      if id !in docs || docs[id].record.spaceId != spaceId {
        return DocumentNotFound;
      }
      var record := docs[id].record;
      if role.value != Owner && record.uploadedBy != Some(actor) {
        return Forbidden;
      }
      if record.status == Queued || record.status == Processing {
        return Accepted(record);
      }
      docs := docs[id := docs[id].(record := record.(status := Queued, stage := None, errorCode := None, failedAt := None, updatedAt := now))];
      r := Accepted(docs[id].record);
    }
  }
}
