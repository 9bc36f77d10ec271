/** One claimed indexing attempt, from source bytes to an activated index (server/modules/documents/document-indexing-worker.ts). */
module DocumentIndexingWorker {
  import opened Common
  import opened DocumentChunker
  import opened DocumentIndex

  const DOCUMENT_EMBEDDING_MODEL: nat := 0
  const DOCUMENT_EMBEDDING_DIMENSIONS := 1536
  const CHUNKER_VERSION: nat := 0

  datatype Extraction = Extraction(units: seq<TextUnit>, pageCount: Option<nat>, characterCount: nat, version: nat)

  datatype Embeddings = Embeddings(model: nat, dimensions: nat, vectors: seq<seq<Component>>)

  /** An awaited step of the attempt returns, throws an ingestion error, or throws anything else. */
  datatype Awaited<T> = Returned(value: T) | ThrewIngestionError(code: IngestionError) | ThrewOther

  datatype Outcome =
    | IndexActivated
    | AttemptStale
    | AttemptFailed(stage: Stage, code: IngestionError, recorded: bool)

  // ---------------------------------------------------------------- what the provider must return

  predicate VectorOk(v: seq<Component>) {
    |v| == DOCUMENT_EMBEDDING_DIMENSIONS && forall i :: 0 <= i < |v| ==> v[i].Some?
  }

  predicate EmbeddingsOk(e: Embeddings, expected: nat) {
    && e.model == DOCUMENT_EMBEDDING_MODEL && e.dimensions == DOCUMENT_EMBEDDING_DIMENSIONS
    && |e.vectors| == expected && forall i :: 0 <= i < expected ==> VectorOk(e.vectors[i])
  }

  method ValidateGeneratedEmbeddings(e: Embeddings, expectedCount: nat) returns (ok: bool)
    ensures ok <==> EmbeddingsOk(e, expectedCount)
  {
    if e.model != DOCUMENT_EMBEDDING_MODEL || e.dimensions != DOCUMENT_EMBEDDING_DIMENSIONS || |e.vectors| != expectedCount {
      return false;
    }
    for index := 0 to |e.vectors|
      invariant forall i :: 0 <= i < index ==> VectorOk(e.vectors[i])
    {
      var embedding := e.vectors[index];
      if |embedding| != DOCUMENT_EMBEDDING_DIMENSIONS || exists i :: 0 <= i < |embedding| && embedding[i].None? {
        return false;
      }
    }
    ok := true;
  }

  /** Each chunk with its own vector. */
  function Embedded(drafts: seq<ChunkDraft>, vectors: seq<seq<Component>>): (r: seq<IndexChunk>)
    requires |drafts| == |vectors|
    ensures |r| == |drafts| && forall i :: 0 <= i < |r| ==> r[i] == IndexChunk(drafts[i], vectors[i])
  {
    seq(|drafts|, i requires 0 <= i < |drafts| => IndexChunk(drafts[i], vectors[i]))
  }

  /** The visible chunks are exactly the extracted text's chunks, in order, each with a valid vector. */
  predicate ShowsChunksOf(d: Document, units: seq<TextUnit>) {
    && d.record.status == Ready
    && 0 < |d.chunks| <= MAX_DOCUMENT_CHUNKS
    && |d.chunks| == |DocumentDrafts(units)|
    && d.record.index.chunkCount == |d.chunks|
    && forall i :: 0 <= i < |d.chunks| ==> d.chunks[i].draft == DocumentDrafts(units)[i] && VectorOk(d.chunks[i].embedding)
  }

  /** errorCodeFor. */
  function ErrorCodeFor<T>(thrown: Awaited<T>, stage: Stage): IngestionError
    requires !thrown.Returned?
  {
    if thrown.ThrewIngestionError? then thrown.code
    else if stage == Embedding then EmbeddingUnavailable
    else ExtractionFailed
  }

  // ---------------------------------------------------------------- what may go wrong, and what is recorded for it

  datatype Trouble =
    | SourceUnreadable
    | ExtractorThrew(thrown: Awaited<Extraction>)
    | StageUpdateThrew(stage: Stage)
    | NothingToIndex
    | TooManyChunks
    | ProviderThrew(answer: Awaited<Embeddings>)
    | BadEmbeddings
    | ActivationThrew

  /** An error of the ingestion's own keeps its code; any other gets the stage's. */
  function CodeOf<T>(thrown: Awaited<T>, other: IngestionError): IngestionError {
    match thrown
    case ThrewIngestionError(code) => code
    case _ => other
  }

  /** The stage and code that a failed attempt records. */
  function FailureOf(trouble: Trouble): (Stage, IngestionError) {
    match trouble
    case SourceUnreadable => (Extracting, SourceUnavailable)
    case ExtractorThrew(thrown) => (Extracting, CodeOf(thrown, ExtractionFailed))
    case StageUpdateThrew(stage) => (stage, if stage == Embedding then EmbeddingUnavailable else ExtractionFailed)
    case NothingToIndex => (Chunking, NoIndexableText)
    case TooManyChunks => (Chunking, ChunkLimitError)
    case ProviderThrew(answer) => (Embedding, CodeOf(answer, EmbeddingUnavailable))
    case BadEmbeddings => (Embedding, EmbeddingInvalid)
    case ActivationThrew => (Embedding, IndexPersistenceFailed)
  }

  class IndexingAttempt {
    const repo: DocumentRepository
    const id: DocumentId
    const attempt: nat

    /** What the attempt was given, what went wrong, the stages it entered, and whether it found itself superseded. */
    ghost var extraction: Option<Extraction>
    ghost var provided: Option<Embeddings>
    ghost var trouble: Option<Trouble>
    ghost var stages: seq<Stage>
    ghost var superseded: bool

    constructor (repo: DocumentRepository, id: DocumentId, attempt: nat)
      ensures this.repo == repo && this.id == id && this.attempt == attempt && AtStart()
    {
      this.repo, this.id, this.attempt := repo, id, attempt;
      extraction, provided, trouble, stages, superseded := None, None, None, [], false;
    }

    ghost predicate AtStart()
      reads this
    {
      extraction == None && provided == None && trouble == None && stages == [] && !superseded
    }

    /** Nothing has gone wrong so far. */
    ghost predicate Undisturbed()
      reads this
    {
      trouble == None && !superseded
    }

    /** The chunks of the extracted text. */
    ghost function Drafts(): seq<ChunkDraft>
      reads this
    {
      if extraction.Some? then DocumentDrafts(extraction.value.units) else []
    }

    /** What is reported as trouble is: the chunks are none, or too many, or the embeddings are not theirs. */
    ghost predicate TroubleIsReal()
      reads this
    {
      && (trouble == Some(NothingToIndex) ==> extraction.Some? && Drafts() == [])
      && (trouble == Some(TooManyChunks) ==> extraction.Some? && |Drafts()| > MAX_DOCUMENT_CHUNKS)
      && (trouble == Some(BadEmbeddings) ==> provided.Some? && !EmbeddingsOk(provided.value, |Drafts()|))
    }

    /** The visible index is that of the extracted text and of the embeddings that were provided for it. */
    ghost predicate ShowsTheIndex()
      reads this, repo
    {
      && extraction.Some? && provided.Some? && EmbeddingsOk(provided.value, |Drafts()|)
      && id in repo.docs && repo.docs[id].record.attemptCount == attempt && ShowsChunksOf(repo.docs[id], extraction.value.units)
      && (forall i :: 0 <= i < |Drafts()| ==> repo.docs[id].chunks[i].embedding == provided.value.vectors[i])
      && var index := repo.docs[id].record.index;
         && index.pageCount == extraction.value.pageCount && index.characterCount == Some(extraction.value.characterCount)
         && index.extractorVersion == Some(extraction.value.version) && index.chunkerVersion == Some(CHUNKER_VERSION)
         && index.embeddingModel == Some(DOCUMENT_EMBEDDING_MODEL) && index.embeddingDimensions == Some(DOCUMENT_EMBEDDING_DIMENSIONS)
    }

    /**
     * The outcome is the one that what happened asks for: an attempt fails with the stage and code of its trouble, is stale only when
     * superseded, and otherwise has been through both stages and shows its index.
     */
    ghost predicate Deserved(o: Outcome)
      reads this, repo
    {
      && (o.AttemptFailed? ==> trouble.Some? && (o.stage, o.code) == FailureOf(trouble.value))
      && (o.AttemptStale? ==> superseded && trouble == None)
      && (o.IndexActivated? ==> Undisturbed() && stages == [Chunking, Embedding] && ShowsTheIndex())
      && (o.AttemptFailed? && o.recorded ==>
            && id in repo.docs && repo.docs[id].record.status == Failed && repo.docs[id].record.attemptCount == attempt
            && repo.docs[id].record.stage == Some(o.stage) && repo.docs[id].record.errorCode == Some(o.code))
    }

    /** Anyone else's transactions: other attempts, recovery, reindexing, uploads and deletions. */
    method Interfere()
      modifies repo`docs
    {
      var docs := Anything();
      repo.docs := docs;
    }

    /** An awaited call that throws, or does not. */
    method MayThrow(ghost cause: Trouble) returns (throws: bool)
      modifies repo`docs, this`trouble
      ensures trouble == if throws then Some(cause) else old(trouble)
    {
      Interfere();
      throws := Anything();
      if throws {
        trouble := Some(cause);
      }
    }

    /** extractor.extract. */
    method Extract() returns (answer: Awaited<Extraction>)
      modifies this`trouble, this`extraction
      ensures answer.Returned? ==> extraction == Some(answer.value) && trouble == old(trouble)
      ensures !answer.Returned? ==> extraction == old(extraction) && trouble == Some(ExtractorThrew(answer))
    {
      answer := Anything();
      if answer.Returned? {
        extraction := Some(answer.value);
      } else {
        trouble := Some(ExtractorThrew(answer));
      }
    }

    /** embeddingGenerator.embed. */
    method Embed() returns (answer: Awaited<Embeddings>)
      modifies this`trouble, this`provided
      ensures answer.Returned? ==> provided == Some(answer.value) && trouble == old(trouble)
      ensures !answer.Returned? ==> provided == old(provided) && trouble == Some(ProviderThrew(answer))
    {
      answer := Anything();
      if answer.Returned? {
        provided := Some(answer.value);
      } else {
        trouble := Some(ProviderThrew(answer));
      }
    }

    /** failClaim: an attempt that cannot record its failure only logs it. */
    method FailClaim(stage: Stage, code: IngestionError) returns (o: Outcome)
      requires trouble.Some? && (stage, code) == FailureOf(trouble.value)
      modifies repo`docs
      ensures o.AttemptFailed? && Deserved(o)
    {
      Interfere();
      var throws := Anything();
      if throws {
        return AttemptFailed(stage, code, false);
      }
      var now := Anything();
      var updated := repo.MarkIndexingFailed(id, attempt, stage, code, now);
      o := AttemptFailed(stage, code, updated);
    }

    /** requireStageOwnership: says whether the attempt is current, or throws as the update does. */
    method OwnsStage(stage: Stage) returns (owns: Awaited<bool>)
      modifies repo`docs, this`trouble, this`stages, this`superseded
      ensures owns.Returned? && owns.value ==>
        && id in repo.docs && Current(repo.docs[id].record, attempt) && repo.docs[id].record.stage == Some(stage)
        && stages == old(stages) + [stage]
      ensures owns.Returned? && !owns.value ==> id !in repo.docs || !Current(repo.docs[id].record, attempt)
      ensures !owns.Returned? ==> owns.ThrewOther?
      ensures trouble == if owns.Returned? then old(trouble) else Some(StageUpdateThrew(stage))
      ensures superseded <==> old(superseded) || (owns.Returned? && !owns.value)
    {
      var throws := MayThrow(StageUpdateThrew(stage));
      if throws {
        return ThrewOther;
      }
      var now := Anything();
      var updated := repo.UpdateProcessingStage(id, attempt, stage, now);
      if updated {
        stages := stages + [stage];
      } else {
        superseded := true;
      }
      owns := Returned(updated);
    }

    /** activateDocumentIndex: says whether the attempt was current, or throws. */
    method ActivateOrThrow(input: ActivationInput) returns (activated: Awaited<bool>)
      requires input.attemptNumber == attempt
      modifies repo`docs, this`trouble, this`superseded
      ensures activated.Returned? && activated.value ==>
        exists d: Document, now: Time :: Current(d.record, attempt) && id in repo.docs && repo.docs[id] == Activated(d, input, now)
      ensures trouble == if activated.Returned? then old(trouble) else Some(ActivationThrew)
      ensures superseded <==> old(superseded) || (activated.Returned? && !activated.value)
    {
      var throws := MayThrow(ActivationThrew);
      if throws {
        return ThrewOther;
      }
      var now := Anything();
      ghost var before := repo.docs;
      var updated := repo.ActivateDocumentIndex(id, input, now);
      if updated {
        assert Current(before[id].record, attempt) && repo.docs[id] == Activated(before[id], input, now);
      } else {
        superseded := true;
      }
      activated := Returned(updated);
    }

    /** Activates the index, or finds the attempt superseded. */
    method Activate(input: ActivationInput) returns (o: Outcome)
      requires Undisturbed() && stages == [Chunking, Embedding] && 0 < |Drafts()| <= MAX_DOCUMENT_CHUNKS
      requires extraction.Some? && provided.Some? && EmbeddingsOk(provided.value, |Drafts()|)
      requires input.attemptNumber == attempt && input.chunks == Embedded(Drafts(), provided.value.vectors)
      requires input.pageCount == extraction.value.pageCount && input.characterCount == extraction.value.characterCount
      requires input.extractorVersion == extraction.value.version && input.chunkerVersion == CHUNKER_VERSION
      requires input.embeddingModel == DOCUMENT_EMBEDDING_MODEL && input.embeddingDimensions == DOCUMENT_EMBEDDING_DIMENSIONS
      modifies repo`docs, this`trouble, this`superseded
      ensures Deserved(o) && TroubleIsReal()
    {
      hide DocumentDrafts, VectorOk;
      var activated := ActivateOrThrow(input);
      if !activated.Returned? {
        o := FailClaim(Embedding, IndexPersistenceFailed);
        return;
      }
      o := if activated.value then IndexActivated else AttemptStale;
    }

    /** Embeds the chunks and activates them, or reports why not. */
    method EmbedAndActivate(extracted: Extraction, drafts: seq<ChunkDraft>) returns (o: Outcome)
      requires Undisturbed() && stages == [Chunking] && extraction == Some(extracted)
      requires drafts == Drafts() && 0 < |drafts| <= MAX_DOCUMENT_CHUNKS
      modifies repo`docs, this`trouble, this`provided, this`stages, this`superseded
      ensures Deserved(o) && TroubleIsReal()
    {
      hide DocumentDrafts, EmbeddingsOk, ShowsTheIndex;
      var owns := OwnsStage(Embedding);
      if !owns.Returned? {
        o := FailClaim(Embedding, ErrorCodeFor(owns, Embedding));
        return;
      }
      if !owns.value {
        return AttemptStale;
      }
      var answer := Embed();
      if !answer.Returned? {
        o := FailClaim(Embedding, ErrorCodeFor(answer, Embedding));
        return;
      }
      var valid := ValidateGeneratedEmbeddings(answer.value, |drafts|);
      if !valid {
        trouble := Some(BadEmbeddings);
        o := FailClaim(Embedding, EmbeddingInvalid);
        return;
      }
      ValidHaveTheConstants(answer.value, |drafts|);
      var indexFingerprint: nat := Anything();
      var input := ActivationInput(
        attempt, extracted.pageCount, extracted.characterCount, extracted.version, CHUNKER_VERSION,
        answer.value.model, answer.value.dimensions, indexFingerprint, Embedded(drafts, answer.value.vectors));
      o := Activate(input);
    }

    /** processClaim: whatever interferes, the attempt ends as what happened to it asks. */
    method ProcessClaim() returns (o: Outcome)
      requires AtStart()
      modifies repo`docs, this
      ensures Deserved(o) && TroubleIsReal()
    {
      hide DocumentDrafts, ShowsChunksOf, ShowsTheIndex, EmbeddingsOk;
      var unreadable := MayThrow(SourceUnreadable);
      if unreadable {
        o := FailClaim(Extracting, SourceUnavailable);
        return;
      }
      var extracted := Extract();
      if !extracted.Returned? {
        o := FailClaim(Extracting, ErrorCodeFor(extracted, Extracting));
        return;
      }
      var owns := OwnsStage(Chunking);
      if !owns.Returned? {
        o := FailClaim(Chunking, ErrorCodeFor(owns, Chunking));
        return;
      }
      if !owns.value {
        return AttemptStale;
      }
      var chunked := Chunk(extracted.value.units);
      if chunked.Err? {
        trouble := Some(TooManyChunks);
        o := FailClaim(Chunking, ChunkLimitError);
        return;
      }
      if chunked.value == [] {
        trouble := Some(NothingToIndex);
        o := FailClaim(Chunking, NoIndexableText);
        return;
      }
      o := EmbedAndActivate(extracted.value, chunked.value);
    }
  }

  lemma ValidHaveTheConstants(e: Embeddings, expected: nat)
    requires EmbeddingsOk(e, expected)
    ensures e.model == DOCUMENT_EMBEDDING_MODEL && e.dimensions == DOCUMENT_EMBEDDING_DIMENSIONS && |e.vectors| == expected
  {
  }
}
