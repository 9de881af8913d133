/**
 * Ingestion bookkeeping: loading the document directory, annotating the
 * chunks the splitter produced, the guard that keeps an already populated
 * collection from being re-ingested, and the chunk count with its fallback.
 * The text splitter and the embedder are opaque functions supplied by the
 * caller; the vector store is an object holding the stored chunks.
 */
module DocumentProcessor {
  import opened Wrappers
  import Config

  datatype Metadata = Metadata(source: Option<string>, chunkIndex: Option<int>, chunkSize: Option<int>)

  datatype Document = Document(pageContent: string, metadata: Metadata)

  /** A stored chunk together with the vector the embedder computed for its text. */
  datatype Entry = Entry(chunk: Document, vector: seq<real>)

  /** The exception classes ingestion raises. */
  datatype ErrorKind = FileNotFound | ValueErr | RuntimeErr

  datatype Fault = Fault(kind: ErrorKind, message: string)

  /**
   * What the documents directory holds: nothing at all, or something the
   * directory loader either reads into documents or fails on (with the text
   * of the loader's exception).
   */
  datatype DirectoryState = Missing | Present(load: Result<seq<Document>, string>)

  function DirectoryNotFound(path: string): string {
    "❌ Documents directory not found: " + path
  }

  function LoadFailed(reason: string): string {
    "❌ Error loading documents: " + reason
  }

  function NoDocuments(path: string): string {
    "❌ No .txt files found in " + path + ". Please add documents to this directory."
  }

  function StoreFailed(reason: string): string {
    "❌ Failed to create vector store: " + reason
  }

  /** Loading either yields at least one document or raises one of two error kinds. */
  function LoadDocuments(path: string, dir: DirectoryState): (r: Result<seq<Document>, Fault>)
    ensures r.Success? <==> dir.Present? && dir.load.Success? && |dir.load.value| > 0
    ensures r.Success? ==> r.value == dir.load.value
    ensures dir.Missing? ==> r == Failure(Fault(FileNotFound, DirectoryNotFound(path)))
    ensures dir.Present? && dir.load.Failure? ==> r == Failure(Fault(ValueErr, LoadFailed(dir.load.error)))
    ensures dir == Present(Success([])) ==> r == Failure(Fault(ValueErr, NoDocuments(path)))
    ensures r.Failure? ==> r.error.kind != RuntimeErr
  {
    if dir.Missing? then Failure(Fault(FileNotFound, DirectoryNotFound(path)))
    else if dir.load.Failure? then Failure(Fault(ValueErr, LoadFailed(dir.load.error)))
    else if |dir.load.value| == 0 then Failure(Fault(ValueErr, NoDocuments(path)))
    else Success(dir.load.value)
  }

  /** Chunk `c` at batch position `i` after the metadata loop has visited it. */
  function Annotate(c: Document, i: nat): (r: Document)
    ensures r.pageContent == c.pageContent && r.metadata.source == c.metadata.source
    ensures r.metadata.chunkIndex == Some(i as int)
    ensures r.metadata.chunkSize == Some(|r.pageContent|)
  {
    c.(metadata := c.metadata.(chunkIndex := Some(i as int), chunkSize := Some(|c.pageContent|)))
  }

  /** The whole batch after the metadata loop, built position by position from the front. */
  function Annotated(cs: seq<Document>): seq<Document>
  {
    if |cs| == 0 then [] else Annotated(cs[..|cs| - 1]) + [Annotate(cs[|cs| - 1], |cs| - 1)]
  }

  /**
   * The annotation numbers chunks across the whole batch: chunk i gets index i
   * and its own length, and nothing else about the chunk or the batch changes.
   */
  lemma {:induction false} AnnotatedFacts(cs: seq<Document>)
    ensures |Annotated(cs)| == |cs|
    ensures forall i :: 0 <= i < |cs| ==> Annotated(cs)[i] == Annotate(cs[i], i)
  {
    if |cs| > 0 {
      AnnotatedFacts(cs[..|cs| - 1]);
    }
  }

  /** Chunk indices after annotation are strictly increasing, so no two chunks share one. */
  lemma AnnotatedIndicesIncrease(cs: seq<Document>, i: int, j: int)
    requires 0 <= i < j < |cs|
    ensures |Annotated(cs)| == |cs|
    ensures Annotated(cs)[i].metadata.chunkIndex.Some? && Annotated(cs)[j].metadata.chunkIndex.Some?
    ensures Annotated(cs)[i].metadata.chunkIndex.value < Annotated(cs)[j].metadata.chunkIndex.value
  {
    AnnotatedFacts(cs);
  }

  /** The metadata loop, writing into the chunks in place. */
  method AnnotateChunks(a: array<Document>)
    modifies a
    ensures a[..] == Annotated(old(a[..]))
  {
    ghost var original := a[..];
    for i := 0 to a.Length
      invariant a[..i] == Annotated(original[..i])
      invariant a[i..] == original[i..]
    {
      assert original[..i + 1][..i] == original[..i];
      a[i] := Annotate(a[i], i);
      assert a[..i + 1] == a[..i] + [a[i]];
    }
    assert a[..] == a[..a.Length] && original == original[..a.Length];
  }

  /** Splitting: the opaque splitter's chunks, annotated with their batch position and size. */
  method SplitDocuments(documents: seq<Document>, splitter: seq<Document> -> seq<Document>)
    returns (chunks: seq<Document>)
    ensures chunks == Annotated(splitter(documents))
  {
    var raw := splitter(documents);
    var a := new Document[|raw|](i requires 0 <= i < |raw| => raw[i]);
    assert a[..] == raw;
    AnnotateChunks(a);
    chunks := a[..];
  }

  /** The entries the store adds for a batch of chunks. */
  function Embedded(chunks: seq<Document>, embed: string -> seq<real>): (r: seq<Entry>)
    ensures |r| == |chunks|
    ensures forall i :: 0 <= i < |chunks| ==> r[i].chunk == chunks[i]
  {
    seq(|chunks|, i requires 0 <= i < |chunks| => Entry(chunks[i], embed(chunks[i].pageContent)))
  }

  /**
   * The persistent collection. Opening or counting it may raise, and so may
   * adding to it; the two fields hold the text of those exceptions when they do.
   */
  class VectorStore {
    var entries: seq<Entry>
    var countFailure: Option<string>
    var writeFailure: Option<string>

    constructor(entries: seq<Entry>, countFailure: Option<string>, writeFailure: Option<string>)
      ensures this.entries == entries
      ensures this.countFailure == countFailure && this.writeFailure == writeFailure
    {
      this.entries := entries;
      this.countFailure := countFailure;
      this.writeFailure := writeFailure;
    }

    /** The number of stored chunks, or None when counting raises. */
    function Count(): (n: Option<nat>)
      reads this
      ensures n.Some? <==> countFailure.None?
      ensures n.Some? ==> n.value == |entries|
    {
      if countFailure.Some? then None else Some(|entries|)
    }

    /** Adding a batch: appends every chunk with its vector, or raises and adds nothing. */
    method AddDocuments(chunks: seq<Document>, embed: string -> seq<real>) returns (failure: Option<string>)
      modifies this
      ensures failure == writeFailure
      ensures failure.None? ==> entries == old(entries) + Embedded(chunks, embed)
      ensures failure.Some? ==> entries == old(entries)
      ensures countFailure == old(countFailure) && writeFailure == old(writeFailure)
    {
      failure := writeFailure;
      if failure.None? {
        entries := entries + Embedded(chunks, embed);
      }
    }
  }

  /** The re-ingest guard: a collection that counts at least one chunk is left alone. */
  predicate Guarded(forceReindex: bool, existing: Option<nat>) {
    !forceReindex && existing.Some? && existing.value > 0
  }

  /**
   * The outcome of the ingestion pipeline: the triple (documents processed,
   * chunks created, seconds taken), or the exception it raises.
   */
  function IngestResult(forceReindex: bool, existing: Option<nat>, path: string, dir: DirectoryState,
                        splitter: seq<Document> -> seq<Document>, writeFailure: Option<string>, elapsed: real)
    : (r: Result<(nat, nat, real), Fault>)
    ensures Guarded(forceReindex, existing) ==> r == Success((0, existing.value, 0.0))
    ensures r.Success? ==> (r.value.0 == 0 <==> Guarded(forceReindex, existing))
    ensures r.Success? && !Guarded(forceReindex, existing) ==>
      LoadDocuments(path, dir).Success? &&
      (var docs := LoadDocuments(path, dir).value;
       r.value == (|docs|, |splitter(docs)|, elapsed))
    ensures r.Failure? && LoadDocuments(path, dir).Failure? ==> r.error == LoadDocuments(path, dir).error
    ensures r.Failure? && LoadDocuments(path, dir).Success? ==>
      writeFailure.Some? && r.error == Fault(RuntimeErr, StoreFailed(writeFailure.value))
  {
    if Guarded(forceReindex, existing) then Success((0, existing.value, 0.0))
    else
      var loaded := LoadDocuments(path, dir);
      if loaded.Failure? then Failure(loaded.error)
      else if writeFailure.Some? then Failure(Fault(RuntimeErr, StoreFailed(writeFailure.value)))
      else Success((|loaded.value|, |splitter(loaded.value)|, elapsed))
  }

  /** Whether the pipeline reaches the store and writes to it. */
  predicate Writes(forceReindex: bool, existing: Option<nat>, path: string, dir: DirectoryState,
                   writeFailure: Option<string>)
  {
    !Guarded(forceReindex, existing) && LoadDocuments(path, dir).Success? && writeFailure.None?
  }

  /**
   * The store changes exactly when ingestion reports documents processed;
   * a guarded run, a load error and a store error all leave it as it was.
   */
  lemma WritesIffDocumentsProcessed(forceReindex: bool, existing: Option<nat>, path: string, dir: DirectoryState,
                                    splitter: seq<Document> -> seq<Document>, writeFailure: Option<string>, elapsed: real)
    ensures var r := IngestResult(forceReindex, existing, path, dir, splitter, writeFailure, elapsed);
      Writes(forceReindex, existing, path, dir, writeFailure) <==> r.Success? && r.value.0 > 0
  {
  }

  class DocumentProcessor {
    const settings: Config.Settings
    const store: VectorStore

    constructor(settings: Config.Settings, store: VectorStore)
      ensures this.settings == settings && this.store == store
    {
      this.settings := settings;
      this.store := store;
    }

    /**
     * The ingestion pipeline. Without `forceReindex` a populated collection
     * is left alone; a failing count is ignored. Otherwise the directory is
     * loaded, split and annotated, and the chunks are added to the collection,
     * which is never cleared first, so a forced run appends.
     */
    method IngestDocuments(forceReindex: bool, dir: DirectoryState, splitter: seq<Document> -> seq<Document>,
                           embed: string -> seq<real>, elapsed: real)
      returns (r: Result<(nat, nat, real), Fault>)
      modifies store
      ensures r == IngestResult(forceReindex, old(store.Count()), settings.documentsPath, dir, splitter,
                                old(store.writeFailure), elapsed)
      ensures Writes(forceReindex, old(store.Count()), settings.documentsPath, dir, old(store.writeFailure)) ==>
        store.entries == old(store.entries)
          + Embedded(Annotated(splitter(LoadDocuments(settings.documentsPath, dir).value)), embed)
      ensures !Writes(forceReindex, old(store.Count()), settings.documentsPath, dir, old(store.writeFailure)) ==>
        store.entries == old(store.entries)
      ensures store.countFailure == old(store.countFailure) && store.writeFailure == old(store.writeFailure)
    {
      var existing := store.Count();
      if Guarded(forceReindex, existing) {
        return Success((0, existing.value, 0.0));
      }
      var loaded := LoadDocuments(settings.documentsPath, dir);
      if loaded.Failure? {
        return Failure(loaded.error);
      }
      var chunks := SplitDocuments(loaded.value, splitter);
      AnnotatedFacts(splitter(loaded.value));
      var failure := store.AddDocuments(chunks, embed);
      if failure.Some? {
        return Failure(Fault(RuntimeErr, StoreFailed(failure.value)));
      }
      r := Success((|loaded.value|, |chunks|, elapsed));
    }

    /** The number of stored chunks, falling back to 0 when counting raises. */
    function GetDocumentCount(): (n: nat)
      reads this, store
      ensures store.countFailure.None? ==> n == |store.entries|
      ensures store.countFailure.Some? ==> n == 0
    {
      store.Count().GetOr(0)
    }
  }
}
