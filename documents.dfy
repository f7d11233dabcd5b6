/** The document service of the ingestion pipeline: the sliding-window
    chunker, the catalog lookup that pairs a PDF with its metadata record,
    document loading (filter, map, drop the failures) and the batched
    chunking stage. PDF text extraction and the random chunk identifiers are
    oracles handed in by the caller. */
module Documents {
  import opened Common

  /** One chunk: its identifier, its slice of the text, and the document's
      metadata extended with its position. */
  datatype Chunk = Chunk(chunkId: ChunkId, content: string, metadata: Metadata)

  /** A loaded document: the extracted text and its catalog record. */
  datatype Document = Document(content: string, metadata: Metadata)

  /** The chunker's own requirement: a positive window and an overlap that
      does not exceed it (anything else makes the window walk backwards or
      stand still). */
  predicate ValidSizes(chunkSize: int, overlap: int)
  {
    chunkSize > 0 && 0 <= overlap <= chunkSize
  }

  // ---------------------------------------------------------------------
  // The window of chunk k
  // ---------------------------------------------------------------------

  /** Where chunk k starts: 0 for the first chunk, otherwise the end of the
      previous window stepped back by the overlap. */
  function WindowStart(k: nat, chunkSize: nat, overlap: nat): nat
    requires overlap <= chunkSize
  {
    if k == 0 then 0 else MulMono(1, k, chunkSize); k * chunkSize - overlap
  }

  /** Where chunk k ends (before clamping to the text). */
  function WindowEnd(k: nat, chunkSize: nat): nat
  {
    (k + 1) * chunkSize
  }

  /** The document's metadata with the four position keys added or
      overriding (`{**metadata, "chunk_index": ..., ...}`). */
  function ChunkMetadata(metadata: Metadata, k: nat, start: nat, end: nat): Metadata
  {
    metadata["chunk_index" := Int(k)]["is_first_chunk" := Bool(k == 0)]
            ["chunk_start" := Int(start)]["chunk_end" := Int(end)]
  }

  /** The text of chunk k: its window of `text`, clamped (`text[start:end]`). */
  function ChunkContent(text: string, chunkSize: nat, overlap: nat, k: nat): string
    requires ValidSizes(chunkSize, overlap)
  {
    PySlice(text, WindowStart(k, chunkSize, overlap), WindowEnd(k, chunkSize))
  }

  /** Chunk k of `text`; its identifier is the uuid drawn `draws + k`-th. */
  function ChunkAt(text: string, metadata: Metadata, chunkSize: nat, overlap: nat,
                   uuid: nat -> ChunkId, draws: nat, k: nat): Chunk
    requires ValidSizes(chunkSize, overlap)
  {
    var start, end := WindowStart(k, chunkSize, overlap), WindowEnd(k, chunkSize);
    Chunk(uuid(draws + k), ChunkContent(text, chunkSize, overlap, k),
          ChunkMetadata(metadata, k, start, end))
  }

  /** The chunks of one document, one per window start below the length. */
  function Chunks(text: string, metadata: Metadata, chunkSize: nat, overlap: nat,
                  uuid: nat -> ChunkId, draws: nat): seq<Chunk>
    requires ValidSizes(chunkSize, overlap)
  {
    seq(CeilDiv(|text|, chunkSize),
        k requires 0 <= k => ChunkAt(text, metadata, chunkSize, overlap, uuid, draws, k))
  }

  /** The loop's view of window k: it ends one window size after `start` =
      k * chunkSize and, past the first, starts `overlap` earlier. */
  lemma WindowFromStart(k: nat, chunkSize: nat, overlap: nat, start: nat)
    requires ValidSizes(chunkSize, overlap) && start == k * chunkSize
    ensures start > 0 <==> k > 0
    ensures WindowEnd(k, chunkSize) == start + chunkSize
    ensures WindowStart(k, chunkSize, overlap) == if start > 0 then start - overlap else 0
  {
    assert (k + 1) * chunkSize == start + chunkSize;
    if k > 0 {
      MulMono(1, k, chunkSize);
    }
  }

  /** `create_chunks`: walk the text window by window. `draws` is the number
      of uuids drawn before the call. */
  method CreateChunks(text: string, metadata: Metadata, chunkSize: nat, overlap: nat,
                      uuid: nat -> ChunkId, draws: nat)
    returns (chunks: seq<Chunk>)
    requires ValidSizes(chunkSize, overlap)
    ensures chunks == Chunks(text, metadata, chunkSize, overlap, uuid, draws)
  {
    chunks := [];
    var start := 0;
    var chunkIndex := 0;
    while start < |text|
      invariant start == chunkIndex * chunkSize
      invariant chunkIndex <= CeilDiv(|text|, chunkSize)
      invariant |chunks| == chunkIndex
      invariant forall i :: 0 <= i < chunkIndex ==>
                  chunks[i] == ChunkAt(text, metadata, chunkSize, overlap, uuid, draws, i)
      decreases |text| - start
    {
      CeilDivSteps(|text|, chunkSize, chunkIndex);
      WindowFromStart(chunkIndex, chunkSize, overlap, start);
      var end := start + chunkSize;
      if start > 0 {
        start := start - overlap;
      }
      var chunkText := PySlice(text, start, end);
      var chunk := Chunk(uuid(draws + chunkIndex), chunkText,
                         ChunkMetadata(metadata, chunkIndex, start, end));
      assert chunk == ChunkAt(text, metadata, chunkSize, overlap, uuid, draws, chunkIndex);
      chunks := chunks + [chunk];
      start := end;
      chunkIndex := chunkIndex + 1;
    }
    CeilDivSteps(|text|, chunkSize, chunkIndex);
  }

  // ---------------------------------------------------------------------
  // What the chunker promises
  // ---------------------------------------------------------------------

  /** The number of chunks is the ceiling of |text| / chunkSize: enough
      windows to reach the end, and not one more; empty text, no chunks. */
  lemma ChunkCount(text: string, metadata: Metadata, chunkSize: nat, overlap: nat,
                   uuid: nat -> ChunkId, draws: nat)
    requires ValidSizes(chunkSize, overlap)
    ensures var n := |Chunks(text, metadata, chunkSize, overlap, uuid, draws)|;
            n * chunkSize >= |text| && (n == 0 || (n - 1) * chunkSize < |text|)
    ensures |Chunks(text, metadata, chunkSize, overlap, uuid, draws)| == 0 <==> |text| == 0
  {
    CeilDivSteps(|text|, chunkSize, 0);
  }

  /** Chunk k is numbered k, only chunk 0 is marked first, its window is
      [k * chunkSize - overlap, (k + 1) * chunkSize) (from 0 for k = 0), its
      content is that window of the text, and every other metadata key is
      the document's. */
  lemma ChunkLayout(text: string, metadata: Metadata, chunkSize: nat, overlap: nat,
                    uuid: nat -> ChunkId, draws: nat, k: nat)
    requires ValidSizes(chunkSize, overlap)
    requires k < |Chunks(text, metadata, chunkSize, overlap, uuid, draws)|
    ensures var c := Chunks(text, metadata, chunkSize, overlap, uuid, draws)[k];
            var start := if k == 0 then 0 else k * chunkSize - overlap;
            && c.chunkId == uuid(draws + k)
            && c.metadata["chunk_index"] == Int(k)
            && c.metadata["is_first_chunk"] == Bool(k == 0)
            && c.metadata["chunk_start"] == Int(start)
            && c.metadata["chunk_end"] == Int((k + 1) * chunkSize)
            && 0 <= start < |text|
            && c.content == text[start..if (k + 1) * chunkSize <= |text| then (k + 1) * chunkSize else |text|]
            && (forall key :: key !in {"chunk_index", "is_first_chunk", "chunk_start", "chunk_end"} ==>
                  (key in c.metadata <==> key in metadata) &&
                  (key in metadata ==> c.metadata[key] == metadata[key]))
  {
    CeilDivSteps(|text|, chunkSize, k);
    if k > 0 { MulMono(1, k, chunkSize); }
  }

  /** No chunk is longer than the window plus the overlap. */
  lemma ChunkLengthBound(text: string, metadata: Metadata, chunkSize: nat, overlap: nat,
                         uuid: nat -> ChunkId, draws: nat, k: nat)
    requires ValidSizes(chunkSize, overlap)
    requires k < |Chunks(text, metadata, chunkSize, overlap, uuid, draws)|
    ensures |Chunks(text, metadata, chunkSize, overlap, uuid, draws)[k].content| <= chunkSize + overlap
    ensures k == 0 ==> |Chunks(text, metadata, chunkSize, overlap, uuid, draws)[k].content| <= chunkSize
  {
    if k > 0 {
      MulMono(1, k, chunkSize);
      assert (k + 1) * chunkSize == k * chunkSize + chunkSize;
    }
  }

  // ---------------------------------------------------------------------
  // Round trip: the chunks put back together are the text
  // ---------------------------------------------------------------------

  /** The contents of a list of chunks, in order. */
  function Contents(chunks: seq<Chunk>): (parts: seq<string>)
    ensures |parts| == |chunks|
    ensures forall i :: 0 <= i < |chunks| ==> parts[i] == chunks[i].content
  {
    seq(|chunks|, i requires 0 <= i < |chunks| => chunks[i].content)
  }

  /** A part without its leading `overlap` characters. */
  function DropOverlap(part: string, overlap: nat): string
  {
    if |part| <= overlap then [] else part[overlap..]
  }

  /** The first part whole, then every later part without its overlap. */
  function Reassemble(parts: seq<string>, overlap: nat): string
  {
    if |parts| == 0 then []
    else if |parts| == 1 then parts[0]
    else Reassemble(parts[..|parts| - 1], overlap) + DropOverlap(parts[|parts| - 1], overlap)
  }

  /** Without its overlap, the window k that starts inside the text is the
      text from `lo` = k * chunkSize up to the next multiple, clamped. */
  lemma WindowWithoutOverlap(text: string, chunkSize: nat, overlap: nat, k: nat, lo: nat, hi: nat)
    requires ValidSizes(chunkSize, overlap)
    requires lo == k * chunkSize && lo < |text|
    requires hi == if lo + chunkSize <= |text| then lo + chunkSize else |text|
    ensures lo < hi
    ensures k == 0 ==> ChunkContent(text, chunkSize, overlap, k) == text[lo..hi]
    ensures k > 0 ==> DropOverlap(ChunkContent(text, chunkSize, overlap, k), overlap) == text[lo..hi]
  {
    assert (k + 1) * chunkSize == lo + chunkSize;
    if k > 0 {
      MulMono(1, k, chunkSize);
    }
  }

  /** Reassembling one more part extends the text by that part's new text. */
  lemma ReassembleStep(parts: seq<string>, overlap: nat, text: string, lo: nat, hi: nat)
    requires |parts| >= 2 && lo <= hi <= |text|
    requires Reassemble(parts[..|parts| - 1], overlap) == text[..lo]
    requires DropOverlap(parts[|parts| - 1], overlap) == text[lo..hi]
    ensures Reassemble(parts, overlap) == text[..hi]
  {
    assert text[..lo] + text[lo..hi] == text[..hi];
  }

  /** Part j adds the text between bounds j and j + 1: whole for the first
      part, without its overlap for the others. */
  predicate AddsSlice(parts: seq<string>, overlap: nat, text: string, bounds: seq<nat>, j: nat)
    requires j < |parts| && |bounds| == |parts| + 1
  {
    bounds[j] <= bounds[j + 1] <= |text| &&
    (if j == 0 then parts[j] == text[..bounds[j + 1]]
     else DropOverlap(parts[j], overlap) == text[bounds[j]..bounds[j + 1]])
  }

  /** Parts that each add the slice between consecutive `bounds`,
      reassembled, are the text up to the last bound. */
  lemma {:induction false} ReassembleJoin(parts: seq<string>, overlap: nat, text: string, bounds: seq<nat>)
    requires |parts| >= 1 && |bounds| == |parts| + 1 && bounds[0] == 0
    requires forall j :: 0 <= j < |parts| ==> AddsSlice(parts, overlap, text, bounds, j)
    ensures bounds[|parts|] <= |text| && Reassemble(parts, overlap) == text[..bounds[|parts|]]
    decreases |parts|
  {
    var n := |parts| - 1;
    assert AddsSlice(parts, overlap, text, bounds, n);
    if n > 0 {
      var init, initBounds := parts[..n], bounds[..n + 1];
      forall j | 0 <= j < n
        ensures AddsSlice(init, overlap, text, initBounds, j)
      {
        assert AddsSlice(parts, overlap, text, bounds, j);
      }
      ReassembleJoin(init, overlap, text, initBounds);
      ReassembleStep(parts, overlap, text, bounds[n], bounds[n + 1]);
    }
  }

  /** `min(x, n)`: a window end clamped to the text. */
  function Clamp(x: nat, n: nat): nat
  {
    if x <= n then x else n
  }

  /** Where window j's new text starts, walked as the loop walks it: each
      window ends one window size after the previous one, clamped to the
      text. */
  function Boundary(j: nat, chunkSize: nat, n: nat): nat
  {
    if j == 0 then 0 else Clamp(Boundary(j - 1, chunkSize, n) + chunkSize, n)
  }

  lemma {:induction false} BoundaryIsClampedMultiple(j: nat, chunkSize: nat, n: nat)
    ensures Boundary(j, chunkSize, n) == Clamp(j * chunkSize, n)
  {
    if j > 0 {
      BoundaryIsClampedMultiple(j - 1, chunkSize, n);
      MulPred(j, chunkSize);
    }
  }

  /** The boundaries of the first n windows. */
  function Bounds(text: string, chunkSize: nat, n: nat): (bounds: seq<nat>)
    ensures |bounds| == n + 1
    ensures forall j :: 0 <= j <= n ==> bounds[j] == Boundary(j, chunkSize, |text|)
  {
    seq(n + 1, j requires 0 <= j <= n => Boundary(j, chunkSize, |text|))
  }

  /** Chunk k without its overlap is the text between the k-th and the
      (k+1)-th boundary. */
  lemma ChunkNewText(text: string, metadata: Metadata, chunkSize: nat, overlap: nat,
                     uuid: nat -> ChunkId, draws: nat, k: nat)
    requires ValidSizes(chunkSize, overlap)
    requires k < CeilDiv(|text|, chunkSize)
    ensures var part := Chunks(text, metadata, chunkSize, overlap, uuid, draws)[k].content;
            var lo, hi := Boundary(k, chunkSize, |text|), Boundary(k + 1, chunkSize, |text|);
            lo <= hi <= |text| &&
            (if k == 0 then part == text[..hi] else DropOverlap(part, overlap) == text[lo..hi])
  {
    CeilDivSteps(|text|, chunkSize, k);
    BoundaryIsClampedMultiple(k, chunkSize, |text|);
    var lo := k * chunkSize;
    WindowWithoutOverlap(text, chunkSize, overlap, k, lo, Clamp(lo + chunkSize, |text|));
  }

  /** Dropping the overlap from every chunk after the first and joining the
      contents gives back the text. */
  lemma {:induction false} ChunksRoundTrip(text: string, metadata: Metadata, chunkSize: nat, overlap: nat,
                                           uuid: nat -> ChunkId, draws: nat)
    requires ValidSizes(chunkSize, overlap)
    ensures Reassemble(Contents(Chunks(text, metadata, chunkSize, overlap, uuid, draws)), overlap) == text
  {
    var parts := Contents(Chunks(text, metadata, chunkSize, overlap, uuid, draws));
    var n := CeilDiv(|text|, chunkSize);
    CeilDivSteps(|text|, chunkSize, 0);
    if n > 0 {
      var bounds := Bounds(text, chunkSize, n);
      forall j | 0 <= j < n
        ensures AddsSlice(parts, overlap, text, bounds, j)
      {
        ChunkNewText(text, metadata, chunkSize, overlap, uuid, draws, j);
      }
      CeilDivSteps(|text|, chunkSize, n);
      BoundaryIsClampedMultiple(n, chunkSize, |text|);
      assert bounds[n] == |text|;
      ReassembleJoin(parts, overlap, text, bounds);
      assert text[..|text|] == text;
    }
  }

  // ---------------------------------------------------------------------
  // Catalog lookup and document loading
  // ---------------------------------------------------------------------

  /** The catalog record describes `filename`. */
  predicate Describes(entry: Metadata, filename: string)
  {
    "filename" in entry && entry["filename"] == Str(filename)
  }

  /** Outcome of `next((m for m in metadata if m['filename'] == filename), None)`:
      the first describing record, a record without a "filename" key reached
      before any match (the subscript raises `KeyError`), or no match. */
  datatype Lookup = Found(index: nat) | KeyMissing(index: nat) | NotFound

  /** The catalog walk from position `from` on. */
  function FirstMatch(catalog: seq<Metadata>, filename: string, from: nat): (r: Lookup)
    requires from <= |catalog|
    ensures r.Found? ==> from <= r.index < |catalog| && Describes(catalog[r.index], filename)
    ensures r.KeyMissing? ==> from <= r.index < |catalog| && "filename" !in catalog[r.index]
    ensures forall j :: from <= j < (if r.NotFound? then |catalog| else r.index) ==>
              "filename" in catalog[j] && !Describes(catalog[j], filename)
    decreases |catalog| - from
  {
    if from == |catalog| then NotFound
    else if "filename" !in catalog[from] then KeyMissing(from)
    else if catalog[from]["filename"] == Str(filename) then Found(from)
    else FirstMatch(catalog, filename, from + 1)
  }

  /** `process_single_document`: None for a name that is not a PDF, for a
      name the catalog does not describe (or whose lookup raises), and for a
      file whose text cannot be extracted; otherwise the text paired with the
      first describing record. `pdfText` is the extractor (None when it
      raises). */
  function ProcessSingleDocument(filename: string, catalog: seq<Metadata>,
                                 pdfText: string -> Option<string>): (r: Option<Document>)
    ensures r.Some? <==> EndsWith(filename, ".pdf") && FirstMatch(catalog, filename, 0).Found?
                         && pdfText(filename).Some?
    ensures r.Some? ==> r.value.content == pdfText(filename).value
                        && Describes(r.value.metadata, filename)
                        && exists i :: 0 <= i < |catalog| && catalog[i] == r.value.metadata
                             && forall j :: 0 <= j < i ==> !Describes(catalog[j], filename)
  {
    if !EndsWith(filename, ".pdf") then None
    else
      match FirstMatch(catalog, filename, 0)
      case NotFound => None
      case KeyMissing(_) => None
      case Found(i) =>
        match pdfText(filename)
        case None => None
        case Some(text) => Some(Document(text, catalog[i]))
  }

  /** `[f for f in names if f.endswith('.pdf')]`. */
  function PdfNames(names: seq<string>): (pdfs: seq<string>)
    ensures |pdfs| <= |names|
    ensures forall name :: name in pdfs <==> name in names && EndsWith(name, ".pdf")
  {
    if |names| == 0 then []
    else PdfNames(names[..|names| - 1])
         + (if EndsWith(names[|names| - 1], ".pdf") then [names[|names| - 1]] else [])
  }

  /** `[d for d in results if d is not None]`. */
  function Present<T>(results: seq<Option<T>>): (values: seq<T>)
    ensures |values| <= |results|
    ensures forall i :: 0 <= i < |values| ==> Some(values[i]) in results
    ensures forall j :: 0 <= j < |results| && results[j].Some? ==> results[j].value in values
  {
    if |results| == 0 then []
    else Present(results[..|results| - 1])
         + (if results[|results| - 1].Some? then [results[|results| - 1].value] else [])
  }

  /** `process_documents_parallel`, run sequentially: the PDF names in
      listing order, each processed, the failures dropped. */
  function LoadDocuments(names: seq<string>, catalog: seq<Metadata>,
                         pdfText: string -> Option<string>): (documents: seq<Document>)
    ensures |documents| <= |names|
  {
    Present(ProcessAll(PdfNames(names), catalog, pdfText))
  }

  lemma {:induction false} PdfNamesAppend(a: seq<string>, b: seq<string>)
    ensures PdfNames(a + b) == PdfNames(a) + PdfNames(b)
    decreases |b|
  {
    if |b| == 0 {
      assert a + b == a;
    } else {
      assert (a + b)[..|a + b| - 1] == a + b[..|b| - 1];
      PdfNamesAppend(a, b[..|b| - 1]);
    }
  }

  lemma {:induction false} PresentAppend<T>(a: seq<Option<T>>, b: seq<Option<T>>)
    ensures Present(a + b) == Present(a) + Present(b)
    decreases |b|
  {
    if |b| == 0 {
      assert a + b == a;
    } else {
      assert (a + b)[..|a + b| - 1] == a + b[..|b| - 1];
      PresentAppend(a, b[..|b| - 1]);
    }
  }

  /** Processing every name of a listing, in order. */
  function ProcessAll(names: seq<string>, catalog: seq<Metadata>,
                      pdfText: string -> Option<string>): (r: seq<Option<Document>>)
    ensures |r| == |names|
    ensures forall i :: 0 <= i < |names| ==> r[i] == ProcessSingleDocument(names[i], catalog, pdfText)
  {
    seq(|names|, i requires 0 <= i < |names| => ProcessSingleDocument(names[i], catalog, pdfText))
  }

  /** A document is loaded exactly when some listed name processes to it. */
  lemma LoadDocumentsMembers(names: seq<string>, catalog: seq<Metadata>, pdfText: string -> Option<string>,
                             d: Document)
    ensures d in LoadDocuments(names, catalog, pdfText)
            <==> exists name :: name in names && ProcessSingleDocument(name, catalog, pdfText) == Some(d)
  {
    var pdfs := PdfNames(names);
    var results := ProcessAll(pdfs, catalog, pdfText);
    if d in LoadDocuments(names, catalog, pdfText) {
      assert Some(d) in results;
      var i :| 0 <= i < |results| && results[i] == Some(d);
      assert pdfs[i] in pdfs;
    }
    if exists name :: name in names && ProcessSingleDocument(name, catalog, pdfText) == Some(d) {
      var name :| name in names && ProcessSingleDocument(name, catalog, pdfText) == Some(d);
      assert name in pdfs;
      var i :| 0 <= i < |pdfs| && pdfs[i] == name;
      assert results[i] == Some(d);
    }
  }

  lemma ProcessAllAppend(a: seq<string>, b: seq<string>, catalog: seq<Metadata>, pdfText: string -> Option<string>)
    ensures ProcessAll(a + b, catalog, pdfText) == ProcessAll(a, catalog, pdfText) + ProcessAll(b, catalog, pdfText)
  {
    var whole, left, right := ProcessAll(a + b, catalog, pdfText), ProcessAll(a, catalog, pdfText),
                              ProcessAll(b, catalog, pdfText);
    forall i | 0 <= i < |whole|
      ensures whole[i] == (left + right)[i]
    {
      if i < |a| {
        assert (a + b)[i] == a[i];
        assert whole[i] == left[i];
      } else {
        assert (a + b)[i] == b[i - |a|];
        assert whole[i] == right[i - |a|];
      }
    }
    assert whole == left + right;
  }

  /** Loading a listing is loading its two halves one after the other: the
      output keeps the listing order. */
  lemma LoadDocumentsAppend(a: seq<string>, b: seq<string>, catalog: seq<Metadata>,
                            pdfText: string -> Option<string>)
    ensures LoadDocuments(a + b, catalog, pdfText)
            == LoadDocuments(a, catalog, pdfText) + LoadDocuments(b, catalog, pdfText)
  {
    PdfNamesAppend(a, b);
    var pa, pb := PdfNames(a), PdfNames(b);
    assert LoadDocuments(a, catalog, pdfText) == Present(ProcessAll(pa, catalog, pdfText));
    assert LoadDocuments(b, catalog, pdfText) == Present(ProcessAll(pb, catalog, pdfText));
    assert LoadDocuments(a + b, catalog, pdfText) == Present(ProcessAll(pa + pb, catalog, pdfText));
    ProcessAllAppend(pa, pb, catalog, pdfText);
    PresentAppend(ProcessAll(pa, catalog, pdfText), ProcessAll(pb, catalog, pdfText));
  }

  /** A one-name listing loads to the processed document when there is one
      and to nothing otherwise; with LoadDocumentsAppend this pins down the
      whole result. */
  lemma LoadDocumentsSingle(name: string, catalog: seq<Metadata>, pdfText: string -> Option<string>)
    ensures var d := ProcessSingleDocument(name, catalog, pdfText);
            LoadDocuments([name], catalog, pdfText) == if d.Some? then [d.value] else []
  {
    assert [name][..0] == [];
    assert PdfNames([name]) == PdfNames([]) + (if EndsWith(name, ".pdf") then [name] else []);
    var pdfs := PdfNames([name]);
    var m := ProcessAll(pdfs, catalog, pdfText);
    assert LoadDocuments([name], catalog, pdfText) == Present(m);
    if EndsWith(name, ".pdf") {
      assert pdfs == [name];
      assert m[..0] == [];
    } else {
      assert pdfs == [];
    }
  }

  // ---------------------------------------------------------------------
  // The batched chunking stage
  // ---------------------------------------------------------------------

  /** The chunker of the stage: a document and the number of uuids drawn
      so far give the document's chunks. (The sizes are always valid where
      it is used.) */
  function DocumentChunker(chunkSize: nat, overlap: nat, uuid: nat -> ChunkId): (Document, nat) -> seq<Chunk>
  {
    (doc: Document, draws: nat) =>
      if ValidSizes(chunkSize, overlap) then Chunks(doc.content, doc.metadata, chunkSize, overlap, uuid, draws) else []
  }

  /** How many uuids chunking a document draws. */
  function ChunkCounter(chunkSize: nat): Document -> nat
  {
    (doc: Document) => if chunkSize > 0 then CeilDiv(|doc.content|, chunkSize) else 0
  }

  /** How many uuids chunking the documents in order draws. */
  function TotalChunkCount(documents: seq<Document>, chunkSize: nat): nat
  {
    TotalSize(documents, ChunkCounter(chunkSize))
  }

  /** The chunks of every document, one document after the other, each
      drawing its uuids after those of the documents before it. */
  function AllChunks(documents: seq<Document>, chunkSize: nat, overlap: nat,
                     uuid: nat -> ChunkId, draws: nat): seq<Chunk>
  {
    Concat(documents, DocumentChunker(chunkSize, overlap, uuid), ChunkCounter(chunkSize), draws)
  }

  /** Every chunk of the stage draws one uuid: the stage yields as many
      chunks as it draws uuids. */
  lemma {:induction false} AllChunksCount(documents: seq<Document>, chunkSize: nat, overlap: nat,
                                          uuid: nat -> ChunkId, draws: nat)
    requires ValidSizes(chunkSize, overlap)
    ensures |AllChunks(documents, chunkSize, overlap, uuid, draws)| == TotalChunkCount(documents, chunkSize)
    decreases |documents|
  {
    if |documents| > 0 {
      AllChunksCount(documents[1..], chunkSize, overlap, uuid, draws + CeilDiv(|documents[0].content|, chunkSize));
    }
  }

  /** The i-th chunk of the stage carries the uuid drawn `draws + i`-th, so
      the chunks draw consecutive uuids across document and batch
      boundaries. */
  lemma {:induction false} AllChunksIds(documents: seq<Document>, chunkSize: nat, overlap: nat,
                                        uuid: nat -> ChunkId, draws: nat, i: nat)
    requires ValidSizes(chunkSize, overlap)
    requires i < |AllChunks(documents, chunkSize, overlap, uuid, draws)|
    ensures AllChunks(documents, chunkSize, overlap, uuid, draws)[i].chunkId == uuid(draws + i)
    decreases |documents|
  {
    var first := documents[0];
    var c := CeilDiv(|first.content|, chunkSize);
    var head := Chunks(first.content, first.metadata, chunkSize, overlap, uuid, draws);
    var tail := AllChunks(documents[1..], chunkSize, overlap, uuid, draws + c);
    assert AllChunks(documents, chunkSize, overlap, uuid, draws) == head + tail;
    if i >= c {
      AllChunksIds(documents[1..], chunkSize, overlap, uuid, draws + c, i - c);
    }
  }

  /** Chunking one more document appends its chunks, drawn after the
      earlier documents' uuids. */
  lemma AllChunksStep(documents: seq<Document>, n: nat, chunkSize: nat, overlap: nat,
                      uuid: nat -> ChunkId, draws: nat)
    requires ValidSizes(chunkSize, overlap) && n < |documents|
    ensures var doc, before := documents[n], documents[..n];
            AllChunks(documents[..n + 1], chunkSize, overlap, uuid, draws)
            == AllChunks(before, chunkSize, overlap, uuid, draws)
               + Chunks(doc.content, doc.metadata, chunkSize, overlap, uuid, draws + TotalChunkCount(before, chunkSize))
            && TotalChunkCount(documents[..n + 1], chunkSize)
               == TotalChunkCount(before, chunkSize) + CeilDiv(|doc.content|, chunkSize)
  {
    var doc, before := documents[n], documents[..n];
    var chunker, counter := DocumentChunker(chunkSize, overlap, uuid), ChunkCounter(chunkSize);
    assert documents[..n + 1] == before + [doc];
    ConcatAppend(before, [doc], chunker, counter, draws);
    TotalSizeAppend(before, [doc], counter);
    var d := draws + TotalChunkCount(before, chunkSize);
    assert [doc][1..] == [];
    assert Concat([doc], chunker, counter, d) == chunker(doc, d) + [];
    assert TotalSize([doc], counter) == counter(doc) + 0;
  }

  /** The inner loop over one batch `documents[lo..hi]`: every document is
      chunked with the uuids that follow those already drawn. */
  method ChunkBatch(documents: seq<Document>, lo: nat, hi: nat, chunkSize: nat, overlap: nat,
                    uuid: nat -> ChunkId, draws: nat, totalChunks: seq<Chunk>, drawn: nat)
    returns (totalChunks': seq<Chunk>, drawn': nat)
    requires ValidSizes(chunkSize, overlap) && lo <= hi <= |documents|
    requires totalChunks == AllChunks(documents[..lo], chunkSize, overlap, uuid, draws)
    requires drawn == draws + TotalChunkCount(documents[..lo], chunkSize)
    ensures totalChunks' == AllChunks(documents[..hi], chunkSize, overlap, uuid, draws)
    ensures drawn' == draws + TotalChunkCount(documents[..hi], chunkSize)
  {
    totalChunks', drawn' := totalChunks, drawn;
    for n := lo to hi
      invariant totalChunks' == AllChunks(documents[..n], chunkSize, overlap, uuid, draws)
      invariant drawn' == draws + TotalChunkCount(documents[..n], chunkSize)
    {
      var doc := documents[n];
      var chunks := CreateChunks(doc.content, doc.metadata, chunkSize, overlap, uuid, drawn');
      AllChunksStep(documents, n, chunkSize, overlap, uuid, draws);
      totalChunks' := totalChunks' + chunks;
      drawn' := drawn' + |chunks|;
    }
  }

  /** `process_chunks_in_batches`: documents taken `batchSize` at a time and
      every document chunked in order. A zero batch size makes `range` raise;
      otherwise the result does not depend on the batch size. */
  method ProcessChunksInBatches(documents: seq<Document>, batchSize: nat, chunkSize: nat, overlap: nat,
                                uuid: nat -> ChunkId, draws: nat)
    returns (r: Result<seq<Chunk>>)
    requires ValidSizes(chunkSize, overlap)
    ensures r.Err? <==> batchSize == 0
    ensures r.Ok? ==> r.value == AllChunks(documents, chunkSize, overlap, uuid, draws)
  {
    if batchSize == 0 {
      return Err("range() arg 3 must not be zero");
    }
    var totalChunks := [];
    var drawn := draws;
    var i := 0;
    while i < |documents|
      invariant i <= |documents|
      invariant totalChunks == AllChunks(documents[..i], chunkSize, overlap, uuid, draws)
      invariant drawn == draws + TotalChunkCount(documents[..i], chunkSize)
    {
      var hi := if i + batchSize <= |documents| then i + batchSize else |documents|;
      totalChunks, drawn := ChunkBatch(documents, i, hi, chunkSize, overlap, uuid, draws, totalChunks, drawn);
      i := hi;
    }
    assert documents[..i] == documents;
    return Ok(totalChunks);
  }
}
