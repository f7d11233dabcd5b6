/** The bootstrap service: the existence check against the vector index,
    the conversion of chunks into vectors batch by batch (as written, and
    with the evident intent restored), the batched upsert into the index and
    the run statistics of a bootstrap run. The embedding service, the
    index's failures and the clock are oracles; the index itself is an
    abstract map from chunk identifiers to vectors. */
module Ingestion {
  import opened Common
  import opened Documents

  /** A record of the vector index: the chunk's identifier, its embedding
      and its metadata. */
  datatype Vector = Vector(id: ChunkId, values: Embedding, metadata: Metadata)

  /** The outside world as the conversion sees it: whether `index.fetch`
      raises for an identifier, what the batched embedding call returns
      (None when it raises; one embedding per text when it works as
      documented) and the clock reading stamped into `processed_at`. */
  datatype Oracles = Oracles(fetchFails: ChunkId -> bool,
                             embed: seq<string> -> Option<seq<Embedding>>,
                             now: Value)

  // ---------------------------------------------------------------------
  // Existence check
  // ---------------------------------------------------------------------

  /** What `index.fetch([id])` answers: the stored vector under `id`, if
      any, or the exception. */
  datatype FetchReply = Fetched(vectors: map<ChunkId, Vector>) | FetchFailed

  function Fetch(entries: map<ChunkId, Vector>, id: ChunkId, fails: bool): (reply: FetchReply)
    ensures reply.Fetched? <==> !fails
    ensures reply.Fetched? ==> reply.vectors.Keys <= {id} && (id in reply.vectors <==> id in entries)
    ensures reply.Fetched? && id in reply.vectors ==> reply.vectors[id] == entries[id]
  {
    if fails then FetchFailed
    else Fetched(if id in entries then map[id := entries[id]] else map[])
  }

  /** `check_embedding_status`: true when the fetch answers with vectors; a
      failing fetch counts as "not stored", so the chunk is treated as new. */
  function CheckEmbeddingStatus(entries: map<ChunkId, Vector>, oracles: Oracles, id: ChunkId): (stored: bool)
    ensures stored <==> id in entries && !oracles.fetchFails(id)
  {
    var reply := Fetch(entries, id, oracles.fetchFails(id));
    reply.Fetched? && |reply.vectors| > 0
  }

  // ---------------------------------------------------------------------
  // One batch
  // ---------------------------------------------------------------------

  /** The chunks of a batch that still need an embedding, in batch order. */
  function NewChunks(batch: seq<Chunk>, entries: map<ChunkId, Vector>, oracles: Oracles): (pending: seq<Chunk>)
    ensures |pending| <= |batch|
  {
    if |batch| == 0 then []
    else
      var last := batch[|batch| - 1];
      NewChunks(batch[..|batch| - 1], entries, oracles)
      + (if CheckEmbeddingStatus(entries, oracles, last.chunkId) then [] else [last])
  }

  /** A chunk is pending exactly when it is in the batch and not stored. */
  lemma {:induction false} NewChunksMembers(batch: seq<Chunk>, entries: map<ChunkId, Vector>, oracles: Oracles)
    ensures forall c :: c in NewChunks(batch, entries, oracles) <==>
              c in batch && !CheckEmbeddingStatus(entries, oracles, c.chunkId)
  {
    if |batch| > 0 {
      var init := batch[..|batch| - 1];
      NewChunksMembers(init, entries, oracles);
      assert batch == init + [batch[|batch| - 1]];
    }
  }

  lemma {:induction false} NewChunksAppend(a: seq<Chunk>, b: seq<Chunk>, entries: map<ChunkId, Vector>, oracles: Oracles)
    ensures NewChunks(a + b, entries, oracles) == NewChunks(a, entries, oracles) + NewChunks(b, entries, oracles)
    decreases |b|
  {
    if |b| == 0 {
      assert a + b == a;
    } else {
      assert (a + b)[..|a + b| - 1] == a + b[..|b| - 1];
      NewChunksAppend(a, b[..|b| - 1], entries, oracles);
    }
  }

  /** The vector record of a chunk: its identifier, its embedding, and its
      metadata plus its content and the processing time. */
  function BuildVector(chunk: Chunk, embedding: Embedding, now: Value): (v: Vector)
    ensures v.id == chunk.chunkId && v.values == embedding
    ensures "content" in v.metadata && v.metadata["content"] == Str(chunk.content)
    ensures "processed_at" in v.metadata && v.metadata["processed_at"] == now
    ensures forall key :: key != "content" && key != "processed_at" ==>
              (key in v.metadata <==> key in chunk.metadata) &&
              (key in chunk.metadata ==> v.metadata[key] == chunk.metadata[key])
  {
    Vector(chunk.chunkId, embedding, chunk.metadata["content" := Str(chunk.content)]["processed_at" := now])
  }

  /** `zip(new_chunks, embeddings)` turned into vector records: pairs by
      position, as long as the shorter list. */
  function Zip(pending: seq<Chunk>, embeddings: seq<Embedding>, now: Value): (vs: seq<Vector>)
    ensures |vs| == if |pending| <= |embeddings| then |pending| else |embeddings|
    ensures forall i :: 0 <= i < |vs| ==> vs[i] == BuildVector(pending[i], embeddings[i], now)
  {
    var n := if |pending| <= |embeddings| then |pending| else |embeddings|;
    seq(n, i requires 0 <= i < n => BuildVector(pending[i], embeddings[i], now))
  }

  /** What a batch contributes when every paired chunk becomes a vector:
      nothing when no chunk is new or when the embedding call raises. */
  function BatchVectors(batch: seq<Chunk>, entries: map<ChunkId, Vector>, oracles: Oracles): (vs: seq<Vector>)
    ensures |vs| <= |NewChunks(batch, entries, oracles)| <= |batch|
  {
    var pending := NewChunks(batch, entries, oracles);
    if |pending| == 0 then []
    else match oracles.embed(Contents(pending))
         case None => []
         case Some(embeddings) => Zip(pending, embeddings, oracles.now)
  }

  /** The new chunks of a batch and their texts, gathered one chunk at a
      time (the first loop over the batch). */
  method SelectNewChunks(batch: seq<Chunk>, entries: map<ChunkId, Vector>, oracles: Oracles)
    returns (newChunks: seq<Chunk>, newTexts: seq<string>)
    ensures newChunks == NewChunks(batch, entries, oracles)
    ensures newTexts == Contents(newChunks)
  {
    newChunks, newTexts := [], [];
    for j := 0 to |batch|
      invariant newChunks == NewChunks(batch[..j], entries, oracles)
      invariant newTexts == Contents(newChunks)
    {
      var chunk := batch[j];
      assert batch[..j + 1][..j] == batch[..j];
      if !CheckEmbeddingStatus(entries, oracles, chunk.chunkId) {
        newChunks := newChunks + [chunk];
        newTexts := newTexts + [chunk.content];
      }
    }
    assert batch[..|batch|] == batch;
  }

  // ---------------------------------------------------------------------
  // The conversion with the evident intent: one vector per embedded chunk
  // ---------------------------------------------------------------------

  /** The vectors collected after `acc` once the remaining `chunks` are
      converted, `batchSize` at a time. */
  function IntendedFrom(acc: seq<Vector>, chunks: seq<Chunk>, batchSize: nat, entries: map<ChunkId, Vector>,
                        oracles: Oracles): seq<Vector>
    requires batchSize > 0
    decreases |chunks|
  {
    if |chunks| == 0 then acc
    else
      var k := FirstBatch(|chunks|, batchSize);
      IntendedFrom(acc + BatchVectors(chunks[..k], entries, oracles), chunks[k..], batchSize, entries, oracles)
  }

  /** The vectors the conversion returns with the evident intent. */
  function IntendedVectors(chunks: seq<Chunk>, batchSize: nat, entries: map<ChunkId, Vector>,
                           oracles: Oracles): seq<Vector>
    requires batchSize > 0
  {
    IntendedFrom([], chunks, batchSize, entries, oracles)
  }

  /** The conversion only appends: the vectors collected so far stay in
      front, and each chunk yields at most one vector. */
  lemma {:induction false} IntendedFromExtends(acc: seq<Vector>, chunks: seq<Chunk>, batchSize: nat,
                                               entries: map<ChunkId, Vector>, oracles: Oracles)
    requires batchSize > 0
    ensures var vectors := IntendedFrom(acc, chunks, batchSize, entries, oracles);
            acc <= vectors && |vectors| <= |acc| + |chunks|
    decreases |chunks|
  {
    if |chunks| > 0 {
      var k := FirstBatch(|chunks|, batchSize);
      var next := acc + BatchVectors(chunks[..k], entries, oracles);
      IntendedFromExtends(next, chunks[k..], batchSize, entries, oracles);
    }
  }

  /** The loop's step: the batch at i adds its vectors before the batches
      after it are converted. */
  lemma IntendedStep(acc: seq<Vector>, chunks: seq<Chunk>, i: nat, hi: nat, batchSize: nat,
                     entries: map<ChunkId, Vector>, oracles: Oracles)
    requires batchSize > 0 && i < |chunks| && hi == if i + batchSize <= |chunks| then i + batchSize else |chunks|
    ensures IntendedFrom(acc, chunks[i..], batchSize, entries, oracles)
            == IntendedFrom(acc + BatchVectors(chunks[i..hi], entries, oracles), chunks[hi..], batchSize, entries, oracles)
  {
    var rest := chunks[i..];
    BatchSplit(chunks, i, hi, batchSize);
    var k := hi - i;
    assert IntendedFrom(acc, rest, batchSize, entries, oracles)
           == IntendedFrom(acc + BatchVectors(rest[..k], entries, oracles), rest[k..], batchSize, entries, oracles);
  }

  /** One batch with the evident intent: select the new chunks, embed
      their texts in one call, and build a vector for every pair. */
  method ConvertBatch(batch: seq<Chunk>, entries: map<ChunkId, Vector>, oracles: Oracles)
    returns (batchVectors: seq<Vector>)
    ensures batchVectors == BatchVectors(batch, entries, oracles)
  {
    batchVectors := [];
    var newChunks, newTexts := SelectNewChunks(batch, entries, oracles);
    if |newChunks| > 0 {
      var reply := oracles.embed(newTexts);
      if reply.Some? {
        var embeddings := reply.value;
        var pairs := if |newChunks| <= |embeddings| then |newChunks| else |embeddings|;
        for j := 0 to pairs
          invariant batchVectors == Zip(newChunks, embeddings, oracles.now)[..j]
        {
          var vector := BuildVector(newChunks[j], embeddings[j], oracles.now);
          batchVectors := batchVectors + [vector];
        }
      }
    }
  }

  /** `process_chunks_to_vectors` with the `vectors.append` inside the zip
      loop, so that every new chunk paired with an embedding yields its
      vector. A zero batch size makes `range` raise. */
  method ProcessChunksToVectors(chunks: seq<Chunk>, batchSize: nat, entries: map<ChunkId, Vector>,
                                oracles: Oracles)
    returns (r: Result<seq<Vector>>)
    ensures r.Err? <==> batchSize == 0
    ensures r.Ok? ==> r.value == IntendedVectors(chunks, batchSize, entries, oracles)
  {
    if batchSize == 0 {
      return Err("range() arg 3 must not be zero");
    }
    var vectors := [];
    var i := 0;
    while i < |chunks|
      invariant i <= |chunks|
      invariant IntendedFrom(vectors, chunks[i..], batchSize, entries, oracles)
                == IntendedVectors(chunks, batchSize, entries, oracles)
    {
      var hi := if i + batchSize <= |chunks| then i + batchSize else |chunks|;
      var batchVectors := ConvertBatch(chunks[i..hi], entries, oracles);
      IntendedStep(vectors, chunks, i, hi, batchSize, entries, oracles);
      vectors := vectors + batchVectors;
      i := hi;
    }
    assert chunks[i..] == [];
    return Ok(vectors);
  }

  /** The identifiers of a list of chunks, in order. */
  function ChunkIds(chunks: seq<Chunk>): (ids: seq<ChunkId>)
    ensures |ids| == |chunks| && forall i :: 0 <= i < |chunks| ==> ids[i] == chunks[i].chunkId
  {
    seq(|chunks|, i requires 0 <= i < |chunks| => chunks[i].chunkId)
  }

  /** The identifiers of a list of vectors, in order. */
  function VectorIds(vectors: seq<Vector>): (ids: seq<ChunkId>)
    ensures |ids| == |vectors| && forall i :: 0 <= i < |vectors| ==> ids[i] == vectors[i].id
  {
    seq(|vectors|, i requires 0 <= i < |vectors| => vectors[i].id)
  }

  lemma IdsAppend(a: seq<Vector>, b: seq<Vector>, c: seq<Chunk>, d: seq<Chunk>)
    ensures VectorIds(a + b) == VectorIds(a) + VectorIds(b)
    ensures ChunkIds(c + d) == ChunkIds(c) + ChunkIds(d)
  {
  }

  /** With a faithful embedding service a batch yields one vector per new
      chunk, in order. */
  lemma BatchCoversNewChunks(batch: seq<Chunk>, entries: map<ChunkId, Vector>, oracles: Oracles)
    requires forall texts :: oracles.embed(texts).Some? && |oracles.embed(texts).value| == |texts|
    ensures VectorIds(BatchVectors(batch, entries, oracles)) == ChunkIds(NewChunks(batch, entries, oracles))
  {
    var pending := NewChunks(batch, entries, oracles);
    if |pending| > 0 {
      assert |oracles.embed(Contents(pending)).value| == |pending|;
    }
  }

  /** With a faithful embedding service, the conversion yields exactly one
      vector per chunk not yet in the index, in chunk order, each carrying
      that chunk's identifier, whatever the batch size. */
  lemma {:induction false} IntendedCoversNewChunks(acc: seq<Vector>, chunks: seq<Chunk>, batchSize: nat,
                                                   entries: map<ChunkId, Vector>, oracles: Oracles)
    requires batchSize > 0
    requires forall texts :: oracles.embed(texts).Some? && |oracles.embed(texts).value| == |texts|
    ensures VectorIds(IntendedFrom(acc, chunks, batchSize, entries, oracles))
            == VectorIds(acc) + ChunkIds(NewChunks(chunks, entries, oracles))
  {
    IntendedIdsPerBatch(acc, chunks, batchSize, entries, oracles);
    EmbeddedCoversNewChunks(chunks, batchSize, entries, oracles);
  }

  /** With a faithful embedding service every batch embeds all its new
      chunks, so the embedded identifiers are those of all new chunks. */
  lemma {:induction false} EmbeddedCoversNewChunks(chunks: seq<Chunk>, batchSize: nat,
                                                   entries: map<ChunkId, Vector>, oracles: Oracles)
    requires batchSize > 0
    requires forall texts :: oracles.embed(texts).Some? && |oracles.embed(texts).value| == |texts|
    ensures EmbeddedFrom(chunks, batchSize, entries, oracles) == ChunkIds(NewChunks(chunks, entries, oracles))
    decreases |chunks|
  {
    if |chunks| == 0 {
      assert ChunkIds([]) == [];
    } else {
      var k := FirstBatch(|chunks|, batchSize);
      var batch, rest := chunks[..k], chunks[k..];
      var newInBatch, newInRest := NewChunks(batch, entries, oracles), NewChunks(rest, entries, oracles);
      EmbeddedCoversNewChunks(rest, batchSize, entries, oracles);
      assert |oracles.embed(Contents(newInBatch)).value| == |newInBatch|;
      AnsweredBatchEmbedsAll(batch, entries, oracles);
      assert chunks == batch + rest;
      NewChunksAppend(batch, rest, entries, oracles);
      IdsAppend([], [], newInBatch, newInRest);
    }
  }

  /** Whatever the services answer, every vector of a batch belongs to a
      chunk of that batch that was not in the index. */
  lemma BatchVectorsFromNewChunks(batch: seq<Chunk>, entries: map<ChunkId, Vector>, oracles: Oracles)
    ensures forall v :: v in BatchVectors(batch, entries, oracles) ==>
              exists c :: c in batch && c.chunkId == v.id && !CheckEmbeddingStatus(entries, oracles, c.chunkId)
  {
    var pending := NewChunks(batch, entries, oracles);
    NewChunksMembers(batch, entries, oracles);
    forall v | v in BatchVectors(batch, entries, oracles)
      ensures exists c :: c in batch && c.chunkId == v.id && !CheckEmbeddingStatus(entries, oracles, c.chunkId)
    {
      var vs := BatchVectors(batch, entries, oracles);
      var i :| 0 <= i < |vs| && vs[i] == v;
      assert pending[i] in pending;
    }
  }

  /** No stored chunk is ever embedded: every vector the conversion adds
      carries the identifier of a chunk that was not in the index. */
  lemma {:induction false} IntendedSkipsStored(acc: seq<Vector>, chunks: seq<Chunk>, batchSize: nat,
                                               entries: map<ChunkId, Vector>, oracles: Oracles)
    requires batchSize > 0
    ensures forall v :: v in IntendedFrom(acc, chunks, batchSize, entries, oracles) ==>
              v in acc || !CheckEmbeddingStatus(entries, oracles, v.id)
    decreases |chunks|
  {
    if |chunks| > 0 {
      var k := FirstBatch(|chunks|, batchSize);
      var batchVectors := BatchVectors(chunks[..k], entries, oracles);
      IntendedSkipsStored(acc + batchVectors, chunks[k..], batchSize, entries, oracles);
      BatchVectorsFromNewChunks(chunks[..k], entries, oracles);
    }
  }

  /** A batch whose embedding call raises adds nothing, and the batches
      after it are still converted (the handler logs and continues). */
  lemma FailedBatchAddsNothing(acc: seq<Vector>, chunks: seq<Chunk>, i: nat, hi: nat, batchSize: nat,
                               entries: map<ChunkId, Vector>, oracles: Oracles)
    requires batchSize > 0 && i < |chunks| && hi == if i + batchSize <= |chunks| then i + batchSize else |chunks|
    requires oracles.embed(Contents(NewChunks(chunks[i..hi], entries, oracles))).None?
    ensures IntendedFrom(acc, chunks[i..], batchSize, entries, oracles)
            == IntendedFrom(acc, chunks[hi..], batchSize, entries, oracles)
  {
    IntendedStep(acc, chunks, i, hi, batchSize, entries, oracles);
    assert acc + [] == acc;
  }

  /** The identifiers of the new chunks of a batch that receive an
      embedding: those `zip` pairs with an answer, in batch order, and none
      when the embedding call raises. */
  function EmbeddedIds(batch: seq<Chunk>, entries: map<ChunkId, Vector>, oracles: Oracles): (ids: seq<ChunkId>)
    ensures |ids| <= |NewChunks(batch, entries, oracles)|
  {
    var pending := NewChunks(batch, entries, oracles);
    if |pending| == 0 then []
    else match oracles.embed(Contents(pending))
         case None => []
         case Some(embeddings) =>
           ChunkIds(pending[..if |pending| <= |embeddings| then |pending| else |embeddings|])
  }

  /** A batch whose call answers one embedding per text embeds all its
      new chunks. */
  lemma AnsweredBatchEmbedsAll(batch: seq<Chunk>, entries: map<ChunkId, Vector>, oracles: Oracles)
    requires var pending := NewChunks(batch, entries, oracles);
             oracles.embed(Contents(pending)).Some? && |oracles.embed(Contents(pending)).value| == |pending|
    ensures EmbeddedIds(batch, entries, oracles) == ChunkIds(NewChunks(batch, entries, oracles))
  {
    var pending := NewChunks(batch, entries, oracles);
    assert pending[..|pending|] == pending;
  }

  /** The embedded identifiers of every batch, batch after batch. */
  function EmbeddedFrom(chunks: seq<Chunk>, batchSize: nat, entries: map<ChunkId, Vector>,
                        oracles: Oracles): seq<ChunkId>
    requires batchSize > 0
    decreases |chunks|
  {
    if |chunks| == 0 then []
    else
      var k := FirstBatch(|chunks|, batchSize);
      EmbeddedIds(chunks[..k], entries, oracles) + EmbeddedFrom(chunks[k..], batchSize, entries, oracles)
  }

  /** A batch yields one vector per new chunk that receives an embedding,
      in order, whatever the embedding service answers. */
  lemma BatchEmbeddedIds(batch: seq<Chunk>, entries: map<ChunkId, Vector>, oracles: Oracles)
    ensures VectorIds(BatchVectors(batch, entries, oracles)) == EmbeddedIds(batch, entries, oracles)
  {
  }

  /** Whatever the embedding service answers, batch by batch, the
      conversion yields one vector for each new chunk that received an
      embedding, in chunk order: a batch whose call raises contributes
      nothing and the later batches still contribute theirs. */
  lemma {:induction false} IntendedIdsPerBatch(acc: seq<Vector>, chunks: seq<Chunk>, batchSize: nat,
                                               entries: map<ChunkId, Vector>, oracles: Oracles)
    requires batchSize > 0
    ensures VectorIds(IntendedFrom(acc, chunks, batchSize, entries, oracles))
            == VectorIds(acc) + EmbeddedFrom(chunks, batchSize, entries, oracles)
    decreases |chunks|
  {
    if |chunks| == 0 {
      assert VectorIds(acc) + [] == VectorIds(acc);
    } else {
      var k := FirstBatch(|chunks|, batchSize);
      var batch, rest := chunks[..k], chunks[k..];
      var batchVectors := BatchVectors(batch, entries, oracles);
      IntendedIdsPerBatch(acc + batchVectors, rest, batchSize, entries, oracles);
      assert VectorIds(acc + batchVectors) == VectorIds(acc) + EmbeddedIds(batch, entries, oracles) by {
        IdsAppend(acc, batchVectors, [], []);
        BatchEmbeddedIds(batch, entries, oracles);
      }
      Regroup(VectorIds(IntendedFrom(acc, chunks, batchSize, entries, oracles)), VectorIds(acc + batchVectors),
              VectorIds(acc), EmbeddedIds(batch, entries, oracles), EmbeddedFrom(rest, batchSize, entries, oracles),
              EmbeddedFrom(chunks, batchSize, entries, oracles));
    }
  }

  // ---------------------------------------------------------------------
  // The conversion as written: `vectors.append(vector)` after the zip loop
  // ---------------------------------------------------------------------

  /** The conversion's state between batches: the vectors collected and the
      Python variable `vector`, which outlives the batch that bound it. */
  datatype Progress = Progress(vectors: seq<Vector>, vector: Option<Vector>)

  /** One batch as written: the zip loop rebinds `vector` for every pair,
      and only the value it holds afterwards is appended. With no pair
      `vector` keeps its value from an earlier batch, and appending an
      unbound `vector` raises, which the batch's handler swallows. */
  function StepAsWritten(p: Progress, batch: seq<Chunk>, entries: map<ChunkId, Vector>, oracles: Oracles): Progress
  {
    var pending := NewChunks(batch, entries, oracles);
    if |pending| == 0 then p
    else match oracles.embed(Contents(pending))
         case None => p
         case Some(embeddings) => AppendLastPaired(p, pending, embeddings, oracles.now)
  }

  /** After the zip loop: `vector` holds the last pair's record, or its
      earlier value when there was no pair, and is appended when bound. */
  function AppendLastPaired(p: Progress, pending: seq<Chunk>, embeddings: seq<Embedding>, now: Value): Progress
  {
    var pairs := Zip(pending, embeddings, now);
    var vector := if |pairs| > 0 then Some(pairs[|pairs| - 1]) else p.vector;
    if vector.None? then p else Progress(p.vectors + [vector.value], vector)
  }

  /** The state after the remaining `chunks` are processed from state `p`. */
  function AsWrittenFrom(p: Progress, chunks: seq<Chunk>, batchSize: nat, entries: map<ChunkId, Vector>,
                         oracles: Oracles): Progress
    requires batchSize > 0
    decreases |chunks|
  {
    if |chunks| == 0 then p
    else
      var k := FirstBatch(|chunks|, batchSize);
      AsWrittenFrom(StepAsWritten(p, chunks[..k], entries, oracles), chunks[k..], batchSize, entries, oracles)
  }

  /** The vectors the conversion returns as written. */
  function AsWrittenVectors(chunks: seq<Chunk>, batchSize: nat, entries: map<ChunkId, Vector>,
                            oracles: Oracles): seq<Vector>
    requires batchSize > 0
  {
    AsWrittenFrom(Progress([], None), chunks, batchSize, entries, oracles).vectors
  }

  /** As written, the vectors collected so far are kept, and while
      `vector` stays unbound nothing is appended. */
  lemma {:induction false} AsWrittenFromExtends(p: Progress, chunks: seq<Chunk>, batchSize: nat,
                                                entries: map<ChunkId, Vector>, oracles: Oracles)
    requires batchSize > 0
    ensures var q := AsWrittenFrom(p, chunks, batchSize, entries, oracles);
            p.vectors <= q.vectors && (q.vector.None? ==> q == p)
    decreases |chunks|
  {
    if |chunks| > 0 {
      var k := FirstBatch(|chunks|, batchSize);
      AsWrittenFromExtends(StepAsWritten(p, chunks[..k], entries, oracles), chunks[k..], batchSize, entries, oracles);
    }
  }

  /** The loop's step: the batch at i moves the state on before the
      batches after it. */
  lemma AsWrittenStep(p: Progress, chunks: seq<Chunk>, i: nat, hi: nat, batchSize: nat,
                      entries: map<ChunkId, Vector>, oracles: Oracles)
    requires batchSize > 0 && i < |chunks| && hi == if i + batchSize <= |chunks| then i + batchSize else |chunks|
    ensures AsWrittenFrom(p, chunks[i..], batchSize, entries, oracles)
            == AsWrittenFrom(StepAsWritten(p, chunks[i..hi], entries, oracles), chunks[hi..], batchSize, entries, oracles)
  {
    var rest := chunks[i..];
    BatchSplit(chunks, i, hi, batchSize);
    var k := hi - i;
    assert AsWrittenFrom(p, rest, batchSize, entries, oracles)
           == AsWrittenFrom(StepAsWritten(p, rest[..k], entries, oracles), rest[k..], batchSize, entries, oracles);
  }

  /** One batch as written: the zip loop rebinds `vector` for every pair,
      and the append after the loop adds whatever `vector` then holds. */
  method ConvertBatchAsWritten(batch: seq<Chunk>, entries: map<ChunkId, Vector>, oracles: Oracles,
                               vectors: seq<Vector>, vector: Option<Vector>)
    returns (vectors': seq<Vector>, vector': Option<Vector>)
    ensures Progress(vectors', vector') == StepAsWritten(Progress(vectors, vector), batch, entries, oracles)
  {
    vectors', vector' := vectors, vector;
    var newChunks, newTexts := SelectNewChunks(batch, entries, oracles);
    if |newChunks| > 0 {
      var reply := oracles.embed(newTexts);
      if reply.Some? {
        vectors', vector' := ZipAndAppendLast(newChunks, reply.value, oracles.now, vectors, vector);
      }
    }
  }

  /** The zip loop as written, which rebinds `vector` for every pair, and
      the single append after it. */
  method ZipAndAppendLast(newChunks: seq<Chunk>, embeddings: seq<Embedding>, now: Value,
                          vectors: seq<Vector>, vector: Option<Vector>)
    returns (vectors': seq<Vector>, vector': Option<Vector>)
    ensures Progress(vectors', vector') == AppendLastPaired(Progress(vectors, vector), newChunks, embeddings, now)
  {
    vectors', vector' := vectors, vector;
    var pairs := if |newChunks| <= |embeddings| then |newChunks| else |embeddings|;
    for j := 0 to pairs
      invariant vector' == if j == 0 then vector else Some(BuildVector(newChunks[j - 1], embeddings[j - 1], now))
    {
      vector' := Some(BuildVector(newChunks[j], embeddings[j], now));
    }
    ghost var zipped := Zip(newChunks, embeddings, now);
    assert vector' == if |zipped| > 0 then Some(zipped[|zipped| - 1]) else vector;
    if vector'.Some? {
      vectors' := vectors' + [vector'.value];
    }
  }

  /** `process_chunks_to_vectors` exactly as written (bootstrap_service.py
      lines 57-103, with the existence check made against the index and the
      text taken from the chunk's content). */
  method ProcessChunksToVectorsAsWritten(chunks: seq<Chunk>, batchSize: nat, entries: map<ChunkId, Vector>,
                                         oracles: Oracles)
    returns (r: Result<seq<Vector>>)
    ensures r.Err? <==> batchSize == 0
    ensures r.Ok? ==> r.value == AsWrittenVectors(chunks, batchSize, entries, oracles)
  {
    if batchSize == 0 {
      return Err("range() arg 3 must not be zero");
    }
    var vectors := [];
    var vector: Option<Vector> := None;
    var i := 0;
    while i < |chunks|
      invariant i <= |chunks|
      invariant AsWrittenFrom(Progress(vectors, vector), chunks[i..], batchSize, entries, oracles)
                == AsWrittenFrom(Progress([], None), chunks, batchSize, entries, oracles)
    {
      var hi := if i + batchSize <= |chunks| then i + batchSize else |chunks|;
      AsWrittenStep(Progress(vectors, vector), chunks, i, hi, batchSize, entries, oracles);
      vectors, vector := ConvertBatchAsWritten(chunks[i..hi], entries, oracles, vectors, vector);
      i := hi;
    }
    assert chunks[i..] == [];
    return Ok(vectors);
  }

  /** As written, a batch whose embedding call raises leaves the state,
      `vector` included, as it was, and the batches after it still run. */
  lemma FailedBatchKeepsProgress(p: Progress, chunks: seq<Chunk>, i: nat, hi: nat, batchSize: nat,
                                 entries: map<ChunkId, Vector>, oracles: Oracles)
    requires batchSize > 0 && i < |chunks| && hi == if i + batchSize <= |chunks| then i + batchSize else |chunks|
    requires oracles.embed(Contents(NewChunks(chunks[i..hi], entries, oracles))).None?
    ensures AsWrittenFrom(p, chunks[i..], batchSize, entries, oracles)
            == AsWrittenFrom(p, chunks[hi..], batchSize, entries, oracles)
  {
    AsWrittenStep(p, chunks, i, hi, batchSize, entries, oracles);
  }

  /** As written, a batch adds at most one vector, so a run yields no more
      vectors than it has batches. */
  lemma {:induction false} AsWrittenAtMostOnePerBatch(p: Progress, chunks: seq<Chunk>, batchSize: nat,
                                                      entries: map<ChunkId, Vector>, oracles: Oracles)
    requires batchSize > 0
    ensures |AsWrittenFrom(p, chunks, batchSize, entries, oracles).vectors|
            <= |p.vectors| + CeilDiv(|chunks|, batchSize)
    decreases |chunks|
  {
    if |chunks| > 0 {
      var k := FirstBatch(|chunks|, batchSize);
      var q := StepAsWritten(p, chunks[..k], entries, oracles);
      StepAppendsAtMostOne(p, chunks[..k], entries, oracles);
      AsWrittenAtMostOnePerBatch(q, chunks[k..], batchSize, entries, oracles);
      CeilDivFirstBatch(|chunks|, batchSize);
      assert |chunks[k..]| == |chunks| - k;
    }
  }

  /** A batch as written appends at most one vector. */
  lemma StepAppendsAtMostOne(p: Progress, batch: seq<Chunk>, entries: map<ChunkId, Vector>, oracles: Oracles)
    ensures |StepAsWritten(p, batch, entries, oracles).vectors| <= |p.vectors| + 1
  {
  }

  /** Even as written, no chunk that is already in the index gives a vector
      (a stale `vector` also came from a new chunk). */
  lemma {:induction false} AsWrittenSkipsStored(p: Progress, chunks: seq<Chunk>, batchSize: nat,
                                                entries: map<ChunkId, Vector>, oracles: Oracles)
    requires batchSize > 0
    requires p.vector.Some? ==> !CheckEmbeddingStatus(entries, oracles, p.vector.value.id)
    requires forall v :: v in p.vectors ==> !CheckEmbeddingStatus(entries, oracles, v.id)
    ensures var q := AsWrittenFrom(p, chunks, batchSize, entries, oracles);
            (q.vector.Some? ==> !CheckEmbeddingStatus(entries, oracles, q.vector.value.id)) &&
            forall v :: v in q.vectors ==> !CheckEmbeddingStatus(entries, oracles, v.id)
    decreases |chunks|
  {
    if |chunks| > 0 {
      var k := FirstBatch(|chunks|, batchSize);
      StepKeepsUnstored(p, chunks[..k], entries, oracles);
      AsWrittenSkipsStored(StepAsWritten(p, chunks[..k], entries, oracles), chunks[k..], batchSize, entries, oracles);
    }
  }

  /** One batch as written keeps every collected vector, and `vector`,
      free of stored chunks. */
  lemma StepKeepsUnstored(p: Progress, batch: seq<Chunk>, entries: map<ChunkId, Vector>, oracles: Oracles)
    requires p.vector.Some? ==> !CheckEmbeddingStatus(entries, oracles, p.vector.value.id)
    requires forall v :: v in p.vectors ==> !CheckEmbeddingStatus(entries, oracles, v.id)
    ensures var q := StepAsWritten(p, batch, entries, oracles);
            (q.vector.Some? ==> !CheckEmbeddingStatus(entries, oracles, q.vector.value.id)) &&
            forall v :: v in q.vectors ==> !CheckEmbeddingStatus(entries, oracles, v.id)
  {
    var pending := NewChunks(batch, entries, oracles);
    NewChunksMembers(batch, entries, oracles);
    if |pending| > 0 && oracles.embed(Contents(pending)).Some? {
      var pairs := Zip(pending, oracles.embed(Contents(pending)).value, oracles.now);
      if |pairs| > 0 {
        assert pending[|pairs| - 1] in pending;
      }
    }
  }

  /** An index whose fetches never fail. */
  function NeverFails(id: ChunkId): bool
  {
    false
  }

  /** An embedding service that answers one one-dimensional embedding per
      text, as the real one answers one embedding per text. */
  function OnePerText(texts: seq<string>): Option<seq<Embedding>>
  {
    Some(seq(|texts|, _ => [0.0]))
  }

  /** The defect on a concrete input: one batch holding two new chunks, and
      an embedding service that answers one embedding per text. As written
      the run yields one vector (the second chunk's), the intended
      conversion two. */
  lemma AsWrittenDropsVectors()
    ensures var c0, c1 := Chunk("a", "x", map[]), Chunk("b", "y", map[]);
            var oracles := Oracles(NeverFails, OnePerText, Int(0));
            && |AsWrittenVectors([c0, c1], 2, map[], oracles)| == 1
            && |IntendedVectors([c0, c1], 2, map[], oracles)| == 2
  {
    var c0, c1 := Chunk("a", "x", map[]), Chunk("b", "y", map[]);
    var oracles := Oracles(NeverFails, OnePerText, Int(0));
    var chunks := [c0, c1];
    assert !CheckEmbeddingStatus(map[], oracles, c0.chunkId);
    assert !CheckEmbeddingStatus(map[], oracles, c1.chunkId);
    assert chunks[..1] == [c0] && [c0][..0] == [];
    assert NewChunks([c0], map[], oracles) == [c0];
    assert NewChunks(chunks, map[], oracles) == chunks;
    var embeddings := OnePerText(Contents(chunks)).value;
    assert |embeddings| == 2;
    var pairs := Zip(chunks, embeddings, Int(0));
    assert |pairs| == 2;
    assert chunks[..2] == chunks && chunks[2..] == [];
    var step := StepAsWritten(Progress([], None), chunks, map[], oracles);
    assert step == Progress([pairs[1]], Some(pairs[1]));
    assert AsWrittenFrom(Progress([], None), chunks, 2, map[], oracles) == step;
    assert BatchVectors(chunks, map[], oracles) == pairs;
    assert IntendedVectors(chunks, 2, map[], oracles) == IntendedFrom([] + pairs, [], 2, map[], oracles);
  }

  // ---------------------------------------------------------------------
  // The vector index and the upsert
  // ---------------------------------------------------------------------

  /** The index content after upserting `vectors` into an empty index, one
      after the other: a later vector with the same identifier wins. */
  function VectorsToMap(vectors: seq<Vector>): map<ChunkId, Vector>
  {
    if |vectors| == 0 then map[]
    else VectorsToMap(vectors[..|vectors| - 1])[vectors[|vectors| - 1].id := vectors[|vectors| - 1]]
  }

  /** Upserting in two batches is upserting everything at once. */
  lemma {:induction false} VectorsToMapAppend(a: seq<Vector>, b: seq<Vector>)
    ensures VectorsToMap(a + b) == VectorsToMap(a) + VectorsToMap(b)
    decreases |b|
  {
    if |b| == 0 {
      assert a + b == a;
    } else {
      assert (a + b)[..|a + b| - 1] == a + b[..|b| - 1];
      VectorsToMapAppend(a, b[..|b| - 1]);
    }
  }

  /** Every upserted vector's identifier is in the index. */
  lemma {:induction false} VectorsToMapKeys(vectors: seq<Vector>)
    ensures forall i :: 0 <= i < |vectors| ==> vectors[i].id in VectorsToMap(vectors)
  {
    if |vectors| > 0 {
      VectorsToMapKeys(vectors[..|vectors| - 1]);
    }
  }

  /** Every entry of the index is one of the upserted vectors, under its
      own identifier. */
  lemma {:induction false} VectorsToMapValues(vectors: seq<Vector>)
    ensures forall id :: id in VectorsToMap(vectors) ==>
              VectorsToMap(vectors)[id] in vectors && VectorsToMap(vectors)[id].id == id
  {
    if |vectors| > 0 {
      VectorsToMapValues(vectors[..|vectors| - 1]);
    }
  }

  /** A vector whose identifier does not occur later in the list is the
      one stored under that identifier. */
  lemma {:induction false} VectorsToMapLastWins(vectors: seq<Vector>, i: nat)
    requires i < |vectors|
    requires forall j :: i < j < |vectors| ==> vectors[j].id != vectors[i].id
    ensures vectors[i].id in VectorsToMap(vectors) && VectorsToMap(vectors)[vectors[i].id] == vectors[i]
  {
    if i < |vectors| - 1 {
      VectorsToMapLastWins(vectors[..|vectors| - 1], i);
    }
  }

  /** The vector index (a Pinecone index), as the map it stores. */
  class VectorIndex {
    var entries: map<ChunkId, Vector>

    constructor (entries: map<ChunkId, Vector>)
      ensures this.entries == entries
    {
      this.entries := entries;
    }

    /** `upsert_vectors_batch`: nothing to do and False for an empty list;
        otherwise the store's upsert, True when it is accepted, and the
        store's error re-raised (index untouched) when it is not. */
    method UpsertVectorsBatch(vectors: seq<Vector>, accepted: bool) returns (r: Result<bool>)
      modifies this
      ensures |vectors| == 0 ==> r == Ok(false) && entries == old(entries)
      ensures |vectors| > 0 && accepted ==> r == Ok(true) && entries == old(entries) + VectorsToMap(vectors)
      ensures |vectors| > 0 && !accepted ==> r.Err? && entries == old(entries)
    {
      if |vectors| == 0 {
        return Ok(false);
      }
      if !accepted {
        return Err("upsert failed");
      }
      entries := entries + VectorsToMap(vectors);
      return Ok(true);
    }
  }

  // ---------------------------------------------------------------------
  // A bootstrap run
  // ---------------------------------------------------------------------

  /** The `stats` dictionary of a run. */
  datatype Stats = Stats(chunksProcessed: nat, newVectorsCreated: nat, batchesProcessed: nat)

  /** The chunks a run produces from the listing, the catalog and the PDF text. */
  function RunChunks(names: seq<string>, catalog: seq<Metadata>, pdfText: string -> Option<string>,
                     chunkSize: nat, overlap: nat, uuid: nat -> ChunkId): seq<Chunk>
    requires ValidSizes(chunkSize, overlap)
  {
    AllChunks(LoadDocuments(names, catalog, pdfText), chunkSize, overlap, uuid, 0)
  }

  /** The outcome of upserting `vectors` `batchSize` at a time into an
      index holding `entries`, numbering batches from `b`: the index
      content, the number of batches upserted, and whether a batch was
      rejected (which aborts the remaining ones). */
  datatype UpsertOutcome = UpsertOutcome(entries: map<ChunkId, Vector>, batches: nat, rejected: bool)

  function UpsertFrom(entries: map<ChunkId, Vector>, vectors: seq<Vector>, batchSize: nat,
                      upsertAccepted: nat -> bool, b: nat): UpsertOutcome
    requires batchSize > 0
    decreases |vectors|
  {
    if |vectors| == 0 then UpsertOutcome(entries, b, false)
    else if !upsertAccepted(b) then UpsertOutcome(entries, b, true)
    else
      var k := FirstBatch(|vectors|, batchSize);
      UpsertFrom(entries + VectorsToMap(vectors[..k]), vectors[k..], batchSize, upsertAccepted, b + 1)
  }

  /** A batched upsert counts at most CeilDiv(n, batchSize) batches and
      never removes an entry. */
  lemma {:induction false} UpsertFromBounds(entries: map<ChunkId, Vector>, vectors: seq<Vector>, batchSize: nat,
                                            upsertAccepted: nat -> bool, b: nat)
    requires batchSize > 0
    ensures var o := UpsertFrom(entries, vectors, batchSize, upsertAccepted, b);
            b <= o.batches <= b + CeilDiv(|vectors|, batchSize) && entries.Keys <= o.entries.Keys
    decreases |vectors|
  {
    if |vectors| > 0 && upsertAccepted(b) {
      var k := FirstBatch(|vectors|, batchSize);
      CeilDivFirstBatch(|vectors|, batchSize);
      UpsertFromBounds(entries + VectorsToMap(vectors[..k]), vectors[k..], batchSize, upsertAccepted, b + 1);
    }
  }

  /** A batched upsert is rejected exactly when one of its CeilDiv(n,
      batchSize) batches is. */
  lemma {:induction false} UpsertFromRejectedIff(entries: map<ChunkId, Vector>, vectors: seq<Vector>,
                                                 batchSize: nat, upsertAccepted: nat -> bool, b: nat)
    requires batchSize > 0
    ensures UpsertFrom(entries, vectors, batchSize, upsertAccepted, b).rejected
            <==> exists c :: b <= c < b + CeilDiv(|vectors|, batchSize) && !upsertAccepted(c)
    decreases |vectors|
  {
    if |vectors| > 0 {
      var k := FirstBatch(|vectors|, batchSize);
      CeilDivFirstBatch(|vectors|, batchSize);
      if upsertAccepted(b) {
        UpsertFromRejectedIff(entries + VectorsToMap(vectors[..k]), vectors[k..], batchSize, upsertAccepted, b + 1);
      }
    }
  }

  lemma MapUnionAssoc(a: map<ChunkId, Vector>, b: map<ChunkId, Vector>, c: map<ChunkId, Vector>)
    ensures a + b + c == a + (b + c)
  {
  }

  /** A batched upsert that no batch rejects stores every vector, as one
      upsert of the whole list would, in CeilDiv(n, batchSize) batches. */
  lemma {:induction false} UpsertFromStoresAll(entries: map<ChunkId, Vector>, vectors: seq<Vector>,
                                               batchSize: nat, upsertAccepted: nat -> bool, b: nat)
    requires batchSize > 0
    ensures var o := UpsertFrom(entries, vectors, batchSize, upsertAccepted, b);
            !o.rejected ==> o.entries == entries + VectorsToMap(vectors)
                            && o.batches == b + CeilDiv(|vectors|, batchSize)
    decreases |vectors|
  {
    if |vectors| > 0 && upsertAccepted(b) {
      var k := FirstBatch(|vectors|, batchSize);
      var batch, rest := vectors[..k], vectors[k..];
      CeilDivFirstBatch(|vectors|, batchSize);
      UpsertFromStoresAll(entries + VectorsToMap(batch), rest, batchSize, upsertAccepted, b + 1);
      assert vectors == batch + rest;
      VectorsToMapAppend(batch, rest);
      MapUnionAssoc(entries, VectorsToMap(batch), VectorsToMap(rest));
    }
    if |vectors| == 0 {
      assert VectorsToMap(vectors) == map[];
      assert entries + map[] == entries;
    }
  }

  /** A rejected run stops at the first rejected batch: every batch before
      it was accepted. */
  lemma {:induction false} UpsertFromRejected(entries: map<ChunkId, Vector>, vectors: seq<Vector>, batchSize: nat,
                                              upsertAccepted: nat -> bool, b: nat)
    requires batchSize > 0
    ensures var o := UpsertFrom(entries, vectors, batchSize, upsertAccepted, b);
            o.rejected ==> !upsertAccepted(o.batches) && b <= o.batches
                           && forall c :: b <= c < o.batches ==> upsertAccepted(c)
    decreases |vectors|
  {
    if |vectors| > 0 && upsertAccepted(b) {
      var k := FirstBatch(|vectors|, batchSize);
      UpsertFromRejected(entries + VectorsToMap(vectors[..k]), vectors[k..], batchSize, upsertAccepted, b + 1);
    }
  }

  /** A rejected run keeps the batches before the rejected one upserted:
      the index then holds a proper prefix of the vectors. */
  lemma {:induction false} UpsertFromRejectedKeepsPrefix(entries: map<ChunkId, Vector>, vectors: seq<Vector>,
                                                         batchSize: nat, upsertAccepted: nat -> bool, b: nat)
    requires batchSize > 0
    ensures var o := UpsertFrom(entries, vectors, batchSize, upsertAccepted, b);
            o.rejected ==> exists m :: 0 <= m < |vectors| && o.entries == entries + VectorsToMap(vectors[..m])
    decreases |vectors|
  {
    var o := UpsertFrom(entries, vectors, batchSize, upsertAccepted, b);
    if |vectors| > 0 && o.rejected {
      if !upsertAccepted(b) {
        assert vectors[..0] == [];
        assert VectorsToMap(vectors[..0]) == map[];
        assert o.entries == entries + VectorsToMap(vectors[..0]);
      } else {
        var k := FirstBatch(|vectors|, batchSize);
        var batch, rest := vectors[..k], vectors[k..];
        assert o == UpsertFrom(entries + VectorsToMap(batch), rest, batchSize, upsertAccepted, b + 1);
        UpsertFromRejectedKeepsPrefix(entries + VectorsToMap(batch), rest, batchSize, upsertAccepted, b + 1);
        var m :| 0 <= m < |rest| && o.entries == entries + VectorsToMap(batch) + VectorsToMap(rest[..m]);
        assert vectors[..k + m] == batch + rest[..m];
        VectorsToMapAppend(batch, rest[..m]);
        MapUnionAssoc(entries, VectorsToMap(batch), VectorsToMap(rest[..m]));
        assert o.entries == entries + VectorsToMap(vectors[..k + m]);
      }
    }
  }

  /** The upsert loop of a run: `batchSize` vectors at a time, counting
      the batches, until a rejected batch raises. */
  method UpsertInBatches(index: VectorIndex, vectors: seq<Vector>, batchSize: nat, upsertAccepted: nat -> bool)
    returns (r: Result<nat>)
    requires batchSize > 0
    modifies index
    ensures var o := UpsertFrom(old(index.entries), vectors, batchSize, upsertAccepted, 0);
            index.entries == o.entries && (r.Ok? <==> !o.rejected) && (r.Ok? ==> r.value == o.batches)
  {
    ghost var goal := UpsertFrom(index.entries, vectors, batchSize, upsertAccepted, 0);
    var batches := 0;
    var i := 0;
    while i < |vectors|
      invariant i <= |vectors|
      invariant UpsertFrom(index.entries, vectors[i..], batchSize, upsertAccepted, batches) == goal
    {
      var hi := if i + batchSize <= |vectors| then i + batchSize else |vectors|;
      BatchSplit(vectors, i, hi, batchSize);
      var upserted := index.UpsertVectorsBatch(vectors[i..hi], upsertAccepted(batches));
      if upserted.Err? {
        return Err(upserted.message);
      }
      batches := batches + 1;
      i := hi;
    }
    assert vectors[i..] == [];
    return Ok(batches);
  }

  /** `bootstrap` after the index is resolved: load and chunk the documents,
      convert the chunks into vectors, upsert them `batchSize` at a time and
      count. `upsertAccepted(b)` says whether the store accepts batch b; the
      first rejected batch aborts the run, and the batches before it stay
      upserted. */
  method Bootstrap(index: VectorIndex, names: seq<string>, catalog: seq<Metadata>,
                   pdfText: string -> Option<string>, chunkSize: nat, overlap: nat,
                   documentBatchSize: nat, batchSize: nat, uuid: nat -> ChunkId,
                   oracles: Oracles, upsertAccepted: nat -> bool)
    returns (r: Result<Stats>)
    requires ValidSizes(chunkSize, overlap)
    modifies index
    ensures documentBatchSize == 0 || batchSize == 0 ==> r.Err? && index.entries == old(index.entries)
    ensures documentBatchSize > 0 && batchSize > 0 ==>
      var chunks := RunChunks(names, catalog, pdfText, chunkSize, overlap, uuid);
      var vectors := IntendedVectors(chunks, batchSize, old(index.entries), oracles);
      var o := UpsertFrom(old(index.entries), vectors, batchSize, upsertAccepted, 0);
      && index.entries == o.entries
      && (r.Ok? <==> !o.rejected)
      && (r.Ok? ==> r.value == Stats(|chunks|, |vectors|, o.batches))
  {
    var stats := Stats(0, 0, 0);
    var documents := LoadDocuments(names, catalog, pdfText);
    var chunksResult := ProcessChunksInBatches(documents, documentBatchSize, chunkSize, overlap, uuid, 0);
    if chunksResult.Err? {
      return Err(chunksResult.message);
    }
    var chunks := chunksResult.value;
    stats := stats.(chunksProcessed := |chunks|);
    var vectorsResult := ProcessChunksToVectors(chunks, batchSize, index.entries, oracles);
    if vectorsResult.Err? {
      return Err(vectorsResult.message);
    }
    var vectors := vectorsResult.value;
    stats := stats.(newVectorsCreated := |vectors|);
    var upserted := UpsertInBatches(index, vectors, batchSize, upsertAccepted);
    if upserted.Err? {
      return Err(upserted.message);
    }
    stats := stats.(batchesProcessed := upserted.value);
    return Ok(stats);
  }
}
