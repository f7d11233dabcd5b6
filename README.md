# Semantic search back end: ingestion and search bookkeeping in Dafny

This project models the core of the `semantic_search` back end. That core is
the bookkeeping between a PDF collection, an embedding service and a vector
index (Pinecone). It has four parts.

- **Document service.** This is `backend/app/services/document_service.py`.
  - The sliding-window chunker `create_chunks`: chunk *k* covers
    `[k*cs - ov, (k+1)*cs)`, and chunk 0 starts at 0.
  - The catalog lookup `process_single_document`.
  - Document loading `process_documents_parallel`, run sequentially here.
  - The batched chunking stage `process_chunks_in_batches`.
- **Bootstrap service.** This is `backend/app/services/bootstrap_service.py`.
  - The existence check `check_embedding_status`.
  - The conversion of chunks into vector records `process_chunks_to_vectors`.
    It is modelled twice: as written, and with the evident intent.
  - The batched upsert `upsert_vectors_batch`.
  - A bootstrap run with its statistics `bootstrap`.
- **Search service.** This is `backend/app/services/search_service.py`.
  - The process-wide instance (`__new__`/`__init__`).
  - The response cache keyed by `f"{query}:{top_k}"`.
  - The fallback of the top-k to a default.
  - The formatting of matches.
  - `health_check`.
- **API errors.** This is `backend/app/utils/exceptions.py`: the three
  exception classes and their status codes.

Modules:

| file | module | what it holds |
|---|---|---|
| common.dfy | Common | `Option`/`Result`, metadata values, `range` step counting, concatenation with a shared counter, `s[a:b]`, `endswith` |
| exceptions.dfy | Exceptions | the error taxonomy |
| documents.dfy | Documents | chunker, round trip, catalog lookup, loading, batched chunking |
| ingestion.dfy | Ingestion | existence check, conversion (both versions), vector index class, upsert, bootstrap |
| search.dfy | Search | `str` of integers, cache key, formatting, search step, health check, service classes |

The outside world enters as parameters.

- PDF text extraction is `pdfText: string -> Option<string>`. `None` means the
  reader raised.
- `uuid4` is `uuid: nat -> ChunkId`, indexed by how many identifiers were drawn
  before.
- The index's failing fetches and the batched embedding call are fields of
  `Ingestion.Oracles`. So is the clock reading stamped into `processed_at`.
- Whether the store accepts upsert batch *b* is `upsertAccepted(b)`.
- The search-time embedding and the index query are `Search.SearchOracles`.
- The vector index is the class `Ingestion.VectorIndex`, which holds a map from
  chunk identifiers to vectors.
- The search cache is a map field of `Search.SearchService`. The TTL library may
  drop entries from it between calls (`Expire`).

## Model

| member | source | states |
|---|---|---|
| Exceptions.NewApiException | backend/app/utils/exceptions.py:1-5 | the base exception keeps the given message and status code; the code defaults to 400 |
| Exceptions.StatusCode | backend/app/utils/exceptions.py:1-13 | a ValidationError has code 400, a ResourceNotFound 404, and the base exception the code it was built with |
| Exceptions.AsApiException | backend/app/utils/exceptions.py:7-13 | a subclass instance seen as the base exception has the same message and code |
| Exceptions.SubclassesFixTheirCode | backend/app/utils/exceptions.py:7-13 | a ValidationError is the base exception with the default 400; a ResourceNotFound is the base with 404; the two never coincide |
| Common.CeilDivSteps | backend/app/services/document_service.py:143 | `range(0, n, d)` visits k*d exactly for k below CeilDiv(n, d), the least count whose multiple reaches n |
| Common.Get | backend/app/services/search_service.py:120-125 | `dict.get(key, default)` answers the stored value when the key is present and the default otherwise |
| Common.PySliceElements | backend/app/services/document_service.py:113 | `s[a:b]` holds the elements of `s` from `a` on, exactly `b - a` of them when the window fits, cut at the end of `s` otherwise |
| Common.EndsWith | backend/app/services/document_service.py:56 | `s.endswith(suffix)` holds iff `s` is some prefix followed by `suffix` |
| Common.ConcatAppend | backend/app/services/document_service.py:141-158 | concatenating per-item parts over two lists is the parts of the first, then those of the second with the shared counter continued |
| Documents.CreateChunks | backend/app/services/document_service.py:101-136 | the loop builds exactly the chunk list `Chunks`: one chunk per window, in order |
| Documents.ChunkCount | backend/app/services/document_service.py:108-129 | there are ceil(\|text\| / chunkSize) chunks: enough windows to reach the end and no extra one; empty text gives none |
| Documents.ChunkLayout | backend/app/services/document_service.py:109-125 | chunk k has uuid draw `draws + k`, index k, first-chunk flag k == 0, start k*cs - ov (0 for k = 0), end (k+1)*cs, content `text[start:end]`, and otherwise the document's metadata |
| Documents.ChunkLengthBound | backend/app/services/document_service.py:109-113 | no chunk is longer than chunkSize + overlap, and the first is at most chunkSize |
| Documents.ChunksRoundTrip | backend/app/services/document_service.py:108-129 | the first chunk whole, then every later chunk without its first `overlap` characters, joined, is the original text |
| Documents.FirstMatch | backend/app/services/document_service.py:60 | the lookup finds the first record whose filename matches; it stops at a record without a filename key (the subscript raises); every record it passed has another filename |
| Documents.ProcessSingleDocument | backend/app/services/document_service.py:53-72 | a document comes back iff the name ends in `.pdf`, a catalog record describes it and its text is extracted; it pairs that text with the first describing record |
| Documents.ProcessAll | backend/app/services/document_service.py:84-89 | one result per listed name, in listing order: result i is what `process_single_document` gives for name i |
| Documents.ProcessAllAppend | backend/app/services/document_service.py:89 | mapping over two listings one after the other gives the two result lists one after the other |
| Documents.PdfNames | backend/app/services/document_service.py:78 | the PDF names are exactly the listed names ending in `.pdf`, and there are no more of them than listed names |
| Documents.Present | backend/app/services/document_service.py:92 | every kept document was a non-None result, every non-None result is kept, and nothing is added |
| Documents.LoadDocuments | backend/app/services/document_service.py:74-95 | no more documents are loaded than names are listed |
| Documents.LoadDocumentsMembers | backend/app/services/document_service.py:74-95 | a document is loaded iff some listed name processes to it |
| Documents.PdfNamesAppend | backend/app/services/document_service.py:78 | filtering the listing for PDFs distributes over concatenation, which keeps listing order |
| Documents.PresentAppend | backend/app/services/document_service.py:92 | dropping the `None` results distributes over concatenation |
| Documents.LoadDocumentsAppend | backend/app/services/document_service.py:74-95 | loading a listing is loading its halves in order |
| Documents.LoadDocumentsSingle | backend/app/services/document_service.py:74-95 | a one-name listing loads to its processed document, or to nothing when processing gives None |
| Documents.AllChunksCount | backend/app/services/document_service.py:138-163 | the stage yields as many chunks as it draws uuids |
| Documents.AllChunksIds | backend/app/services/document_service.py:149-158 | the i-th chunk of the stage carries uuid draw `draws + i`, across document and batch boundaries |
| Documents.AllChunksStep | backend/app/services/document_service.py:155-158 | chunking one more document appends its chunks, numbered after the earlier documents' draws |
| Documents.ChunkBatch | backend/app/services/document_service.py:144-160 | the inner loop over one batch extends the result to the chunks of every document up to the batch's end |
| Documents.ProcessChunksInBatches | backend/app/services/document_service.py:138-167 | a zero batch size raises; otherwise the result is the chunks of all documents in order, whatever the batch size |
| Ingestion.CheckEmbeddingStatus | backend/app/services/bootstrap_service.py:34-41 | a chunk counts as stored iff the index holds its id and the fetch does not raise; a failing fetch counts as "not stored" |
| Ingestion.Fetch | backend/app/services/bootstrap_service.py:37 | `index.fetch([id])` raises iff the fetch fails; otherwise it answers at most the one record under `id`, which is there iff the index holds `id` |
| Ingestion.NewChunks | backend/app/services/bootstrap_service.py:68-73 | a batch has no more new chunks than chunks |
| Ingestion.NewChunksMembers | backend/app/services/bootstrap_service.py:68-73 | a chunk is selected iff it is in the batch and not stored |
| Ingestion.NewChunksAppend | backend/app/services/bootstrap_service.py:68-73 | the selection keeps batch order: selecting from two halves is selecting from each |
| Ingestion.SelectNewChunks | backend/app/services/bootstrap_service.py:63-73 | the loop collects exactly the new chunks and their contents, in batch order |
| Ingestion.BuildVector | backend/app/services/bootstrap_service.py:85-93 | the record has the chunk's id and the embedding; its metadata is the chunk's plus `content` and `processed_at` |
| Ingestion.Zip | backend/app/services/bootstrap_service.py:84 | `zip` pairs by position and is as long as the shorter list |
| Ingestion.BatchVectors | backend/app/services/bootstrap_service.py:68-94 | a batch yields no more vectors than it has new chunks, and no more new chunks than chunks |
| Ingestion.IntendedFromExtends | backend/app/services/bootstrap_service.py:57-103 | the conversion only appends: the vectors collected so far stay in front, and each chunk adds at most one vector |
| Ingestion.IntendedStep | backend/app/services/bootstrap_service.py:61-62 | the batch at i is converted before the batches after it |
| Ingestion.ConvertBatch | backend/app/services/bootstrap_service.py:63-94 | one batch, with the append inside the zip loop, yields `BatchVectors`: one record per new chunk paired with an embedding |
| Ingestion.ProcessChunksToVectors | backend/app/services/bootstrap_service.py:57-103 | a zero batch size raises; otherwise the intended conversion's vectors are returned |
| Ingestion.BatchCoversNewChunks | backend/app/services/bootstrap_service.py:75-94 | when the embedding service answers one embedding per text, a batch yields one vector per new chunk, in order, with that chunk's id |
| Ingestion.FailedBatchAddsNothing | backend/app/services/bootstrap_service.py:78-101 | a batch whose embedding call raises adds no vector, and the conversion goes on with the next batch as if that batch were absent |
| Ingestion.EmbeddedIds | backend/app/services/bootstrap_service.py:80-84 | the ids of the new chunks of a batch that `zip` pairs with an embedding; never more than the batch's new chunks, none when the call raises |
| Ingestion.AnsweredBatchEmbedsAll | backend/app/services/bootstrap_service.py:80-84 | a batch whose call answers one embedding per text embeds every one of its new chunks |
| Ingestion.BatchEmbeddedIds | backend/app/services/bootstrap_service.py:75-94 | whatever the embedding service answers, a batch yields one vector per new chunk it embeds, in order, with that chunk's id |
| Ingestion.IntendedIdsPerBatch | backend/app/services/bootstrap_service.py:57-103 | whatever the embedding service answers for each batch, the ids of the vectors are those of the new chunks that received an embedding, batch after batch; a failing batch contributes nothing and the later ones still contribute theirs |
| Ingestion.EmbeddedCoversNewChunks | backend/app/services/bootstrap_service.py:57-103 | when every call answers one embedding per text, the embedded chunks are all the new chunks, in chunk order |
| Ingestion.IntendedCoversNewChunks | backend/app/services/bootstrap_service.py:57-103 | when the embedding service answers one embedding per text, the ids of the vectors are the new chunks' ids, in chunk order, whatever the batch size |
| Ingestion.BatchVectorsFromNewChunks | backend/app/services/bootstrap_service.py:68-94 | whatever the services answer, each vector of a batch belongs to a chunk of that batch that was not stored |
| Ingestion.IntendedSkipsStored | backend/app/services/bootstrap_service.py:57-103 | no vector is built for a chunk the index already holds |
| Ingestion.AsWrittenStep | backend/app/services/bootstrap_service.py:61-62 | as written, the batch at i moves the state on before the batches after it |
| Ingestion.AsWrittenFromExtends | backend/app/services/bootstrap_service.py:57-103 | as written, the vectors collected so far are kept, and while `vector` stays unbound nothing is appended |
| Ingestion.FailedBatchKeepsProgress | backend/app/services/bootstrap_service.py:78-101 | as written, a batch whose embedding call raises leaves the collected vectors and `vector` as they were, and the next batches still run |
| Ingestion.ConvertBatchAsWritten | backend/app/services/bootstrap_service.py:63-101 | one batch as written: `vector` ends as the last pair's record, or keeps its earlier value, and only it is appended, if bound |
| Ingestion.ZipAndAppendLast | backend/app/services/bootstrap_service.py:84-94 | the zip loop rebinds `vector` for each pair, and the one append after it adds the last pair's record, or the earlier `vector` when nothing pairs |
| Ingestion.ProcessChunksToVectorsAsWritten | backend/app/services/bootstrap_service.py:57-103 | a zero batch size raises; otherwise the as-written conversion's vectors are returned |
| Ingestion.StepAppendsAtMostOne | backend/app/services/bootstrap_service.py:84-94 | as written, a batch appends at most one vector |
| Ingestion.AsWrittenAtMostOnePerBatch | backend/app/services/bootstrap_service.py:57-103 | as written, a run yields at most one vector per batch |
| Ingestion.AsWrittenSkipsStored | backend/app/services/bootstrap_service.py:68-94 | even as written, no vector (stale ones included) belongs to a stored chunk |
| Ingestion.StepKeepsUnstored | backend/app/services/bootstrap_service.py:68-94 | one batch as written never brings in a vector of a stored chunk, `vector` included |
| Ingestion.AsWrittenDropsVectors | backend/app/services/bootstrap_service.py:84-94 | two new chunks in one batch give one vector as written, where the intended conversion gives two |
| Ingestion.VectorsToMapAppend | backend/app/services/bootstrap_service.py:207-209 | upserting two batches in turn stores what upserting all the vectors at once stores |
| Ingestion.VectorsToMapKeys | backend/app/services/bootstrap_service.py:115 | every upserted vector's id is in the index that `VectorsToMap` (upserting into an empty index, one vector after the other) builds |
| Ingestion.VectorsToMapValues | backend/app/services/bootstrap_service.py:115 | every index entry is one of the upserted vectors, stored under its own id |
| Ingestion.VectorsToMapLastWins | backend/app/services/bootstrap_service.py:115 | a vector whose id does not occur later in the list is the one stored under that id |
| Ingestion.VectorIndex.UpsertVectorsBatch | backend/app/services/bootstrap_service.py:106-120 | an empty list gives False and leaves the index alone; an accepted upsert gives True and stores the vectors; a rejected one raises and leaves the index alone |
| Ingestion.UpsertFromBounds | backend/app/services/bootstrap_service.py:205-210 | a batched upsert counts at most ceil(n / batchSize) batches and never removes an entry |
| Ingestion.UpsertFromRejectedIff | backend/app/services/bootstrap_service.py:205-210 | a batched upsert fails iff one of its ceil(n / batchSize) batches is rejected |
| Ingestion.UpsertFromStoresAll | backend/app/services/bootstrap_service.py:205-210 | when no batch is rejected, every vector is stored, and ceil(n / batchSize) batches are counted |
| Ingestion.UpsertFromRejected | backend/app/services/bootstrap_service.py:205-210 | a failing upsert stops at the first rejected batch; every batch before it was accepted |
| Ingestion.UpsertFromRejectedKeepsPrefix | backend/app/services/bootstrap_service.py:205-210 | after a failure, the index holds the earlier content plus a proper prefix of the vectors |
| Ingestion.UpsertInBatches | backend/app/services/bootstrap_service.py:204-210 | the upsert loop leaves the index as `UpsertFrom` describes, fails iff a batch is rejected, and otherwise counts its batches |
| Ingestion.Bootstrap | backend/app/services/bootstrap_service.py:179-225 | a zero document or vector batch size fails and changes nothing. Otherwise the index ends as the batched upsert of the intended vectors leaves it; the run succeeds iff no batch is rejected; and it reports the chunk count, the vector count and the batch count |
| Search.NatToString | backend/app/services/search_service.py:100 | `str` of a natural number is a non-empty string of digits |
| Search.ParseNatToString | backend/app/services/search_service.py:100 | reading the digits back gives the number |
| Search.IntToStringInjective | backend/app/services/search_service.py:100 | distinct integers print differently |
| Search.TopKToStringInjective | backend/app/services/search_service.py:100 | distinct top-k arguments, `None` included, print differently |
| Search.TopKStringHasNoColon | backend/app/services/search_service.py:100 | `str(top_k)` never contains `:` |
| Search.CacheKey | backend/app/services/search_service.py:100 | the key starts with the query, followed by `:`, and no `:` comes after that one |
| Search.SplitAtLastColon | backend/app/services/search_service.py:100 | joined with `:`, a colon-free suffix determines both parts |
| Search.CacheKeyInjective | backend/app/services/search_service.py:100 | the cache key determines the query and the top-k as passed, so `None` and an explicit default never share an entry |
| Search.FieldOrEmpty | backend/app/services/search_service.py:120-125 | a metadata field shows its value, or `""` when missing |
| Search.FormatMatch | backend/app/services/search_service.py:119-128 | a result has the match's content, case, year, court and citation (each `""` when missing) and its score |
| Search.FormatAllPositions | backend/app/services/search_service.py:117-128 | one result per match, in match order, each built from its match |
| Search.FormatResults | backend/app/services/search_service.py:117-128 | the loop builds exactly the formatted list |
| Search.ResponseCountsResults | backend/app/services/search_service.py:130-134 | `total_results` is the number of results, which is the number of matches |
| Search.EffectiveTopK | backend/app/services/search_service.py:112 | a non-zero top-k is used as given; a missing or zero one falls back to the default |
| Search.SearchStep | backend/app/services/search_service.py:95-142 | after a successful search the key holds the answer; the cache gains at most that key and loses none; every other entry is unchanged |
| Search.SearchHitIgnoresServices | backend/app/services/search_service.py:100-103 | a hit returns the stored response unchanged, leaves the cache alone, and its outcome does not depend on the services |
| Search.SearchMissStores | backend/app/services/search_service.py:105-142 | a miss succeeds iff the embedding and the query succeed. It then answers the formatted matches of the query with the effective top-k, stores them under the key and leaves other entries alone. A failure stores nothing |
| Search.SearchRepeatHits | backend/app/services/search_service.py:100-103 | repeating a search right after it succeeded returns the same response from the cache, whatever the services now answer |
| Search.HealthCheck | backend/app/services/search_service.py:144-162 | healthy iff the embedding call succeeds with a non-empty embedding and the stats call does not raise; healthy reports carry the cache size; every failure gives an unhealthy report with its message, and nothing raises |
| Search.SearchService.Allocate | backend/app/services/search_service.py:28 | a freshly allocated instance is not initialised |
| Search.SearchService.Init | backend/app/services/search_service.py:31-54 | on an uninitialised object `__init__` sets the configuration and then succeeds iff the connections open; on success the cache is empty and the object initialised; on failure it stays uninitialised. On an initialised object it changes nothing |
| Search.SearchService.Expire | backend/app/services/search_service.py:46-49 | the TTL cache only loses entries between calls |
| Search.SearchService.ExecuteSearch | backend/app/services/search_service.py:95-142 | the answer and the new cache are those of `SearchStep` on the old cache |
| Search.SearchService.Health | backend/app/services/search_service.py:144-162 | the health check on the service reports the service's own cache size |
| Search.SearchServiceClass.constructor | backend/app/services/search_service.py:23 | before the first construction there is no instance |
| Search.SearchServiceClass.Call | backend/app/services/search_service.py:26-68 | the first `SearchService()` creates the one instance, and any later call hands out the same one. While it is uninitialised, each call runs `__init__` again and succeeds iff the connections open. Once initialised, it is returned unchanged |

## Left out

- File and PDF I/O are inputs: `load_metadata`, `load_pdf_content` and `os.listdir`. The catalog, the listing and the extracted text are parameters.
- The external services are oracles: OpenAI (`create_embeddings_batch`, `create_embedding`) and Pinecone (`fetch`, `upsert`, `query`, `describe_index_stats`). `initialize_or_validate_index`, `get_status` and `initialize_connections` only talk to Pinecone. They are not modelled, and the bootstrap starts from an already resolved index.
- Concurrency is not modelled: the thread pools, the semaphore and the lock. The model runs every batch sequentially. `search_with_timeout` (the semaphore and `asyncio.wait_for`) is not part of this model.
- TTL expiry and LRU eviction belong to `cachetools`. The cache is a map that `Expire` may shrink by any set of keys. The size bound of the TTL cache is not modelled.
- Clocks and timing are left out: `time.time`, `processing_time`, `execution_time` and the `time.sleep` pauses. `processed_at` is one clock reading per conversion.
- Logging is left out.
- Similarity scores are opaque reals.
- The order of uuid draws: the model draws the identifiers in document order, then window order. Under the thread pool, the order of draws between documents is not determined.
- `Ingestion.ProcessChunksToVectors`, `Ingestion.ProcessChunksToVectorsAsWritten`: `bootstrap_service.py:69` calls `check_embedding_status` without its `index` argument. Line 71 reads `chunk["context"]`, while chunks carry `"content"`. As written, both raise before any vector is built. Both conversions model the evident intent instead: the check runs against the index, and the embedded text is the chunk's content.
- `DEFAULT_TOP_K` is read at `search_service.py:112` but not defined in the configuration. It is a constructor parameter of the service.
- Batch and chunk sizes are natural numbers. A negative batch size makes Python's `range` empty; that case is not modelled. The chunker requires a positive window and an overlap no larger than it; with a zero window the source loops forever.
- Exception messages are placeholders. The source re-raises the libraries' own exceptions, whose text is not part of this model.
- The commented-out retry decorators are not modelled.
- `Ingestion.Bootstrap` runs on the corrected conversion (`Ingestion.ProcessChunksToVectors`). The index it leaves and its `new_vectors_created` are those of the append inside the zip loop, not of line 94 as written.
- The oracles are functions of their arguments: `Ingestion.Oracles.embed`, `Ingestion.Oracles.fetchFails` and `Search.SearchOracles.query`. A transient failure, such as one batch failing while a later batch with the same texts succeeds, cannot be expressed.
- `Search.SearchServiceClass.Call`: the outcome of `initialize_connections` is the `connects` flag of each call. The configuration and Pinecone client it reads are not part of this model.

## Findings

| source | as written | input that shows it | evidently intended | confidence | as-written member | corrected member |
|---|---|---|---|---|---|---|
| backend/app/services/bootstrap_service.py:94 | `vectors.append(vector)` is indented after the `zip` loop. Each batch appends only the last pair's vector, or a stale vector from an earlier batch when nothing is paired | one batch of two new chunks, batch size 2, one embedding per text: one vector comes back instead of two | the append inside the loop: one vector per new chunk that received an embedding | not executed | Ingestion.AsWrittenDropsVectors | Ingestion.IntendedCoversNewChunks |

`Ingestion.ProcessChunksToVectorsAsWritten` models the code as written. `Ingestion.ProcessChunksToVectors` is the corrected conversion, and `Ingestion.Bootstrap` uses it.
