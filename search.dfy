/** The search service of backend/app/services/search_service.py: the
    process-wide instance, the response cache keyed by query and top-k, the
    shaping of the index's matches into results, and the health check. The
    embedding service and the vector index are oracles; the TTL cache is a
    map that the library may shrink between calls. */
module Search {
  import opened Common

  // ---------------------------------------------------------------------
  // `str` of an integer and of `None`
  // ---------------------------------------------------------------------

  function DigitChar(d: nat): char
    requires d < 10
  {
    "0123456789"[d]
  }

  predicate IsDigit(c: char)
  {
    '0' <= c <= '9'
  }

  function DigitValue(c: char): nat
    requires IsDigit(c)
  {
    c as int - '0' as int
  }

  /** The decimal digits of n, most significant first, without leading
      zeros. */
  function NatToString(n: nat): (s: string)
    ensures |s| > 0 && forall i :: 0 <= i < |s| ==> IsDigit(s[i])
    decreases n
  {
    if n < 10 then [DigitChar(n)] else NatToString(n / 10) + [DigitChar(n % 10)]
  }

  /** The number a string of digits spells. */
  function ParseDigits(s: string): nat
    requires forall i :: 0 <= i < |s| ==> IsDigit(s[i])
  {
    if |s| == 0 then 0 else ParseDigits(s[..|s| - 1]) * 10 + DigitValue(s[|s| - 1])
  }

  /** Reading back the digits of n gives n. */
  lemma {:induction false} ParseNatToString(n: nat)
    ensures ParseDigits(NatToString(n)) == n
    decreases n
  {
    var s := NatToString(n);
    if n >= 10 {
      ParseNatToString(n / 10);
      assert s[..|s| - 1] == NatToString(n / 10);
    }
  }

  /** Python's `str(i)` for an integer. */
  function IntToString(i: int): string
  {
    if i < 0 then "-" + NatToString(-i) else NatToString(i)
  }

  /** `str(top_k)`: `"None"` when no top-k was passed. */
  function TopKToString(topK: Option<int>): string
  {
    match topK
    case None => "None"
    case Some(k) => IntToString(k)
  }

  lemma NatToStringInjective(a: nat, b: nat)
    requires NatToString(a) == NatToString(b)
    ensures a == b
  {
    ParseNatToString(a);
    ParseNatToString(b);
  }

  /** A negative number's string starts with `-`, which no digit string
      does. */
  lemma NegativeNotDigits(n: nat, m: nat)
    ensures "-" + NatToString(n) != NatToString(m)
  {
    assert ("-" + NatToString(n))[0] == '-';
  }

  /** Distinct integers print differently. */
  lemma IntToStringInjective(a: int, b: int)
    requires IntToString(a) == IntToString(b)
    ensures a == b
  {
    if a < 0 && b < 0 {
      var da, db := NatToString(-a), NatToString(-b);
      assert da == ("-" + da)[1..] && db == ("-" + db)[1..];
      NatToStringInjective(-a, -b);
    } else if a >= 0 && b >= 0 {
      NatToStringInjective(a, b);
    } else if a < 0 {
      NegativeNotDigits(-a, b);
      assert false;
    } else {
      NegativeNotDigits(-b, a);
      assert false;
    }
  }

  /** No integer prints as `None`. */
  lemma IntNotNone(k: int)
    ensures IntToString(k) != "None"
  {
    var s := IntToString(k);
    if k < 0 {
      assert s[0] == '-';
    } else {
      assert IsDigit(s[0]);
    }
  }

  /** `str(top_k)` never contains the key separator `:`. */
  lemma TopKStringHasNoColon(topK: Option<int>)
    ensures forall i :: 0 <= i < |TopKToString(topK)| ==> TopKToString(topK)[i] != ':'
  {
    if topK.Some? && topK.value < 0 {
      var digits := NatToString(-topK.value);
      assert TopKToString(topK) == "-" + digits;
      assert forall i :: 0 < i < |"-" + digits| ==> ("-" + digits)[i] == digits[i - 1];
    }
  }

  lemma TopKToStringInjective(a: Option<int>, b: Option<int>)
    requires TopKToString(a) == TopKToString(b)
    ensures a == b
  {
    if a.Some? && b.Some? {
      IntToStringInjective(a.value, b.value);
    } else if a.Some? {
      IntNotNone(a.value);
      assert false;
    } else if b.Some? {
      IntNotNone(b.value);
      assert false;
    }
  }

  // ---------------------------------------------------------------------
  // The cache key
  // ---------------------------------------------------------------------

  /** `f"{query}:{top_k}"`, with `top_k` as it was passed. */
  function CacheKey(query: string, topK: Option<int>): (key: string)
    ensures |key| > |query| && key[..|query|] == query && key[|query|] == ':'
    ensures forall i :: |query| < i < |key| ==> key[i] != ':'
  {
    TopKStringHasNoColon(topK);
    query + ":" + TopKToString(topK)
  }

  /** Where the suffix and the separator sit in `q + ":" + s`. */
  lemma JoinedAt(q: string, s: string, j: nat)
    requires j < |s|
    ensures (q + ":" + s)[|q| + 1 + j] == s[j]
  {
  }

  lemma ColonAt(q: string, s: string)
    ensures (q + ":" + s)[|q|] == ':'
  {
  }

  /** Splitting at the last `:`: when neither suffix holds a `:`, the
      joined strings agree only if both parts do. */
  lemma SplitAtLastColon(q1: string, s1: string, q2: string, s2: string)
    requires forall i :: 0 <= i < |s1| ==> s1[i] != ':'
    requires forall i :: 0 <= i < |s2| ==> s2[i] != ':'
    requires q1 + ":" + s1 == q2 + ":" + s2
    ensures q1 == q2 && s1 == s2
  {
    if |s1| < |s2| {
      JoinedAt(q2, s2, |s2| - |s1| - 1);
      ColonAt(q1, s1);
      assert false;
    } else if |s2| < |s1| {
      JoinedAt(q1, s1, |s1| - |s2| - 1);
      ColonAt(q2, s2);
      assert false;
    } else {
      var key := q1 + ":" + s1;
      assert s1 == key[|key| - |s1|..] == s2;
      assert q1 == key[..|q1|] == q2;
    }
  }

  /** The key determines the query and the top-k it was built from: the
      query is everything before the last `:`. In particular a search
      without top-k and one with the default top-k written out do not share
      an entry. */
  lemma CacheKeyInjective(q1: string, k1: Option<int>, q2: string, k2: Option<int>)
    requires CacheKey(q1, k1) == CacheKey(q2, k2)
    ensures q1 == q2 && k1 == k2
  {
    TopKStringHasNoColon(k1);
    TopKStringHasNoColon(k2);
    SplitAtLastColon(q1, TopKToString(k1), q2, TopKToString(k2));
    TopKToStringInjective(k1, k2);
  }

  // ---------------------------------------------------------------------
  // Result shaping
  // ---------------------------------------------------------------------

  /** A match of the index query: the stored metadata and its score. */
  datatype Match = Match(metadata: Metadata, score: real)

  /** One formatted result: the content, the four catalog fields and the
      similarity score. */
  datatype FormattedResult = FormattedResult(content: Value, caseName: Value, year: Value, court: Value,
                                             citation: Value, similarityScore: real)

  /** A search response: the results and their count (the elapsed time is
      not modelled). */
  datatype Response = Response(results: seq<FormattedResult>, totalResults: nat)

  /** A metadata field as the result shows it: its value, or `""` when the
      match has no such field. */
  function FieldOrEmpty(metadata: Metadata, key: string): (v: Value)
    ensures key in metadata ==> v == metadata[key]
    ensures key !in metadata ==> v == Str("")
  {
    Get(metadata, key, Str(""))
  }

  /** The record built for one match. */
  function FormatMatch(m: Match): (r: FormattedResult)
    ensures r.content == FieldOrEmpty(m.metadata, "content") && r.caseName == FieldOrEmpty(m.metadata, "case")
    ensures r.year == FieldOrEmpty(m.metadata, "year") && r.court == FieldOrEmpty(m.metadata, "court")
    ensures r.citation == FieldOrEmpty(m.metadata, "citation") && r.similarityScore == m.score
  {
    FormattedResult(FieldOrEmpty(m.metadata, "content"), FieldOrEmpty(m.metadata, "case"),
                    FieldOrEmpty(m.metadata, "year"), FieldOrEmpty(m.metadata, "court"),
                    FieldOrEmpty(m.metadata, "citation"), m.score)
  }

  /** The records of all matches, in match order. */
  function FormatAll(matches: seq<Match>): seq<FormattedResult>
  {
    if |matches| == 0 then [] else FormatAll(matches[..|matches| - 1]) + [FormatMatch(matches[|matches| - 1])]
  }

  /** One result per match, in match order, each built from its match. */
  lemma {:induction false} FormatAllPositions(matches: seq<Match>)
    ensures |FormatAll(matches)| == |matches|
    ensures forall i :: 0 <= i < |matches| ==> FormatAll(matches)[i] == FormatMatch(matches[i])
  {
    if |matches| > 0 {
      FormatAllPositions(matches[..|matches| - 1]);
    }
  }

  /** The formatting loop: one record appended per match. */
  method FormatResults(matches: seq<Match>) returns (results: seq<FormattedResult>)
    ensures results == FormatAll(matches)
  {
    results := [];
    for i := 0 to |matches|
      invariant results == FormatAll(matches[..i])
    {
      assert matches[..i + 1][..i] == matches[..i];
      results := results + [FormatMatch(matches[i])];
    }
    assert matches[..|matches|] == matches;
  }

  /** The response for a list of matches. */
  function BuildResponse(matches: seq<Match>): (r: Response)
  {
    var results := FormatAll(matches);
    Response(results, |results|)
  }

  /** `total_results` is the number of results, one per match. */
  lemma ResponseCountsResults(matches: seq<Match>)
    ensures BuildResponse(matches).totalResults == |BuildResponse(matches).results| == |matches|
  {
    FormatAllPositions(matches);
  }

  // ---------------------------------------------------------------------
  // One search against a cache
  // ---------------------------------------------------------------------

  /** `top_k or DEFAULT_TOP_K`: both a missing and a zero top-k are falsy
      and fall back to the default. */
  function EffectiveTopK(topK: Option<int>, defaultTopK: int): (k: int)
    ensures topK.Some? && topK.value != 0 ==> k == topK.value
    ensures topK.None? || topK.value == 0 ==> k == defaultTopK
  {
    match topK
    case None => defaultTopK
    case Some(given) => if given != 0 then given else defaultTopK
  }

  /** The outside world of a search: the embedding of a query (None when
      the call raises) and the index's matches for an embedding and a top-k
      (None when the query raises). */
  datatype SearchOracles = SearchOracles(embed: string -> Option<Embedding>,
                                         query: (Embedding, int) -> Option<seq<Match>>)

  /** What a search answers and the cache it leaves. */
  datatype Outcome = Outcome(result: Result<Response>, cache: map<string, Response>)

  /** `_execute_search` as a function of the cache: a hit answers the
      stored response; a miss embeds the query, queries the index with the
      effective top-k, formats the matches and stores the response; a
      failing call is re-raised and stores nothing. */
  function SearchStep(cache: map<string, Response>, query: string, topK: Option<int>, defaultTopK: int,
                      oracles: SearchOracles): (o: Outcome)
    ensures o.result.Ok? ==> CacheKey(query, topK) in o.cache && o.cache[CacheKey(query, topK)] == o.result.value
    ensures cache.Keys <= o.cache.Keys <= cache.Keys + {CacheKey(query, topK)}
    ensures forall k :: k in cache && k != CacheKey(query, topK) ==> o.cache[k] == cache[k]
  {
    var key := CacheKey(query, topK);
    if key in cache then Outcome(Ok(cache[key]), cache)
    else match oracles.embed(query)
         case None => Outcome(Err("embedding creation failed"), cache)
         case Some(embedding) =>
           match oracles.query(embedding, EffectiveTopK(topK, defaultTopK))
           case None => Outcome(Err("index query failed"), cache)
           case Some(matches) =>
             var response := BuildResponse(matches);
             Outcome(Ok(response), cache[key := response])
  }

  /** A hit answers the stored response unchanged, leaves the cache as it
      is and consults neither the embedding service nor the index. */
  lemma SearchHitIgnoresServices(cache: map<string, Response>, query: string, topK: Option<int>,
                                 defaultTopK: int, oracles: SearchOracles, others: SearchOracles)
    requires CacheKey(query, topK) in cache
    ensures var o := SearchStep(cache, query, topK, defaultTopK, oracles);
            o.result == Ok(cache[CacheKey(query, topK)]) && o.cache == cache
            && o == SearchStep(cache, query, topK, defaultTopK, others)
  {
  }

  /** A miss that succeeds answers the formatted matches of the index query
      made with the effective top-k, and stores that response under the
      key; every other entry is left alone. A miss that fails stores
      nothing. */
  lemma SearchMissStores(cache: map<string, Response>, query: string, topK: Option<int>, defaultTopK: int,
                         oracles: SearchOracles)
    requires CacheKey(query, topK) !in cache
    ensures var o, key := SearchStep(cache, query, topK, defaultTopK, oracles), CacheKey(query, topK);
            (o.result.Ok? <==> oracles.embed(query).Some?
                               && oracles.query(oracles.embed(query).value, EffectiveTopK(topK, defaultTopK)).Some?)
            && (o.result.Ok? ==>
                  o.result.value == BuildResponse(oracles.query(oracles.embed(query).value,
                                                                EffectiveTopK(topK, defaultTopK)).value)
                  && o.cache.Keys == cache.Keys + {key} && o.cache[key] == o.result.value
                  && forall other :: other in cache ==> o.cache[other] == cache[other])
            && (o.result.Err? ==> o.cache == cache)
  {
  }

  /** Repeating a search right after it succeeded is a hit: the same
      response comes back and the cache stays as it is, whatever the
      services would now answer. */
  lemma {:induction false} SearchRepeatHits(cache: map<string, Response>, query: string, topK: Option<int>,
                                            defaultTopK: int, oracles: SearchOracles, later: SearchOracles)
    requires SearchStep(cache, query, topK, defaultTopK, oracles).result.Ok?
    ensures var first := SearchStep(cache, query, topK, defaultTopK, oracles);
            SearchStep(first.cache, query, topK, defaultTopK, later) == first
  {
    var first := SearchStep(cache, query, topK, defaultTopK, oracles);
    assert CacheKey(query, topK) in first.cache;
  }

  // ---------------------------------------------------------------------
  // The health check
  // ---------------------------------------------------------------------

  datatype Health = Healthy(cacheSize: nat, activeConnections: int) | Unhealthy(error: string)

  /** `health_check`: unhealthy with the exception's message when the
      embedding call raises, unhealthy when the embedding is empty,
      unhealthy with the message when the index statistics call raises, and
      otherwise healthy with the cache's size and the free semaphore slots.
      It never raises. */
  function HealthCheck(embedding: Result<Embedding>, statsError: Option<string>, cacheSize: nat,
                       activeConnections: int): (h: Health)
    ensures h.Healthy? <==> embedding.Ok? && |embedding.value| > 0 && statsError.None?
    ensures h.Healthy? ==> h.cacheSize == cacheSize && h.activeConnections == activeConnections
    ensures embedding.Err? ==> h == Unhealthy(embedding.message)
    ensures embedding.Ok? && |embedding.value| == 0 ==> h == Unhealthy("Embedding creation failed")
    ensures embedding.Ok? && |embedding.value| > 0 && statsError.Some? ==> h == Unhealthy(statsError.value)
  {
    match embedding
    case Err(message) => Unhealthy(message)
    case Ok(values) =>
      if |values| == 0 then Unhealthy("Embedding creation failed")
      else match statsError
           case Some(message) => Unhealthy(message)
           case None => Healthy(cacheSize, activeConnections)
  }

  // ---------------------------------------------------------------------
  // The service object
  // ---------------------------------------------------------------------

  /** The service instance. Its attributes exist once `__init__` has run,
      which `initialized` records. */
  class SearchService {
    var initialized: bool
    var cache: map<string, Response>
    var defaultTopK: int

    /** `super().__new__(cls)`: an object whose `__init__` has not run. */
    constructor Allocate()
      ensures !initialized
    {
      initialized := false;
      cache := map[];
      defaultTopK := 0;
    }

    /** `__init__`: when the object is not yet initialised it reads the
        configuration and opens the connections; if that raises
        (`connects` is false) the exception propagates and `initialized`
        stays unset, so the next `__init__` tries again. Otherwise it
        creates an empty cache and marks the object initialised. Any call
        on an initialised object leaves it alone. */
    method Init(defaultTopK: int, connects: bool) returns (r: Result<()>)
      modifies this
      ensures old(initialized) ==> r.Ok? && unchanged(this)
      ensures !old(initialized) ==> (r.Ok? <==> connects) && this.defaultTopK == defaultTopK
      ensures !old(initialized) && connects ==> initialized && cache == map[]
      ensures !old(initialized) && !connects ==> !initialized && cache == old(cache)
    {
      if initialized {
        return Ok(());
      }
      this.defaultTopK := defaultTopK;
      if !connects {
        return Err("failed to initialize connections");
      }
      cache := map[];
      initialized := true;
      return Ok(());
    }

    /** The TTL cache dropping entries (expiry or eviction) between calls. */
    method Expire(keys: set<string>)
      modifies this
      ensures cache == old(cache) - keys
      ensures initialized == old(initialized) && defaultTopK == old(defaultTopK)
    {
      cache := cache - keys;
    }

    /** `_execute_search`. */
    method ExecuteSearch(query: string, topK: Option<int>, oracles: SearchOracles)
      returns (r: Result<Response>)
      modifies this
      ensures Outcome(r, cache) == SearchStep(old(cache), query, topK, defaultTopK, oracles)
      ensures initialized == old(initialized) && defaultTopK == old(defaultTopK)
    {
      var key := CacheKey(query, topK);
      if key in cache {
        return Ok(cache[key]);
      }
      var embedding := oracles.embed(query);
      if embedding.None? {
        return Err("embedding creation failed");
      }
      var matches := oracles.query(embedding.value, EffectiveTopK(topK, defaultTopK));
      if matches.None? {
        return Err("index query failed");
      }
      var results := FormatResults(matches.value);
      var response := Response(results, |results|);
      cache := cache[key := response];
      return Ok(response);
    }

    /** `health_check` on this service. */
    function Health(embedding: Result<Embedding>, statsError: Option<string>, activeConnections: int): (h: Health)
      reads this
      ensures h.Healthy? <==> embedding.Ok? && |embedding.value| > 0 && statsError.None?
      ensures h.Healthy? ==> h.cacheSize == |cache|
    {
      HealthCheck(embedding, statsError, |cache|, activeConnections)
    }
  }

  /** The class attribute `_instance` of `SearchService`. */
  class SearchServiceClass {
    var instance: SearchService?

    constructor()
      ensures instance == null
    {
      instance := null;
    }

    /** `SearchService()`: `__new__` hands out the one instance, creating it
        on the first call, and `__init__` then runs on it. The instance is
        kept even when `__init__` raises, and a later call initialises it
        again; once initialised it is returned as it is. */
    method Call(defaultTopK: int, connects: bool) returns (r: Result<SearchService>)
      modifies this, instance
      ensures instance != null
      ensures old(instance) == null ==> fresh(instance)
      ensures old(instance) != null ==> instance == old(instance)
      ensures old(instance) != null && old(instance.initialized) ==> r == Ok(instance) && unchanged(instance)
      ensures old(instance) == null || !old(instance.initialized) ==>
                (r.Ok? <==> connects) && instance.defaultTopK == defaultTopK
                && (r.Ok? ==> r.value == instance && instance.initialized && instance.cache == map[])
                && (r.Err? ==> !instance.initialized)
    {
      if instance == null {
        instance := new SearchService.Allocate();
      }
      var s := instance;
      var initResult := s.Init(defaultTopK, connects);
      if initResult.Err? {
        return Err(initResult.message);
      }
      return Ok(s);
    }
  }
}
