/** Values shared by the ingestion and search services: failure-compatible
    wrappers, catalog metadata records and the few Python built-ins
    (ceiling division of a `range` walk, clamped slicing, `str.endswith`)
    that the services rely on. */
module Common {

  datatype Option<+T> = None | Some(value: T)

  /** Either a value or the message of the exception the source raises. */
  datatype Result<+T> = Ok(value: T) | Err(message: string)

  /** A scalar that a catalog record or a vector's metadata can hold. */
  datatype Value = Str(s: string) | Int(i: int) | Bool(b: bool) | Real(r: real)

  /** A metadata record: the Python `dict` with string keys. */
  type Metadata = map<string, Value>

  type ChunkId = string

  /** An embedding vector as the embedding service returns it. */
  type Embedding = seq<real>

  /** `dict.get(key, default)`. */
  function Get(m: Metadata, key: string, default: Value): (v: Value)
    ensures key in m ==> v == m[key]
    ensures key !in m ==> v == default
  {
    if key in m then m[key] else default
  }

  /** Number of steps of `range(0, n, d)`, that is the ceiling of n / d. */
  function CeilDiv(n: nat, d: nat): nat
    requires d > 0
  {
    if n == 0 then 0 else if n <= d then 1 else 1 + CeilDiv(n - d, d)
  }

  /** The length of the first batch of `range(0, n, d)` slices: d, or
      what is left when fewer remain. */
  function FirstBatch(n: nat, d: nat): nat
  {
    if n <= d then n else d
  }

  /** A batch is one step of `range(0, n, d)`, so CeilDiv counts batches. */
  lemma CeilDivFirstBatch(n: nat, d: nat)
    requires d > 0 && n > 0
    ensures CeilDiv(n, d) == 1 + CeilDiv(n - FirstBatch(n, d), d)
  {
  }

  /** The slice `s[i:i + d]` is the first batch of what is left from i. */
  lemma BatchSplit<T>(s: seq<T>, i: nat, hi: nat, d: nat)
    requires i < |s| && hi == if i + d <= |s| then i + d else |s|
    ensures FirstBatch(|s[i..]|, d) == hi - i
    ensures s[i..][..hi - i] == s[i..hi] && s[i..][hi - i..] == s[hi..]
  {
  }

  lemma MulMono(a: nat, b: nat, d: nat)
    requires a <= b
    ensures a * d <= b * d
  {
  }

  lemma MulPred(k: nat, d: nat)
    requires k > 0
    ensures (k - 1) * d == k * d - d
  {
  }

  /** `range(0, n, d)` visits k * d for exactly the k below CeilDiv(n, d):
      CeilDiv(n, d) is the least count whose multiple of d reaches n. */
  lemma {:induction false} CeilDivSteps(n: nat, d: nat, k: nat)
    requires d > 0
    ensures k < CeilDiv(n, d) <==> k * d < n
    ensures CeilDiv(n, d) * d >= n
    ensures CeilDiv(n, d) == 0 || (CeilDiv(n, d) - 1) * d < n
  {
    if n == 0 {
    } else if n <= d {
      if k > 0 { MulMono(1, k, d); }
    } else {
      var c := CeilDiv(n - d, d);
      CeilDivSteps(n - d, d, if k > 0 then k - 1 else 0);
      MulPred(c + 1, d);
      if c > 0 { MulPred(c, d); }
      if k > 0 { MulPred(k, d); }
    }
  }

  lemma AppendAssoc<T>(x: seq<T>, y: seq<T>, z: seq<T>)
    ensures (x + y) + z == x + (y + z)
  {
  }

  /** One step of a list built by appending: `all` is `left` then `z`,
      `left` is x then y, so `all` is x then y and z. */
  lemma Regroup<T>(all: seq<T>, left: seq<T>, x: seq<T>, y: seq<T>, z: seq<T>, right: seq<T>)
    requires all == left + z && left == x + y && right == y + z
    ensures all == x + right
  {
    AppendAssoc(x, y, z);
  }

  /** The parts produced for each item in turn, where each item is numbered
      from `start` plus the sizes of the items before it (a running counter
      that the items share). */
  function Concat<D, C>(items: seq<D>, part: (D, nat) -> seq<C>, size: D -> nat, start: nat): seq<C>
  {
    if |items| == 0 then []
    else part(items[0], start) + Concat(items[1..], part, size, start + size(items[0]))
  }

  /** How far the shared counter advances over the items. */
  function TotalSize<D>(items: seq<D>, size: D -> nat): nat
  {
    if |items| == 0 then 0 else size(items[0]) + TotalSize(items[1..], size)
  }

  lemma {:induction false} TotalSizeAppend<D>(a: seq<D>, b: seq<D>, size: D -> nat)
    ensures TotalSize(a + b, size) == TotalSize(a, size) + TotalSize(b, size)
    decreases |a|
  {
    if |a| == 0 {
      assert a + b == b;
    } else {
      assert (a + b)[1..] == a[1..] + b;
      TotalSizeAppend(a[1..], b, size);
    }
  }

  /** Splitting the items splits the parts: those of `b` continue the
      counter where `a` left it. */
  lemma {:induction false} ConcatAppend<D, C>(a: seq<D>, b: seq<D>, part: (D, nat) -> seq<C>, size: D -> nat,
                                              start: nat)
    ensures Concat(a + b, part, size, start)
            == Concat(a, part, size, start) + Concat(b, part, size, start + TotalSize(a, size))
    decreases |a|
  {
    if |a| == 0 {
      assert a + b == b;
    } else {
      var next := start + size(a[0]);
      assert (a + b)[0] == a[0];
      assert (a + b)[1..] == a[1..] + b;
      ConcatAppend(a[1..], b, part, size, next);
      AppendAssoc(part(a[0], start), Concat(a[1..], part, size, next),
                  Concat(b, part, size, next + TotalSize(a[1..], size)));
    }
  }

  /** Python's `s[a:b]` for non-negative bounds: both ends clamped to the
      length, empty when the window is empty. */
  function PySlice<T>(s: seq<T>, a: nat, b: nat): seq<T>
  {
    if b <= a || a >= |s| then [] else s[a..if b <= |s| then b else |s|]
  }

  /** The slice holds the elements of `s` from `a` on, all `b - a` of them
      when the window fits, and is cut at the end of `s` otherwise. */
  lemma PySliceElements<T>(s: seq<T>, a: nat, b: nat)
    ensures var r := PySlice(s, a, b);
            |r| <= |s| && forall i :: 0 <= i < |r| ==> a + i < |s| && r[i] == s[a + i]
    ensures a <= b <= |s| ==> |PySlice(s, a, b)| == b - a
    ensures b > |s| ==> |PySlice(s, a, b)| == if a < |s| then |s| - a else 0
  {
  }

  /** `s.endswith(suffix)`. */
  predicate EndsWith(s: string, suffix: string)
    ensures EndsWith(s, suffix) <==> exists prefix :: s == prefix + suffix
  {
    assert |suffix| <= |s| ==> s == s[..|s| - |suffix|] + s[|s| - |suffix|..];
    |suffix| <= |s| && s[|s| - |suffix|..] == suffix
  }
}
