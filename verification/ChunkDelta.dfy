/** The upstream API sends cumulative text. `ComputeDelta` recovers what each
    chunk adds; chunks that do not extend the previous one are aligned by a
    Knuth-Morris-Pratt overlap search, generic here in the element type so that
    it covers the byte-level search of the original.
 */
module ChunkDelta {
  import opened Text

  /** Overlaps of a text with `b` no longer than a known overlap `k` are
      exactly the borders of `b[..k]`. */
  lemma OverlapsAreBorders<T>(x: seq<T>, b: seq<T>, k: nat, j: nat)
    requires IsOverlap(x, b, k) && j <= k
    ensures IsOverlap(x, b, j) <==> IsOverlap(b[..k], b[..k], j)
    ensures IsOverlap(b[..k], b, j) <==> IsOverlap(b[..k], b[..k], j)
  {
    assert b[..k][k - j..] == x[|x| - k..][k - j..] == x[|x| - j..];
    assert b[..k][..j] == b[..j];
  }

  /** Every non-empty overlap of `x + [c]` extends an overlap of `x` by `c`. */
  lemma OverlapExtends<T>(x: seq<T>, c: T, b: seq<T>, j: nat)
    requires j < |b|
    ensures IsOverlap(x + [c], b, j + 1) <==> IsOverlap(x, b, j) && b[j] == c
  {
    var y := x + [c];
    if j <= |x| {
      assert y[|y| - (j + 1)..] == x[|x| - j..] + [c];
      assert b[..j + 1] == b[..j] + [b[j]];
      if IsOverlap(y, b, j + 1) {
        assert x[|x| - j..] == y[|y| - (j + 1)..][..j] == b[..j];
      }
    }
  }

  /** The longest proper border of the first `k` elements of `b`. */
  ghost function Border<T>(b: seq<T>, k: nat): (r: nat)
    requires 0 < k <= |b|
    ensures r < k
  {
    Overlap(b[..k], b[..k])
  }

  /** `fail` holds, at every index below `n`, the longest proper border of the
      prefix of `b` that ends there. */
  ghost predicate IsFailureTable<T>(b: seq<T>, fail: array<nat>, n: nat)
    reads fail
  {
    n <= |b| == fail.Length &&
    forall i | 0 <= i < n :: fail[i] == Border(b, i + 1)
  }

  /** `k` is an overlap of `x`, and no longer one can be extended by `c`. */
  ghost predicate LongestExtendable<T>(x: seq<T>, c: T, b: seq<T>, k: nat)
  {
    k < |b| && IsOverlap(x, b, k) &&
    forall j | k < j < |b| && IsOverlap(x, b, j) :: b[j] != c
  }

  /** Falling back through the table keeps the candidate the longest one. */
  lemma FallBack<T>(x: seq<T>, c: T, b: seq<T>, k: nat)
    requires LongestExtendable(x, c, b, k) && k > 0 && b[k] != c
    ensures LongestExtendable(x, c, b, Border(b, k))
  {
    var k' := Border(b, k);
    OverlapsAreBorders(x, b, k, k');
    forall j | k' < j < |b| && IsOverlap(x, b, j) ensures b[j] != c {
      if j < k {
        OverlapsAreBorders(x, b, k, j);
      }
    }
  }

  /** Reading `c` turns the longest extendable overlap into the longest one. */
  lemma Advance<T>(x: seq<T>, c: T, b: seq<T>, k: nat)
    requires LongestExtendable(x, c, b, k) && (k == 0 || b[k] == c)
    ensures b[k] == c && k + 1 < |b| ==> Overlap(x + [c], b) == k + 1
    ensures b[k] == c && k + 1 == |b| ==> Overlap(x + [c], b) == Border(b, |b|)
    ensures b[k] != c ==> Overlap(x + [c], b) == 0
  {
    var y := x + [c];
    OverlapExtends(x, c, b, k);
    forall j: nat | k + 1 < j <= |b| ensures !IsOverlap(y, b, j) {
      OverlapExtends(x, c, b, j - 1);
    }
    if b[k] == c && k + 1 == |b| {
      assert b[..|b|] == b;
      OverlapsAreBorders(y, b, |b|, Overlap(y, b));
      OverlapsAreBorders(y, b, |b|, Overlap(b, b));
    } else if b[k] != c {
      assert k == 0;
    }
  }

  /** Building the table is the same search of `b` over its own tail `b[1..]`. */
  ghost predicate BorderCandidate<T>(b: seq<T>, i: nat, k: nat)
    requires 0 < i < |b|
  {
    k < i && LongestExtendable(b[1..i], b[i], b, k)
  }

  lemma BorderStart<T>(b: seq<T>, i: nat)
    requires 0 < i < |b|
    ensures BorderCandidate(b, i, Border(b, i))
  {
    BorderIsInnerOverlap(b, i);
  }

  lemma BorderFallBack<T>(b: seq<T>, i: nat, k: nat)
    requires 0 < i < |b| && BorderCandidate(b, i, k) && k > 0 && b[k] != b[i]
    ensures BorderCandidate(b, i, Border(b, k))
  {
    FallBack(b[1..i], b[i], b, k);
  }

  lemma BorderAdvance<T>(b: seq<T>, i: nat, k: nat)
    requires 0 < i < |b| && BorderCandidate(b, i, k) && (k == 0 || b[k] == b[i])
    ensures Border(b, i + 1) == if b[k] == b[i] then k + 1 else 0
  {
    assert b[1..i] + [b[i]] == b[1..i + 1];
    BorderIsInnerOverlap(b, i + 1);
    Advance(b[1..i], b[i], b, k);
  }

  lemma BorderIsInnerOverlap<T>(b: seq<T>, n: nat)
    requires 0 < n <= |b|
    ensures Border(b, n) == Overlap(b[1..n], b)
  {
    var p, q := b[..n], b[1..n];
    assert forall j | 0 <= j < n :: p[n - j..] == q[n - 1 - j..] && p[..j] == b[..j];
    assert forall j | 0 <= j < n :: IsOverlap(p, p, j) <==> IsOverlap(q, b, j);
  }

  method BuildFailureTable<T(==)>(b: seq<T>) returns (fail: array<nat>)
    requires b != []
    ensures fresh(fail) && IsFailureTable(b, fail, |b|)
  {
    fail := new nat[|b|];
    fail[0] := 0;
    var k: nat := 0;
    var i := 1;
    while i < |b|
      invariant 1 <= i <= |b|
      invariant IsFailureTable(b, fail, i)
      invariant k == Border(b, i)
    {
      BorderStart(b, i);
      while k > 0 && b[k] != b[i]
        invariant BorderCandidate(b, i, k)
        modifies {}
      {
        BorderFallBack(b, i, k);
        k := fail[k - 1];
      }
      BorderAdvance(b, i, k);
      if b[k] == b[i] {
        k := k + 1;
      }
      fail[i] := k;
      i := i + 1;
    }
  }

  /** Linear-time search for the longest overlap shorter than `b`. */
  method KmpOverlap<T(==)>(a: seq<T>, b: seq<T>) returns (k: nat)
    ensures k == Overlap(a, b)
  {
    if a == [] || b == [] {
      return 0;
    }
    var fail := BuildFailureTable(b);
    k := 0;
    var i := 0;
    while i < |a|
      invariant 0 <= i <= |a|
      invariant IsFailureTable(b, fail, |b|)
      invariant k == Overlap(a[..i], b)
    {
      ghost var x := a[..i];
      assert a[..i + 1] == x + [a[i]];
      while k > 0 && b[k] != a[i]
        invariant LongestExtendable(x, a[i], b, k)
        modifies {}
      {
        FallBack(x, a[i], b, k);
        k := fail[k - 1];
      }
      Advance(x, a[i], b, k);
      if b[k] == a[i] {
        k := k + 1;
      }
      if k == |b| {
        k := fail[k - 1];
      }
      i := i + 1;
    }
    assert a[..|a|] == a;
  }

  /** The overlap found is the longest of all exactly when `b` as a whole is not at
      the end of `a`, or empty. */
  lemma OverlapIsLongestOfAll<T>(a: seq<T>, b: seq<T>)
    ensures (forall j | IsOverlap(a, b, j) :: j <= Overlap(a, b)) <==> b == [] || !IsOverlap(a, b, |b|)
  {
    assert forall j | IsOverlap(a, b, j) :: j <= Overlap(a, b) || j == |b|;
  }

  /** What a cumulative `chunk` adds to `previous`. */
  ghost function Delta(chunk: string, previous: string): string
  {
    if previous == "" then chunk
    else if previous <= chunk then chunk[|previous|..]
    else if chunk <= previous then ""
    else chunk[Overlap(previous, chunk)..]
  }

  method ComputeDelta(chunk: string, previous: string) returns (d: string)
    ensures d == Delta(chunk, previous)
  {
    if previous == "" {
      return chunk;
    }
    if chunk == previous {
      return "";
    }
    if |chunk| > |previous| && chunk[..|previous|] == previous {
      return chunk[|previous|..];
    }
    if |previous| > |chunk| && previous[..|chunk|] == chunk {
      return "";
    }
    var overlap := KmpOverlap(previous, chunk);
    if overlap > 0 {
      return chunk[overlap..];
    }
    return chunk;
  }

  /** The text on screen always ends with the chunk just received, unless that
      chunk is a proper prefix of its predecessor; and nothing is emitted
      exactly for such shrunk or repeated chunks. In particular a chunk that
      merely repeats the tail of its predecessor is emitted again in part. */
  lemma DeltaLosesNothing(chunk: string, previous: string)
    ensures Delta(chunk, previous) == "" <==> chunk <= previous
    ensures !(chunk < previous) ==>
              var shown := previous + Delta(chunk, previous);
              |chunk| <= |shown| && shown[|shown| - |chunk|..] == chunk
  {
    var d := Delta(chunk, previous);
    var shown := previous + d;
    if previous != "" && !(previous <= chunk) && !(chunk <= previous) {
      var k := Overlap(previous, chunk);
      assert shown[|shown| - |chunk|..] == previous[|previous| - k..] + d;
      assert chunk == chunk[..k] + chunk[k..];
    }
  }

  ghost predicate IsCumulative(chunks: seq<string>)
  {
    forall i | 0 < i < |chunks| :: chunks[i - 1] <= chunks[i]
  }

  ghost function Deltas(chunks: seq<string>, previous: string): seq<string>
  {
    if chunks == [] then []
    else [Delta(chunks[0], previous)] + Deltas(chunks[1..], chunks[0])
  }

  /** Over a cumulative stream the deltas are a partition of the last chunk. */
  lemma {:induction false} CumulativeDeltas(chunks: seq<string>, previous: string)
    requires IsCumulative([previous] + chunks)
    ensures previous + Concat(Deltas(chunks, previous)) == ([previous] + chunks)[|chunks|]
  {
    if chunks != [] {
      var all := [previous] + chunks;
      assert all[0] <= all[1];
      assert [chunks[0]] + chunks[1..] == all[1..];
      CumulativeRest(all);
      CumulativeDeltas(chunks[1..], chunks[0]);
      DeltaAdds(chunks[0], previous, Concat(Deltas(chunks[1..], chunks[0])));
    }
  }

  lemma CumulativeRest(all: seq<string>)
    requires all != [] && IsCumulative(all)
    ensures IsCumulative(all[1..])
  {
    forall i | 0 < i < |all[1..]| ensures all[1..][i - 1] <= all[1..][i] {
      assert all[i] <= all[i + 1];
    }
  }

  lemma DeltaAdds(chunk: string, previous: string, rest: string)
    requires previous <= chunk
    ensures previous + (Delta(chunk, previous) + rest) == chunk + rest
  {
    assert previous + Delta(chunk, previous) == chunk;
  }
}
