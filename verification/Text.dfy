/** Sequence searching shared by the response-conversion pipeline: the first
    occurrence of a pattern, and the longest tail of one sequence that could
    still grow into another.
 */
module Text {

  predicate OccursAt<T(==)>(s: seq<T>, t: seq<T>, i: int)
  {
    0 <= i && i + |t| <= |s| && s[i..i + |t|] == t
  }

  /** `r` is the position of the first occurrence of `t` in `s`, or -1. */
  ghost predicate IsIndex<T>(s: seq<T>, t: seq<T>, r: int)
  {
    -1 <= r &&
    (r >= 0 ==> OccursAt(s, t, r)) &&
    forall i | OccursAt(s, t, i) :: 0 <= r <= i
  }

  ghost function IndexOf<T>(s: seq<T>, t: seq<T>): (r: int)
    ensures IsIndex(s, t, r)
  {
    IndexExists(s, t, 0);
    var r :| IsIndex(s, t, r);
    r
  }

  lemma {:induction false} IndexExists<T>(s: seq<T>, t: seq<T>, from: nat)
    requires forall i | OccursAt(s, t, i) :: from <= i
    ensures exists r :: IsIndex(s, t, r)
    decreases |s| - from
  {
    if OccursAt(s, t, from) {
      assert IsIndex(s, t, from);
    } else if from <= |s| {
      IndexExists(s, t, from + 1);
    } else {
      assert IsIndex(s, t, -1);
    }
  }

  ghost predicate Contains<T>(s: seq<T>, t: seq<T>)
  {
    IndexOf(s, t) >= 0
  }

  /** `s` up to the first occurrence of `t`, or all of `s`. */
  ghost function Before<T>(s: seq<T>, t: seq<T>): seq<T>
  {
    if Contains(s, t) then s[..IndexOf(s, t)] else s
  }

  /** Left-to-right search. */
  method Index<T(==)>(s: seq<T>, t: seq<T>) returns (r: int)
    ensures r == IndexOf(s, t)
  {
    r := 0;
    while r + |t| <= |s|
      invariant 0 <= r
      invariant forall i | OccursAt(s, t, i) :: r <= i
    {
      if s[r..r + |t|] == t {
        assert OccursAt(s, t, r);
        return;
      }
      r := r + 1;
    }
    r := -1;
  }

  /** The last `j` elements of `a` are the first `j` elements of `b`. */
  predicate IsOverlap<T(==)>(a: seq<T>, b: seq<T>, j: int)
  {
    0 <= j <= |a| && j <= |b| && a[|a| - j..] == b[..j]
  }

  ghost predicate IsLongestOverlap<T>(a: seq<T>, b: seq<T>, k: int)
  {
    IsOverlap(a, b, k) && (b != [] ==> k < |b|) &&
    forall j | k < j < |b| :: !IsOverlap(a, b, j)
  }

  /** The longest overlap that stops short of the whole of `b`. */
  ghost function Overlap<T>(a: seq<T>, b: seq<T>): (k: nat)
    ensures IsLongestOverlap(a, b, k)
  {
    OverlapExists(a, b, if b == [] then 0 else |b| - 1);
    var k: nat :| IsLongestOverlap(a, b, k);
    k
  }

  lemma {:induction false} OverlapExists<T>(a: seq<T>, b: seq<T>, n: nat)
    requires b != [] ==> n < |b|
    requires forall j | n < j < |b| :: !IsOverlap(a, b, j)
    ensures exists k: nat :: IsLongestOverlap(a, b, k)
  {
    if IsOverlap(a, b, n) {
      assert IsLongestOverlap(a, b, n);
    } else if n > 0 {
      OverlapExists(a, b, n - 1);
    } else {
      assert a[|a|..] == b[..0];
    }
  }

  function Concat<T>(parts: seq<seq<T>>): seq<T>
  {
    if parts == [] then [] else parts[0] + Concat(parts[1..])
  }

  lemma OccursAtGrow<T>(s: seq<T>, t: seq<T>, d: seq<T>, i: int)
    requires 0 <= i && i + |t| <= |s|
    ensures OccursAt(s + d, t, i) <==> OccursAt(s, t, i)
  {
    assert (s + d)[i..i + |t|] == s[i..i + |t|];
  }

  /** An occurrence inside `s` is still the first one after `s` has grown. */
  lemma IndexOfGrow<T>(s: seq<T>, t: seq<T>, d: seq<T>)
    ensures Contains(s, t) ==> IndexOf(s + d, t) == IndexOf(s, t)
    ensures !Contains(s, t) && Contains(s + d, t) ==> IndexOf(s + d, t) + |t| > |s|
  {
    var r, q := IndexOf(s, t), IndexOf(s + d, t);
    if Contains(s, t) {
      OccursAtGrow(s, t, d, r);
    }
    if 0 <= q && q + |t| <= |s| {
      OccursAtGrow(s, t, d, q);
    }
  }

  /** Dropping `e` from the front moves every later occurrence down by |e|. */
  lemma OccursAtShift<T>(e: seq<T>, s: seq<T>, t: seq<T>, i: int)
    requires i >= 0
    ensures OccursAt(e + s, t, |e| + i) <==> OccursAt(s, t, i)
  {
    if i + |t| <= |s| {
      assert (e + s)[|e| + i..|e| + i + |t|] == s[i..i + |t|];
    }
  }

  /** An occurrence of `t` that starts in `z` and ends after it overlaps `z`. */
  lemma StraddleIsOverlap<T>(z: seq<T>, t: seq<T>, d: seq<T>, q: int)
    requires OccursAt(z + d, t, q) && q <= |z| <= q + |t|
    ensures IsOverlap(z, t, |z| - q)
  {
    var j := |z| - q;
    assert z[q..] == (z + d)[q..q + |t|][..j] == t[..j];
  }

  lemma HeldBackOccurrence<T>(z: seq<T>, t: seq<T>, d: seq<T>, q: int)
    requires t != [] && !Contains(z, t) && OccursAt(z + d, t, q)
    ensures q >= |z| - Overlap(z, t)
  {
    if q + |t| <= |z| {
      OccursAtGrow(z, t, d, q);
    } else if q <= |z| {
      StraddleIsOverlap(z, t, d, q);
    }
  }

  /** Searching only behind a held-back tail finds the first occurrence in the
      whole: holding back the longest partial match of `t` loses nothing.
   */
  lemma HoldBackIndex<T>(z: seq<T>, t: seq<T>, d: seq<T>)
    requires t != [] && !Contains(z, t)
    ensures var cut := |z| - Overlap(z, t);
            var i := IndexOf(z[cut..] + d, t);
            IndexOf(z + d, t) == (if i < 0 then -1 else cut + i)
  {
    var cut := |z| - Overlap(z, t);
    var e, rest := z[..cut], z[cut..] + d;
    assert z + d == e + rest;
    forall q | OccursAt(e + rest, t, q) ensures q >= cut {
      HeldBackOccurrence(z, t, d, q);
    }
    IndexOfShift(e, rest, t);
  }

  lemma IndexOfShift<T>(e: seq<T>, s: seq<T>, t: seq<T>)
    requires forall q | OccursAt(e + s, t, q) :: q >= |e|
    ensures IndexOf(e + s, t) == if Contains(s, t) then |e| + IndexOf(s, t) else -1
  {
    var q, i := IndexOf(e + s, t), IndexOf(s, t);
    if q >= 0 {
      OccursAtShift(e, s, t, q - |e|);
    }
    if i >= 0 {
      OccursAtShift(e, s, t, i);
    }
  }

  lemma OverlapGrow<T>(z: seq<T>, t: seq<T>, d: seq<T>, k: nat)
    requires |d| <= k && IsOverlap(z + d, t, k)
    ensures IsOverlap(z, t, k - |d|)
  {
    var j := k - |d|;
    assert z[|z| - j..] == (z + d)[|z + d| - k..][..j];
  }

  lemma OverlapInTail<T>(z: seq<T>, t: seq<T>, cut: nat, j: nat)
    requires cut <= |z| && j <= |z| - cut
    ensures IsOverlap(z[cut..], t, j) <==> IsOverlap(z, t, j)
  {
    assert z[cut..][|z| - cut - j..] == z[|z| - j..];
  }

  /** The tail to hold back after new input depends only on the tail already held. */
  lemma HoldBackOverlap<T>(z: seq<T>, t: seq<T>, d: seq<T>)
    requires t != []
    ensures Overlap(z[|z| - Overlap(z, t)..] + d, t) == Overlap(z + d, t)
  {
    var cut := |z| - Overlap(z, t);
    var held := (z + d)[cut..];
    assert held == z[cut..] + d;
    var k := Overlap(z + d, t);
    if k >= |d| {
      OverlapGrow(z, t, d, k);
    }
    OverlapInTail(z + d, t, cut, k);
    OverlapInTail(z + d, t, cut, Overlap(held, t));
  }

  lemma CutTwice<T>(s: seq<T>, n: nat, k: nat, x: seq<T>)
    requires n + k <= |s|
    ensures s[..n + k] + x == s[..n] + (s[n..][..k] + x)
  {
    assert s[..n + k] == s[..n] + s[n..][..k];
  }

  lemma NothingInNothing<T>(t: seq<T>)
    requires t != []
    ensures !Contains([], t) && Overlap([], t) == 0
  {
    assert !OccursAt([], t, IndexOf([], t));
  }

  lemma ConcatOne(a: string)
    ensures Concat([a]) == a
  {
    assert Concat([a]) == a + Concat([]) == a + "" == a;
  }

  lemma ConcatPair(a: string, b: string)
    ensures Concat([a, b]) == a + b
  {
    assert [a, b][1..] == [b];
    ConcatOne(b);
  }
}
