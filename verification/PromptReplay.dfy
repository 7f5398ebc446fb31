/** What a committed request is worth to later ones: over any lookups and sweeps
    before it expires, a later request of the scope reads the share of the longest
    prefix the two have in common, and a repetition reads everything.
 */
module PromptReplay {
  import opened CacheKeys
  import opened PromptCache
  import opened PromptTracker

  /** What may happen between a commit and the request that profits from it. */
  datatype Act = Look(q: Request, prof: Profile, blocks: seq<Block>, at: nat) | Clean(at: nat)

  /** Well-formed requests, at times that do not go back, up to `until`. */
  predicate Orderly(acts: seq<Act>, from: nat, until: nat)
    decreases |acts|
  {
    if acts == [] then from <= until
    else
      from <= acts[0].at && (acts[0].Look? ==> PointsOf(acts[0].prof.points, acts[0].blocks)) &&
      Orderly(acts[1..], acts[0].at, until)
  }

  /** Lookups and sweeps take nothing away that is still live at the end, and add
      nothing. */
  method Perform(t: Tracker, acts: seq<Act>, until: nat)
    requires t.Valid() && Orderly(acts, t.clock, until)
    modifies t
    ensures t.Valid() && t.clock <= until && t.log == old(t.log)
    ensures Outlives(old(t.index), t.index, until) && NothingNew(old(t.index), t.index)
  {
    UntilEnd(acts, t.clock, until);
    for i := 0 to |acts|
      invariant t.Valid() && t.log == old(t.log) && Orderly(acts[i..], t.clock, until) && t.clock <= until
      invariant Outlives(old(t.index), t.index, until) && NothingNew(old(t.index), t.index)
    {
      ghost var before := t.index;
      var act := acts[i];
      assert acts[i..][0] == act && acts[i..][1..] == acts[i + 1..];
      UntilEnd(acts[i + 1..], act.at, until);
      match act {
        case Look(q, prof, blocks, at) => var _, _ := t.Compute(q, prof, blocks, at);
        case Clean(at) => var _ := t.Sweep(at);
      }
      OutlivesAll(old(t.index), before, t.index, act.at, until);
    }
  }

  lemma {:induction false} UntilEnd(acts: seq<Act>, from: nat, until: nat)
    requires Orderly(acts, from, until)
    ensures from <= until
    decreases |acts|
  {
    if acts != [] {
      UntilEnd(acts[1..], acts[0].at, until);
    }
  }

  lemma OutlivesAll(a: Index, b: Index, c: Index, now: nat, t: nat)
    requires Outlives(a, b, t) && NothingNew(a, b) && Outlives(b, c, now) && NothingNew(b, c) && now <= t
    ensures Outlives(a, c, t) && NothingNew(a, c)
  {
    OutlivesOn(a, b, c, now, t);
  }

  // ------------------------------------------------------- common prefixes

  /** The two block lists have the same first `n` canonical blocks. */
  predicate Common(a: seq<Block>, b: seq<Block>, n: nat)
  {
    0 < n <= |a| && n <= |b| && forall i | 0 <= i < n :: a[i].canonical == b[i].canonical
  }

  /** ... and no more than these. */
  predicate LongestCommon(a: seq<Block>, b: seq<Block>, n: nat)
  {
    Common(a, b, n) && (n == |a| || n == |b| || a[n].canonical != b[n].canonical)
  }

  lemma CommonCanonicals(a: seq<Block>, b: seq<Block>, n: nat)
    requires Common(a, b, n)
    ensures Canonicals(a[..n]) == Canonicals(b[..n])
  {
  }

  lemma SameCanonicalAt(a: seq<Block>, b: seq<Block>, k: nat, n: nat)
    requires n < k <= |a| && k <= |b| && Canonicals(a[..k]) == Canonicals(b[..k])
    ensures a[n].canonical == b[n].canonical
  {
    assert Canonicals(a[..k])[n] == a[n].canonical && Canonicals(b[..k])[n] == b[n].canonical;
  }

  /** Fingerprints of longer prefixes differ. */
  lemma LongerDiffers(a: seq<Block>, b: seq<Block>, n: nat, p: seq<Point>, q: seq<Point>, j: nat)
    requires LongestCommon(a, b, n) && PointsOf(p, a) && PointsOf(q, b) && n <= j < |b|
    ensures !IsPoint(p, q[j].fingerprint)
  {
    if IsPoint(p, q[j].fingerprint) {
      var i :| 0 <= i < |p| && p[i].fingerprint == q[j].fingerprint;
      SamePrefix(p, a, i, q, b, j);
      SameCanonicalAt(a, b, j + 1, n);
    }
  }

  /** No longer prefix of the request is known yet. */
  ghost predicate NoneLonger(index: Index, scope: string, points: seq<Point>, n: nat)
  {
    forall j | n <= j < |points| :: !Has(index, scope, points[j].fingerprint)
  }

  lemma NoneLongerAfter(index: Index, index1: Index, index2: Index, q: Request, prof: Profile, blocks: seq<Block>, now: nat,
                        prof2: Profile, blocks2: seq<Block>, n: nat)
    requires AddedBy(index1, index, q, prof, now) && NothingNew(index1, index2)
    requires PointsOf(prof.points, blocks) && PointsOf(prof2.points, blocks2) && LongestCommon(blocks, blocks2, n)
    requires NoneLonger(index, q.scope, prof2.points, n)
    ensures NoneLonger(index2, q.scope, prof2.points, n)
  {
    forall j | n <= j < |prof2.points| ensures !Has(index2, q.scope, prof2.points[j].fingerprint) {
      var f := prof2.points[j].fingerprint;
      LongerDiffers(blocks, blocks2, n, prof.points, prof2.points, j);
      if Has(index1, q.scope, f) {
        assert IsOldOrAdded(index1, index, q, prof, now, q.scope, f);
      }
    }
  }

  /** With the common prefix live and nothing longer, it is what is read. */
  lemma ReadsCommon(index: Index, scope: string, points: seq<Point>, minTokens: nat, now: nat, target: nat, read: nat, n: nat)
    requires 0 < n <= |points| && Usable(index, scope, points[n - 1], minTokens, now)
    requires NoneLonger(index, scope, points, n) && Reads(index, scope, points, minTokens, now, target, read)
    ensures read == Least(index[scope][points[n - 1].fingerprint].cached, target)
  {
  }

  /** The conditions under which a later request profits from a commit's first `n`
      blocks: enough tokens on both sides, and before the commit expires. */
  predicate Profits(q: Request, prof: Profile, t0: nat, q2: Request, prof2: Profile, n: nat, t1: nat)
  {
    Worth(q, prof) && 0 < n <= |prof.points| && n <= |prof2.points| && q2.scope == q.scope && Target(q2, prof2) > 0 &&
    Cached(q, prof, n - 1) >= q.minTokens && prof2.points[n - 1].tokens >= q2.minTokens && t1 < t0 + LastTTL(prof)
  }

  /** A request is committed, other requests are looked up and the index is swept,
      and a later request that shares exactly the first `n` blocks reads their
      share of the committed target, up to its own. */
  method CommitThenRead(t: Tracker, q: Request, prof: Profile, ghost blocks: seq<Block>, t0: nat, acts: seq<Act>,
                        q2: Request, prof2: Profile, ghost blocks2: seq<Block>, n: nat, t1: nat) returns (u: Usage)
    requires t.Valid() && t.clock <= t0 && PointsOf(prof.points, blocks) && PointsOf(prof2.points, blocks2)
    requires Orderly(acts, t0, t1) && LongestCommon(blocks, blocks2, n) && Profits(q, prof, t0, q2, prof2, n, t1)
    modifies t
    ensures t.Valid() && u.read + u.creation == Target(q2, prof2)
    ensures Room(old(t.index), q.scope, |prof.points|, t.maxScopes, t.maxEntries) &&
            NoneLonger(old(t.index), q.scope, prof2.points, n) ==>
              u.read == Least(Cached(q, prof, n - 1), Target(q2, prof2))
  {
    t.Update(q, prof, blocks, t0);
    ghost var index1 := t.index;
    Perform(t, acts, t1);
    ghost var index2 := t.index;
    ghost var hit;
    u, hit := t.Compute(q2, prof2, blocks2, t1);
    if Room(old(t.index), q.scope, |prof.points|, t.maxScopes, t.maxEntries) &&
       NoneLonger(old(t.index), q.scope, prof2.points, n) {
      NoneLongerAfter(old(t.index), index1, index2, q, prof, blocks, t0, prof2, blocks2, n);
      CommonUsable(index1, index2, q, prof, blocks, t0, q2, prof2, blocks2, n, t1);
      ReadsCommon(index2, q.scope, prof2.points, q2.minTokens, t1, Target(q2, prof2), u.read, n);
    }
  }

  lemma CommonUsable(index1: Index, index2: Index, q: Request, prof: Profile, blocks: seq<Block>, t0: nat,
                     q2: Request, prof2: Profile, blocks2: seq<Block>, n: nat, t1: nat)
    requires Profits(q, prof, t0, q2, prof2, n, t1) && Common(blocks, blocks2, n)
    requires PointsOf(prof.points, blocks) && PointsOf(prof2.points, blocks2)
    requires Kept(index1, q, prof, t0) && Outlives(index1, index2, t1)
    ensures var f := prof2.points[n - 1].fingerprint;
            Usable(index2, q.scope, prof2.points[n - 1], q2.minTokens, t1) &&
            index2[q.scope][f].cached == Cached(q, prof, n - 1)
  {
    var f := prof.points[n - 1].fingerprint;
    CommonCanonicals(blocks, blocks2, n);
    assert prof2.points[n - 1].fingerprint == f;
    assert KeptAt(index1, q, prof, t0, n - 1);
    assert Live(index1, q.scope, f, t1);
    assert Lasts(index1, index2, q.scope, f);
  }

  /** The repetition of a committed request before it expires reads the whole target
      and creates nothing, whatever was looked up or swept in between. */
  method CommitAndReplay(t: Tracker, q: Request, prof: Profile, ghost blocks: seq<Block>, t0: nat, acts: seq<Act>, t1: nat)
    returns (u: Usage)
    requires t.Valid() && t.clock <= t0 && PointsOf(prof.points, blocks)
    requires Worth(q, prof) && Flat(prof) >= q.minTokens
    requires Orderly(acts, t0, t1) && t1 < t0 + LastTTL(prof)
    modifies t
    ensures t.Valid()
    ensures Room(old(t.index), q.scope, |prof.points|, t.maxScopes, t.maxEntries) ==>
              u.read == Target(q, prof) && u.creation == 0
  {
    WholeShare(Flat(prof), Target(q, prof));
    WorthAtLeast(q, prof);
    u := CommitThenRead(t, q, prof, blocks, t0, acts, q, prof, blocks, |prof.points|, t1);
  }

  lemma WorthAtLeast(q: Request, prof: Profile)
    requires Worth(q, prof)
    ensures Target(q, prof) >= q.minTokens
  {
  }
}
