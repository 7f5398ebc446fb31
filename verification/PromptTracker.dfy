/** Commits, lookups and sweeps on the prompt-cache index, with the history of
    commits the index stands for.
 */
module PromptTracker {
  import opened Wrappers
  import opened Collections
  import opened CacheKeys
  import opened PromptCache

  /** A committed request. */
  datatype Commit = Commit(scope: string, blocks: seq<Block>)

  /** The fingerprint is that of a prefix of an earlier commit in the scope. */
  ghost predicate Sourced(log: seq<Commit>, scope: string, fp: string)
  {
    exists k: nat, n: nat :: k < |log| && SourcedBy(log[k], n, scope, fp)
  }

  ghost predicate SourcedBy(c: Commit, n: nat, scope: string, fp: string)
  {
    c.scope == scope && 0 < n <= |c.blocks| && fp == FrameAll(Canonicals(c.blocks[..n]))
  }

  /** An earlier commit in the scope starts with the same `n` canonical blocks. */
  ghost predicate SharesPrefix(log: seq<Commit>, scope: string, blocks: seq<Block>, n: nat)
  {
    0 < n <= |blocks| &&
    exists k :: 0 <= k < |log| && log[k].scope == scope && n <= |log[k].blocks| &&
                Canonicals(log[k].blocks[..n]) == Canonicals(blocks[..n])
  }

  lemma SourcedPrefix(log: seq<Commit>, scope: string, blocks: seq<Block>, n: nat)
    requires 0 < n <= |blocks| && Sourced(log, scope, FrameAll(Canonicals(blocks[..n])))
    ensures SharesPrefix(log, scope, blocks, n)
  {
    var k: nat, m: nat :| k < |log| && SourcedBy(log[k], m, scope, FrameAll(Canonicals(blocks[..n])));
    FramingInjective(Canonicals(blocks[..n]), Canonicals(log[k].blocks[..m]));
    assert |Canonicals(blocks[..n])| == n && |Canonicals(log[k].blocks[..m])| == m;
  }

  lemma SourcedGrows(log: seq<Commit>, c: Commit, scope: string, fp: string)
    requires Sourced(log, scope, fp)
    ensures Sourced(log + [c], scope, fp)
  {
    var k: nat, n: nat :| k < |log| && SourcedBy(log[k], n, scope, fp);
    assert (log + [c])[k] == log[k];
  }

  // ---------------------------------------------------------------- pruning

  function LiveBucket(b: Bucket, now: nat): Bucket
  {
    map f | f in b && now < b[f].expires :: b[f]
  }

  /** Expired entries, and scopes without any other, are gone. */
  function Pruned(index: Index, now: nat): Index
  {
    map s | s in index && LiveBucket(index[s], now) != map[] :: LiveBucket(index[s], now)
  }

  lemma PrunedOk(index: Index, now: nat)
    ensures var p := Pruned(index, now);
            NoEmptyScope(p) && Within(p, index) && |p| <= |index| && |Refs(p)| <= |Refs(index)|
  {
    var p := Pruned(index, now);
    KeysShrink(p, index);
    WithinRefs(p, index);
  }

  lemma WithinRefs(a: Index, b: Index)
    requires Within(a, b)
    ensures Refs(a) <= Refs(b) && |Refs(a)| <= |Refs(b)|
  {
    forall r | r in Refs(a) ensures r in Refs(b) {
      RefIsEntry(a, r);
      RefIsEntry(b, r);
    }
    assert Refs(b) == Refs(a) + (Refs(b) - Refs(a));
  }

  // ---------------------------------------------------------------- lookup

  predicate Live(index: Index, scope: string, fp: string, now: nat)
  {
    Has(index, scope, fp) && now < index[scope][fp].expires
  }

  predicate Usable(index: Index, scope: string, p: Point, minTokens: nat, now: nat)
  {
    p.tokens >= minTokens && Live(index, scope, p.fingerprint, now)
  }

  /** The longest usable prefix, searched from the end; -1 if none. */
  method Longest(index: Index, scope: string, points: seq<Point>, minTokens: nat, now: nat) returns (i: int)
    ensures IsLongest(index, scope, points, minTokens, now, i)
  {
    i := |points| - 1;
    while i >= 0
      invariant -1 <= i < |points|
      invariant forall j | i < j < |points| :: !Usable(index, scope, points[j], minTokens, now)
    {
      if Usable(index, scope, points[i], minTokens, now) {
        return;
      }
      i := i - 1;
    }
  }

  /** The entry hit gets a new lease of life. */
  function Touched(index: Index, scope: string, fp: string, now: nat): Index
    requires Has(index, scope, fp)
  {
    var e := index[scope][fp];
    index[scope := index[scope][fp := e.(expires := now + e.ttl)]]
  }

  lemma TouchedKeys(index: Index, scope: string, fp: string, now: nat)
    requires NoEmptyScope(index) && Has(index, scope, fp)
    ensures var t: Index := Touched(index, scope, fp, now);
            NoEmptyScope(t) && t.Keys == index.Keys && |t| == |index| &&
            forall s, f :: Has(t, s, f) <==> Has(index, s, f)
  {
    var t: Index := Touched(index, scope, fp, now);
    assert fp in t[scope];
    assert |t| == |t.Keys| && |index| == |index.Keys|;
  }

  lemma TouchedSize(index: Index, scope: string, fp: string, now: nat)
    requires Has(index, scope, fp)
    ensures |Refs(Touched(index, scope, fp, now))| == |Refs(index)|
  {
    var t: Index := Touched(index, scope, fp, now);
    var a, b := Ref(scope, fp, index[scope][fp].expires), Ref(scope, fp, t[scope][fp].expires);
    forall x ensures x in Refs(t) - {b} <==> x in Refs(index) - {a} {
      RefIsEntry(t, x);
      RefIsEntry(index, x);
    }
    RefIsEntry(t, b);
    RefIsEntry(index, a);
    assert Refs(t) == (Refs(t) - {b}) + {b} && Refs(index) == (Refs(index) - {a}) + {a};
    assert Refs(t) - {b} == Refs(index) - {a};
  }

  // ---------------------------------------------------------------- insert

  function BucketOf(index: Index, scope: string): Bucket
  {
    if scope in index then index[scope] else map[]
  }

  ghost predicate IsPoint(points: seq<Point>, f: string)
  {
    exists i :: 0 <= i < |points| && points[i].fingerprint == f
  }

  /** Nothing in the bucket but what was there and the given prefixes. */
  ghost predicate AddsOnly(b': Bucket, b: Bucket, points: seq<Point>)
  {
    forall f | f in b' :: (f in b && b'[f] == b[f]) || IsPoint(points, f)
  }

  /** Entries that were not there before are given one lifetime from `now`. */
  ghost predicate Dated(b': Bucket, b: Bucket, now: nat)
  {
    forall f | f in b' :: (f in b && b'[f] == b[f]) || b'[f].expires == now + b'[f].ttl
  }

  ghost predicate DistinctPoints(points: seq<Point>)
  {
    forall i, j | 0 <= i < j < |points| :: points[i].fingerprint != points[j].fingerprint
  }

  lemma PointsDistinct(points: seq<Point>, blocks: seq<Block>)
    requires PointsOf(points, blocks)
    ensures DistinctPoints(points)
  {
    forall i, j | 0 <= i < j < |points| ensures points[i].fingerprint != points[j].fingerprint {
      if points[i].fingerprint == points[j].fingerprint {
        SamePrefix(points, blocks, i, points, blocks, j);
      }
    }
  }

  function Flat(prof: Profile): nat
    requires prof.points != []
  {
    prof.points[|prof.points| - 1].tokens
  }

  /** The first `n` prefixes with enough tokens are stored with their share. */
  ghost predicate Stored(b: Bucket, prof: Profile, target: nat, minTokens: nat, now: nat, n: nat)
    requires prof.points != [] && Flat(prof) > 0 && n <= |prof.points|
  {
    forall i | 0 <= i < n && Share(prof.points[i].tokens, Flat(prof), target) >= minTokens ::
      prof.points[i].fingerprint in b &&
      b[prof.points[i].fingerprint] ==
      Entry(now + LastTTL(prof), LastTTL(prof), Share(prof.points[i].tokens, Flat(prof), target))
  }

  /** The bucket after a commit: one entry per prefix with enough tokens. */
  method InsertPoints(b: Bucket, prof: Profile, target: nat, minTokens: nat, now: nat) returns (b': Bucket)
    requires prof.points != [] && Flat(prof) > 0 && DistinctPoints(prof.points)
    requires 0 < target && minTokens <= target
    ensures AddsOnly(b', b, prof.points) && Dated(b', b, now)
    ensures Stored(b', prof, target, minTokens, now, |prof.points|)
  {
    var points := prof.points;
    var flat := Flat(prof);
    b' := b;
    for i := 0 to |points|
      invariant AddsOnly(b', b, points) && Dated(b', b, now)
      invariant Stored(b', prof, target, minTokens, now, i)
    {
      var cached := Share(points[i].tokens, flat, target);
      if cached >= minTokens {
        StoredNext(b', prof, target, minTokens, now, i);
        b' := b'[points[i].fingerprint := Entry(now + LastTTL(prof), LastTTL(prof), cached)];
      }
    }
  }

  lemma StoredNext(b: Bucket, prof: Profile, target: nat, minTokens: nat, now: nat, n: nat)
    requires prof.points != [] && Flat(prof) > 0 && n < |prof.points| && DistinctPoints(prof.points)
    requires Stored(b, prof, target, minTokens, now, n)
    ensures var p := prof.points[n];
            Stored(b[p.fingerprint := Entry(now + LastTTL(prof), LastTTL(prof), Share(p.tokens, Flat(prof), target))],
                   prof, target, minTokens, now, n + 1)
  {
  }

  /** A commit adds at most one entry for each of its prefixes. */
  lemma GrownSize(index: Index, scope: string, b': Bucket, points: seq<Point>)
    requires AddsOnly(b', BucketOf(index, scope), points)
    ensures |Refs(index[scope := b'])| <= |Refs(index)| + |points|
    ensures |index[scope := b']| <= |index| + (if scope in index then 0 else 1)
  {
    assert index[scope := b'].Keys == index.Keys + {scope};
    GrownRefs(index, scope, b', points);
  }

  lemma GrownRefs(index: Index, scope: string, b': Bucket, points: seq<Point>)
    requires AddsOnly(b', BucketOf(index, scope), points)
    ensures |Refs(index[scope := b'])| <= |Refs(index)| + |points|
  {
    var grown := index[scope := b'];
    var spots := set x | x in Refs(index) :: (x.scope, x.fp);
    var added := set i | 0 <= i < |points| :: (scope, points[i].fingerprint);
    var held := set x | x in Refs(grown) :: (x.scope, x.fp);
    forall x | x in Refs(grown) ensures (x.scope, x.fp) in spots + added {
      RefIsEntry(grown, x);
      if Has(index, x.scope, x.fp) {
        SpotOf(index, x.scope, x.fp);
      } else {
        assert IsPoint(points, x.fp);
        var i :| 0 <= i < |points| && points[i].fingerprint == x.fp;
        assert (scope, points[i].fingerprint) in added;
      }
    }
    assert held <= spots + added;
    SubsetSize(held, spots + added);
    SpotsSize(grown, Refs(grown));
    SpotsSize(index, Refs(index));
    AddedSize(scope, points);
  }

  lemma SpotOf(index: Index, s: string, f: string)
    requires Has(index, s, f)
    ensures (s, f) in set x | x in Refs(index) :: (x.scope, x.fp)
  {
    var y := Ref(s, f, index[s][f].expires);
    RefIsEntry(index, y);
    assert (y.scope, y.fp) == (s, f);
  }

  lemma {:induction false} SpotsSize(index: Index, refs: set<Ref>)
    requires refs <= Refs(index)
    ensures |(set x | x in refs :: (x.scope, x.fp))| == |refs|
    decreases |refs|
  {
    if refs != {} {
      var r :| r in refs;
      var rest := refs - {r};
      SpotsSize(index, rest);
      var spots := set x | x in rest :: (x.scope, x.fp);
      forall x | x in rest ensures (x.scope, x.fp) != (r.scope, r.fp) {
        RefIsEntry(index, x);
        RefIsEntry(index, r);
      }
      assert (set x | x in refs :: (x.scope, x.fp)) == spots + {(r.scope, r.fp)} by {
        assert refs == rest + {r};
      }
    }
  }

  lemma {:induction false} AddedSize(scope: string, points: seq<Point>)
    ensures |(set i | 0 <= i < |points| :: (scope, points[i].fingerprint))| <= |points|
  {
    if points != [] {
      var n := |points| - 1;
      var init := points[..n];
      AddedSize(scope, init);
      var added := set i | 0 <= i < |init| :: (scope, init[i].fingerprint);
      assert (set i | 0 <= i < |points| :: (scope, points[i].fingerprint))
             == added + {(scope, points[n].fingerprint)} by {
        assert forall i | 0 <= i < n :: init[i] == points[i];
      }
    }
  }

  // --------------------------------------------------------------- tracker

  /** The knobs of one request: its scope, ratio and position within the spread,
      and the model's minimum. */
  datatype Request = Request(scope: string, ratio: real, unit: real, minTokens: nat)

  function Target(q: Request, prof: Profile): nat
  {
    TargetTokens(prof.total, EffectiveRatio(q.unit, q.ratio), q.minTokens)
  }

  /** Within the memory bounds, with no empty scope. */
  ghost predicate Bounded(index: Index, maxScopes: nat, maxEntries: nat)
  {
    NoEmptyScope(index) && |index| <= maxScopes && |Refs(index)| <= maxEntries
  }

  /** Nothing in the index that was not committed. */
  ghost predicate AllSourced(index: Index, log: seq<Commit>)
  {
    forall s, f | Has(index, s, f) :: Sourced(log, s, f)
  }

  lemma WithinSourced(a: Index, b: Index, log: seq<Commit>)
    requires Within(a, b) && AllSourced(b, log)
    ensures AllSourced(a, log)
  {
  }

  lemma CommitSources(log: seq<Commit>, index: Index, b': Bucket, scope: string, points: seq<Point>, blocks: seq<Block>)
    requires PointsOf(points, blocks) && AllSourced(index, log)
    requires AddsOnly(b', BucketOf(index, scope), points)
    ensures AllSourced(index[scope := b'], log + [Commit(scope, blocks)])
  {
    var c := Commit(scope, blocks);
    forall s, f | Has(index[scope := b'], s, f) ensures Sourced(log + [c], s, f) {
      if Has(index, s, f) {
        SourcedGrows(log, c, s, f);
      } else {
        assert IsPoint(points, f);
        var i :| 0 <= i < |points| && points[i].fingerprint == f;
        assert (log + [c])[|log|] == c && SourcedBy(c, i + 1, s, f);
      }
    }
  }

  function Least(a: nat, b: nat): nat
  {
    if a < b then a else b
  }

  /** What a lookup reads: the entry of the longest usable prefix, up to the target. */
  ghost predicate Reads(index: Index, scope: string, points: seq<Point>, minTokens: nat, now: nat, target: nat, read: nat)
  {
    (read == 0 && forall j | 0 <= j < |points| :: !Usable(index, scope, points[j], minTokens, now)) ||
    exists i :: 0 <= i < |points| && Usable(index, scope, points[i], minTokens, now) &&
                (forall j | i < j < |points| :: !Usable(index, scope, points[j], minTokens, now)) &&
                read == Least(index[scope][points[i].fingerprint].cached, target)
  }

  /** Pruning removes nothing a lookup could use. */
  lemma PruningReadsSame(index: Index, scope: string, points: seq<Point>, minTokens: nat, now: nat, target: nat, read: nat)
    requires Reads(Pruned(index, now), scope, points, minTokens, now, target, read)
    ensures Reads(index, scope, points, minTokens, now, target, read)
  {
    forall j | 0 <= j < |points|
      ensures Usable(Pruned(index, now), scope, points[j], minTokens, now) <==> Usable(index, scope, points[j], minTokens, now)
    {
      PrunedLive(index, scope, points[j].fingerprint, now);
    }
  }

  lemma PrunedLive(index: Index, s: string, f: string, now: nat)
    ensures Live(Pruned(index, now), s, f, now) <==> Live(index, s, f, now)
    ensures Live(index, s, f, now) ==> Pruned(index, now)[s][f] == index[s][f]
  {
    if Live(index, s, f, now) {
      assert f in LiveBucket(index[s], now);
    }
  }

  /** A cache read has a live prefix of an earlier commit behind it. */
  lemma ReadsAreShared(log: seq<Commit>, index: Index, scope: string, points: seq<Point>, blocks: seq<Block>,
                       minTokens: nat, now: nat, target: nat, read: nat)
    requires AllSourced(index, log) && PointsOf(points, blocks)
    requires Reads(index, scope, points, minTokens, now, target, read) && read > 0
    ensures exists n :: SharedLive(log, index, scope, blocks, n, now)
  {
    var i :| 0 <= i < |points| && Usable(index, scope, points[i], minTokens, now);
    assert points[i].fingerprint == FrameAll(Canonicals(blocks[..i + 1]));
    SourcedPrefix(log, scope, blocks, i + 1);
    assert SharedLive(log, index, scope, blocks, i + 1, now);
  }

  ghost predicate SharedLive(log: seq<Commit>, index: Index, scope: string, blocks: seq<Block>, n: nat, now: nat)
  {
    SharesPrefix(log, scope, blocks, n) && Live(index, scope, FrameAll(Canonicals(blocks[..n])), now)
  }

  // --------------------------------------------------------- what survives

  /** No entry expires later than one lifetime from the latest time seen. */
  ghost predicate Timed(index: Index, clock: nat)
  {
    forall s, f | Has(index, s, f) :: index[s][f].expires <= clock + index[s][f].ttl
  }

  /** What is live at `t` stays as it is, and lives no shorter. */
  ghost predicate Outlives(old_: Index, index: Index, t: nat)
  {
    forall s, f | Live(old_, s, f, t) :: Lasts(old_, index, s, f)
  }

  ghost predicate Lasts(old_: Index, index: Index, s: string, f: string)
    requires Has(old_, s, f)
  {
    Has(index, s, f) && index[s][f].cached == old_[s][f].cached && index[s][f].ttl == old_[s][f].ttl &&
    index[s][f].expires >= old_[s][f].expires
  }

  ghost predicate NothingNew(old_: Index, index: Index)
  {
    forall s, f | Has(index, s, f) :: Has(old_, s, f)
  }

  lemma OutlivesOn(a: Index, b: Index, c: Index, now: nat, t: nat)
    requires Outlives(a, b, t) && Outlives(b, c, now) && now <= t
    ensures Outlives(a, c, t)
  {
    forall s, f | Live(a, s, f, t) ensures Lasts(a, c, s, f) {
      assert Lasts(a, b, s, f) && Live(b, s, f, now);
      assert Lasts(b, c, s, f);
    }
  }

  lemma PrunedSurvives(index: Index, now: nat, clock: nat)
    requires Timed(index, clock)
    ensures Outlives(index, Pruned(index, now), now) && NothingNew(index, Pruned(index, now)) && Timed(Pruned(index, now), clock)
  {
    forall s, f | Live(index, s, f, now) ensures Lasts(index, Pruned(index, now), s, f) {
      PrunedLive(index, s, f, now);
    }
  }

  lemma TouchedSurvives(index: Index, scope: string, fp: string, now: nat, clock: nat)
    requires Has(index, scope, fp) && Timed(index, clock)
    ensures var t: Index := Touched(index, scope, fp, now);
            Timed(t, Later(clock, now)) && (clock <= now ==> Outlives(index, t, now))
  {
  }

  function Later(a: nat, b: nat): nat
  {
    if a < b then b else a
  }

  /** Looks a request up in a pruned index, renewing the entry it hits: that of the
      longest usable prefix, and no other. */
  method Lookup(index: Index, scope: string, points: seq<Point>, minTokens: nat, now: nat, target: nat, ghost clock: nat)
    returns (read: nat, index': Index, ghost hit: int)
    requires NoEmptyScope(index) && Timed(index, clock)
    ensures read <= target && Reads(index, scope, points, minTokens, now, target, read)
    ensures NoEmptyScope(index') && |index'| == |index| && |Refs(index')| == |Refs(index)|
    ensures NothingNew(index, index')
    ensures IsLongest(index, scope, points, minTokens, now, hit)
    ensures index' == if hit < 0 then index else Touched(index, scope, points[hit].fingerprint, now)
    ensures Timed(index', Later(clock, now)) && (clock <= now ==> Outlives(index, index', now))
  {
    var i := Longest(index, scope, points, minTokens, now);
    read, index', hit := 0, index, i;
    if i >= 0 {
      var fp := points[i].fingerprint;
      read := Least(index[scope][fp].cached, target);
      TouchedKeys(index, scope, fp, now);
      TouchedSize(index, scope, fp, now);
      TouchedSurvives(index, scope, fp, now, clock);
      index' := Touched(index, scope, fp, now);
    }
  }

  /** `i` is the last usable point, or -1 if there is none. */
  ghost predicate IsLongest(index: Index, scope: string, points: seq<Point>, minTokens: nat, now: nat, i: int)
  {
    -1 <= i < |points| && (i >= 0 ==> Usable(index, scope, points[i], minTokens, now)) &&
    forall j | i < j < |points| :: !Usable(index, scope, points[j], minTokens, now)
  }

  /** Everything a tracker keeps of its index. */
  ghost predicate Whole(index: Index, maxScopes: nat, maxEntries: nat, log: seq<Commit>, clock: nat)
  {
    Bounded(index, maxScopes, maxEntries) && AllSourced(index, log) && Timed(index, clock)
  }

  /** Pruning an index within the bounds leaves the bounds nothing to remove. */
  method SweptIndex(index: Index, maxScopes: nat, maxEntries: nat, now: nat, ghost log: seq<Commit>, ghost clock: nat)
    returns (index': Index, removed: nat)
    requires Whole(index, maxScopes, maxEntries, log, clock)
    ensures index' == Pruned(index, now) && Whole(index', maxScopes, maxEntries, log, Later(clock, now))
    ensures removed == |Refs(index)| - |Refs(index')|
    ensures NothingNew(index, index') && Outlives(index, index', now)
  {
    PrunedOk(index, now);
    PrunedAll(index, now, clock, log);
    var before := EntryCount(index);
    ghost var mid;
    index', mid := EnforceLimits(Pruned(index, now), maxScopes, maxEntries);
    var after := EntryCount(index');
    removed := before - after;
  }

  /** The index with a commit's prefixes added, before the bounds. */
  method Grown(index: Index, q: Request, prof: Profile, now: nat, ghost log: seq<Commit>, ghost blocks: seq<Block>)
    returns (grown: Index)
    requires NoEmptyScope(index) && Worth(q, prof) && PointsOf(prof.points, blocks) && AllSourced(index, log)
    ensures NoEmptyScope(grown) && AllSourced(grown, log + [Commit(q.scope, blocks)])
    ensures Kept(grown, q, prof, now) && AddedBy(grown, index, q, prof, now)
    ensures |grown| <= |index| + (if q.scope in index then 0 else 1)
    ensures |Refs(grown)| <= |Refs(index)| + |prof.points|
  {
    PointsDistinct(prof.points, blocks);
    var b := BucketOf(index, q.scope);
    var b' := InsertPoints(b, prof, Target(q, prof), q.minTokens, now);
    grown := index[q.scope := b'];
    CommitSources(log, index, b', q.scope, prof.points, blocks);
    GrownSize(index, q.scope, b', prof.points);
    GrownKeeps(index, q, prof, now, b');
  }

  lemma GrownKeeps(index: Index, q: Request, prof: Profile, now: nat, b': Bucket)
    requires NoEmptyScope(index) && Worth(q, prof)
    requires AddsOnly(b', BucketOf(index, q.scope), prof.points) && Dated(b', BucketOf(index, q.scope), now)
    requires Stored(b', prof, Target(q, prof), q.minTokens, now, |prof.points|)
    ensures var grown := index[q.scope := b'];
            NoEmptyScope(grown) && Kept(grown, q, prof, now) && AddedBy(grown, index, q, prof, now)
  {
    var grown := index[q.scope := b'];
    WholeShare(Flat(prof), Target(q, prof));
    assert prof.points[|prof.points| - 1].fingerprint in b';
    forall i | 0 <= i < |prof.points| ensures KeptAt(grown, q, prof, now, i) {
    }
  }

  /** The index after a commit: bounded, and whole when there is room. */
  method Committed(index: Index, q: Request, prof: Profile, maxScopes: nat, maxEntries: nat, now: nat,
                   ghost log: seq<Commit>, ghost blocks: seq<Block>)
    returns (index': Index)
    requires NoEmptyScope(index) && Worth(q, prof) && PointsOf(prof.points, blocks) && AllSourced(index, log)
    ensures Bounded(index', maxScopes, maxEntries)
    ensures AllSourced(index', log + [Commit(q.scope, blocks)])
    ensures AddedBy(index', index, q, prof, now)
    ensures Room(index, q.scope, |prof.points|, maxScopes, maxEntries) ==> Kept(index', q, prof, now)
  {
    var grown := Grown(index, q, prof, now, log, blocks);
    ghost var mid;
    index', mid := EnforceLimits(grown, maxScopes, maxEntries);
    WithinSourced(index', grown, log + [Commit(q.scope, blocks)]);
    WithinAdded(index', grown, index, q, prof, now);
  }

  lemma WithinAdded(index': Index, grown: Index, index: Index, q: Request, prof: Profile, now: nat)
    requires Within(index', grown) && AddedBy(grown, index, q, prof, now)
    ensures AddedBy(index', index, q, prof, now)
  {
    forall s, f | Has(index', s, f) ensures IsOldOrAdded(index', index, q, prof, now, s, f) {
      assert IsOldOrAdded(grown, index, q, prof, now, s, f);
    }
  }

  /** Everything a lookup promises of the index it was asked on, and of the one it
      leaves. */
  ghost predicate Consulted(old_: Index, index: Index, q: Request, prof: Profile, now: nat, clock: nat, target: nat, read: nat, hit: int)
  {
    Reads(old_, q.scope, prof.points, q.minTokens, now, target, read) &&
    IsLongest(old_, q.scope, prof.points, q.minTokens, now, hit) &&
    (hit >= 0 ==> Renewed(old_, index, q.scope, prof.points[hit].fingerprint, now)) &&
    NothingNew(old_, index) && (clock <= now ==> Outlives(old_, index, now))
  }

  lemma SourcedStill(index: Index, next: Index, log: seq<Commit>)
    requires AllSourced(index, log) && NothingNew(index, next)
    ensures AllSourced(next, log)
  {
    forall s, f | Has(next, s, f) ensures Sourced(log, s, f) {
      assert Has(index, s, f);
    }
  }

  lemma ConsultedThrough(old_: Index, index: Index, next: Index, q: Request, prof: Profile, now: nat, clock: nat,
                         target: nat, read: nat, hit: int)
    requires (index == old_ || index == Pruned(old_, now)) && Timed(old_, clock)
    requires Reads(index, q.scope, prof.points, q.minTokens, now, target, read)
    requires IsLongest(index, q.scope, prof.points, q.minTokens, now, hit)
    requires next == if hit < 0 then index else Touched(index, q.scope, prof.points[hit].fingerprint, now)
    requires NothingNew(index, next) && (clock <= now ==> Outlives(index, next, now))
    ensures Consulted(old_, next, q, prof, now, clock, target, read, hit)
  {
    if index != old_ {
      PruningReadsSame(old_, q.scope, prof.points, q.minTokens, now, target, read);
      PruningHitsSame(old_, q.scope, prof.points, q.minTokens, now, hit);
    }
    SurvivesBoth(old_, index, next, now, clock);
  }

  /** The lookup proper, on an index that may just have been pruned. */
  method Consult(ghost old_: Index, index: Index, q: Request, prof: Profile, ghost blocks: seq<Block>, now: nat,
                 target: nat, ghost clock: nat, ghost log: seq<Commit>, ghost maxScopes: nat, ghost maxEntries: nat)
    returns (read: nat, next: Index, ghost hit: int)
    requires PointsOf(prof.points, blocks)
    requires (index == old_ || index == Pruned(old_, now)) && Bounded(index, maxScopes, maxEntries)
    requires AllSourced(old_, log) && AllSourced(index, log) && Timed(old_, clock) && Timed(index, clock)
    ensures read <= target && Consulted(old_, next, q, prof, now, clock, target, read, hit)
    ensures read > 0 ==> exists n :: SharedLive(log, old_, q.scope, blocks, n, now)
    ensures Bounded(next, maxScopes, maxEntries) && AllSourced(next, log) && Timed(next, Later(clock, now))
  {
    read, next, hit := Lookup(index, q.scope, prof.points, q.minTokens, now, target, clock);
    ConsultedThrough(old_, index, next, q, prof, now, clock, target, read, hit);
    if read > 0 {
      ReadsAreShared(log, old_, q.scope, prof.points, blocks, q.minTokens, now, target, read);
    }
    SourcedStill(index, next, log);
  }

  function UsageOf(prof: Profile, target: nat, read: nat): (u: Usage)
    requires read <= target
    ensures u.read == read && u.read + u.creation == target && u.creation5m + u.creation1h == u.creation
  {
    Created(prof, target - read).(read := read)
  }

  /** What pruning at `now` leaves of a tracker's index. */
  lemma PrunedAll(index: Index, now: nat, clock: nat, log: seq<Commit>)
    requires AllSourced(index, log) && Timed(index, clock)
    ensures var p := Pruned(index, now);
            AllSourced(p, log) && Timed(p, clock) && Timed(p, Later(clock, now)) &&
            NothingNew(index, p) && Outlives(index, p, now)
  {
    PrunedOk(index, now);
    WithinSourced(Pruned(index, now), index, log);
    PrunedSurvives(index, now, clock);
    TimedLater(Pruned(index, now), clock, Later(clock, now));
  }

  lemma TimedLater(index: Index, clock: nat, later: nat)
    requires Timed(index, clock) && clock <= later
    ensures Timed(index, later)
  {
  }

  lemma PrunedBounded(index: Index, now: nat, maxScopes: nat, maxEntries: nat)
    requires Bounded(index, maxScopes, maxEntries)
    ensures Bounded(Pruned(index, now), maxScopes, maxEntries)
  {
    PrunedOk(index, now);
  }

  class Tracker {
    const maxScopes: nat
    const maxEntries: nat
    var index: Index
    var lastPrune: Option<nat>
    ghost var log: seq<Commit>
    ghost var clock: nat

    ghost predicate Valid()
      reads this
    {
      Whole(index, maxScopes, maxEntries, log, clock)
    }

    constructor (maxScopes: nat, maxEntries: nat)
      ensures Valid() && index == map[] && log == [] && clock == 0
      ensures this.maxScopes == maxScopes && this.maxEntries == maxEntries
    {
      this.maxScopes, this.maxEntries := maxScopes, maxEntries;
      index, lastPrune, log, clock := map[], None, [], 0;
      assert Refs(map[]) == {};
    }

    method PruneIfDue(now: nat)
      requires Valid()
      modifies `index, `lastPrune
      ensures Valid() && (index == old(index) || index == Pruned(old(index), now))
    {
      if lastPrune.Some? && now - lastPrune.value < PRUNE_INTERVAL {
        return;
      }
      PrunedBounded(index, now, maxScopes, maxEntries);
      PrunedAll(index, now, clock, log);
      index := Pruned(index, now);
      lastPrune := Some(now);
    }

    /** The simulated usage of a request. Nothing live is lost, and unless the
        clock went back nothing lives shorter; the entry hit is renewed. */
    method Compute(q: Request, prof: Profile, ghost blocks: seq<Block>, now: nat) returns (u: Usage, ghost hit: int)
      requires Valid() && PointsOf(prof.points, blocks)
      modifies `index, `lastPrune, `clock
      ensures Valid() && clock == Later(old(clock), now)
      ensures u.read <= Target(q, prof) && u == UsageOf(prof, Target(q, prof), u.read)
      ensures u.read + u.creation == Target(q, prof) && u.creation5m + u.creation1h == u.creation
      ensures u != NONE ==> u.read + u.creation < prof.total
      ensures Target(q, prof) > 0 ==> Consulted(old(index), index, q, prof, now, old(clock), Target(q, prof), u.read, hit)
      ensures Target(q, prof) == 0 ==> index == old(index)
      ensures u.read > 0 ==> exists n :: SharedLive(log, old(index), q.scope, blocks, n, now)
    {
      var target := Target(q, prof);
      hit := -1;
      clock := Later(clock, now);
      if target == 0 {
        return NONE, hit;
      }
      PruneIfDue(now);
      var read;
      read, index, hit := Consult(old(index), index, q, prof, blocks, now, target, old(clock), log, maxScopes, maxEntries);
      u := UsageOf(prof, target, read);
    }

    /** Records a request whose simulated usage was reported. The commit stays in
        the index whole when there is room for it. */
    method Update(q: Request, prof: Profile, ghost blocks: seq<Block>, now: nat)
      requires Valid() && PointsOf(prof.points, blocks)
      modifies this
      ensures Valid() && clock == Later(old(clock), now)
      ensures log == old(log) || log == old(log) + [Commit(q.scope, blocks)]
      ensures Worth(q, prof) ==> AddedBy(index, old(index), q, prof, now)
      ensures Worth(q, prof) && Room(old(index), q.scope, |prof.points|, maxScopes, maxEntries) ==> Kept(index, q, prof, now)
    {
      var target := Target(q, prof);
      if target == 0 || |prof.points| == 0 || Flat(prof) == 0 {
        clock := Later(clock, now);
        return;
      }
      PruneIfDue(now);
      ghost var pruned := index;
      PrunedSurvives(old(index), now, old(clock));
      if Room(old(index), q.scope, |prof.points|, maxScopes, maxEntries) {
        RoomAfterPrune(old(index), index, now, q.scope, |prof.points|, maxScopes, maxEntries);
      }
      index := Committed(index, q, prof, maxScopes, maxEntries, now, log, blocks);
      AddedToOld(index, pruned, old(index), q, prof, now, old(clock));
      log := log + [Commit(q.scope, blocks)];
      clock := Later(clock, now);
    }

    /** Removes expired entries; the bounds then hold already. */
    method Sweep(now: nat) returns (removed: nat)
      requires Valid()
      modifies `index, `lastPrune, `clock
      ensures Valid() && index == Pruned(old(index), now) && clock == Later(old(clock), now)
      ensures removed == |Refs(old(index))| - |Refs(index)|
      ensures NothingNew(old(index), index) && Outlives(old(index), index, now)
    {
      index, removed := SweptIndex(index, maxScopes, maxEntries, now, log, clock);
      lastPrune, clock := Some(now), Later(clock, now);
    }
  }

  /** The entry has one lifetime again. */
  ghost predicate Renewed(old_: Index, index: Index, s: string, f: string, now: nat)
  {
    Has(old_, s, f) && Has(index, s, f) && index[s][f] == old_[s][f].(expires := now + old_[s][f].ttl)
  }

  lemma PruningHitsSame(index: Index, scope: string, points: seq<Point>, minTokens: nat, now: nat, hit: int)
    requires IsLongest(Pruned(index, now), scope, points, minTokens, now, hit)
    ensures IsLongest(index, scope, points, minTokens, now, hit)
    ensures hit >= 0 ==> Pruned(index, now)[scope][points[hit].fingerprint] == index[scope][points[hit].fingerprint]
  {
    forall j | 0 <= j < |points|
      ensures Usable(Pruned(index, now), scope, points[j], minTokens, now) <==> Usable(index, scope, points[j], minTokens, now)
    {
      PrunedLive(index, scope, points[j].fingerprint, now);
    }
    if hit >= 0 {
      PrunedLive(index, scope, points[hit].fingerprint, now);
    }
  }

  lemma SurvivesBoth(old_: Index, pruned: Index, next: Index, now: nat, clock: nat)
    requires pruned == old_ || pruned == Pruned(old_, now)
    requires Timed(old_, clock) && NothingNew(pruned, next) && (clock <= now ==> Outlives(pruned, next, now))
    ensures NothingNew(old_, next) && (clock <= now ==> Outlives(old_, next, now))
  {
    PrunedSurvives(old_, now, clock);
    if clock <= now && pruned != old_ {
      OutlivesOn(old_, pruned, next, now, now);
    }
  }

  /** The request has something to cache. */
  predicate Worth(q: Request, prof: Profile)
  {
    Target(q, prof) > 0 && prof.points != [] && Flat(prof) > 0
  }

  /** What a commit caches of its first `i + 1` blocks. */
  function Cached(q: Request, prof: Profile, i: nat): nat
    requires Worth(q, prof) && i < |prof.points|
  {
    Share(prof.points[i].tokens, Flat(prof), Target(q, prof))
  }

  ghost predicate KeptAt(index: Index, q: Request, prof: Profile, now: nat, i: nat)
    requires Worth(q, prof) && i < |prof.points|
  {
    var f := prof.points[i].fingerprint;
    Cached(q, prof, i) >= q.minTokens ==>
      Has(index, q.scope, f) && index[q.scope][f] == Entry(now + LastTTL(prof), LastTTL(prof), Cached(q, prof, i))
  }

  /** Every prefix with enough tokens stands in the index with its share. */
  ghost predicate Kept(index: Index, q: Request, prof: Profile, now: nat)
    requires Worth(q, prof)
  {
    forall i: nat | i < |prof.points| :: KeptAt(index, q, prof, now, i)
  }

  /** An entry was there before, or is a prefix of the commit dated now. */
  ghost predicate IsOldOrAdded(index': Index, index: Index, q: Request, prof: Profile, now: nat, s: string, f: string)
    requires Has(index', s, f)
  {
    (Has(index, s, f) && index'[s][f] == index[s][f]) ||
    (s == q.scope && IsPoint(prof.points, f) && index'[s][f].expires == now + index'[s][f].ttl)
  }

  ghost predicate AddedBy(index': Index, index: Index, q: Request, prof: Profile, now: nat)
  {
    forall s, f | Has(index', s, f) :: IsOldOrAdded(index', index, q, prof, now, s, f)
  }

  lemma AddedToOld(index': Index, pruned: Index, old_: Index, q: Request, prof: Profile, now: nat, clock: nat)
    requires pruned == old_ || pruned == Pruned(old_, now)
    requires AddedBy(index', pruned, q, prof, now) && Timed(old_, clock)
    ensures AddedBy(index', old_, q, prof, now) && Timed(index', Later(clock, now))
  {
    forall s, f | Has(index', s, f)
      ensures IsOldOrAdded(index', old_, q, prof, now, s, f) && index'[s][f].expires <= Later(clock, now) + index'[s][f].ttl
    {
      assert IsOldOrAdded(index', pruned, q, prof, now, s, f);
      assert Has(pruned, s, f) ==> Has(old_, s, f) && pruned[s][f] == old_[s][f];
    }
  }

  /** `n` more entries in the scope break no bound. */
  ghost predicate Room(index: Index, scope: string, n: nat, maxScopes: nat, maxEntries: nat)
  {
    |index| + (if scope in index then 0 else 1) <= maxScopes && |Refs(index)| + n <= maxEntries
  }

  lemma RoomAfterPrune(index: Index, index': Index, now: nat, scope: string, n: nat, maxScopes: nat, maxEntries: nat)
    requires Room(index, scope, n, maxScopes, maxEntries) && (index' == index || index' == Pruned(index, now))
    ensures Room(index', scope, n, maxScopes, maxEntries)
  {
    PrunedOk(index, now);
    if scope in index && scope !in index' {
      SubsetSize(index'.Keys, index.Keys - {scope});
    }
  }
}
