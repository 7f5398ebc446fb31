/** The prompt-cache tracker: a bounded index of expiring prefix fingerprints per
    scope. Times are milliseconds; floating-point ratios are reals rounded to the
    nearest integer.
 */
module PromptCache {
  import opened CacheKeys

  datatype Entry = Entry(expires: nat, ttl: nat, cached: nat)

  type Bucket = map<string, Entry>
  type Index = map<string, Bucket>

  datatype Usage = Usage(read: nat, creation: nat, creation5m: nat, creation1h: nat)

  const NONE := Usage(0, 0, 0, 0)

  const PRUNE_INTERVAL: nat := 30000

  // ------------------------------------------------------------- arithmetic

  function Clamp(x: real, low: real, high: real): real
  {
    var y := if x > low then x else low;
    if y < high then y else high
  }

  /** Nearest integer of a non-negative real, halves up. */
  function Round(x: real): int
  {
    (x + 0.5).Floor
  }

  /** The exact portion of the prompt that is to be cached. */
  function Portion(total: nat, ratio: real): real
  {
    total as real * Clamp(ratio, 0.0, 0.99)
  }

  /** At least one token is left over, and nothing below the minimum is cached. */
  function Fitted(t: int, total: nat, minTokens: nat): (u: nat)
    ensures u > 0 ==> minTokens <= u < total
  {
    var u := if t < 0 then 0 else if t < total - 1 then t else total - 1;
    if u < minTokens then 0 else u
  }

  function TargetTokens(total: nat, ratio: real, minTokens: nat): (t: nat)
    ensures t > 0 ==> minTokens <= t < total
  {
    if total <= 1 then 0 else Fitted(Round(Portion(total, ratio)), total, minTokens)
  }

  /** The target ratio, moved a little by a number in [0, 1] that depends on the
      request only. */
  function EffectiveRatio(unit: real, ratio: real): real
  {
    var target := Clamp(ratio, 0.0, 0.99);
    var low := if target - 0.03 > 0.0 then target - 0.03 else 0.0;
    var high := if target + 0.03 < 0.99 then target + 0.03 else 0.99;
    if target <= 0.0 then 0.0 else if high <= low then low else low + unit * (high - low)
  }

  function LastTTL(prof: Profile): nat
  {
    if prof.ttls == [] then DEFAULT_TTL else prof.ttls[|prof.ttls| - 1]
  }

  function Created(prof: Profile, creation: nat): Usage
  {
    if LastTTL(prof) >= HOUR_TTL then Usage(0, creation, 0, creation) else Usage(0, creation, creation, 0)
  }

  /** Cached tokens of a prefix: its share of the target, rounded. */
  function Share(tokens: nat, flat: nat, target: nat): nat
    requires flat > 0
  {
    var scaled := Round(tokens as real / flat as real * target as real);
    if scaled < 0 then 0 else if scaled < target then scaled else target
  }

  lemma WholeShare(flat: nat, target: nat)
    requires flat > 0
    ensures Share(flat, flat, target) == target
  {
    assert flat as real / flat as real == 1.0;
    assert 1.0 * target as real == target as real;
  }

  // ------------------------------------------------------------ the entries

  datatype Ref = Ref(scope: string, fp: string, expires: nat)

  /** Every entry of the index. */
  ghost function Refs(index: Index): set<Ref>
  {
    set s, f | s in index && f in index[s] :: Ref(s, f, index[s][f].expires)
  }

  ghost function BucketRefs(s: string, b: Bucket): set<Ref>
  {
    set f | f in b :: Ref(s, f, b[f].expires)
  }

  lemma {:induction false} BucketSize(s: string, b: Bucket)
    ensures |BucketRefs(s, b)| == |b|
    decreases |b|
  {
    if b != map[] {
      var f :| f in b;
      var rest := b - {f};
      BucketSize(s, rest);
      var one := Ref(s, f, b[f].expires);
      forall r | r in BucketRefs(s, b) ensures r in BucketRefs(s, rest) + {one} {
        if r.fp != f {
          assert r.fp in rest;
        }
      }
      forall r | r in BucketRefs(s, rest) ensures r in BucketRefs(s, b) {
        assert r.fp in b;
      }
      assert one in BucketRefs(s, b) by {
        assert f in b;
      }
      assert BucketRefs(s, b) == BucketRefs(s, rest) + {one};
      assert |b| == |rest| + 1 by {
        assert b.Keys == rest.Keys + {f};
      }
    } else {
      assert BucketRefs(s, b) == {};
    }
  }

  ghost function RefsIn(index: Index, scopes: set<string>): set<Ref>
  {
    set r | r in Refs(index) && r.scope in scopes
  }

  lemma RefsOneMore(index: Index, scopes: set<string>, s: string)
    requires s in index && s !in scopes
    ensures |RefsIn(index, scopes + {s})| == |RefsIn(index, scopes)| + |index[s]|
  {
    BucketSize(s, index[s]);
    var more := BucketRefs(s, index[s]);
    assert RefsIn(index, scopes + {s}) == RefsIn(index, scopes) + more;
    assert RefsIn(index, scopes) !! more;
  }

  method EntryCount(index: Index) returns (total: nat)
    ensures total == |Refs(index)|
  {
    total := 0;
    var todo := index.Keys;
    assert RefsIn(index, index.Keys - todo) == {};
    while todo != {}
      invariant todo <= index.Keys
      invariant total == |RefsIn(index, index.Keys - todo)|
      decreases |todo|
    {
      var s :| s in todo;
      RefsOneMore(index, index.Keys - todo, s);
      assert index.Keys - (todo - {s}) == (index.Keys - todo) + {s};
      total := total + |index[s]|;
      todo := todo - {s};
    }
    assert RefsIn(index, index.Keys - {}) == Refs(index);
  }

  // --------------------------------------------------------------- sorting

  predicate Sorted(q: seq<Ref>)
  {
    forall i, j | 0 <= i < j < |q| :: q[i].expires <= q[j].expires
  }

  function Insert(q: seq<Ref>, r: Ref): seq<Ref>
  {
    if q == [] || q[|q| - 1].expires <= r.expires then q + [r] else Insert(q[..|q| - 1], r) + [q[|q| - 1]]
  }

  lemma {:induction false} InsertSorts(q: seq<Ref>, r: Ref)
    requires Sorted(q)
    ensures Sorted(Insert(q, r)) && multiset(Insert(q, r)) == multiset(q) + multiset{r}
  {
    if q != [] && q[|q| - 1].expires > r.expires {
      var init, last := q[..|q| - 1], q[|q| - 1];
      assert q == init + [last];
      InsertSorts(init, r);
      InsertedBelow(init, r, Insert(init, r), last);
    }
  }

  lemma InsertedBelow(init: seq<Ref>, r: Ref, inner: seq<Ref>, last: Ref)
    requires multiset(inner) == multiset(init) + multiset{r} && Sorted(inner)
    requires r.expires <= last.expires && forall x | x in init :: x.expires <= last.expires
    ensures Sorted(inner + [last])
  {
    forall i | 0 <= i < |inner| ensures inner[i].expires <= last.expires {
      assert inner[i] in multiset(inner);
    }
  }

  /** The refs of a set in order of expiry. */
  method SortedRefs(refs: set<Ref>) returns (q: seq<Ref>)
    ensures Sorted(q) && multiset(q) == multiset(refs)
  {
    q := [];
    var todo := refs;
    while todo != {}
      invariant todo <= refs && Sorted(q) && multiset(q) == multiset(refs - todo)
      decreases |todo|
    {
      var r :| r in todo;
      InsertSorts(q, r);
      q := Insert(q, r);
      assert refs - (todo - {r}) == (refs - todo) + {r};
      todo := todo - {r};
    }
    assert refs - {} == refs;
  }

  // ---------------------------------------------------------------- limits

  predicate NoEmptyScope(index: Index)
  {
    forall s | s in index :: index[s] != map[]
  }

  /** `a` holds part of what `b` holds, unchanged. */
  predicate Within(a: Index, b: Index)
  {
    forall s | s in a :: s in b && forall f | f in a[s] :: f in b[s] && a[s][f] == b[s][f]
  }

  predicate Has(index: Index, s: string, f: string)
  {
    s in index && f in index[s]
  }

  function Drop(index: Index, s: string, f: string): Index
    requires s in index
  {
    var b := index[s] - {f};
    if b == map[] then index - {s} else index[s := b]
  }

  lemma DropRefs(index: Index, r: Ref)
    requires NoEmptyScope(index) && r in Refs(index)
    ensures var d := Drop(index, r.scope, r.fp);
            Refs(d) == Refs(index) - {r} && NoEmptyScope(d) && Within(d, index) && d.Keys <= index.Keys
  {
    var d := Drop(index, r.scope, r.fp);
    forall x ensures x in Refs(d) <==> x in Refs(index) && x != r {
      RefIsEntry(index, x);
      RefIsEntry(d, x);
      RefIsEntry(index, r);
      if x in Refs(index) && x != r && x.scope == r.scope {
        assert x.fp in index[r.scope] - {r.fp};
      }
    }
  }

  lemma RefIsEntry(index: Index, x: Ref)
    ensures x in Refs(index) <==> Has(index, x.scope, x.fp) && x.expires == index[x.scope][x.fp].expires
  {
  }

  /** The entries of `index` in order of expiry, without the first `n`. */
  method DropEarliest(index: Index, n: nat) returns (index': Index)
    requires NoEmptyScope(index) && n <= |Refs(index)|
    ensures NoEmptyScope(index') && Within(index', index) && index'.Keys <= index.Keys
    ensures |Refs(index')| == |Refs(index)| - n
    ensures forall x, y | x in Refs(index) && x !in Refs(index') && y in Refs(index') :: x.expires <= y.expires
  {
    var all := CollectRefs(index);
    var q := SortedRefs(all);
    assert |q| == |all| by {
      assert |multiset(q)| == |multiset(all)|;
    }
    index' := index;
    for i := 0 to n
      invariant Trimmed(index', index, q, i)
    {
      TrimmedNext(index', index, q, i);
      index' := Drop(index', q[i].scope, q[i].fp);
    }
    EarliestFirst(q, all, n);
  }

  /** The first `i` entries of the list are gone from the index. */
  ghost predicate Trimmed(index': Index, index: Index, q: seq<Ref>, i: nat)
  {
    i <= |q| && NoEmptyScope(index') && Within(index', index) && index'.Keys <= index.Keys &&
    Refs(index') == Refs(index) - Seen(q[..i]) && |Refs(index')| == |Refs(index)| - i
  }

  lemma TrimmedNext(index': Index, index: Index, q: seq<Ref>, i: nat)
    requires i < |q| && multiset(q) == multiset(Refs(index)) && Trimmed(index', index, q, i)
    ensures q[i] in Refs(index') && q[i].scope in index'
    ensures Trimmed(Drop(index', q[i].scope, q[i].fp), index, q, i + 1)
  {
    StillThere(q, Refs(index), i);
    RefIsEntry(index', q[i]);
    DropRefs(index', q[i]);
    SeenNext(q, i);
  }

  lemma SeenNext(q: seq<Ref>, i: nat)
    requires i < |q|
    ensures Seen(q[..i + 1]) == Seen(q[..i]) + {q[i]}
  {
    assert q[..i + 1] == q[..i] + [q[i]];
  }

  ghost function Seen(q: seq<Ref>): set<Ref>
  {
    set r | r in q
  }

  /** Each entry stands in the list once. */
  lemma StillThere(q: seq<Ref>, all: set<Ref>, i: nat)
    requires multiset(q) == multiset(all) && i < |q|
    ensures q[i] in all && q[i] !in Seen(q[..i])
  {
    assert q[i] in multiset(q);
    assert q == q[..i] + ([q[i]] + q[i + 1..]);
    assert multiset(q)[q[i]] == 1;
    assert multiset(q[..i])[q[i]] == 0;
  }

  lemma EarliestFirst(q: seq<Ref>, all: set<Ref>, n: nat)
    requires Sorted(q) && multiset(q) == multiset(all) && n <= |q|
    ensures forall x, y | x in Seen(q[..n]) && y in all - Seen(q[..n]) :: x.expires <= y.expires
  {
    forall x, y | x in Seen(q[..n]) && y in all - Seen(q[..n]) ensures x.expires <= y.expires {
      var i :| 0 <= i < n && q[i] == x;
      assert y in multiset(q);
      var j :| 0 <= j < |q| && q[j] == y;
      assert forall k | 0 <= k < n :: q[..n][k] == q[k];
    }
  }

  method CollectRefs(index: Index) returns (all: set<Ref>)
    ensures all == Refs(index)
  {
    all := set s, f | s in index && f in index[s] :: Ref(s, f, index[s][f].expires);
  }

  // -------------------------------------------------------------- scopes

  ghost predicate IsEarliest(b: Bucket, e: nat)
  {
    (forall f | f in b :: e <= b[f].expires) && exists f :: f in b && b[f].expires == e
  }

  lemma {:induction false} EarliestExists(b: Bucket)
    requires b != map[]
    ensures exists e :: IsEarliest(b, e)
    decreases |b|
  {
    var f :| f in b;
    var rest := b - {f};
    assert forall g | g in b && g != f :: g in rest && rest[g] == b[g];
    if rest == map[] {
      assert IsEarliest(b, b[f].expires);
    } else {
      EarliestExists(rest);
      var e :| IsEarliest(rest, e);
      var g :| g in rest && rest[g].expires == e;
      assert IsEarliest(b, if b[f].expires < e then b[f].expires else e);
    }
  }

  ghost function Earliest(b: Bucket): (e: nat)
    requires b != map[]
    ensures IsEarliest(b, e)
  {
    EarliestExists(b);
    var e :| IsEarliest(b, e);
    e
  }

  method EarliestExpiry(b: Bucket) returns (e: nat)
    requires b != map[]
    ensures e == Earliest(b)
  {
    var f0 :| f0 in b;
    e := b[f0].expires;
    var todo := b.Keys;
    while todo != {}
      invariant todo <= b.Keys
      invariant forall f | f in b && f !in todo :: e <= b[f].expires
      invariant exists f :: f in b && b[f].expires == e
      decreases |todo|
    {
      var f :| f in todo;
      if b[f].expires < e {
        e := b[f].expires;
      }
      todo := todo - {f};
    }
    assert IsEarliest(b, e);
  }

  /** Some scopes, each with the expiry of its earliest entry. */
  ghost function Tops(index: Index, scopes: set<string>): set<Ref>
    requires NoEmptyScope(index) && scopes <= index.Keys
  {
    set s | s in scopes :: Ref(s, "", Earliest(index[s]))
  }

  lemma {:induction false} TopsSize(index: Index, scopes: set<string>)
    requires NoEmptyScope(index) && scopes <= index.Keys
    ensures |Tops(index, scopes)| == |scopes|
    decreases |scopes|
  {
    if scopes == {} {
      assert Tops(index, scopes) == {};
    } else {
      var s :| s in scopes;
      TopsSize(index, scopes - {s});
      OneMoreTop(index, scopes - {s}, s);
      assert scopes == (scopes - {s}) + {s};
    }
  }

  lemma OneMoreTop(index: Index, scopes: set<string>, s: string)
    requires NoEmptyScope(index) && scopes <= index.Keys && s in index && s !in scopes
    ensures var r := Ref(s, "", Earliest(index[s]));
            Tops(index, scopes + {s}) == Tops(index, scopes) + {r} && r !in Tops(index, scopes)
  {
    var r := Ref(s, "", Earliest(index[s]));
    forall x ensures x in Tops(index, scopes + {s}) <==> x in Tops(index, scopes) || x == r {
      IsTop(index, scopes + {s}, x);
      IsTop(index, scopes, x);
    }
    IsTop(index, scopes, r);
  }

  lemma IsTop(index: Index, scopes: set<string>, r: Ref)
    requires NoEmptyScope(index) && scopes <= index.Keys
    ensures r in Tops(index, scopes) <==>
            r.scope in scopes && r == Ref(r.scope, "", Earliest(index[r.scope]))
  {
  }

  method ScopeTops(index: Index) returns (tops: set<Ref>)
    requires NoEmptyScope(index)
    ensures tops == Tops(index, index.Keys)
  {
    var todo := index.Keys;
    tops := {};
    assert index.Keys - todo == {};
    while todo != {}
      invariant todo <= index.Keys && tops == Tops(index, index.Keys - todo)
      decreases |todo|
    {
      var s :| s in todo;
      var e := EarliestExpiry(index[s]);
      OneMoreTop(index, index.Keys - todo, s);
      assert index.Keys - (todo - {s}) == (index.Keys - todo) + {s};
      tops := tops + {Ref(s, "", e)};
      todo := todo - {s};
    }
    assert index.Keys - {} == index.Keys;
  }

  ghost function ScopesOf(q: seq<Ref>): set<string>
  {
    set r | r in q :: r.scope
  }

  lemma NextScope(index: Index, q: seq<Ref>, i: nat)
    requires NoEmptyScope(index) && multiset(q) == multiset(Tops(index, index.Keys)) && i < |q|
    ensures q[i].scope in index && q[i].scope !in ScopesOf(q[..i])
    ensures ScopesOf(q[..i + 1]) == ScopesOf(q[..i]) + {q[i].scope}
  {
    var tops := Tops(index, index.Keys);
    StillThere(q, tops, i);
    IsTop(index, index.Keys, q[i]);
    forall r | r in q[..i] ensures r.scope != q[i].scope {
      assert r in multiset(q);
      IsTop(index, index.Keys, r);
    }
    assert q[..i + 1] == q[..i] + [q[i]];
  }

  /** Removes the scopes whose earliest entry expires first, `n` of them. */
  method DropScopes(index: Index, n: nat) returns (index': Index)
    requires NoEmptyScope(index) && n <= |index|
    ensures NoEmptyScope(index') && Within(index', index) && |index'| == |index| - n
    ensures forall s, t | s in index && s !in index' && t in index' :: Earliest(index[s]) <= Earliest(index[t])
  {
    var tops := ScopeTops(index);
    var q := SortedRefs(tops);
    TopsSize(index, index.Keys);
    assert |q| == |tops| by {
      assert |multiset(q)| == |multiset(tops)|;
    }
    index' := RemoveScopes(index, q, n);
    ScopesEarliestFirst(index, q, n);
  }

  method RemoveScopes(index: Index, q: seq<Ref>, n: nat) returns (index': Index)
    requires NoEmptyScope(index) && multiset(q) == multiset(Tops(index, index.Keys)) && n <= |q|
    ensures index' == index - ScopesOf(q[..n]) && |index'| == |index| - n
  {
    index' := index;
    assert ScopesOf(q[..0]) == {} && index - {} == index;
    for i := 0 to n
      invariant index' == index - ScopesOf(q[..i]) && |index'| == |index| - i
    {
      NextScope(index, q, i);
      MinusOne(index, ScopesOf(q[..i]), q[i].scope);
      index' := index' - {q[i].scope};
    }
  }

  lemma MinusOne(index: Index, gone: set<string>, s: string)
    requires s in index && s !in gone
    ensures (index - gone) - {s} == index - (gone + {s})
    ensures |index - (gone + {s})| == |index - gone| - 1
  {
    assert (index - gone).Keys == (index - (gone + {s})).Keys + {s};
  }

  lemma ScopesEarliestFirst(index: Index, q: seq<Ref>, n: nat)
    requires NoEmptyScope(index) && n <= |q| && Sorted(q) && multiset(q) == multiset(Tops(index, index.Keys))
    ensures forall s, t | s in ScopesOf(q[..n]) && t in index && t !in ScopesOf(q[..n]) ::
              s in index && Earliest(index[s]) <= Earliest(index[t])
  {
    forall s, t | s in ScopesOf(q[..n]) && t in index && t !in ScopesOf(q[..n])
      ensures s in index && Earliest(index[s]) <= Earliest(index[t])
    {
      var i :| 0 <= i < n && q[i].scope == s;
      var r := Ref(t, "", Earliest(index[t]));
      IsTop(index, index.Keys, r);
      assert r in multiset(q);
      var j :| 0 <= j < |q| && q[j] == r;
      assert j >= n by {
        assert forall k | 0 <= k < n :: q[..n][k] == q[k];
      }
      assert q[i] in multiset(q);
      IsTop(index, index.Keys, q[i]);
    }
  }

  /** The memory bounds, imposed after every commit and sweep. */
  method EnforceLimits(index: Index, maxScopes: nat, maxEntries: nat) returns (index': Index, ghost mid: Index)
    requires NoEmptyScope(index)
    ensures NoEmptyScope(index') && Within(index', index)
    ensures |index'| <= maxScopes && |Refs(index')| <= maxEntries
    ensures Within(mid, index) && (|index| <= maxScopes ==> mid == index) &&
            (|Refs(mid)| <= maxEntries ==> index' == mid)
    ensures forall s, t | s in index && s !in mid && t in mid :: Earliest(index[s]) <= Earliest(index[t])
    ensures forall x, y | x in Refs(mid) && x !in Refs(index') && y in Refs(index') :: x.expires <= y.expires
  {
    index' := index;
    if |index| > maxScopes {
      index' := DropScopes(index, |index| - maxScopes);
    }
    mid := index';
    var total := EntryCount(index');
    if total > maxEntries {
      index' := DropEarliest(index', total - maxEntries);
      KeysShrink(index', mid);
      WithinTransitive(index', mid, index);
    }
  }

  lemma KeysShrink(a: Index, b: Index)
    requires a.Keys <= b.Keys
    ensures |a| <= |b|
  {
    assert b.Keys == a.Keys + (b.Keys - a.Keys);
  }

  lemma WithinTransitive(a: Index, b: Index, c: Index)
    requires Within(a, b) && Within(b, c)
    ensures Within(a, c)
  {
  }
}
