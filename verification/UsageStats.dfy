/** Rolling up usage records: totals, cells per credential and model, per API key
    and per device, and a timeline.
 */
module UsageStats {

  datatype Record = Record(at: int, credential: string, model: string, apiKey: string, device: string,
                           agent: string, status: string, input: int, output: int, cacheRead: int,
                           cacheWrite: int, latency: int)

  const SUCCESS := "success"

  /** Empty lists match everything. */
  datatype Filter = Filter(credentials: seq<string>, models: seq<string>, statuses: seq<string>,
                           apiKeys: seq<string>, devices: seq<string>)

  const ANY := Filter([], [], [], [], [])

  datatype Window = Window(start: int, end: int, bucket: int)

  predicate Matches(r: Record, f: Filter)
  {
    (f.credentials == [] || r.credential in f.credentials) && (f.models == [] || r.model in f.models) &&
    (f.statuses == [] || r.status in f.statuses) && (f.apiKeys == [] || r.apiKey in f.apiKeys) &&
    (f.devices == [] || r.device in f.devices)
  }

  predicate Counted(r: Record, f: Filter, w: Window)
  {
    w.start <= r.at < w.end && Matches(r, f)
  }

  function Select(rs: seq<Record>, f: Filter, w: Window): seq<Record>
  {
    if rs == [] then []
    else Select(rs[..|rs| - 1], f, w) + (if Counted(rs[|rs| - 1], f, w) then [rs[|rs| - 1]] else [])
  }

  lemma {:induction false} SelectSplits(a: seq<Record>, b: seq<Record>, f: Filter, w: Window)
    ensures Select(a + b, f, w) == Select(a, f, w) + Select(b, f, w)
  {
    if b == [] {
      assert a + b == a;
    } else {
      assert (a + b)[..|a + b| - 1] == a + b[..|b| - 1];
      SelectSplits(a, b[..|b| - 1], f, w);
    }
  }

  // ------------------------------------------------------------------- sums

  datatype Stats = Stats(requests: int, success: int, failed: int, input: int, output: int, cacheRead: int, cacheWrite: int)

  const ZERO := Stats(0, 0, 0, 0, 0, 0, 0)

  function Plus(a: Stats, b: Stats): Stats
  {
    Stats(a.requests + b.requests, a.success + b.success, a.failed + b.failed, a.input + b.input,
          a.output + b.output, a.cacheRead + b.cacheRead, a.cacheWrite + b.cacheWrite)
  }

  function One(r: Record): Stats
  {
    Stats(1, if r.status == SUCCESS then 1 else 0, if r.status == SUCCESS then 0 else 1,
          r.input, r.output, r.cacheRead, r.cacheWrite)
  }

  function StatsOf(rs: seq<Record>): Stats
  {
    if rs == [] then ZERO else Plus(StatsOf(rs[..|rs| - 1]), One(rs[|rs| - 1]))
  }

  lemma StatsSnoc(rs: seq<Record>, r: Record)
    ensures StatsOf(rs + [r]) == Plus(StatsOf(rs), One(r))
  {
    assert (rs + [r])[..|rs|] == rs;
  }

  /** The figures a roll-up adds up. */
  datatype Field = Requests | Success | Failed | Input | Output | CacheRead | CacheWrite

  function Get(s: Stats, x: Field): int
  {
    match x
    case Requests => s.requests
    case Success => s.success
    case Failed => s.failed
    case Input => s.input
    case Output => s.output
    case CacheRead => s.cacheRead
    case CacheWrite => s.cacheWrite
  }

  lemma SameFigures(a: Stats, b: Stats)
    requires forall x: Field :: Get(a, x) == Get(b, x)
    ensures a == b
  {
    assert Get(a, Requests) == Get(b, Requests) && Get(a, Success) == Get(b, Success);
    assert Get(a, Failed) == Get(b, Failed) && Get(a, Input) == Get(b, Input) && Get(a, Output) == Get(b, Output);
    assert Get(a, CacheRead) == Get(b, CacheRead) && Get(a, CacheWrite) == Get(b, CacheWrite);
  }

  lemma PlusGet(a: Stats, b: Stats, x: Field)
    ensures Get(Plus(a, b), x) == Get(a, x) + Get(b, x)
  {
  }

  /** One figure over some records. */
  function Total(rs: seq<Record>, x: Field): int
  {
    if rs == [] then 0 else Total(rs[..|rs| - 1], x) + Get(One(rs[|rs| - 1]), x)
  }

  lemma {:induction false} StatsTotal(rs: seq<Record>, x: Field)
    ensures Get(StatsOf(rs), x) == Total(rs, x)
  {
    if rs != [] {
      StatsTotal(rs[..|rs| - 1], x);
      PlusGet(StatsOf(rs[..|rs| - 1]), One(rs[|rs| - 1]), x);
    }
  }

  lemma {:induction false} TotalSplits(a: seq<Record>, b: seq<Record>, x: Field)
    ensures Total(a + b, x) == Total(a, x) + Total(b, x)
  {
    if b == [] {
      assert a + b == a;
    } else {
      assert (a + b)[..|a + b| - 1] == a + b[..|b| - 1];
      TotalSplits(a, b[..|b| - 1], x);
    }
  }

  lemma {:induction false} StatsCount(rs: seq<Record>)
    ensures StatsOf(rs).requests == |rs| && StatsOf(rs).success + StatsOf(rs).failed == |rs|
  {
    if rs != [] {
      StatsCount(rs[..|rs| - 1]);
    }
  }

  /** The sum of a family of figures. */
  ghost function SumOver(keys: set<string>, f: map<string, int>): int
    requires keys <= f.Keys
    decreases |keys|
  {
    if keys == {} then 0
    else
      var k :| k in keys;
      f[k] + SumOver(keys - {k}, f)
  }

  lemma {:induction false} SumPicks(keys: set<string>, f: map<string, int>, k: string)
    requires keys <= f.Keys && k in keys
    ensures SumOver(keys, f) == f[k] + SumOver(keys - {k}, f)
    decreases |keys|
  {
    var j :| j in keys && SumOver(keys, f) == f[j] + SumOver(keys - {j}, f);
    if j != k {
      SumPicks(keys - {j}, f, k);
      SumPicks(keys - {k}, f, j);
      assert keys - {j} - {k} == keys - {k} - {j};
    }
  }

  lemma {:induction false} SumSame(keys: set<string>, f: map<string, int>, g: map<string, int>)
    requires keys <= f.Keys && keys <= g.Keys && forall k | k in keys :: f[k] == g[k]
    ensures SumOver(keys, f) == SumOver(keys, g)
    decreases |keys|
  {
    if keys != {} {
      var k :| k in keys;
      SumPicks(keys, f, k);
      SumPicks(keys, g, k);
      SumSame(keys - {k}, f, g);
    }
  }

  // ------------------------------------------------------------------ groups

  datatype Key = ByCredential | ByModel | ByApiKey | ByDevice

  function KeyOf(key: Key, r: Record): string
  {
    match key
    case ByCredential => r.credential
    case ByModel => r.model
    case ByApiKey => r.apiKey
    case ByDevice => r.device
  }

  function Group(rs: seq<Record>, key: Key, k: string): seq<Record>
  {
    if rs == [] then []
    else Group(rs[..|rs| - 1], key, k) + (if KeyOf(key, rs[|rs| - 1]) == k then [rs[|rs| - 1]] else [])
  }

  lemma GroupSnoc(rs: seq<Record>, r: Record, key: Key, k: string)
    ensures Group(rs + [r], key, k) == if KeyOf(key, r) == k then Group(rs, key, k) + [r] else Group(rs, key, k)
  {
    assert Group(rs, key, k) + [] == Group(rs, key, k);
    assert (rs + [r])[..|rs|] == rs;
  }

  ghost function KeysIn(rs: seq<Record>, key: Key): set<string>
  {
    set r | r in rs :: KeyOf(key, r)
  }

  lemma {:induction false} GroupEmpty(rs: seq<Record>, key: Key, k: string)
    requires k !in KeysIn(rs, key)
    ensures Group(rs, key, k) == []
  {
    if rs != [] {
      assert rs[|rs| - 1] in rs;
      assert KeysIn(rs[..|rs| - 1], key) <= KeysIn(rs, key);
      GroupEmpty(rs[..|rs| - 1], key, k);
    }
  }

  ghost function GroupTotals(rs: seq<Record>, key: Key, keys: set<string>, x: Field): map<string, int>
  {
    map k | k in keys :: Total(Group(rs, key, k), x)
  }

  /** Grouping loses and doubles nothing. */
  lemma {:induction false} GroupsSum(rs: seq<Record>, key: Key, keys: set<string>, x: Field)
    requires KeysIn(rs, key) <= keys
    ensures SumOver(keys, GroupTotals(rs, key, keys, x)) == Total(rs, x)
  {
    if rs == [] {
      SumOfZeros(keys, GroupTotals(rs, key, keys, x));
    } else {
      var init, r := rs[..|rs| - 1], rs[|rs| - 1];
      assert rs == init + [r] && KeyOf(key, r) in KeysIn(rs, key);
      GroupsSum(init, key, keys, x);
      OneMoreSums(init, r, key, keys, x);
    }
  }

  lemma OneMoreSums(init: seq<Record>, r: Record, key: Key, keys: set<string>, x: Field)
    requires KeyOf(key, r) in keys
    ensures SumOver(keys, GroupTotals(init + [r], key, keys, x))
            == SumOver(keys, GroupTotals(init, key, keys, x)) + Get(One(r), x)
  {
    var k := KeyOf(key, r);
    var f, g := GroupTotals(init + [r], key, keys, x), GroupTotals(init, key, keys, x);
    forall j | j in keys ensures f[j] == if j == k then g[j] + Get(One(r), x) else g[j] {
      GroupTotalNext(init, r, key, j, x);
    }
    OneBigger(keys, f, g, k, Get(One(r), x));
  }

  lemma GroupTotalNext(init: seq<Record>, r: Record, key: Key, k: string, x: Field)
    ensures Total(Group(init + [r], key, k), x) ==
            Total(Group(init, key, k), x) + if KeyOf(key, r) == k then Get(One(r), x) else 0
  {
    GroupSnoc(init, r, key, k);
    TotalSnoc(Group(init, key, k), r, x);
  }

  lemma OneBigger(keys: set<string>, f: map<string, int>, g: map<string, int>, k: string, d: int)
    requires k in keys && keys <= f.Keys && keys <= g.Keys
    requires forall j | j in keys :: f[j] == if j == k then g[j] + d else g[j]
    ensures SumOver(keys, f) == SumOver(keys, g) + d
  {
    SumPicks(keys, f, k);
    SumPicks(keys, g, k);
    SumSame(keys - {k}, f, g);
  }

  lemma TotalSnoc(rs: seq<Record>, r: Record, x: Field)
    ensures Total(rs + [r], x) == Total(rs, x) + Get(One(r), x)
  {
    assert (rs + [r])[..|rs|] == rs;
  }

  lemma {:induction false} SumOfZeros(keys: set<string>, f: map<string, int>)
    requires keys <= f.Keys && forall k | k in keys :: f[k] == 0
    ensures SumOver(keys, f) == 0
    decreases |keys|
  {
    if keys != {} {
      var k :| k in keys;
      SumPicks(keys, f, k);
      SumOfZeros(keys - {k}, f);
    }
  }

  // ------------------------------------------------------------------- cells

  datatype Cell = Cell(stats: Stats, latency: int, lastSeen: int, caption: string)

  const BLANK := Cell(ZERO, 0, 0, "")

  function Added(c: Cell, r: Record, key: Key): Cell
  {
    Cell(Plus(c.stats, One(r)), c.latency + r.latency, if r.at > c.lastSeen then r.at else c.lastSeen,
         if key == ByDevice && r.agent != "" then r.agent else c.caption)
  }

  function CellOf(rs: seq<Record>, key: Key): Cell
  {
    if rs == [] then BLANK else Added(CellOf(rs[..|rs| - 1], key), rs[|rs| - 1], key)
  }

  lemma {:induction false} CellStats(rs: seq<Record>, key: Key)
    ensures CellOf(rs, key).stats == StatsOf(rs)
  {
    if rs != [] {
      CellStats(rs[..|rs| - 1], key);
    }
  }

  type Cells = map<string, Cell>

  function CellAt(m: Cells, k: string): Cell
  {
    if k in m then m[k] else BLANK
  }

  /** One cell for each key that occurs, holding the records of that key. */
  ghost predicate Groups(m: Cells, rs: seq<Record>, key: Key)
  {
    m.Keys == KeysIn(rs, key) && forall k | k in m :: m[k] == CellOf(Group(rs, key, k), key)
  }

  lemma CellNext(rs: seq<Record>, r: Record, key: Key, k: string)
    ensures CellOf(Group(rs + [r], key, k), key) ==
            if KeyOf(key, r) == k then Added(CellOf(Group(rs, key, k), key), r, key) else CellOf(Group(rs, key, k), key)
  {
    var g := Group(rs, key, k);
    GroupSnoc(rs, r, key, k);
    assert (g + [r])[..|g|] == g;
  }

  lemma CellAtIs(m: Cells, rs: seq<Record>, key: Key, k: string)
    requires Groups(m, rs, key)
    ensures CellAt(m, k) == CellOf(Group(rs, key, k), key)
  {
    if k !in m {
      GroupEmpty(rs, key, k);
    }
  }

  lemma KeysSnoc(rs: seq<Record>, r: Record, key: Key)
    ensures KeysIn(rs + [r], key) == KeysIn(rs, key) + {KeyOf(key, r)}
  {
  }

  function CellsAdded(m: Cells, r: Record, key: Key): Cells
  {
    var k := KeyOf(key, r);
    m[k := Added(CellAt(m, k), r, key)]
  }

  lemma GroupsNext(m: Cells, rs: seq<Record>, r: Record, key: Key)
    requires Groups(m, rs, key)
    ensures Groups(CellsAdded(m, r, key), rs + [r], key)
  {
    KeysSnoc(rs, r, key);
    CellAtIs(m, rs, key, KeyOf(key, r));
    forall j ensures GrewBy(rs, rs + [r], r, key, j) {
      CellNext(rs, r, key, j);
    }
    GroupsGrow(m, rs, rs + [r], r, key);
  }

  ghost predicate GrewBy(rs: seq<Record>, all: seq<Record>, r: Record, key: Key, k: string)
  {
    CellOf(Group(all, key, k), key) ==
    if KeyOf(key, r) == k then Added(CellOf(Group(rs, key, k), key), r, key) else CellOf(Group(rs, key, k), key)
  }

  lemma GroupsGrow(m: Cells, rs: seq<Record>, all: seq<Record>, r: Record, key: Key)
    requires Groups(m, rs, key) && KeysIn(all, key) == KeysIn(rs, key) + {KeyOf(key, r)}
    requires CellAt(m, KeyOf(key, r)) == CellOf(Group(rs, key, KeyOf(key, r)), key)
    requires forall j :: GrewBy(rs, all, r, key, j)
    ensures Groups(CellsAdded(m, r, key), all, key)
  {
    var m' := CellsAdded(m, r, key);
    forall j | j in m' ensures m'[j] == CellOf(Group(all, key, j), key) {
      assert GrewBy(rs, all, r, key, j);
    }
  }

  ghost function CellTotals(m: Cells, x: Field): map<string, int>
  {
    map k | k in m :: Get(m[k].stats, x)
  }

  /** The cells of a grouping add up to the total. */
  lemma CellsAddUp(m: Cells, rs: seq<Record>, key: Key, x: Field)
    requires Groups(m, rs, key)
    ensures SumOver(m.Keys, CellTotals(m, x)) == Total(rs, x)
  {
    GroupsSum(rs, key, m.Keys, x);
    forall k | k in m ensures CellTotals(m, x)[k] == Total(Group(rs, key, k), x) {
      CellStats(Group(rs, key, k), key);
      StatsTotal(Group(rs, key, k), x);
    }
    SumSame(m.Keys, CellTotals(m, x), GroupTotals(rs, key, m.Keys, x));
  }

  type Grid = map<string, Cells>

  ghost predicate Grids(g: Grid, rs: seq<Record>)
  {
    g.Keys == KeysIn(rs, ByCredential) && forall c | c in g :: Groups(g[c], Group(rs, ByCredential, c), ByModel)
  }

  function RowAt(g: Grid, c: string): Cells
  {
    if c in g then g[c] else map[]
  }

  function GridAdded(g: Grid, r: Record): Grid
  {
    g[r.credential := CellsAdded(RowAt(g, r.credential), r, ByModel)]
  }

  lemma RowAtIs(g: Grid, rs: seq<Record>, c: string)
    requires Grids(g, rs)
    ensures Groups(RowAt(g, c), Group(rs, ByCredential, c), ByModel)
  {
    if c !in g {
      GroupEmpty(rs, ByCredential, c);
    }
  }

  lemma GridNext(g: Grid, rs: seq<Record>, r: Record)
    requires Grids(g, rs)
    ensures Grids(GridAdded(g, r), rs + [r])
  {
    var c := r.credential;
    KeysSnoc(rs, r, ByCredential);
    RowAtIs(g, rs, c);
    GroupsNext(RowAt(g, c), Group(rs, ByCredential, c), r, ByModel);
    forall d ensures Group(rs + [r], ByCredential, d) ==
                     if d == c then Group(rs, ByCredential, d) + [r] else Group(rs, ByCredential, d)
    {
      GroupSnoc(rs, r, ByCredential, d);
    }
    GridGrows(g, rs, rs + [r], r);
  }

  lemma GridGrows(g: Grid, rs: seq<Record>, all: seq<Record>, r: Record)
    requires Grids(g, rs) && KeysIn(all, ByCredential) == KeysIn(rs, ByCredential) + {r.credential}
    requires forall d :: Group(all, ByCredential, d) ==
                         if d == r.credential then Group(rs, ByCredential, d) + [r] else Group(rs, ByCredential, d)
    requires Groups(CellsAdded(RowAt(g, r.credential), r, ByModel), Group(rs, ByCredential, r.credential) + [r], ByModel)
    ensures Grids(GridAdded(g, r), all)
  {
  }

  ghost function RowTotals(g: Grid, x: Field): map<string, int>
  {
    map c | c in g :: SumOver(g[c].Keys, CellTotals(g[c], x))
  }

  lemma GridAddsUp(g: Grid, rs: seq<Record>, x: Field)
    requires Grids(g, rs)
    ensures SumOver(g.Keys, RowTotals(g, x)) == Total(rs, x)
  {
    GroupsSum(rs, ByCredential, g.Keys, x);
    forall c | c in g ensures RowTotals(g, x)[c] == Total(Group(rs, ByCredential, c), x) {
      CellsAddUp(g[c], Group(rs, ByCredential, c), ByModel, x);
    }
    SumSame(g.Keys, RowTotals(g, x), GroupTotals(rs, ByCredential, g.Keys, x));
  }

  // ---------------------------------------------------------------- timeline

  function LineTotal(line: seq<Stats>, x: Field): int
  {
    if line == [] then 0 else LineTotal(line[..|line| - 1], x) + Get(line[|line| - 1], x)
  }

  lemma {:induction false} BumpAdds(line: seq<Stats>, i: nat, d: Stats, x: Field)
    requires i < |line|
    ensures LineTotal(line[i := Plus(line[i], d)], x) == LineTotal(line, x) + Get(d, x)
  {
    var n := |line| - 1;
    var line' := line[i := Plus(line[i], d)];
    if i < n {
      BumpAdds(line[..n], i, d, x);
      assert line'[..n] == line[..n][i := Plus(line[..n][i], d)];
    } else {
      PlusGet(line[i], d, x);
      assert line'[..n] == line[..n];
    }
  }

  function BucketCount(w: Window): nat
  {
    if w.bucket > 0 && w.end >= w.start then (w.end - w.start + w.bucket - 1) / w.bucket else 0
  }

  /** Every record of the window has a bucket. */
  lemma BucketExists(w: Window, at: int)
    requires w.bucket > 0 && w.start <= at < w.end
    ensures 0 <= (at - w.start) / w.bucket < BucketCount(w)
  {
    var d, b := at - w.start, w.bucket;
    var n, i := w.end - w.start, d / b;
    assert i * b <= d;
    assert n + b - 1 >= (i + 1) * b;
    Quotient(n + b - 1, b, i + 1);
  }

  lemma Quotient(x: int, b: int, k: int)
    requires b > 0 && x >= k * b
    ensures x / b >= k
  {
    var q := x / b;
    assert q * b + b > k * b;
    Cancel(q + 1, k, b);
  }

  lemma Cancel(m: int, k: int, b: int)
    requires b > 0 && m * b > k * b
    ensures m > k
  {
    assert (m - k) * b > 0;
  }

  function Zeros(n: nat): (line: seq<Stats>)
    ensures |line| == n && forall i | 0 <= i < n :: line[i] == ZERO
  {
    if n == 0 then [] else Zeros(n - 1) + [ZERO]
  }

  lemma {:induction false} ZerosAddNothing(n: nat, x: Field)
    ensures LineTotal(Zeros(n), x) == 0
  {
    if n > 0 {
      ZerosAddNothing(n - 1, x);
      assert Zeros(n)[..n - 1] == Zeros(n - 1);
    }
  }

  function Bumped(line: seq<Stats>, w: Window, r: Record): seq<Stats>
  {
    if w.bucket <= 0 then line
    else
      var i := (r.at - w.start) / w.bucket;
      if 0 <= i < |line| then line[i := Plus(line[i], One(r))] else line
  }

  // ---------------------------------------------------------------- rolling up

  datatype Aggregate = Aggregate(total: Stats, cells: Grid, byApiKey: Cells, byDevice: Cells, timeline: seq<Stats>)

  ghost predicate LineIs(line: seq<Stats>, rs: seq<Record>)
  {
    forall x: Field :: LineTotal(line, x) == Total(rs, x)
  }

  lemma LineNext(line: seq<Stats>, rs: seq<Record>, w: Window, r: Record)
    requires LineIs(line, rs) && |line| == BucketCount(w) && w.bucket > 0 && w.start <= r.at < w.end
    ensures LineIs(Bumped(line, w, r), rs + [r])
  {
    BucketExists(w, r.at);
    forall x: Field ensures LineTotal(Bumped(line, w, r), x) == Total(rs + [r], x) {
      BumpAdds(line, (r.at - w.start) / w.bucket, One(r), x);
      TotalSnoc(rs, r, x);
    }
  }

  /** The records of one bucket. */
  function Bucket(rs: seq<Record>, w: Window, i: nat): seq<Record>
    requires w.bucket > 0
  {
    if rs == [] then []
    else
      var init, r := rs[..|rs| - 1], rs[|rs| - 1];
      if (r.at - w.start) / w.bucket == i then Bucket(init, w, i) + [r] else Bucket(init, w, i)
  }

  ghost predicate Bucketed(line: seq<Stats>, rs: seq<Record>, w: Window)
    requires w.bucket > 0
  {
    forall i: nat | i < |line| :: line[i] == StatsOf(Bucket(rs, w, i))
  }

  lemma BucketedNext(line: seq<Stats>, rs: seq<Record>, w: Window, r: Record)
    requires w.bucket > 0 && |line| == BucketCount(w) && Bucketed(line, rs, w)
    ensures Bucketed(Bumped(line, w, r), rs + [r], w)
  {
    forall i: nat | i < |line| ensures Bumped(line, w, r)[i] == StatsOf(Bucket(rs + [r], w, i)) {
      BucketStats(rs, r, w, i);
    }
  }

  lemma BucketStats(rs: seq<Record>, r: Record, w: Window, i: nat)
    requires w.bucket > 0
    ensures StatsOf(Bucket(rs + [r], w, i)) ==
            if (r.at - w.start) / w.bucket == i then Plus(StatsOf(Bucket(rs, w, i)), One(r)) else StatsOf(Bucket(rs, w, i))
  {
    BucketSnoc(rs, r, w, i);
    StatsSnoc(Bucket(rs, w, i), r);
  }

  lemma BucketSnoc(rs: seq<Record>, r: Record, w: Window, i: nat)
    requires w.bucket > 0
    ensures Bucket(rs + [r], w, i) == if (r.at - w.start) / w.bucket == i then Bucket(rs, w, i) + [r] else Bucket(rs, w, i)
  {
    assert (rs + [r])[..|rs|] == rs;
  }

  /** The roll-up of some records over a window. */
  ghost predicate RollsUp(agg: Aggregate, rs: seq<Record>, w: Window)
  {
    agg.total == StatsOf(rs) && Grids(agg.cells, rs) && Groups(agg.byApiKey, rs, ByApiKey) &&
    Groups(agg.byDevice, rs, ByDevice) && LineUp(agg.timeline, rs, w)
  }

  /** The timeline, when there is one, holds the records bucket by bucket. */
  ghost predicate LineUp(line: seq<Stats>, rs: seq<Record>, w: Window)
  {
    |line| == BucketCount(w) && (w.bucket > 0 ==> LineIs(line, rs) && Bucketed(line, rs, w))
  }

  lemma LineUpNext(line: seq<Stats>, rs: seq<Record>, w: Window, r: Record)
    requires LineUp(line, rs, w) && w.start <= r.at < w.end
    ensures LineUp(Bumped(line, w, r), rs + [r], w)
  {
    if w.bucket > 0 {
      LineNext(line, rs, w, r);
      BucketedNext(line, rs, w, r);
    }
  }

  function Applied(agg: Aggregate, w: Window, r: Record): Aggregate
  {
    Aggregate(Plus(agg.total, One(r)), GridAdded(agg.cells, r),
              CellsAdded(agg.byApiKey, r, ByApiKey), CellsAdded(agg.byDevice, r, ByDevice),
              Bumped(agg.timeline, w, r))
  }

  lemma RollsUpNext(agg: Aggregate, rs: seq<Record>, w: Window, r: Record)
    requires RollsUp(agg, rs, w) && w.start <= r.at < w.end
    ensures RollsUp(Applied(agg, w, r), rs + [r], w)
  {
    StatsSnoc(rs, r);
    GridNext(agg.cells, rs, r);
    GroupsNext(agg.byApiKey, rs, r, ByApiKey);
    GroupsNext(agg.byDevice, rs, r, ByDevice);
    LineUpNext(agg.timeline, rs, w, r);
  }

  /** Every total is the sum over credential and model cells, over API keys, over
      devices and over the timeline. */
  lemma TotalsAgree(agg: Aggregate, rs: seq<Record>, w: Window, x: Field)
    requires RollsUp(agg, rs, w)
    ensures Get(agg.total, x) == Total(rs, x)
    ensures Get(agg.total, x) == SumOver(agg.cells.Keys, RowTotals(agg.cells, x))
    ensures Get(agg.total, x) == SumOver(agg.byApiKey.Keys, CellTotals(agg.byApiKey, x))
    ensures Get(agg.total, x) == SumOver(agg.byDevice.Keys, CellTotals(agg.byDevice, x))
    ensures w.bucket > 0 ==> Get(agg.total, x) == LineTotal(agg.timeline, x)
    ensures agg.total.requests == |rs| && agg.total.success + agg.total.failed == |rs|
  {
    StatsTotal(rs, x);
    GridAddsUp(agg.cells, rs, x);
    CellsAddUp(agg.byApiKey, rs, ByApiKey, x);
    CellsAddUp(agg.byDevice, rs, ByDevice, x);
    StatsCount(rs);
  }

  lemma NothingRolledUp(w: Window)
    ensures RollsUp(Aggregate(ZERO, map[], map[], map[], Zeros(BucketCount(w))), [], w)
  {
    forall x: Field ensures LineTotal(Zeros(BucketCount(w)), x) == Total([], x) {
      ZerosAddNothing(BucketCount(w), x);
    }
  }

  /** Goes through the records in the order given. */
  method Rollup(rs: seq<Record>, f: Filter, w: Window) returns (agg: Aggregate)
    ensures RollsUp(agg, Select(rs, f, w), w)
  {
    agg := Aggregate(ZERO, map[], map[], map[], Zeros(BucketCount(w)));
    NothingRolledUp(w);
    for i := 0 to |rs|
      invariant RollsUp(agg, Select(rs[..i], f, w), w)
    {
      assert rs[..i + 1][..i] == rs[..i];
      var r := rs[i];
      if r.at < w.start || r.at >= w.end || !Matches(r, f) {
        assert Select(rs[..i + 1], f, w) == Select(rs[..i], f, w);
      } else {
        assert Select(rs[..i + 1], f, w) == Select(rs[..i], f, w) + [r];
        RollsUpNext(agg, Select(rs[..i], f, w), w, r);
        agg := Applied(agg, w, r);
      }
    }
    assert rs[..|rs|] == rs;
  }
}
