/** What the figures of a roll-up are, record by record: plain sums, counts and
    maxima over the records of the window, the cell or the bucket.
 */
module UsageFigures {
  import opened UsageStats

  // --------------------------------------------------------------------- sums

  function Sum(rs: seq<Record>, of: Record -> int): int
  {
    if rs == [] then 0 else of(rs[0]) + Sum(rs[1..], of)
  }

  /** How many records are such. */
  function Number(rs: seq<Record>, such: Record -> bool): nat
  {
    if rs == [] then 0 else (if such(rs[0]) then 1 else 0) + Number(rs[1..], such)
  }

  lemma {:induction false} SumSnoc(rs: seq<Record>, r: Record, of: Record -> int)
    ensures Sum(rs + [r], of) == Sum(rs, of) + of(r)
  {
    if rs == [] {
      assert rs + [r] == [r] && [r][1..] == [];
      assert Sum([r], of) == of(r) + Sum([], of);
    } else {
      assert (rs + [r])[1..] == rs[1..] + [r];
      SumSnoc(rs[1..], r, of);
    }
  }

  lemma {:induction false} NumberSnoc(rs: seq<Record>, r: Record, such: Record -> bool)
    ensures Number(rs + [r], such) == Number(rs, such) + if such(r) then 1 else 0
  {
    if rs == [] {
      assert rs + [r] == [r] && [r][1..] == [];
      assert Number([r], such) == (if such(r) then 1 else 0) + Number([], such);
    } else {
      assert (rs + [r])[1..] == rs[1..] + [r];
      NumberSnoc(rs[1..], r, such);
    }
  }

  const Succeeded := (r: Record) => r.status == SUCCESS
  const DidFail := (r: Record) => r.status != SUCCESS
  const InputOf := (r: Record) => r.input
  const OutputOf := (r: Record) => r.output
  const CacheReadOf := (r: Record) => r.cacheRead
  const CacheWriteOf := (r: Record) => r.cacheWrite
  const LatencyOf := (r: Record) => r.latency

  /** Requests, successes and failures are counted, tokens summed up kind by kind. */
  function Figures(rs: seq<Record>): Stats
  {
    Stats(|rs|, Number(rs, Succeeded), Number(rs, DidFail), Sum(rs, InputOf), Sum(rs, OutputOf),
          Sum(rs, CacheReadOf), Sum(rs, CacheWriteOf))
  }

  lemma {:induction false} FiguresExactly(rs: seq<Record>)
    ensures StatsOf(rs) == Figures(rs)
  {
    if rs != [] {
      var init, r := rs[..|rs| - 1], rs[|rs| - 1];
      FiguresExactly(init);
      assert rs == init + [r];
      NumberSnoc(init, r, Succeeded);
      NumberSnoc(init, r, DidFail);
      SumSnoc(init, r, InputOf);
      SumSnoc(init, r, OutputOf);
      SumSnoc(init, r, CacheReadOf);
      SumSnoc(init, r, CacheWriteOf);
    }
  }

  // -------------------------------------------------------------------- cells

  /** The latest time, 0 at least. */
  ghost predicate IsLatest(rs: seq<Record>, t: int)
  {
    t >= 0 && (forall r | r in rs :: r.at <= t) && (t > 0 ==> exists r :: r in rs && r.at == t)
  }

  /** A cell holds the figures of its records, their latencies summed up and the
      latest time. */
  lemma CellExactly(rs: seq<Record>, key: Key)
    ensures var c := CellOf(rs, key); c.stats == Figures(rs) && c.latency == Sum(rs, LatencyOf) && IsLatest(rs, c.lastSeen)
  {
    CellStats(rs, key);
    FiguresExactly(rs);
    CellTimes(rs, key);
  }

  lemma {:induction false} CellTimes(rs: seq<Record>, key: Key)
    ensures var c := CellOf(rs, key); c.latency == Sum(rs, LatencyOf) && IsLatest(rs, c.lastSeen)
  {
    if rs != [] {
      var init, r := rs[..|rs| - 1], rs[|rs| - 1];
      CellTimes(init, key);
      LastApart(rs);
      SumSnoc(init, r, LatencyOf);
      LatestSnoc(init, r, CellOf(init, key).lastSeen);
    }
  }

  lemma LastApart(rs: seq<Record>)
    requires rs != []
    ensures rs == rs[..|rs| - 1] + [rs[|rs| - 1]]
  {
  }

  lemma OneMoreOf(rs: seq<Record>, last: Record, r: Record)
    ensures multiset(rs + [last])[r] == multiset(rs)[r] + if last == r then 1 else 0
  {
  }

  lemma LatestSnoc(rs: seq<Record>, r: Record, t: int)
    requires IsLatest(rs, t)
    ensures IsLatest(rs + [r], if r.at > t then r.at else t)
  {
    var all := rs + [r];
    assert r in all && forall x | x in rs :: x in all;
  }

  /** The records of a cell are exactly those of its key, as often as they occur. */
  lemma {:induction false} GroupExactly(rs: seq<Record>, key: Key, k: string, r: Record)
    ensures multiset(Group(rs, key, k))[r] == if KeyOf(key, r) == k then multiset(rs)[r] else 0
  {
    if rs != [] {
      var init, last := rs[..|rs| - 1], rs[|rs| - 1];
      GroupExactly(init, key, k, r);
      LastApart(rs);
      GroupSnoc(init, last, key, k);
      OneMoreOf(init, last, r);
      OneMoreOf(Group(init, key, k), last, r);
    }
  }

  /** A record passes the filter exactly when no list that names anything leaves it out. */
  lemma MatchesExactly(r: Record, f: Filter)
    ensures Matches(r, f) <==>
            !(f.credentials != [] && r.credential !in f.credentials) && !(f.models != [] && r.model !in f.models) &&
            !(f.statuses != [] && r.status !in f.statuses) && !(f.apiKeys != [] && r.apiKey !in f.apiKeys) &&
            !(f.devices != [] && r.device !in f.devices)
  {
  }

  /** The records of a window are exactly those that are in it and match. */
  lemma {:induction false} SelectExactly(rs: seq<Record>, f: Filter, w: Window, r: Record)
    ensures multiset(Select(rs, f, w))[r] == if w.start <= r.at < w.end && Matches(r, f) then multiset(rs)[r] else 0
  {
    if rs != [] {
      var init, last := rs[..|rs| - 1], rs[|rs| - 1];
      SelectExactly(init, f, w, r);
      LastApart(rs);
      SelectNext(init, last, f, w);
      OneMoreOf(init, last, r);
      OneMoreOf(Select(init, f, w), last, r);
    }
  }

  lemma SelectNext(rs: seq<Record>, r: Record, f: Filter, w: Window)
    ensures Select(rs + [r], f, w) ==
            if w.start <= r.at < w.end && Matches(r, f) then Select(rs, f, w) + [r] else Select(rs, f, w)
  {
    assert (rs + [r])[..|rs|] == rs;
    assert Select(rs, f, w) + [] == Select(rs, f, w);
  }

  /** The records of the `i`-th bucket are exactly those of its span of time. */
  lemma {:induction false} BucketExactly(rs: seq<Record>, w: Window, i: nat, r: Record)
    requires w.bucket > 0
    ensures multiset(Bucket(rs, w, i))[r] ==
            if w.start + i * w.bucket <= r.at < w.start + (i + 1) * w.bucket then multiset(rs)[r] else 0
  {
    if rs != [] {
      var init, last := rs[..|rs| - 1], rs[|rs| - 1];
      BucketExactly(init, w, i, r);
      LastApart(rs);
      BucketSnoc(init, last, w, i);
      OneMoreOf(init, last, r);
      OneMoreOf(Bucket(init, w, i), last, r);
      Spans(last.at - w.start, w.bucket, i);
    }
  }

  lemma Spans(t: int, b: int, i: nat)
    requires b > 0
    ensures t / b == i <==> i * b <= t < (i + 1) * b
  {
    var q := t / b;
    Quotient(t, b, q);
    Steps(q, i, b);
    Steps(i, q, b);
  }

  lemma Quotient(t: int, b: int, q: int)
    requires b > 0 && q == t / b
    ensures q * b <= t < (q + 1) * b
  {
  }

  lemma Steps(x: int, y: int, b: int)
    requires b > 0
    ensures x < y ==> (x + 1) * b <= y * b
  {
    if x < y {
      assert (y - (x + 1)) * b >= 0;
    }
  }

  // ----------------------------------------------------------------- roll-ups

  /** The records that are such, in order. */
  function Only(rs: seq<Record>, such: Record -> bool): seq<Record>
  {
    if rs == [] then [] else (if such(rs[0]) then [rs[0]] else []) + Only(rs[1..], such)
  }

  lemma {:induction false} OnlySnoc(rs: seq<Record>, r: Record, such: Record -> bool)
    ensures Only(rs + [r], such) == if such(r) then Only(rs, such) + [r] else Only(rs, such)
  {
    if rs == [] {
      assert rs + [r] == [r] && [r][1..] == [];
      assert Only([r], such) == (if such(r) then [r] else []) + Only([], such);
    } else {
      assert (rs + [r])[1..] == rs[1..] + [r];
      OnlySnoc(rs[1..], r, such);
      Assoc(if such(rs[0]) then [rs[0]] else [], Only(rs[1..], such), [r]);
    }
  }

  lemma Assoc(a: seq<Record>, b: seq<Record>, c: seq<Record>)
    ensures a + (b + c) == (a + b) + c
  {
  }

  lemma {:induction false} GroupIsOnly(rs: seq<Record>, key: Key, k: string, such: Record -> bool)
    requires forall r :: such(r) <==> KeyOf(key, r) == k
    ensures Group(rs, key, k) == Only(rs, such)
  {
    if rs != [] {
      var init, r := rs[..|rs| - 1], rs[|rs| - 1];
      GroupIsOnly(init, key, k, such);
      LastApart(rs);
      GroupSnoc(init, r, key, k);
      OnlySnoc(init, r, such);
    }
  }

  function OfKey(rs: seq<Record>, k: string): seq<Record>
  {
    Only(rs, (r: Record) => r.apiKey == k)
  }

  function OfDevice(rs: seq<Record>, k: string): seq<Record>
  {
    Only(rs, (r: Record) => r.device == k)
  }

  function OfCredential(rs: seq<Record>, k: string): seq<Record>
  {
    Only(rs, (r: Record) => r.credential == k)
  }

  function OfModel(rs: seq<Record>, k: string): seq<Record>
  {
    Only(rs, (r: Record) => r.model == k)
  }

  lemma GroupsAre(rs: seq<Record>, k: string)
    ensures Group(rs, ByApiKey, k) == OfKey(rs, k) && Group(rs, ByDevice, k) == OfDevice(rs, k)
    ensures Group(rs, ByCredential, k) == OfCredential(rs, k) && Group(rs, ByModel, k) == OfModel(rs, k)
  {
    GroupIsOnly(rs, ByApiKey, k, (r: Record) => r.apiKey == k);
    GroupIsOnly(rs, ByDevice, k, (r: Record) => r.device == k);
    GroupIsOnly(rs, ByCredential, k, (r: Record) => r.credential == k);
    GroupIsOnly(rs, ByModel, k, (r: Record) => r.model == k);
  }

  /** Every figure of a roll-up is that of the records it speaks of: in total, by API
      key, by device, by credential and model, and by span of time. */
  lemma RollupFigures(agg: Aggregate, rs: seq<Record>, w: Window)
    requires RollsUp(agg, rs, w)
    ensures agg.total == Figures(rs)
    ensures forall k | k in agg.byApiKey :: agg.byApiKey[k].stats == Figures(OfKey(rs, k))
    ensures forall k | k in agg.byDevice :: agg.byDevice[k].stats == Figures(OfDevice(rs, k))
    ensures forall c, m | c in agg.cells && m in agg.cells[c] ::
              agg.cells[c][m].stats == Figures(OfModel(OfCredential(rs, c), m))
    ensures w.bucket > 0 ==> forall i: nat | i < |agg.timeline| :: agg.timeline[i] == Figures(Bucket(rs, w, i))
  {
    FiguresExactly(rs);
    forall k | k in agg.byApiKey ensures agg.byApiKey[k].stats == Figures(OfKey(rs, k)) {
      GroupsAre(rs, k);
      CellExactly(OfKey(rs, k), ByApiKey);
    }
    forall k | k in agg.byDevice ensures agg.byDevice[k].stats == Figures(OfDevice(rs, k)) {
      GroupsAre(rs, k);
      CellExactly(OfDevice(rs, k), ByDevice);
    }
    forall c, m | c in agg.cells && m in agg.cells[c]
      ensures agg.cells[c][m].stats == Figures(OfModel(OfCredential(rs, c), m))
    {
      GroupsAre(rs, c);
      GroupsAre(OfCredential(rs, c), m);
      CellExactly(OfModel(OfCredential(rs, c), m), ByModel);
    }
    if w.bucket > 0 {
      forall i: nat | i < |agg.timeline| ensures agg.timeline[i] == Figures(Bucket(rs, w, i)) {
        FiguresExactly(Bucket(rs, w, i));
      }
    }
  }

  /** No record is left without its cells. */
  lemma EveryRecordHasCells(agg: Aggregate, rs: seq<Record>, r: Record)
    requires Grids(agg.cells, rs) && Groups(agg.byApiKey, rs, ByApiKey) && Groups(agg.byDevice, rs, ByDevice) && r in rs
    ensures r.apiKey in agg.byApiKey && r.device in agg.byDevice && r.credential in agg.cells &&
            r.model in agg.cells[r.credential]
  {
    HasCell(agg.byApiKey, rs, ByApiKey, r);
    HasCell(agg.byDevice, rs, ByDevice, r);
    HasRow(agg.cells, rs, r);
  }

  lemma HasCell(m: Cells, rs: seq<Record>, key: Key, r: Record)
    requires Groups(m, rs, key) && r in rs
    ensures KeyOf(key, r) in m
  {
    HasKey(rs, key, r);
  }

  lemma HasRow(g: Grid, rs: seq<Record>, r: Record)
    requires Grids(g, rs) && r in rs
    ensures r.credential in g && r.model in g[r.credential]
  {
    HasKey(rs, ByCredential, r);
    InGroup(rs, ByCredential, r);
    HasCell(g[r.credential], Group(rs, ByCredential, r.credential), ByModel, r);
  }

  lemma HasKey(rs: seq<Record>, key: Key, r: Record)
    requires r in rs
    ensures KeyOf(key, r) in KeysIn(rs, key)
  {
  }

  lemma InGroup(rs: seq<Record>, key: Key, r: Record)
    requires r in rs
    ensures r in Group(rs, key, KeyOf(key, r))
  {
    GroupExactly(rs, key, KeyOf(key, r), r);
    assert r in multiset(rs);
    assert r in multiset(Group(rs, key, KeyOf(key, r)));
  }
}
