/** A roll-up does not depend on the order of the records, save for the captions of
    devices: what it holds for a rotated ring it holds for the log.
 */
module UsageRotation {
  import opened UsageStats

  function Plainly(c: Cell): Cell
  {
    c.(caption := "")
  }

  /** Cells as for the records, captions aside. */
  ghost predicate SameGroups(m: Cells, rs: seq<Record>, key: Key)
  {
    m.Keys == KeysIn(rs, key) && forall k | k in m :: Plainly(m[k]) == Plainly(CellOf(Group(rs, key, k), key))
  }

  ghost predicate SameGrid(g: Grid, rs: seq<Record>)
  {
    g.Keys == KeysIn(rs, ByCredential) && forall c | c in g :: SameGroups(g[c], Group(rs, ByCredential, c), ByModel)
  }

  /** Totals, cells and timeline are those of the records, captions aside. */
  ghost predicate CountsUp(agg: Aggregate, rs: seq<Record>, w: Window)
  {
    agg.total == StatsOf(rs) && SameGrid(agg.cells, rs) && SameGroups(agg.byApiKey, rs, ByApiKey) &&
    SameGroups(agg.byDevice, rs, ByDevice) && |agg.timeline| == BucketCount(w) &&
    (w.bucket > 0 ==> Bucketed(agg.timeline, rs, w))
  }

  // ------------------------------------------------------- one field at a time

  lemma StatsRotate(a: seq<Record>, b: seq<Record>)
    ensures StatsOf(a + b) == StatsOf(b + a)
  {
    forall x: Field ensures Get(StatsOf(a + b), x) == Get(StatsOf(b + a), x) {
      StatsTotal(a + b, x);
      StatsTotal(b + a, x);
      TotalSplits(a, b, x);
      TotalSplits(b, a, x);
    }
    SameFigures(StatsOf(a + b), StatsOf(b + a));
  }

  lemma {:induction false} LatencySplits(a: seq<Record>, b: seq<Record>, key: Key)
    ensures CellOf(a + b, key).latency == CellOf(a, key).latency + CellOf(b, key).latency
  {
    if b == [] {
      assert a + b == a;
    } else {
      assert (a + b)[..|a + b| - 1] == a + b[..|b| - 1];
      LatencySplits(a, b[..|b| - 1], key);
    }
  }

  lemma {:induction false} SeenSplits(a: seq<Record>, b: seq<Record>, key: Key)
    ensures var m, n := CellOf(a, key).lastSeen, CellOf(b, key).lastSeen;
            m >= 0 && n >= 0 && CellOf(a + b, key).lastSeen == if m > n then m else n
  {
    SeenPositive(a, key);
    SeenPositive(b, key);
    if b == [] {
      assert a + b == a;
    } else {
      assert (a + b)[..|a + b| - 1] == a + b[..|b| - 1];
      SeenSplits(a, b[..|b| - 1], key);
    }
  }

  lemma {:induction false} SeenPositive(a: seq<Record>, key: Key)
    ensures CellOf(a, key).lastSeen >= 0
  {
    if a != [] {
      SeenPositive(a[..|a| - 1], key);
    }
  }

  lemma CellRotates(a: seq<Record>, b: seq<Record>, key: Key)
    ensures Plainly(CellOf(a + b, key)) == Plainly(CellOf(b + a, key))
  {
    StatsRotate(a, b);
    CellStats(a + b, key);
    CellStats(b + a, key);
    LatencySplits(a, b, key);
    LatencySplits(b, a, key);
    SeenSplits(a, b, key);
    SeenSplits(b, a, key);
  }

  // ------------------------------------------------------------------- groups

  lemma {:induction false} GroupSplits(a: seq<Record>, b: seq<Record>, key: Key, k: string)
    ensures Group(a + b, key, k) == Group(a, key, k) + Group(b, key, k)
  {
    if b == [] {
      assert a + b == a;
    } else {
      assert (a + b)[..|a + b| - 1] == a + b[..|b| - 1];
      GroupSplits(a, b[..|b| - 1], key, k);
    }
  }

  lemma KeysRotate(a: seq<Record>, b: seq<Record>, key: Key)
    ensures KeysIn(a + b, key) == KeysIn(b + a, key)
  {
    assert forall r :: r in a + b <==> r in b + a;
  }

  lemma GroupsRotate(m: Cells, a: seq<Record>, b: seq<Record>, key: Key)
    requires Groups(m, a + b, key)
    ensures SameGroups(m, b + a, key)
  {
    KeysRotate(a, b, key);
    forall k | k in m ensures Plainly(m[k]) == Plainly(CellOf(Group(b + a, key, k), key)) {
      GroupSplits(a, b, key, k);
      GroupSplits(b, a, key, k);
      CellRotates(Group(a, key, k), Group(b, key, k), key);
    }
  }

  lemma GridRotates(g: Grid, a: seq<Record>, b: seq<Record>)
    requires Grids(g, a + b)
    ensures SameGrid(g, b + a)
  {
    KeysRotate(a, b, ByCredential);
    forall c | c in g ensures SameGroups(g[c], Group(b + a, ByCredential, c), ByModel) {
      GroupSplits(a, b, ByCredential, c);
      GroupSplits(b, a, ByCredential, c);
      GroupsRotate(g[c], Group(a, ByCredential, c), Group(b, ByCredential, c), ByModel);
    }
  }

  lemma {:induction false} BucketSplits(a: seq<Record>, b: seq<Record>, w: Window, i: nat)
    requires w.bucket > 0
    ensures Bucket(a + b, w, i) == Bucket(a, w, i) + Bucket(b, w, i)
  {
    if b == [] {
      assert a + b == a;
    } else {
      var init, r := b[..|b| - 1], b[|b| - 1];
      assert b == init + [r] && a + b == (a + init) + [r];
      BucketSplits(a, init, w, i);
      BucketSnoc(a + init, r, w, i);
      BucketSnoc(init, r, w, i);
    }
  }

  lemma LineRotates(line: seq<Stats>, a: seq<Record>, b: seq<Record>, w: Window)
    requires w.bucket > 0 && Bucketed(line, a + b, w)
    ensures Bucketed(line, b + a, w)
  {
    forall i: nat | i < |line| ensures line[i] == StatsOf(Bucket(b + a, w, i)) {
      BucketSplits(a, b, w, i);
      BucketSplits(b, a, w, i);
      StatsRotate(Bucket(a, w, i), Bucket(b, w, i));
    }
  }

  /** Rotating the records changes nothing but captions. */
  lemma RollupRotates(agg: Aggregate, a: seq<Record>, b: seq<Record>, w: Window)
    requires RollsUp(agg, a + b, w)
    ensures CountsUp(agg, b + a, w)
  {
    StatsRotate(a, b);
    GridRotates(agg.cells, a, b);
    GroupsRotate(agg.byApiKey, a, b, ByApiKey);
    GroupsRotate(agg.byDevice, a, b, ByDevice);
    if w.bucket > 0 {
      LineRotates(agg.timeline, a, b, w);
    }
  }

  // ----------------------------------------------------------------- captions

  /** The caption a device cell ends up with. */
  function Caption(rs: seq<Record>): string
  {
    if rs == [] then "" else if rs[|rs| - 1].agent != "" then rs[|rs| - 1].agent else Caption(rs[..|rs| - 1])
  }

  lemma {:induction false} DeviceCaption(rs: seq<Record>)
    ensures CellOf(rs, ByDevice).caption == Caption(rs)
  {
    if rs != [] {
      DeviceCaption(rs[..|rs| - 1]);
    }
  }

  lemma {:induction false} CaptionSplits(a: seq<Record>, b: seq<Record>)
    ensures Caption(a + b) == if Caption(b) != "" then Caption(b) else Caption(a)
  {
    if b == [] {
      assert a + b == a;
    } else {
      assert (a + b)[..|a + b| - 1] == a + b[..|b| - 1];
      CaptionSplits(a, b[..|b| - 1]);
    }
  }

  /** The last user agent a device showed among the counted records. */
  function Shown(rs: seq<Record>, f: Filter, w: Window, device: string): string
  {
    Caption(Group(Select(rs, f, w), ByDevice, device))
  }

  /** The caption of a device cell is the one last shown in the order rolled up. */
  lemma CaptionShown(agg: Aggregate, rs: seq<Record>, f: Filter, w: Window, device: string)
    requires Groups(agg.byDevice, Select(rs, f, w), ByDevice) && device in agg.byDevice
    ensures agg.byDevice[device].caption == Shown(rs, f, w, device)
  {
    DeviceCaption(Group(Select(rs, f, w), ByDevice, device));
  }

  lemma ShownSplits(a: seq<Record>, b: seq<Record>, f: Filter, w: Window, device: string)
    ensures Shown(a + b, f, w, device) ==
            if Shown(b, f, w, device) != "" then Shown(b, f, w, device) else Shown(a, f, w, device)
  {
    SelectSplits(a, b, f, w);
    GroupSplits(Select(a, f, w), Select(b, f, w), ByDevice, device);
    CaptionSplits(Group(Select(a, f, w), ByDevice, device), Group(Select(b, f, w), ByDevice, device));
  }

  /** The roll-up goes through the buffer, newer records first: the caption is that
      of the latest record exactly when one side has none or both agree. */
  lemma CaptionRotates(agg: Aggregate, newer: seq<Record>, older: seq<Record>, f: Filter, w: Window, device: string)
    requires RollsUp(agg, Select(newer + older, f, w), w) && device in agg.byDevice
    ensures agg.byDevice[device].caption == Shown(newer + older, f, w, device)
    ensures agg.byDevice[device].caption == Shown(older + newer, f, w, device) <==>
            var a, b := Shown(older, f, w, device), Shown(newer, f, w, device);
            a == "" || b == "" || a == b
  {
    CaptionShown(agg, newer + older, f, w, device);
    ShownSplits(newer, older, f, w, device);
    ShownSplits(older, newer, f, w, device);
  }
}
