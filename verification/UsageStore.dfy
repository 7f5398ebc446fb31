/** The in-memory usage ring and the choice between it and the full store. */
module UsageStore {
  import opened UsageStats
  import opened UsageRotation

  function Last(s: seq<Record>, n: nat): seq<Record>
  {
    if |s| <= n then s else s[|s| - n..]
  }

  /** The matching records, newest first. */
  function NewestFirst(rs: seq<Record>, f: Filter): seq<Record>
  {
    if rs == [] then []
    else (if Matches(rs[|rs| - 1], f) then [rs[|rs| - 1]] else []) + NewestFirst(rs[..|rs| - 1], f)
  }

  function Upto(s: seq<Record>, n: nat): seq<Record>
  {
    if |s| <= n then s else s[..n]
  }

  /** The buffer holds the last records of the log, the oldest at `head`. */
  ghost predicate RingOk(buf: seq<Record>, head: nat, full: bool, capacity: nat, log: seq<Record>)
  {
    0 < capacity && |buf| <= capacity && (if full then |buf| == capacity && head < capacity else head == 0) &&
    (|buf| < capacity ==> log == buf) && buf[head..] + buf[..head] == Last(log, capacity)
  }

  lemma RingGrows(buf: seq<Record>, head: nat, full: bool, capacity: nat, log: seq<Record>, r: Record)
    requires RingOk(buf, head, full, capacity, log) && |buf| < capacity
    ensures RingOk(buf + [r], head, full, capacity, log + [r])
  {
    assert (buf + [r])[0..] + (buf + [r])[..0] == buf + [r];
  }

  lemma RingTurns(buf: seq<Record>, head: nat, full: bool, capacity: nat, log: seq<Record>, r: Record)
    requires RingOk(buf, head, full, capacity, log) && |buf| == capacity
    ensures RingOk(buf[head := r], if head + 1 == capacity then 0 else head + 1, true, capacity, log + [r])
  {
    assert |buf[head..] + buf[..head]| == capacity;
    RotateOne(buf, head, r);
    LastNext(log, capacity, r);
  }

  class MemoryStore {
    const capacity: nat
    var buf: seq<Record>
    var head: nat
    var full: bool
    ghost var log: seq<Record>

    /** The retained records, oldest first. */
    ghost function Contents(): seq<Record>
      reads this
      requires head <= |buf|
    {
      buf[head..] + buf[..head]
    }

    /** The ring holds the last records ever appended, as many as fit. */
    ghost predicate Valid()
      reads this
    {
      RingOk(buf, head, full, capacity, log)
    }

    constructor (requested: int)
      ensures Valid() && log == [] && capacity == if requested <= 0 then 10000 else requested
      ensures buf == [] && head == 0
    {
      capacity := if requested <= 0 then 10000 else requested;
      buf, head, full, log := [], 0, false, [];
    }

    method Append(r: Record)
      requires Valid()
      modifies this
      ensures Valid() && log == old(log) + [r]
      ensures if |old(buf)| < capacity then buf == old(buf) + [r] && head == old(head)
              else buf == old(buf)[old(head) := r] && head == if old(head) + 1 == capacity then 0 else old(head) + 1
    {
      if |buf| < capacity {
        RingGrows(buf, head, full, capacity, log, r);
        log := log + [r];
        buf := buf + [r];
        return;
      }
      RingTurns(buf, head, full, capacity, log, r);
      Wrap(head, capacity);
      log := log + [r];
      buf := buf[head := r];
      head := (head + 1) % capacity;
      full := true;
    }

    method Length() returns (n: nat)
      requires Valid()
      ensures n == |Last(log, capacity)|
    {
      n := |buf|;
    }

    method Oldest() returns (at: int)
      requires Valid() && log != []
      ensures at == Last(log, capacity)[0].at
    {
      if full {
        return buf[head].at;
      }
      return buf[0].at;
    }

    /** The figures are those of the retained records, captions aside; a device's
        caption is its latest exactly when the part of the ring before `head`, or
        the one behind it, has none, or both have the same. */
    method Query(f: Filter, w: Window) returns (agg: Aggregate)
      requires Valid()
      ensures RollsUp(agg, Select(buf, f, w), w)
      ensures CountsUp(agg, Select(Last(log, capacity), f, w), w)
      ensures forall d | d in agg.byDevice ::
                agg.byDevice[d].caption == Shown(Last(log, capacity), f, w, d) <==> OneCaption(buf, head, f, w, d)
    {
      agg := Rollup(buf, f, w);
      ghost var newer, older := buf[..head], buf[head..];
      assert newer + older == buf;
      SelectSplits(newer, older, f, w);
      SelectSplits(older, newer, f, w);
      RollupRotates(agg, Select(newer, f, w), Select(older, f, w), w);
      forall d | d in agg.byDevice
        ensures agg.byDevice[d].caption == Shown(Last(log, capacity), f, w, d) <==> OneCaption(buf, head, f, w, d)
      {
        CaptionRotates(agg, newer, older, f, w, d);
      }
    }

    /** The newest matching records, newest first, no more than asked for. */
    method Recent(f: Filter, limit: int) returns (out: seq<Record>)
      requires Valid()
      ensures out == if limit <= 0 then [] else Upto(NewestFirst(Last(log, capacity), f), limit)
    {
      if limit <= 0 {
        return [];
      }
      forall i: nat | i < |buf| ensures Stands(buf, head, capacity, full, Contents(), i) {
        NewestIndex(i);
      }
      out := Walk(buf, head, capacity, full, f, limit, Contents());
    }

    lemma NewestIndex(i: nat)
      requires Valid() && i < |buf|
      ensures Stands(buf, head, capacity, full, Contents(), i)
    {
      if full {
        SlotIs(head, capacity, |buf|, i);
      }
    }
  }

  lemma UptoIs(out: seq<Record>, rest: seq<Record>, n: nat)
    requires |out| == n
    ensures Upto(out + rest, n) == out
  {
    assert out + [] == out;
  }

  /** Where the `i`-th newest record stands. */
  function Slot(head: int, capacity: int, full: bool, n: int, i: int): int
    requires capacity > 0
  {
    if full then (head - 1 - i + capacity) % capacity else n - 1 - i
  }

  lemma SlotIs(head: nat, capacity: nat, n: nat, i: nat)
    requires head < capacity == n && i < n
    ensures Slot(head, capacity, true, n, i) == if i < head then head - 1 - i else head - 1 - i + capacity
  {
    if i < head {
      Remainder(head - 1 - i, capacity, 1);
    } else {
      Remainder(head - 1 - i + capacity, capacity, 0);
    }
  }

  lemma Remainder(x: nat, n: nat, k: nat)
    requires x < n && k <= 1
    ensures (x + k * n) % n == x
  {
    var y := x + k * n;
    assert y == n * (y / n) + y % n;
    assert 0 <= y / n <= 1 by {
      NoMoreThan(y, n);
    }
    assert y / n == 0 ==> n * (y / n) == 0;
    assert y / n == 1 ==> n * (y / n) == n;
  }

  lemma NoMoreThan(y: nat, n: nat)
    requires y < 2 * n
    ensures y / n <= 1
  {
  }

  /** All but the oldest `k` records have been gone through. */
  ghost predicate Walked(all: seq<Record>, f: Filter, out: seq<Record>, k: nat)
  {
    k <= |all| && NewestFirst(all, f) == out + NewestFirst(all[..k], f)
  }

  /** The walk finds the `i`-th newest record. */
  ghost predicate Stands(buf: seq<Record>, head: int, capacity: nat, full: bool, all: seq<Record>, i: nat)
    requires capacity > 0 && i < |buf| == |all|
  {
    var idx := Slot(head, capacity, full, |buf|, i);
    0 <= idx < |buf| && buf[idx] == all[|buf| - 1 - i]
  }

  /** From the newest record to the oldest, until there are enough. */
  method Walk(buf: seq<Record>, head: int, capacity: nat, full: bool, f: Filter, limit: nat, ghost all: seq<Record>)
    returns (out: seq<Record>)
    requires capacity > 0 && limit > 0 && |buf| == |all|
    requires forall i: nat | i < |buf| :: Stands(buf, head, capacity, full, all, i)
    ensures out == Upto(NewestFirst(all, f), limit)
  {
    out := [];
    var n := |buf|;
    assert all[..n] == all;
    for i := 0 to n
      invariant |out| < limit && Walked(all, f, out, n - i)
    {
      assert Stands(buf, head, capacity, full, all, i);
      WalkedNext(all, f, out, n - i);
      var rec := buf[Slot(head, capacity, full, n, i)];
      if Matches(rec, f) {
        out := out + [rec];
        if |out| >= limit {
          UptoIs(out, NewestFirst(all[..n - i - 1], f), limit);
          return;
        }
      }
    }
    assert out + [] == out;
  }

  lemma WalkedNext(all: seq<Record>, f: Filter, out: seq<Record>, k: nat)
    requires k > 0 && Walked(all, f, out, k)
    ensures Walked(all, f, if Matches(all[k - 1], f) then out + [all[k - 1]] else out, k - 1)
  {
    var rest := NewestFirst(all[..k - 1], f);
    assert all[..k][..k - 1] == all[..k - 1];
    assert [] + rest == rest;
    assert out + ([all[k - 1]] + rest) == (out + [all[k - 1]]) + rest;
  }

  lemma Wrap(k: nat, n: nat)
    requires k < n
    ensures (k + 1) % n == if k + 1 == n then 0 else k + 1
  {
  }

  lemma RotateOne(buf: seq<Record>, head: nat, r: Record)
    requires head < |buf|
    ensures var next := if head + 1 == |buf| then 0 else head + 1;
            var buf' := buf[head := r];
            next <= |buf'| && buf'[next..] + buf'[..next] == (buf[head..] + buf[..head])[1..] + [r]
  {
    var a, b := buf[..head], buf[head + 1..];
    var buf' := buf[head := r];
    assert (buf[head..] + buf[..head])[1..] == b + a;
    assert buf'[..head + 1] == a + [r] && buf'[head + 1..] == b;
    if head + 1 == |buf| {
      assert buf'[0..] + buf'[..0] == a + [r] && b + a == a;
    } else {
      assert b + (a + [r]) == (b + a) + [r];
    }
  }

  lemma LastNext(log: seq<Record>, n: nat, r: Record)
    requires n > 0 && |log| >= n
    ensures Last(log + [r], n) == Last(log, n)[1..] + [r]
  {
  }

  // ----------------------------------------------- memory against the full log

  predicate Increasing(log: seq<Record>)
  {
    forall i, j | 0 <= i < j < |log| :: log[i].at < log[j].at
  }

  /** What the ring has dropped. */
  function Dropped(log: seq<Record>, n: nat): seq<Record>
  {
    if |log| <= n then [] else log[..|log| - n]
  }

  lemma {:induction false} NothingSelected(rs: seq<Record>, f: Filter, w: Window)
    requires forall r | r in rs :: r.at < w.start
    ensures Select(rs, f, w) == []
  {
    if rs != [] {
      NothingSelected(rs[..|rs| - 1], f, w);
      assert rs[|rs| - 1] in rs;
    }
  }

  /** The guard of the fast path: the window starts no earlier than the ring. */
  predicate MemoryCovers(log: seq<Record>, n: nat, w: Window)
  {
    n > 0 && log != [] && Last(log, n)[0].at <= w.start
  }

  /** Every record the ring has dropped is strictly older than all it kept at its head. */
  predicate DroppedOlder(log: seq<Record>, n: nat)
    requires n > 0 && log != []
  {
    forall r | r in Dropped(log, n) :: r.at < Last(log, n)[0].at
  }

  lemma SameAnswer(log: seq<Record>, n: nat, f: Filter, w: Window)
    requires MemoryCovers(log, n, w) && DroppedOlder(log, n)
    ensures Select(Last(log, n), f, w) == Select(log, f, w)
  {
    var d, l := Dropped(log, n), Last(log, n);
    assert log == d + l;
    SelectSplits(d, l, f, w);
    NothingSelected(d, f, w);
  }

  ghost predicate MemoryExact(log: seq<Record>, n: nat)
  {
    forall f, w: Window | MemoryCovers(log, n, w) :: SameCount(log, n, f, w)
  }

  ghost predicate SameCount(log: seq<Record>, n: nat, f: Filter, w: Window)
  {
    |Select(Last(log, n), f, w)| == |Select(log, f, w)|
  }

  /** The fast path counts what the full log counts, for every filter and window it
      is chosen for, exactly when the dropped records are strictly older. */
  lemma MemoryAgreesExactly(log: seq<Record>, n: nat)
    requires n > 0 && log != []
    ensures MemoryExact(log, n) <==> DroppedOlder(log, n)
  {
    if DroppedOlder(log, n) {
      forall f, w: Window | MemoryCovers(log, n, w) ensures SameCount(log, n, f, w) {
        SameAnswer(log, n, f, w);
      }
    } else {
      var r :| r in Dropped(log, n) && r.at >= Last(log, n)[0].at;
      var w := Window(r.at, r.at + 1, 0);
      MissedRecord(log, n, r, w);
      assert MemoryCovers(log, n, w) && !SameCount(log, n, ANY, w);
    }
  }

  lemma MissedRecord(log: seq<Record>, n: nat, r: Record, w: Window)
    requires r in Dropped(log, n) && w == Window(r.at, r.at + 1, 0)
    ensures |Select(Last(log, n), ANY, w)| < |Select(log, ANY, w)|
  {
    var d, l := Dropped(log, n), Last(log, n);
    assert log == d + l;
    SelectSplits(d, l, ANY, w);
    SelectFinds(d, r, ANY, w);
  }

  lemma {:induction false} SelectFinds(rs: seq<Record>, r: Record, f: Filter, w: Window)
    requires r in rs && Counted(r, f, w)
    ensures Select(rs, f, w) != []
  {
    var init := rs[..|rs| - 1];
    assert rs == init + [rs[|rs| - 1]];
    if r != rs[|rs| - 1] {
      SelectFinds(init, r, f, w);
    }
  }

  /** Strictly increasing timestamps suffice. */
  lemma IncreasingDropsOlder(log: seq<Record>, n: nat)
    requires n > 0 && log != [] && Increasing(log)
    ensures DroppedOlder(log, n)
  {
    forall r | r in Dropped(log, n) ensures r.at < Last(log, n)[0].at {
      var i :| 0 <= i < |Dropped(log, n)| && Dropped(log, n)[i] == r;
      assert log[i].at < log[|log| - n].at;
    }
  }

  // -------------------------------------------------------------- aggregator

  datatype Answer = Answer(agg: Aggregate) | NoStore

  class Aggregator {
    const mem: MemoryStore?
    const persistent: bool

    constructor (mem: MemoryStore?, persistent: bool)
      ensures this.mem == mem && this.persistent == persistent
    {
      this.mem, this.persistent := mem, persistent;
    }

    /** The persistent store is taken to answer from the `stored` records. Whenever
        memory is picked, the figures are those of everything published. */
    method Query(stored: seq<Record>, f: Filter, w: Window) returns (a: Answer)
      requires mem != null ==> mem.Valid()
      ensures a.NoStore? <==> mem == null && !persistent
      ensures mem != null && MemoryCovers(mem.log, mem.capacity, w) && DroppedOlder(mem.log, mem.capacity) ==>
                a.Answer? && CountsUp(a.agg, Select(mem.log, f, w), w)
      ensures mem != null && !persistent ==> a.Answer? && RollsUp(a.agg, Select(mem.buf, f, w), w)
      ensures persistent && (mem == null || !MemoryCovers(mem.log, mem.capacity, w)) ==>
                a.Answer? && RollsUp(a.agg, Select(stored, f, w), w)
    {
      var useMem := false;
      if mem != null {
        var n := mem.Length();
        if n > 0 {
          var oldest := mem.Oldest();
          useMem := oldest <= w.start;
        }
      }
      if useMem {
        var agg := mem.Query(f, w);
        if DroppedOlder(mem.log, mem.capacity) {
          SameAnswer(mem.log, mem.capacity, f, w);
        }
        return Answer(agg);
      }
      if persistent {
        var agg := Rollup(stored, f, w);
        return Answer(agg);
      }
      if mem != null {
        var agg := mem.Query(f, w);
        return Answer(agg);
      }
      return NoStore;
    }
  }

  // ------------------------------------------------------------ device captions

  /** The two parts of the ring do not disagree on the device's caption. */
  ghost predicate OneCaption(buf: seq<Record>, head: nat, f: Filter, w: Window, device: string)
    requires head <= |buf|
  {
    var newer, older := Shown(buf[..head], f, w, device), Shown(buf[head..], f, w, device);
    newer == "" || older == "" || newer == older
  }

  function Request(at: int, agent: string): Record
  {
    Record(at, "c", "m", "k", "d", agent, SUCCESS, 0, 0, 0, 0, 0)
  }

  const DAY := Window(0, 10, 0)

  lemma TwoShown(a: Record, b: Record)
    requires Counted(a, ANY, DAY) && Counted(b, ANY, DAY) && a.device == b.device && b.agent != ""
    ensures Shown([a, b], ANY, DAY, a.device) == b.agent && a.device in KeysIn(Select([a, b], ANY, DAY), ByDevice)
  {
    assert [a, b][..1] == [a] && [a][..0] == [];
    assert Select([], ANY, DAY) == [] && Select([a], ANY, DAY) == [a];
    assert Select([a, b], ANY, DAY) == [a] + [b] == [a, b];
    assert Group([], ByDevice, a.device) == [] && Group([a], ByDevice, a.device) == [a];
    assert Group([a, b], ByDevice, a.device) == [a] + [b] == [a, b];
    assert a in [a, b];
  }

  /** A ring of two after three records: the third has taken the first one's place. */
  method Wrapped(a: Record, b: Record, c: Record) returns (m: MemoryStore)
    ensures fresh(m) && m.Valid() && m.buf == [c, b]
  {
    m := new MemoryStore(2);
    m.Append(a);
    m.Append(b);
    assert m.buf == [a, b];
    m.Append(c);
  }

  lemma NewerFirst(agg: Aggregate, b: Record, c: Record)
    requires Counted(b, ANY, DAY) && Counted(c, ANY, DAY) && b.device == c.device && b.agent != ""
    requires Groups(agg.byDevice, Select([c, b], ANY, DAY), ByDevice)
    ensures b.device in agg.byDevice && agg.byDevice[b.device].caption == b.agent
  {
    TwoShown(c, b);
    CaptionShown(agg, [c, b], ANY, DAY, b.device);
  }

  /** A ring that has wrapped reports the caption of the record before the latest. */
  method StaleCaption() returns (agg: Aggregate, latest: string)
    ensures "d" in agg.byDevice && agg.byDevice["d"].caption == "second"
    ensures latest == Shown([Request(2, "second"), Request(3, "third")], ANY, DAY, "d") == "third"
  {
    var b, c := Request(2, "second"), Request(3, "third");
    var m := Wrapped(Request(1, "first"), b, c);
    agg := m.Query(ANY, DAY);
    NewerFirst(agg, b, c);
    TwoShown(b, c);
    latest := "third";
  }
}
