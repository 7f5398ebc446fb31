/** Which tool calls a deduplicated list keeps, and in which order. */
module ToolCallOrder {
  import opened Accumulator
  import opened ToolCalls

  /** The calls stand in the order in which their ids first occur in `calls`. */
  predicate InOrder(calls: seq<ToolCall>, list: seq<ToolCall>)
  {
    forall i, j | 0 <= i < j < |list| :: Find(calls, list[i].id) < Find(calls, list[j].id)
  }

  lemma FindSnoc(calls: seq<ToolCall>, c: ToolCall, id: string)
    ensures var k := Find(calls, id);
            Find(calls + [c], id) == if k < |calls| then k else if c.id == id then |calls| else |calls| + 1
  {
    var all := calls + [c];
    assert forall j | 0 <= j < |calls| :: all[j] == calls[j];
    assert all[|calls|] == c;
  }

  lemma LastCall(calls: seq<ToolCall>)
    requires calls != []
    ensures calls == calls[..|calls| - 1] + [calls[|calls| - 1]]
  {
  }

  lemma Listed(calls: seq<ToolCall>, c: ToolCall)
    requires c in calls
    ensures Find(calls, c.id) < |calls|
  {
  }

  /** The list has a call for every id of `calls`, and no others. */
  predicate Covers(calls: seq<ToolCall>, list: seq<ToolCall>)
  {
    (forall c | c in calls :: Find(list, c.id) < |list|) && forall x | x in list :: x in calls
  }

  lemma UnknownId(calls: seq<ToolCall>, list: seq<ToolCall>, id: string)
    requires Covers(calls, list)
    ensures Find(list, id) == |list| ==> Find(calls, id) == |calls|
  {
    var k := Find(calls, id);
    if k < |calls| {
      assert calls[k] in calls;
    }
  }

  lemma OneMoreInOrder(calls: seq<ToolCall>, list: seq<ToolCall>, c: ToolCall)
    requires InOrder(calls, list) && forall i | 0 <= i < |list| :: Find(calls, list[i].id) < Find(calls, c.id)
    ensures InOrder(calls, list + [c])
  {
  }

  /** One more call of the run moves no first occurrence. */
  lemma SameFirst(calls: seq<ToolCall>, c: ToolCall, x: ToolCall)
    requires x in calls
    ensures Find(calls + [c], x.id) == Find(calls, x.id) < |calls|
  {
    Listed(calls, x);
    FindSnoc(calls, c, x.id);
  }

  lemma StillInOrder(calls: seq<ToolCall>, c: ToolCall, list: seq<ToolCall>, list': seq<ToolCall>)
    requires InOrder(calls, list) && (forall x | x in list :: x in calls) && |list'| == |list|
    requires forall i | 0 <= i < |list| :: list'[i].id == list[i].id
    ensures InOrder(calls + [c], list') && forall i | 0 <= i < |list'| :: Find(calls + [c], list'[i].id) < |calls|
  {
    var all := calls + [c];
    forall i | 0 <= i < |list'| ensures Find(all, list'[i].id) < |calls| {
      SameFirst(calls, c, list[i]);
    }
    forall i, j | 0 <= i < j < |list'| ensures Find(all, list'[i].id) < Find(all, list'[j].id) {
      SameFirst(calls, c, list[i]);
      SameFirst(calls, c, list[j]);
    }
  }

  lemma EnteredInOrder(calls: seq<ToolCall>, c: ToolCall, list: seq<ToolCall>)
    requires InOrder(calls, list) && Covers(calls, list)
    ensures InOrder(calls + [c], Entered(list, c))
  {
    if Find(list, c.id) == |list| {
      StillInOrder(calls, c, list, list);
      UnknownId(calls, list, c.id);
      FindSnoc(calls, c, c.id);
      OneMoreInOrder(calls + [c], list, c);
    } else {
      StillInOrder(calls, c, list, Entered(list, c));
    }
  }

  lemma PerIdCovers(calls: seq<ToolCall>)
    ensures Covers(calls, PerId(calls))
  {
    PerIdLongest(calls);
    forall c | c in calls ensures Find(PerId(calls), c.id) < |PerId(calls)| {
      assert Outdone(c, PerId(calls));
    }
  }

  lemma {:induction false} PerIdInOrder(calls: seq<ToolCall>)
    ensures InOrder(calls, PerId(calls))
  {
    if calls != [] {
      var init, last := calls[..|calls| - 1], calls[|calls| - 1];
      PerIdInOrder(init);
      PerIdCovers(init);
      LastCall(calls);
      EnteredInOrder(init, last, PerId(init));
    }
  }

  /** The call at `k` has the longest input of its id, and the first such one. */
  predicate FirstLongest(calls: seq<ToolCall>, k: nat)
    requires k < |calls|
  {
    forall j | 0 <= j < |calls| && calls[j].id == calls[k].id ::
      if j < k then Bytes(calls[j].input) < Bytes(calls[k].input) else Bytes(calls[j].input) <= Bytes(calls[k].input)
  }

  ghost predicate IsFirstLongest(calls: seq<ToolCall>, c: ToolCall)
  {
    exists k: nat :: k < |calls| && calls[k] == c && FirstLongest(calls, k)
  }

  lemma StillFirst(calls: seq<ToolCall>, c: ToolCall, x: ToolCall)
    requires IsFirstLongest(calls, x) && (c.id == x.id ==> Bytes(c.input) <= Bytes(x.input))
    ensures IsFirstLongest(calls + [c], x)
  {
    var k: nat :| k < |calls| && calls[k] == x && FirstLongest(calls, k);
    var all := calls + [c];
    assert all[k] == x && forall j | 0 <= j < |calls| :: all[j] == calls[j];
    assert FirstLongest(all, k);
  }

  lemma NowLongest(calls: seq<ToolCall>, c: ToolCall)
    requires forall j | 0 <= j < |calls| && calls[j].id == c.id :: Bytes(calls[j].input) < Bytes(c.input)
    ensures IsFirstLongest(calls + [c], c)
  {
    var all := calls + [c];
    assert all[|calls|] == c && forall j | 0 <= j < |calls| :: all[j] == calls[j];
    assert FirstLongest(all, |calls|);
  }

  lemma LongestOfId(calls: seq<ToolCall>, x: ToolCall, j: nat)
    requires IsFirstLongest(calls, x) && j < |calls| && calls[j].id == x.id
    ensures Bytes(calls[j].input) <= Bytes(x.input)
  {
  }

  lemma EnteredFirst(calls: seq<ToolCall>, c: ToolCall, list: seq<ToolCall>)
    requires Covers(calls, list) && DistinctIds(list) && forall x | x in list :: IsFirstLongest(calls, x)
    ensures forall x | x in Entered(list, c) :: IsFirstLongest(calls + [c], x)
  {
    var i := Find(list, c.id);
    UnknownId(calls, list, c.id);
    forall x | x in Entered(list, c) ensures IsFirstLongest(calls + [c], x) {
      if x in list && (c.id == x.id ==> Bytes(c.input) <= Bytes(x.input)) {
        StillFirst(calls, c, x);
      } else {
        EnteredIsNew(list, c, x);
        forall j | 0 <= j < |calls| && calls[j].id == c.id ensures Bytes(calls[j].input) < Bytes(c.input) {
          assert calls[j] in calls;
          LongestOfId(calls, list[i], j);
        }
        NowLongest(calls, c);
      }
    }
  }

  /** What replaces a shorter call, or is new, is the call entered. */
  lemma EnteredIsNew(list: seq<ToolCall>, c: ToolCall, x: ToolCall)
    requires DistinctIds(list) && x in Entered(list, c)
    requires !(x in list && (c.id == x.id ==> Bytes(c.input) <= Bytes(x.input)))
    ensures x == c && (Find(list, c.id) < |list| ==> Bytes(c.input) > Bytes(list[Find(list, c.id)].input))
  {
  }

  /** Of the calls of an id the first one with the longest input is kept. */
  lemma {:induction false} PerIdKeepsFirstLongest(calls: seq<ToolCall>)
    ensures forall x | x in PerId(calls) :: IsFirstLongest(calls, x)
  {
    if calls != [] {
      var init := calls[..|calls| - 1];
      PerIdKeepsFirstLongest(init);
      PerIdCovers(init);
      PerIdDistinct(init);
      LastCall(calls);
      EnteredFirst(init, calls[|calls| - 1], PerId(init));
    }
  }

  /** A call is kept exactly when no earlier one of the list has its key. */
  lemma {:induction false} PerKeyKeepsFirst(norm: Norm, list: seq<ToolCall>, i: nat)
    requires i < |list| && DistinctIds(list)
    ensures list[i] in PerKey(norm, list) <==> forall j | 0 <= j < i :: KeyOf(norm, list[j]) != KeyOf(norm, list[i])
    decreases |list|
  {
    var n := |list| - 1;
    var init, last := list[..n], list[n];
    LastCall(list);
    PerKeySnoc(norm, init, last);
    PerKeyDistinct(norm, init);
    if i < n {
      PerKeyKeepsFirst(norm, init, i);
      assert init[i] == list[i] != last;
    } else {
      LastKept(norm, init, last);
    }
  }

  lemma LastKept(norm: Norm, init: seq<ToolCall>, last: ToolCall)
    requires DistinctIds(init + [last])
    ensures last in PerKey(norm, init + [last]) <==> forall j | 0 <= j < |init| :: KeyOf(norm, init[j]) != KeyOf(norm, last)
  {
    PerKeySnoc(norm, init, last);
    PerKeyDistinct(norm, init);
    assert last !in init by {
      forall j | 0 <= j < |init| ensures init[j] != last {
        assert (init + [last])[j].id != (init + [last])[|init|].id;
      }
    }
    KeyAmong(norm, init, last);
  }

  lemma KeyAmong(norm: Norm, init: seq<ToolCall>, c: ToolCall)
    ensures KeyOf(norm, c) in KeysOf(norm, init) <==> exists j :: 0 <= j < |init| && KeyOf(norm, init[j]) == KeyOf(norm, c)
  {
    if KeyOf(norm, c) in KeysOf(norm, init) {
      var x :| x in init && KeyOf(norm, x) == KeyOf(norm, c);
      var j :| 0 <= j < |init| && init[j] == x;
      assert KeyOf(norm, init[j]) == KeyOf(norm, c);
    }
  }

  lemma {:induction false} PerKeyInOrder(norm: Norm, calls: seq<ToolCall>, list: seq<ToolCall>)
    requires InOrder(calls, list)
    ensures InOrder(calls, PerKey(norm, list))
    decreases |list|
  {
    if list != [] {
      var n := |list| - 1;
      var init, last := list[..n], list[n];
      assert forall i | 0 <= i < n :: init[i] == list[i];
      PerKeyInOrder(norm, calls, init);
      LastCall(list);
      PerKeySnoc(norm, init, last);
      PerKeyDistinct(norm, init);
      AllBefore(calls, init, last, PerKey(norm, init));
      OneMoreInOrder(calls, PerKey(norm, init), last);
    }
  }

  lemma AllBefore(calls: seq<ToolCall>, init: seq<ToolCall>, last: ToolCall, kept: seq<ToolCall>)
    requires InOrder(calls, init + [last]) && forall c | c in kept :: c in init
    ensures forall i | 0 <= i < |kept| :: Find(calls, kept[i].id) < Find(calls, last.id)
  {
    var list := init + [last];
    forall i | 0 <= i < |kept| ensures Find(calls, kept[i].id) < Find(calls, last.id) {
      assert kept[i] in init;
      var j :| 0 <= j < |init| && init[j] == kept[i];
      assert list[j] == kept[i] && list[|init|] == last;
    }
  }

  /** The deduplicated calls stand in the order in which their ids were first called. */
  lemma DedupInOrder(norm: Norm, calls: seq<ToolCall>)
    ensures InOrder(calls, Dedup(norm, calls))
  {
    PerIdInOrder(calls);
    PerKeyInOrder(norm, calls, PerId(calls));
  }

  /** Of the calls per id, deduplication keeps exactly the first of each name and
      normalised input. */
  lemma DedupKeepsFirst(norm: Norm, calls: seq<ToolCall>, i: nat)
    requires |calls| > 1 && i < |PerId(calls)|
    ensures var list := PerId(calls);
            list[i] in Dedup(norm, calls) <==> forall j | 0 <= j < i :: KeyOf(norm, list[j]) != KeyOf(norm, list[i])
  {
    PerIdDistinct(calls);
    PerKeyKeepsFirst(norm, PerId(calls), i);
  }
}
