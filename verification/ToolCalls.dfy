/** Deduplication of the tool calls of a buffered reply: one call per id, the one
    with the longest input, and then one call per name and normalised input.
 */
module ToolCalls {
  import opened Accumulator

  type Norm = string -> string

  // --------------------------------------------------------------- per id

  /** Where a call of the id stands, |calls| if there is none. */
  function Find(calls: seq<ToolCall>, id: string): (i: nat)
    ensures i <= |calls| && (i < |calls| ==> calls[i].id == id) && forall j | 0 <= j < i :: calls[j].id != id
  {
    if calls == [] then 0
    else if calls[0].id == id then 0
    else
      assert forall j | 0 < j < |calls| :: calls[j] == calls[1..][j - 1];
      1 + Find(calls[1..], id)
  }

  /** The length of a text in UTF-8. */
  function Bytes(s: string): nat
  {
    if s == "" then 0
    else
      Bytes(s[1..]) +
      if s[0] as int < 0x80 then 1 else if s[0] as int < 0x800 then 2 else if s[0] as int < 0x10000 then 3 else 4
  }

  /** The list with one more call: the longer input stays, at the older place. */
  function Entered(list: seq<ToolCall>, c: ToolCall): seq<ToolCall>
  {
    var i := Find(list, c.id);
    if i == |list| then list + [c] else if Bytes(c.input) > Bytes(list[i].input) then list[i := c] else list
  }

  function PerId(calls: seq<ToolCall>): seq<ToolCall>
  {
    if calls == [] then [] else Entered(PerId(calls[..|calls| - 1]), calls[|calls| - 1])
  }

  predicate DistinctIds(calls: seq<ToolCall>)
  {
    forall i, j | 0 <= i < j < |calls| :: calls[i].id != calls[j].id
  }

  lemma {:induction false} PerIdDistinct(calls: seq<ToolCall>)
    ensures DistinctIds(PerId(calls)) && (PerId(calls) == [] <==> calls == [])
  {
    if calls != [] {
      PerIdDistinct(calls[..|calls| - 1]);
    }
  }

  /** A call of the list has the id and no shorter an input. */
  predicate Outdone(c: ToolCall, list: seq<ToolCall>)
  {
    exists i :: 0 <= i < |list| && list[i].id == c.id && Bytes(list[i].input) >= Bytes(c.input)
  }

  lemma EnteredLongest(list: seq<ToolCall>, c: ToolCall)
    ensures Outdone(c, Entered(list, c))
    ensures forall x | Outdone(x, list) :: Outdone(x, Entered(list, c))
    ensures forall x | x in Entered(list, c) :: x in list || x == c
  {
    var list', i := Entered(list, c), Find(list, c.id);
    assert list'[i].id == c.id && Bytes(list'[i].input) >= Bytes(c.input);
    forall x | Outdone(x, list) ensures Outdone(x, list') {
      var k :| 0 <= k < |list| && list[k].id == x.id && Bytes(list[k].input) >= Bytes(x.input);
      assert list'[k].id == x.id && Bytes(list'[k].input) >= Bytes(x.input);
    }
  }

  /** Of the calls of an id one with the longest input is kept. */
  lemma {:induction false} PerIdLongest(calls: seq<ToolCall>)
    ensures forall c | c in calls :: Outdone(c, PerId(calls))
    ensures forall c | c in PerId(calls) :: c in calls
  {
    if calls != [] {
      var init, last := calls[..|calls| - 1], calls[|calls| - 1];
      PerIdLongest(init);
      EnteredLongest(PerId(init), last);
      assert calls == init + [last];
    }
  }

  lemma {:induction false} PerIdKeeps(calls: seq<ToolCall>)
    ensures PerId(calls) == calls <==> DistinctIds(calls)
  {
    PerIdDistinct(calls);
    if DistinctIds(calls) {
      DistinctStay(calls);
    }
  }

  lemma {:induction false} DistinctStay(calls: seq<ToolCall>)
    requires DistinctIds(calls)
    ensures PerId(calls) == calls
  {
    if calls != [] {
      var n := |calls| - 1;
      OneMoreCall(calls, |calls|);
      assert calls[..|calls|] == calls;
      DistinctStay(calls[..n]);
      NewId(calls[..n], calls[n]);
    }
  }

  lemma NewId(init: seq<ToolCall>, c: ToolCall)
    requires DistinctIds(init + [c])
    ensures Find(init, c.id) == |init|
  {
    forall i | 0 <= i < |init| ensures init[i].id != c.id {
      assert (init + [c])[i].id != (init + [c])[|init|].id;
    }
  }

  // --------------------------------------------------- per name and input

  datatype Key = Key(name: string, input: string)

  function KeyOf(norm: Norm, c: ToolCall): Key
  {
    Key(c.name, norm(c.input))
  }

  function KeysOf(norm: Norm, calls: seq<ToolCall>): set<Key>
  {
    set c | c in calls :: KeyOf(norm, c)
  }

  function PerKey(norm: Norm, calls: seq<ToolCall>): seq<ToolCall>
  {
    if calls == [] then []
    else
      var init, last := calls[..|calls| - 1], calls[|calls| - 1];
      PerKey(norm, init) + if KeyOf(norm, last) in KeysOf(norm, init) then [] else [last]
  }

  predicate DistinctKeys(norm: Norm, calls: seq<ToolCall>)
  {
    forall i, j | 0 <= i < j < |calls| :: KeyOf(norm, calls[i]) != KeyOf(norm, calls[j])
  }

  /** Every key keeps exactly one call, and the rest of the list its order. */
  lemma {:induction false} PerKeyDistinct(norm: Norm, calls: seq<ToolCall>)
    ensures DistinctKeys(norm, PerKey(norm, calls)) && KeysOf(norm, PerKey(norm, calls)) == KeysOf(norm, calls)
    ensures (forall c | c in PerKey(norm, calls) :: c in calls) && |PerKey(norm, calls)| <= |calls|
    ensures DistinctIds(calls) ==> DistinctIds(PerKey(norm, calls))
  {
    if calls != [] {
      var init, last := calls[..|calls| - 1], calls[|calls| - 1];
      PerKeyDistinct(norm, init);
      assert calls == init + [last];
      KeysSnoc(norm, init, last);
      if KeyOf(norm, last) !in KeysOf(norm, init) {
        OneMoreKey(norm, init, PerKey(norm, init), last);
      }
    }
  }

  lemma KeysSnoc(norm: Norm, calls: seq<ToolCall>, c: ToolCall)
    ensures KeysOf(norm, calls + [c]) == KeysOf(norm, calls) + {KeyOf(norm, c)}
  {
  }

  /** A call with a new key extends a list of different calls. */
  lemma OneMoreKey(norm: Norm, init: seq<ToolCall>, r: seq<ToolCall>, c: ToolCall)
    requires DistinctKeys(norm, r) && KeysOf(norm, r) == KeysOf(norm, init) && KeyOf(norm, c) !in KeysOf(norm, init)
    requires forall x | x in r :: x in init
    ensures DistinctKeys(norm, r + [c]) && KeysOf(norm, r + [c]) == KeysOf(norm, init + [c])
    ensures DistinctIds(init + [c]) && DistinctIds(r) ==> DistinctIds(r + [c])
  {
    KeysSnoc(norm, init, c);
    KeysSnoc(norm, r, c);
    forall i | 0 <= i < |r| ensures KeyOf(norm, r[i]) != KeyOf(norm, c) && r[i] in init {
      assert KeyOf(norm, r[i]) in KeysOf(norm, r);
    }
    if DistinctIds(init + [c]) {
      forall i | 0 <= i < |r| ensures r[i].id != c.id {
        var k :| 0 <= k < |init| && init[k] == r[i];
        assert (init + [c])[k].id != (init + [c])[|init|].id;
      }
    }
  }

  lemma {:induction false} PerKeyKeeps(norm: Norm, calls: seq<ToolCall>)
    ensures PerKey(norm, calls) == calls <==> DistinctKeys(norm, calls)
  {
    PerKeyDistinct(norm, calls);
    if DistinctKeys(norm, calls) {
      DistinctKeysStay(norm, calls);
    }
  }

  lemma DistinctKeysStay(norm: Norm, calls: seq<ToolCall>)
    requires DistinctKeys(norm, calls)
    ensures PerKey(norm, calls) == calls
  {
    FirstStay(norm, calls, |calls|);
    assert calls[..|calls|] == calls;
  }

  lemma {:induction false} FirstStay(norm: Norm, calls: seq<ToolCall>, n: nat)
    requires n <= |calls| && DistinctKeys(norm, calls)
    ensures PerKey(norm, calls[..n]) == calls[..n]
    decreases n
  {
    if n > 0 {
      FirstStay(norm, calls, n - 1);
      LastKeyIsNew(norm, calls, n - 1);
      NewKeyStays(norm, calls[..n - 1], calls[n - 1]);
      OneMoreCall(calls, n);
    }
  }

  lemma OneMoreCall(calls: seq<ToolCall>, n: nat)
    requires 0 < n <= |calls|
    ensures calls[..n] == calls[..n - 1] + [calls[n - 1]]
  {
  }

  lemma NewKeyStays(norm: Norm, init: seq<ToolCall>, c: ToolCall)
    requires PerKey(norm, init) == init && KeyOf(norm, c) !in KeysOf(norm, init)
    ensures PerKey(norm, init + [c]) == init + [c]
  {
    PerKeySnoc(norm, init, c);
  }

  lemma PerKeySnoc(norm: Norm, init: seq<ToolCall>, c: ToolCall)
    ensures PerKey(norm, init + [c]) ==
            if KeyOf(norm, c) in KeysOf(norm, init) then PerKey(norm, init) else PerKey(norm, init) + [c]
  {
    assert (init + [c])[..|init|] == init;
    assert PerKey(norm, init) + [] == PerKey(norm, init);
  }

  lemma LastKeyIsNew(norm: Norm, calls: seq<ToolCall>, n: nat)
    requires n < |calls| && DistinctKeys(norm, calls)
    ensures KeyOf(norm, calls[n]) !in KeysOf(norm, calls[..n])
  {
    forall c | c in calls[..n] ensures KeyOf(norm, c) != KeyOf(norm, calls[n]) {
      var i :| 0 <= i < n && calls[..n][i] == c;
      assert KeyOf(norm, calls[i]) != KeyOf(norm, calls[n]);
    }
  }

  // ---------------------------------------------------------- both phases

  function Dedup(norm: Norm, calls: seq<ToolCall>): seq<ToolCall>
  {
    if |calls| <= 1 then calls else PerKey(norm, PerId(calls))
  }

  /** Different ids, and no name with the same normalised input twice. */
  predicate AllDifferent(norm: Norm, calls: seq<ToolCall>)
  {
    DistinctIds(calls) && DistinctKeys(norm, calls)
  }

  lemma DedupDistinct(norm: Norm, calls: seq<ToolCall>)
    ensures AllDifferent(norm, Dedup(norm, calls)) && (Dedup(norm, calls) == [] <==> calls == [])
  {
    PerIdDistinct(calls);
    PerKeyDistinct(norm, PerId(calls));
    if |calls| > 1 {
      var first := PerId(calls)[0];
      assert KeyOf(norm, first) in KeysOf(norm, PerId(calls));
    }
  }

  /** A call `k` of the same id with no shorter an input has its key among `kept`. */
  ghost predicate Represented(norm: Norm, c: ToolCall, calls: seq<ToolCall>, kept: seq<ToolCall>)
  {
    exists k :: k in calls && k.id == c.id && Bytes(k.input) >= Bytes(c.input) && KeyOf(norm, k) in KeysOf(norm, kept)
  }

  /** What remains was called, and every call is represented in it. */
  lemma DedupRepresents(norm: Norm, calls: seq<ToolCall>)
    ensures forall c | c in Dedup(norm, calls) :: c in calls
    ensures forall c | c in calls :: Represented(norm, c, calls, Dedup(norm, calls))
  {
    PerIdLongest(calls);
    PerKeyDistinct(norm, PerId(calls));
    forall c | c in calls ensures Represented(norm, c, calls, Dedup(norm, calls)) {
      if |calls| <= 1 {
        assert KeyOf(norm, c) in KeysOf(norm, calls);
      } else {
        var list := PerId(calls);
        assert Outdone(c, list);
        var i :| 0 <= i < |list| && list[i].id == c.id && Bytes(list[i].input) >= Bytes(c.input);
        assert list[i] in list && KeyOf(norm, list[i]) in KeysOf(norm, list);
      }
    }
  }

  /** Deduplication leaves exactly the lists of different calls alone; in
      particular deduplicating twice is deduplicating once. */
  lemma DedupKeeps(norm: Norm, calls: seq<ToolCall>)
    ensures Dedup(norm, calls) == calls <==> AllDifferent(norm, calls)
    ensures Dedup(norm, Dedup(norm, calls)) == Dedup(norm, calls)
  {
    DifferentStay(norm, calls);
    DedupDistinct(norm, calls);
    DifferentStay(norm, Dedup(norm, calls));
  }

  lemma DifferentStay(norm: Norm, calls: seq<ToolCall>)
    ensures AllDifferent(norm, calls) ==> Dedup(norm, calls) == calls
  {
    PerIdKeeps(calls);
    PerKeyKeeps(norm, calls);
  }

  // -------------------------------------------------------------- the loops

  /** The map and the order list together are the list per id. */
  ghost predicate Represents(byId: map<string, ToolCall>, order: seq<string>, list: seq<ToolCall>)
  {
    |order| == |list| && DistinctIds(list) &&
    (forall i | 0 <= i < |list| :: order[i] == list[i].id && list[i].id in byId && byId[list[i].id] == list[i]) &&
    forall id | id in byId :: id in order
  }

  lemma KnownIsFound(byId: map<string, ToolCall>, order: seq<string>, list: seq<ToolCall>, id: string)
    requires Represents(byId, order, list)
    ensures id in byId <==> Find(list, id) < |list|
    ensures id in byId ==> byId[id] == list[Find(list, id)]
  {
    if id in byId {
      var k :| 0 <= k < |order| && order[k] == id;
      assert list[k].id == id;
    }
  }

  lemma NewEntry(byId: map<string, ToolCall>, order: seq<string>, list: seq<ToolCall>, c: ToolCall)
    requires Represents(byId, order, list) && Find(list, c.id) == |list|
    ensures Represents(byId[c.id := c], order + [c.id], list + [c])
  {
    var list' := list + [c];
    assert DistinctIds(list');
    forall i | 0 <= i < |list'| ensures list'[i].id in byId[c.id := c] && byId[c.id := c][list'[i].id] == list'[i] {
    }
    assert c.id in order + [c.id];
  }

  lemma LongerEntry(byId: map<string, ToolCall>, order: seq<string>, list: seq<ToolCall>, c: ToolCall, i: nat)
    requires Represents(byId, order, list) && i < |list| && list[i].id == c.id
    ensures Represents(byId[c.id := c], order, list[i := c])
  {
    var list' := list[i := c];
    forall j, k | 0 <= j < k < |list'| ensures list'[j].id != list'[k].id {
      assert list'[j].id == list[j].id && list'[k].id == list[k].id;
    }
    assert order[i] == c.id;
  }

  method CollectById(calls: seq<ToolCall>) returns (byId: map<string, ToolCall>, order: seq<string>)
    ensures Represents(byId, order, PerId(calls))
  {
    byId, order := map[], [];
    for i := 0 to |calls|
      invariant Represents(byId, order, PerId(calls[..i]))
    {
      var c := calls[i];
      assert calls[..i + 1][..i] == calls[..i];
      ghost var list := PerId(calls[..i]);
      KnownIsFound(byId, order, list, c.id);
      if c.id in byId {
        if Bytes(c.input) > Bytes(byId[c.id].input) {
          LongerEntry(byId, order, list, c, Find(list, c.id));
          byId := byId[c.id := c];
        }
      } else {
        NewEntry(byId, order, list, c);
        byId := byId[c.id := c];
        order := order + [c.id];
      }
    }
    assert calls[..|calls|] == calls;
  }

  method DeduplicateToolCalls(norm: Norm, calls: seq<ToolCall>) returns (result: seq<ToolCall>)
    ensures result == Dedup(norm, calls) && AllDifferent(norm, result)
  {
    DedupDistinct(norm, calls);
    if |calls| <= 1 {
      return calls;
    }
    var byId, order := CollectById(calls);
    result := FirstOfEachKey(norm, byId, order, PerId(calls));
  }

  method FirstOfEachKey(norm: Norm, byId: map<string, ToolCall>, order: seq<string>, ghost list: seq<ToolCall>)
    returns (result: seq<ToolCall>)
    requires Represents(byId, order, list)
    ensures result == PerKey(norm, list)
  {
    var seen: set<Key> := {};
    result := [];
    for i := 0 to |order|
      invariant Filtered(norm, list, i, result, seen)
    {
      var c := byId[order[i]];
      assert order[i] == list[i].id && c == list[i];
      FilteredNext(norm, list, i, result, seen);
      var k := KeyOf(norm, c);
      if k !in seen {
        seen := seen + {k};
        result := result + [c];
      }
    }
    assert list[..|list|] == list;
  }

  /** The first `i` calls are done. */
  ghost predicate Filtered(norm: Norm, list: seq<ToolCall>, i: nat, result: seq<ToolCall>, seen: set<Key>)
  {
    i <= |list| && result == PerKey(norm, list[..i]) && seen == KeysOf(norm, list[..i])
  }

  lemma FilteredNext(norm: Norm, list: seq<ToolCall>, i: nat, result: seq<ToolCall>, seen: set<Key>)
    requires i < |list| && Filtered(norm, list, i, result, seen)
    ensures var k := KeyOf(norm, list[i]);
            if k in seen then Filtered(norm, list, i + 1, result, seen)
            else Filtered(norm, list, i + 1, result + [list[i]], seen + {k})
  {
    assert list[..i + 1] == list[..i] + [list[i]];
    PerKeySnoc(norm, list[..i], list[i]);
    KeysSnoc(norm, list[..i], list[i]);
  }
}
