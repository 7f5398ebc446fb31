/** The lists normalisation leaves alone, when it is done after one round, and what
    exactly it adds.
 */
module NormalForm {
  import opened Normalizer

  // ----------------------------------------------------------------- with tools

  /** With tools, the lists normalisation leaves alone are exactly the canonical
      ones. */
  lemma FixedPoints(msgs: seq<Message>)
    ensures Normalized(msgs, true) == msgs <==> Canonical(msgs)
  {
    if Canonical(msgs) {
      CanonicalIsFixed(msgs);
    }
    if Normalized(msgs, true) == msgs {
      FixedIsCanonical(msgs);
    }
  }

  lemma FixedIsCanonical(msgs: seq<Message>)
    requires Normalized(msgs, true) == msgs
    ensures Canonical(msgs)
  {
    NormalizedAlternates(msgs, true);
    StandardBecomesCanonical(msgs);
  }

  /** Neighbours that merging joins. */
  predicate Joins(a: Message, b: Message)
  {
    a.role == b.role && Plain(a.content) && Plain(b.content)
  }

  /** An empty list of blocks under the user's role that no neighbour takes in. */
  predicate LoneAt(t: seq<Message>, i: nat)
    requires i < |t|
  {
    t[i] == Message(USER, Blocks([])) && !(i > 0 && Joins(t[i - 1], t[i])) && !(i + 1 < |t| && Joins(t[i], t[i + 1]))
  }

  predicate NoLone(t: seq<Message>)
  {
    forall i: nat | i < |t| :: !LoneAt(t, i)
  }

  /** The end of a run separates: what is lone behind it is lone in the whole. */
  lemma LoneBehind(t: seq<Message>, j: nat, i: nat)
    requires t != [] && j == RunEnd(t, 1) && j <= i < |t|
    ensures LoneAt(t, i) <==> LoneAt(t[j..], i - j)
  {
    var rest := t[j..];
    assert rest[i - j] == t[i] && (i + 1 < |t| ==> rest[i + 1 - j] == t[i + 1]) && (i > j ==> rest[i - 1 - j] == t[i - 1]);
    if i == j {
      assert !Extends(t, j);
      assert j > 1 ==> t[j - 1].role == t[0].role && Plain(t[j - 1].content) && Plain(t[0].content);
    }
  }

  lemma LoneInRun(t: seq<Message>, i: nat)
    requires t != [] && i < RunEnd(t, 1) && RunEnd(t, 1) > 1
    ensures !LoneAt(t, i)
  {
    if i == 0 {
      assert Joins(t[0], t[1]);
    } else {
      assert Joins(t[i - 1], t[i]);
    }
  }

  /** Merging leaves an empty user message exactly where it stood alone. */
  lemma {:induction false} MergedLone(t: seq<Message>)
    ensures NoBareUser(Merged(t)) <==> NoLone(t)
    decreases |t|
  {
    if t != [] {
      var j := RunEnd(t, 1);
      var rest := t[j..];
      MergedLone(rest);
      forall i: nat | j <= i < |t| ensures LoneAt(t, i) <==> LoneAt(rest, i - j) {
        LoneBehind(t, j, i);
      }
      LoneSplits(t, j);
      BareSplits(MergedRun(t[..j]), Merged(rest));
      if j > 1 {
        forall i: nat | i < j ensures !LoneAt(t, i) {
          LoneInRun(t, i);
        }
      } else {
        assert MergedRun(t[..j]) == t[0] && !Extends(t, 1);
        assert LoneAt(t, 0) <==> t[0] == Message(USER, Blocks([]));
      }
    }
  }

  lemma BareSplits(m: Message, rest: seq<Message>)
    ensures NoBareUser([m] + rest) <==> m != Message(USER, Blocks([])) && NoBareUser(rest)
  {
    assert m in [m] + rest;
    assert forall x | x in rest :: x in [m] + rest;
  }

  lemma LoneSplits(t: seq<Message>, j: nat)
    requires 0 < j <= |t| && forall i: nat | j <= i < |t| :: LoneAt(t, i) <==> LoneAt(t[j..], i - j)
    ensures NoLone(t) <==> (forall i: nat | i < j :: !LoneAt(t, i)) && NoLone(t[j..])
  {
    if NoLone(t) {
      forall i: nat | i < |t[j..]| ensures !LoneAt(t[j..], i) {
        assert !LoneAt(t, i + j);
      }
    }
  }

  lemma {:induction false} FilledBare(prev: Message, msgs: seq<Message>)
    ensures NoBareUser(Filled(prev, msgs)) <==> NoBareUser(msgs)
    decreases |msgs|
  {
    if msgs != [] {
      var m, rest := msgs[0], Filled(msgs[0], msgs[1..]);
      FilledBare(m, msgs[1..]);
      BareSplits(m, rest);
      BareSplits(m, msgs[1..]);
      assert msgs == [m] + msgs[1..];
      if m.role == prev.role {
        var filler := Message(Opposite(m.role), Text(EMPTY));
        BareSplits(filler, [m] + rest);
        assert Filled(prev, msgs) == [filler] + ([m] + rest);
      } else {
        assert Filled(prev, msgs) == [m] + rest;
      }
    }
  }

  lemma AlternatingBare(m: seq<Message>)
    ensures NoBareUser(Alternating(StartingWithUser(m))) <==> NoBareUser(m)
  {
    var u := StartingWithUser(m);
    if u != [] {
      FilledBare(u[0], u[1..]);
      BareSplits(u[0], Filled(u[0], u[1..]));
      BareSplits(u[0], u[1..]);
      assert u == [u[0]] + u[1..];
      if u != m {
        assert u[1..] == m;
      }
    }
  }

  /** The request after tool blocks are settled and roles reduced. */
  function Reduced(msgs: seq<Message>): seq<Message>
  {
    AllStandard(WithoutOrphans(NOBODY, msgs))
  }

  /** With tools, one round is enough exactly when the messages of odd roles answer
      the assistant message before them and no empty one of them stands alone. */
  lemma IdempotentExactly(msgs: seq<Message>)
    ensures Normalized(Normalized(msgs, true), true) == Normalized(msgs, true) <==>
            OddRolesAnswered(NOBODY, msgs) && NoLone(Reduced(msgs))
  {
    var r := Normalized(msgs, true);
    FixedPoints(r);
    NormalizedAlternates(msgs, true);
    NormalizedAnswers(msgs);
    AlternatingBare(Merged(Reduced(msgs)));
    MergedLone(Reduced(msgs));
  }

  /** In particular for requests with the two standard roles only. */
  lemma StandardIsIdempotent(msgs: seq<Message>)
    requires StandardRoles(msgs)
    ensures OddRolesAnswered(NOBODY, msgs) && NoLone(Reduced(msgs))
  {
    StandardRolesAnswered(NOBODY, msgs);
    OrphansNoBare(NOBODY, msgs);
    StandardKeeps(WithoutOrphans(NOBODY, msgs));
    forall i: nat | i < |Reduced(msgs)| ensures !LoneAt(Reduced(msgs), i) {
      assert Reduced(msgs)[i] in Reduced(msgs);
    }
  }

  // -------------------------------------------------------------- without tools

  predicate NoBare(msgs: seq<Message>)
  {
    forall m | m in msgs :: m.content != Blocks([])
  }

  /** Nothing left to normalise when there are no tools. */
  predicate CanonicalPlain(msgs: seq<Message>)
  {
    Alternates(msgs) && ToolFree(msgs) && NoBare(msgs)
  }

  lemma {:induction false} AllTextKeeps(bs: seq<Block>)
    requires forall b | b in bs :: !b.ToolUse? && !b.ToolResult?
    ensures AllText(bs) == bs
  {
    if bs != [] {
      AllTextKeeps(bs[1..]);
      assert bs == [bs[0]] + bs[1..];
    }
  }

  lemma {:induction false} WithoutToolsKeeps(msgs: seq<Message>)
    requires ToolFree(msgs) && NoBare(msgs)
    ensures WithoutTools(msgs) == msgs
  {
    if msgs != [] {
      var m := msgs[0];
      if m.content.Blocks? {
        ToolFreeBlocks(m.content);
        AllTextKeeps(m.content.blocks);
      }
      WithoutToolsKeeps(msgs[1..]);
      assert msgs == [m] + msgs[1..];
    }
  }

  lemma ToolFreeBlocks(c: Content)
    requires c.Blocks? && UseIds(c) == {} && ResultIds(c) == {}
    ensures forall b | b in c.blocks :: !b.ToolUse? && !b.ToolResult?
  {
    forall b | b in c.blocks ensures !b.ToolUse? && !b.ToolResult? {
      BlockShows(c, b);
    }
  }

  lemma BlockShows(c: Content, b: Block)
    requires c.Blocks? && b in c.blocks
    ensures (b.ToolUse? ==> UseIds(c) != {}) && (b.ToolResult? ==> ResultIds(c) != {})
  {
    if b.ToolUse? {
      assert b.id in UseIds(c);
    }
    if b.ToolResult? {
      assert b.toolUseId in ResultIds(c);
    }
  }

  lemma {:induction false} WithoutToolsNoBare(msgs: seq<Message>)
    ensures NoBare(AllStandard(WithoutTools(msgs)))
  {
    if msgs != [] {
      WithoutToolsNoBare(msgs[1..]);
      assert WithoutTools(msgs)[1..] == WithoutTools(msgs[1..]);
    }
  }

  lemma {:induction false} MergedNoBareAtAll(msgs: seq<Message>)
    requires NoBare(msgs)
    ensures NoBare(Merged(msgs))
    decreases |msgs|
  {
    if msgs != [] {
      MergedNoBareAtAll(msgs[RunEnd(msgs, 1)..]);
    }
  }

  lemma {:induction false} FilledNoBareAtAll(prev: Message, msgs: seq<Message>)
    requires NoBare(msgs)
    ensures NoBare(Filled(prev, msgs))
    decreases |msgs|
  {
    if msgs != [] {
      FilledNoBareAtAll(msgs[0], msgs[1..]);
    }
  }

  lemma BecomesCanonicalPlain(msgs: seq<Message>)
    ensures CanonicalPlain(Normalized(msgs, false))
  {
    NormalizedAlternates(msgs, false);
    NormalizedToolFree(msgs);
    var t := AllStandard(WithoutTools(msgs));
    WithoutToolsNoBare(msgs);
    MergedNoBareAtAll(t);
    var u := StartingWithUser(Merged(t));
    if u != [] {
      FilledNoBareAtAll(u[0], u[1..]);
    }
  }

  /** Without tools, the lists left alone are exactly the canonical ones, and one
      round is always enough. */
  lemma FixedPointsWithoutTools(msgs: seq<Message>)
    ensures Normalized(msgs, false) == msgs <==> CanonicalPlain(msgs)
    ensures Normalized(Normalized(msgs, false), false) == Normalized(msgs, false)
  {
    BecomesCanonicalPlain(msgs);
    PlainStays(msgs);
    PlainStays(Normalized(msgs, false));
  }

  lemma PlainStays(msgs: seq<Message>)
    ensures CanonicalPlain(msgs) ==> Normalized(msgs, false) == msgs
  {
    if CanonicalPlain(msgs) {
      WithoutToolsKeeps(msgs);
      StandardKeeps(msgs);
      AlternatingKeeps(msgs);
    }
  }

  // --------------------------------------------------------- what is added

  /** `at` names the places of `part` in `whole`, in order. */
  predicate Places(at: seq<nat>, part: seq<Message>, whole: seq<Message>)
  {
    |at| == |part| && (forall i | 0 <= i < |at| :: at[i] < |whole| && whole[at[i]] == part[i]) &&
    forall i, j | 0 <= i < j < |at| :: at[i] < at[j]
  }

  /** Everything else is a filler. */
  predicate OthersFill(at: seq<nat>, whole: seq<Message>)
  {
    forall k: nat | k < |whole| && k !in at :: whole[k].content == Text(EMPTY)
  }

  function Shifted(at: seq<nat>, n: nat): (r: seq<nat>)
    ensures |r| == |at| && forall i | 0 <= i < |at| :: r[i] == at[i] + n
  {
    if at == [] then [] else Shifted(at[..|at| - 1], n) + [at[|at| - 1] + n]
  }

  lemma ShiftedHas(at: seq<nat>, n: nat, k: nat)
    requires k in at
    ensures k + n in Shifted(at, n)
  {
    var i :| 0 <= i < |at| && at[i] == k;
    assert Shifted(at, n)[i] == k + n;
  }

  /** One more filler in front. */
  lemma FillerFirst(at: seq<nat>, part: seq<Message>, whole: seq<Message>, filler: Message)
    requires Places(at, part, whole) && OthersFill(at, whole) && filler.content == Text(EMPTY)
    ensures Places(Shifted(at, 1), part, [filler] + whole) && OthersFill(Shifted(at, 1), [filler] + whole)
  {
    OthersShift(at, whole, filler, Shifted(at, 1));
    PlacesBehind(at, part, whole, filler);
    FillsAll(Shifted(at, 1), [filler] + whole);
  }

  lemma PlacesBehind(at: seq<nat>, part: seq<Message>, whole: seq<Message>, m: Message)
    requires Places(at, part, whole)
    ensures Places(Shifted(at, 1), part, [m] + whole)
  {
  }

  lemma FillsAll(at: seq<nat>, whole: seq<Message>)
    requires whole != [] && whole[0].content == Text(EMPTY)
    requires forall k: nat | 0 < k < |whole| && k !in at :: whole[k].content == Text(EMPTY)
    ensures OthersFill(at, whole)
  {
  }

  lemma OthersShift(at: seq<nat>, whole: seq<Message>, m: Message, at': seq<nat>)
    requires OthersFill(at, whole) && forall k | k in Shifted(at, 1) :: k in at'
    ensures forall k: nat | 0 < k < |whole| + 1 && k !in at' :: ([m] + whole)[k].content == Text(EMPTY)
  {
    forall k: nat | 0 < k < |whole| + 1 && k !in at' ensures k - 1 !in at {
      if k - 1 in at {
        ShiftedHas(at, 1, k - 1);
      }
    }
  }

  /** One more message in front, on both sides. */
  lemma MessageFirst(at: seq<nat>, part: seq<Message>, whole: seq<Message>, m: Message)
    requires Places(at, part, whole) && OthersFill(at, whole)
    ensures Places([0] + Shifted(at, 1), [m] + part, [m] + whole) && OthersFill([0] + Shifted(at, 1), [m] + whole)
  {
    var at' := [0] + Shifted(at, 1);
    PlacesShift(at, part, whole, m);
    OthersShift(at, whole, m, at');
    assert at'[0] == 0;
    assert 0 in at';
  }

  lemma PlacesShift(at: seq<nat>, part: seq<Message>, whole: seq<Message>, m: Message)
    requires Places(at, part, whole)
    ensures Places([0] + Shifted(at, 1), [m] + part, [m] + whole)
  {
    var at', part', whole' := [0] + Shifted(at, 1), [m] + part, [m] + whole;
    forall i | 0 <= i < |at'| ensures at'[i] < |whole'| && whole'[at'[i]] == part'[i] {
      if i > 0 {
        assert at'[i] == at[i - 1] + 1 && whole'[at'[i]] == whole[at[i - 1]];
      }
    }
    forall i, j | 0 <= i < j < |at'| ensures at'[i] < at'[j] {
      assert at'[j] == at[j - 1] + 1;
      if i > 0 {
        assert at'[i] == at[i - 1] + 1;
      }
    }
  }

  lemma {:induction false} FilledPlaces(prev: Message, msgs: seq<Message>) returns (at: seq<nat>)
    ensures Places(at, msgs, Filled(prev, msgs)) && OthersFill(at, Filled(prev, msgs))
    decreases |msgs|
  {
    at := [];
    if msgs != [] {
      var m, rest := msgs[0], Filled(msgs[0], msgs[1..]);
      at := FilledPlaces(m, msgs[1..]);
      MessageFirst(at, msgs[1..], rest, m);
      at := [0] + Shifted(at, 1);
      assert msgs == [m] + msgs[1..];
      if m.role == prev.role {
        var filler := Message(Opposite(m.role), Text(EMPTY));
        FillerFirst(at, msgs, [m] + rest, filler);
        at := Shifted(at, 1);
        assert Filled(prev, msgs) == [filler] + ([m] + rest);
      } else {
        assert Filled(prev, msgs) == [m] + rest;
      }
    }
  }

  /** The merged messages all stand in the result, in order, and whatever else
      stands there is a filler. */
  lemma OnlyFillersAdded(msgs: seq<Message>, hasTools: bool) returns (at: seq<nat>)
    ensures var merged, r := Merged(AllStandard(ToolsSettled(msgs, hasTools))), Normalized(msgs, hasTools);
            Places(at, merged, r) && OthersFill(at, r)
  {
    var m := Merged(AllStandard(ToolsSettled(msgs, hasTools)));
    var u := StartingWithUser(m);
    at := [];
    if u != [] {
      at := FilledPlaces(u[0], u[1..]);
      if u == m {
        MessageFirst(at, u[1..], Filled(u[0], u[1..]), u[0]);
        at := [0] + Shifted(at, 1);
        assert u == [u[0]] + u[1..];
      } else {
        assert u[1..] == m;
        FillerFirst(at, m, Filled(u[0], m), u[0]);
        at := Shifted(at, 1);
      }
    }
  }

  // --------------------------------------------------------- tool settlement

  /** Settling tool blocks keeps the number of messages and their roles, and every
      block that is not turned into text. */
  lemma {:induction false} OrphansKeepRest(prev: Message, msgs: seq<Message>)
    ensures var t := WithoutOrphans(prev, msgs);
            |t| == |msgs| && forall i | 0 <= i < |msgs| :: t[i] == Kept(Before(prev, msgs, i), msgs[i])
    decreases |msgs|
  {
    if msgs != [] {
      OrphansKeepRest(msgs[0], msgs[1..]);
      var t := WithoutOrphans(prev, msgs);
      forall i | 0 < i < |msgs| ensures t[i] == Kept(Before(prev, msgs, i), msgs[i]) {
        assert t[i] == WithoutOrphans(msgs[0], msgs[1..])[i - 1];
        assert Before(msgs[0], msgs[1..], i - 1) == Before(prev, msgs, i);
      }
    }
  }

  /** Without tools, messages keep number, order and roles, and every block is kept or
      turned into text in its place. */
  lemma {:induction false} TextInPlace(msgs: seq<Message>)
    ensures var t := WithoutTools(msgs);
            |t| == |msgs| && forall i | 0 <= i < |msgs| :: t[i].role == msgs[i].role && IsTextOf(msgs[i].content, t[i].content)
  {
    if msgs != [] {
      TextInPlace(msgs[1..]);
      if msgs[0].content.Blocks? {
        AllTextAt(msgs[0].content.blocks);
      }
    }
  }

  predicate IsTextOf(c: Content, t: Content)
  {
    if c.Text? || c.blocks == [] then t == (if c.Text? then c else Text(""))
    else t.Blocks? && |t.blocks| == |c.blocks| && forall k | 0 <= k < |c.blocks| :: t.blocks[k] == Textualized(c.blocks[k])
  }

  lemma {:induction false} AllTextAt(bs: seq<Block>)
    ensures |AllText(bs)| == |bs| && forall k | 0 <= k < |bs| :: AllText(bs)[k] == Textualized(bs[k])
  {
    if bs != [] {
      AllTextAt(bs[1..]);
    }
  }

  /** Every role but the assistant's becomes the user's; nothing else changes. */
  lemma RolesReduced(msgs: seq<Message>, i: nat)
    requires i < |msgs|
    ensures |AllStandard(msgs)| == |msgs|
    ensures AllStandard(msgs)[i] == Message(if msgs[i].role == ASSISTANT then ASSISTANT else USER, msgs[i].content)
  {
    AllStandardAt(msgs);
  }

  /** Block by block: exactly the results that answer nothing become text. */
  lemma {:induction false} AnsweredBlocks(ids: set<string>, bs: seq<Block>)
    ensures |Answered(ids, bs)| == |bs|
    ensures forall i | 0 <= i < |bs| ::
              Answered(ids, bs)[i] == if bs[i].ToolResult? && bs[i].toolUseId !in ids then ResultText(bs[i]) else bs[i]
  {
    if bs != [] {
      AnsweredBlocks(ids, bs[1..]);
    }
  }
}
