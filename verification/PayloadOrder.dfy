/** What the payload carries and in which order: every tool use, every tool result
    behind the uses it answers, and every piece of text.
 */
module PayloadOrder {
  import opened Normalizer
  import opened Payload

  // ------------------------------------------------------------- positions

  /** Rising positions below `n`. */
  predicate Rising(at: seq<nat>, n: nat)
  {
    (forall i | 0 <= i < |at| :: at[i] < n) && forall i, j | 0 <= i < j < |at| :: at[i] < at[j]
  }

  lemma RisingSnoc(at: seq<nat>, n: nat)
    requires Rising(at, n)
    ensures Rising(at, n + 1) && Rising(at + [n], n + 1)
  {
  }

  // ------------------------------------------------------------- reordering

  predicate HasAnswer(rs: seq<Answer>, id: string)
  {
    exists k :: 0 <= k < |rs| && rs[k].toolUseId == id
  }

  /** The last answer given for the id. */
  ghost predicate IsLastAnswer(rs: seq<Answer>, id: string, r: Answer)
  {
    exists k :: 0 <= k < |rs| && rs[k] == r && r.toolUseId == id && forall j | k < j < |rs| :: rs[j].toolUseId != id
  }

  lemma AnswersSnoc(rs: seq<Answer>, id: string)
    requires rs != []
    ensures var n := |rs| - 1; HasAnswer(rs, id) <==> HasAnswer(rs[..n], id) || rs[n].toolUseId == id
  {
    var n := |rs| - 1;
    assert forall k | 0 <= k < n :: rs[..n][k] == rs[k];
  }

  lemma LastAnswerSnoc(rs: seq<Answer>, id: string, r: Answer)
    requires rs != [] && rs[|rs| - 1].toolUseId != id && IsLastAnswer(rs[..|rs| - 1], id, r)
    ensures IsLastAnswer(rs, id, r)
  {
    var n := |rs| - 1;
    var init := rs[..n];
    var k :| 0 <= k < n && init[k] == r && r.toolUseId == id && forall j | k < j < n :: init[j].toolUseId != id;
    assert rs[k] == r && forall j | k < j < n :: rs[j] == init[j];
  }

  lemma {:induction false} LatestIsLast(rs: seq<Answer>, id: string)
    ensures id in Latest(rs) <==> HasAnswer(rs, id)
    ensures id in Latest(rs) ==> IsLastAnswer(rs, id, Latest(rs)[id])
  {
    if rs != [] {
      var n := |rs| - 1;
      LatestIsLast(rs[..n], id);
      AnswersSnoc(rs, id);
      if rs[n].toolUseId == id {
        assert rs[n] == Latest(rs)[id];
      } else if id in Latest(rs) {
        LastAnswerSnoc(rs, id, Latest(rs)[id]);
      }
    }
  }

  /** `picked` are the last answers for the ids at the positions `at`, which are all
      that are answered. */
  ghost predicate PicksAt(rs: seq<Answer>, ids: seq<string>, picked: seq<Answer>, at: seq<nat>)
  {
    Rising(at, |ids|) && |picked| == |at| &&
    (forall p: nat | p < |ids| :: p in at <==> HasAnswer(rs, ids[p])) &&
    forall i | 0 <= i < |at| :: IsLastAnswer(rs, ids[at[i]], picked[i])
  }

  lemma {:induction false} PickedAt(rs: seq<Answer>, ids: seq<string>) returns (at: seq<nat>)
    ensures PicksAt(rs, ids, Picked(ids, Latest(rs)), at)
  {
    at := [];
    if ids != [] {
      var n := |ids| - 1;
      at := PickedAt(rs, ids[..n]);
      LatestIsLast(rs, ids[n]);
      at := PickedNext(rs, ids, at);
    }
  }

  lemma PickedNext(rs: seq<Answer>, ids: seq<string>, at: seq<nat>) returns (at': seq<nat>)
    requires ids != [] && PicksAt(rs, ids[..|ids| - 1], Picked(ids[..|ids| - 1], Latest(rs)), at)
    requires var id := ids[|ids| - 1];
             (id in Latest(rs) <==> HasAnswer(rs, id)) && (id in Latest(rs) ==> IsLastAnswer(rs, id, Latest(rs)[id]))
    ensures PicksAt(rs, ids, Picked(ids, Latest(rs)), at')
  {
    var n := |ids| - 1;
    RisingSnoc(at, n);
    assert forall p: nat | p < n :: ids[..n][p] == ids[p];
    at' := if ids[n] in Latest(rs) then at + [n] else at;
    forall p: nat | p < |ids| ensures p in at' <==> HasAnswer(rs, ids[p]) {
      if p == n {
        assert n !in at;
      } else {
        assert ids[..n][p] == ids[p];
        assert p in at' <==> p in at;
      }
    }
  }

  /** `rest` are the answers at the positions `from`, which are all that answer
      nothing used. */
  ghost predicate RestAt(rs: seq<Answer>, used: set<string>, rest: seq<Answer>, from: seq<nat>)
  {
    Rising(from, |rs|) && |rest| == |from| &&
    (forall p: nat | p < |rs| :: p in from <==> rs[p].toolUseId !in used) &&
    forall i | 0 <= i < |from| :: rest[i] == rs[from[i]]
  }

  lemma {:induction false} LeftoverAt(rs: seq<Answer>, used: set<string>) returns (from: seq<nat>)
    ensures RestAt(rs, used, Leftover(rs, used), from)
  {
    from := [];
    if rs != [] {
      from := LeftoverAt(rs[..|rs| - 1], used);
      from := LeftoverNext(rs, used, from);
    }
  }

  lemma LeftoverNext(rs: seq<Answer>, used: set<string>, from: seq<nat>) returns (from': seq<nat>)
    requires rs != [] && RestAt(rs[..|rs| - 1], used, Leftover(rs[..|rs| - 1], used), from)
    ensures RestAt(rs, used, Leftover(rs, used), from')
  {
    var n := |rs| - 1;
    var init, last := rs[..n], rs[n];
    assert rs == init + [last];
    if last.toolUseId in used {
      RestSkips(init, last, used, Leftover(init, used), from);
      assert Leftover(init, used) + [] == Leftover(init, used);
      from' := from;
    } else {
      RestTakes(init, last, used, Leftover(init, used), from);
      from' := from + [n];
    }
  }

  lemma RestSkips(init: seq<Answer>, last: Answer, used: set<string>, rest: seq<Answer>, from: seq<nat>)
    requires RestAt(init, used, rest, from) && last.toolUseId in used
    ensures RestAt(init + [last], used, rest, from)
  {
    RisingSnoc(from, |init|);
    assert |init| !in from;
  }

  lemma RestTakes(init: seq<Answer>, last: Answer, used: set<string>, rest: seq<Answer>, from: seq<nat>)
    requires RestAt(init, used, rest, from) && last.toolUseId !in used
    ensures RestAt(init + [last], used, rest + [last], from + [|init|])
  {
    RisingSnoc(from, |init|);
  }

  function Ids(ids: seq<string>): set<string>
  {
    set id | id in ids
  }

  /** The reordered results, completely: first, in the order of the uses, the last
      answer to each use that is answered; then, in their own order, the answers to
      no use. */
  lemma ReorderedExactly(rs: seq<Answer>, ids: seq<string>) returns (at: seq<nat>, from: seq<nat>)
    requires |rs| > 1 && ids != []
    ensures var r := Reordered(rs, ids);
            |at| <= |r| && PicksAt(rs, ids, r[..|at|], at) && RestAt(rs, Ids(ids), r[|at|..], from)
  {
    var l := Latest(rs);
    at := PickedAt(rs, ids);
    from := LeftoverAt(rs, Known(ids, l));
    var picked, rest := Picked(ids, l), Leftover(rs, Known(ids, l));
    assert (picked + rest)[..|at|] == picked && (picked + rest)[|at|..] == rest;
    forall p: nat | p < |rs| ensures rs[p].toolUseId in Known(ids, l) <==> rs[p].toolUseId in ids {
      LatestIsLast(rs, rs[p].toolUseId);
    }
  }

  /** Results for uses stand in the order of the uses, before all others. */
  ghost predicate FollowsUses(results: seq<Answer>, ids: seq<string>)
  {
    forall i, j | 0 <= i < j < |results| && results[j].toolUseId in ids ::
      exists p, q :: 0 <= p < q < |ids| && ids[p] == results[i].toolUseId && ids[q] == results[j].toolUseId
  }

  lemma ReorderedFollows(rs: seq<Answer>, ids: seq<string>)
    ensures FollowsUses(Reordered(rs, ids), ids)
  {
    if |rs| > 1 && ids != [] {
      var at, from := ReorderedExactly(rs, ids);
      var r := Reordered(rs, ids);
      forall k | |at| <= k < |r| ensures r[k].toolUseId !in ids {
        RestIsUnknown(rs, Ids(ids), r[|at|..], from, k - |at|);
      }
      forall i, j | 0 <= i < j < |r| && r[j].toolUseId in ids
        ensures exists p, q :: 0 <= p < q < |ids| && ids[p] == r[i].toolUseId && ids[q] == r[j].toolUseId
      {
        assert r[..|at|][i] == r[i] && r[..|at|][j] == r[j];
        assert at[i] < at[j] && ids[at[i]] == r[i].toolUseId && ids[at[j]] == r[j].toolUseId;
      }
    }
  }

  lemma RestIsUnknown(rs: seq<Answer>, used: set<string>, rest: seq<Answer>, from: seq<nat>, k: nat)
    requires RestAt(rs, used, rest, from) && k < |rest|
    ensures rest[k].toolUseId !in used
  {
    assert from[k] in from;
  }

  // ------------------------------------------------------------- extraction

  lemma UsesFirst(x: Block, rest: seq<Block>, shorten: string -> string)
    ensures UsesIn([x], shorten) == if x.ToolUse? then [Use(x.id, shorten(x.name), x.input)] else []
    ensures UsesIn([x] + rest, shorten) == UsesIn([x], shorten) + UsesIn(rest, shorten)
  {
    assert [x][1..] == [];
    assert ([x] + rest)[1..] == rest;
  }

  /** Block by block, in order: a tool use is carried with its id, its shortened name
      and its input, and nothing else is. */
  lemma {:induction false} UsesInOrder(a: seq<Block>, b: seq<Block>, shorten: string -> string)
    ensures UsesIn(a + b, shorten) == UsesIn(a, shorten) + UsesIn(b, shorten)
    ensures forall x :: UsesIn([x], shorten) == if x.ToolUse? then [Use(x.id, shorten(x.name), x.input)] else []
  {
    forall x ensures UsesIn([x], shorten) == if x.ToolUse? then [Use(x.id, shorten(x.name), x.input)] else [] {
      UsesFirst(x, [], shorten);
    }
    if a == [] {
      assert a + b == b;
    } else {
      UsesInOrder(a[1..], b, shorten);
      UsesFirst(a[0], a[1..], shorten);
      UsesFirst(a[0], a[1..] + b, shorten);
      ThreeParts([a[0]], a[1..], b);
      assert [a[0]] + a[1..] == a;
      ThreeParts(UsesIn([a[0]], shorten), UsesIn(a[1..], shorten), UsesIn(b, shorten));
    }
  }

  /** A tool result is carried with its id, its status and its text, which is never
      empty. */
  predicate Tells(x: Block, rs: seq<Answer>)
  {
    if !x.ToolResult? then rs == []
    else |rs| == 1 && rs[0].toolUseId == x.toolUseId && rs[0].isError == x.isError && rs[0].text != "" &&
         (x.text != "" ==> rs[0].text == x.text)
  }

  lemma AnswersFirst(x: Block, rest: seq<Block>)
    ensures Tells(x, AnswersIn([x]))
    ensures AnswersIn([x] + rest) == AnswersIn([x]) + AnswersIn(rest)
  {
    assert [x][1..] == [];
    assert ([x] + rest)[1..] == rest;
  }

  lemma {:induction false} AnswersInOrder(a: seq<Block>, b: seq<Block>)
    ensures AnswersIn(a + b) == AnswersIn(a) + AnswersIn(b)
    ensures forall x :: Tells(x, AnswersIn([x]))
  {
    forall x ensures Tells(x, AnswersIn([x])) {
      AnswersFirst(x, []);
    }
    if a == [] {
      assert a + b == b;
    } else {
      AnswersInOrder(a[1..], b);
      AnswersFirst(a[0], a[1..]);
      AnswersFirst(a[0], a[1..] + b);
      ThreeParts([a[0]], a[1..], b);
      assert [a[0]] + a[1..] == a;
      ThreeParts(AnswersIn([a[0]]), AnswersIn(a[1..]), AnswersIn(b));
    }
  }

  function UseIdsOf(us: seq<Use>): (r: seq<string>)
    ensures |r| == |us| && forall i | 0 <= i < |us| :: r[i] == us[i].id
  {
    seq(|us|, i requires 0 <= i < |us| => us[i].id)
  }

  lemma {:induction false} IdsInUses(bs: seq<Block>, shorten: string -> string)
    ensures IdsIn(bs) == UseIdsOf(UsesIn(bs, shorten))
  {
    if bs != [] {
      IdsInUses(bs[1..], shorten);
      var us := UsesIn(bs[1..], shorten);
      if bs[0].ToolUse? {
        var u := Use(bs[0].id, shorten(bs[0].name), bs[0].input);
        assert UseIdsOf([u] + us) == [u.id] + UseIdsOf(us);
      }
    }
  }

  // ------------------------------------------------------------- the payload

  /** The ids an entry's answers may follow. */
  function UsedIn(e: Entry): seq<string>
  {
    if e.AssistantEntry? then UseIdsOf(e.uses) else []
  }

  ghost predicate Ordered(history: seq<Entry>, i: nat)
    requires i < |history|
  {
    history[i].UserEntry? ==> FollowsUses(history[i].results, UsedIn(EntryBefore(history, i)))
  }

  lemma EntryOrdered(prev: Message, m: Message, h: Helpers, before: Entry)
    requires m.role == USER
    requires UsedIn(before) == if prev.role == ASSISTANT then IdList(prev.content) else []
    ensures FollowsUses(EntryFor(prev, m, h)[0].results, UsedIn(before))
  {
    ReorderedFollows(AnswersOf(m.content), IdList(prev.content));
  }

  lemma EntryUses(prev: Message, m: Message, h: Helpers)
    requires StandardRole(m.role)
    ensures UsedIn(EntryFor(prev, m, h)[0]) == if m.role == ASSISTANT then IdList(m.content) else []
  {
    if m.role == ASSISTANT && m.content.Blocks? {
      IdsInUses(m.content.blocks, h.shorten);
    } else {
      assert UseIdsOf([]) == [];
    }
  }

  /** In the history of any messages of the two roles the results of each entry
      follow the uses of the entry before it. */
  lemma HistoryOrdered(msgs: seq<Message>, h: Helpers)
    requires StandardRoles(msgs)
    ensures forall i: nat | i < |Entries(NOBODY, msgs, h)| :: Ordered(Entries(NOBODY, msgs, h), i)
  {
    var es := Entries(NOBODY, msgs, h);
    EntryPerMessage(NOBODY, msgs, h);
    forall i: nat | i < |es| ensures Ordered(es, i) {
      assert EntryFor(Before(NOBODY, msgs, i), msgs[i], h) == [es[i]];
      if i > 0 {
        assert EntryFor(Before(NOBODY, msgs, i - 1), msgs[i - 1], h) == [es[i - 1]];
        EntryUses(Before(NOBODY, msgs, i - 1), msgs[i - 1], h);
      }
      if msgs[i].role == USER {
        EntryOrdered(Before(NOBODY, msgs, i), msgs[i], h, EntryBefore(es, i));
      }
    }
  }

  lemma PlacedOrdered(system: string, mode: SystemMode, history: seq<Entry>, i: nat)
    requires forall k: nat | k < |history| :: Ordered(history, k)
    requires i < |Placed(system, mode, history)|
    ensures Ordered(Placed(system, mode, history), i)
  {
    var p := Placed(system, mode, history);
    var k := |p| - |history|;
    if i >= k {
      assert p[i] == history[i - k] && Ordered(history, i - k);
      assert UsedIn(EntryBefore(p, i)) == UsedIn(EntryBefore(history, i - k));
    }
  }

  /** In every payload the results of each entry, and of the current message, follow
      the uses of the entry right before. */
  lemma PayloadOrdered(q: Request, h: Helpers)
    ensures var p := Payloaded(q, h);
            (forall i: nat | i < |p.history| :: Ordered(p.history, i)) &&
            p.current.UserEntry? && FollowsUses(p.current.results, UsedIn(EntryBefore(p.history, |p.history|)))
  {
    var msgs := Normalized(q.msgs, q.hasTools);
    NormalizedAlternates(q.msgs, q.hasTools);
    SplitShape(msgs);
    var (past, last) := Split(msgs);
    HistoryOrdered(past, h);
    forall i: nat | i < |Payloaded(q, h).history| ensures Ordered(Payloaded(q, h).history, i) {
      PlacedOrdered(q.system, q.mode, Entries(NOBODY, past, h), i);
    }
    LastUses(past, q, h);
    ReorderedFollows(AnswersOf(last.content), if past == [] then [] else IdList(past[|past| - 1].content));
  }

  lemma LastUses(past: seq<Message>, q: Request, h: Helpers)
    requires Alternates(past) && |past| % 2 == 0
    ensures var p := Placed(q.system, q.mode, Entries(NOBODY, past, h));
            UsedIn(EntryBefore(p, |p|)) == if past == [] then [] else IdList(past[|past| - 1].content)
  {
    LastEntryUses(past, h);
    PlacedLast(q.system, q.mode, Entries(NOBODY, past, h));
  }

  /** The system prompt offers no tool use. */
  lemma PlacedLast(system: string, mode: SystemMode, history: seq<Entry>)
    ensures var p := Placed(system, mode, history); UsedIn(EntryBefore(p, |p|)) == UsedIn(EntryBefore(history, |history|))
  {
    var u, a := UserEntry(system, []), AssistantEntry(ACK, []);
    NoUsesBefore([], history);
    NoUsesBefore([u], history);
    NoUsesBefore([u, a], history);
    assert [] + history == history;
  }

  lemma NoUsesBefore(first: seq<Entry>, history: seq<Entry>)
    requires first == [] || UsedIn(first[|first| - 1]) == []
    ensures var p := first + history; UsedIn(EntryBefore(p, |p|)) == UsedIn(EntryBefore(history, |history|))
  {
    if history == [] {
      assert first + history == first;
    } else {
      LastOfTwo(first, history);
    }
  }

  lemma LastOfTwo<T>(a: seq<T>, b: seq<T>)
    requires b != []
    ensures (a + b)[|a + b| - 1] == b[|b| - 1]
  {
  }

  lemma LastEntryUses(past: seq<Message>, h: Helpers)
    requires Alternates(past) && |past| % 2 == 0
    ensures var es := Entries(NOBODY, past, h);
            |es| == |past| && (past != [] ==> UsedIn(es[|es| - 1]) == IdList(past[|past| - 1].content))
  {
    AlternatingRoles(past);
    EntryPerMessage(NOBODY, past, h);
    if past != [] {
      var i := |past| - 1;
      assert EntryFor(Before(NOBODY, past, i), past[i], h) == [Entries(NOBODY, past, h)[i]];
      EntryUses(Before(NOBODY, past, i), past[i], h);
    }
  }

  lemma AlternatingRoles(past: seq<Message>)
    requires Alternates(past) && |past| % 2 == 0
    ensures StandardRoles(past) && (past != [] ==> past[|past| - 1].role == ASSISTANT)
  {
    if past != [] {
      Parity(|past|);
    }
  }
}
