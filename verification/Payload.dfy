/** The upstream payload: history entries for all messages but the last, the
    system prompt placed before them, and the current message.
 */
module Payload {
  import opened Collections
  import opened Normalizer

  datatype Answer = Answer(toolUseId: string, text: string, isError: bool)

  datatype Use = Use(id: string, name: string, input: string)

  datatype Entry =
    | UserEntry(content: string, results: seq<Answer>)
    | AssistantEntry(content: string, uses: seq<Use>)

  /** How the experiment switch places the system prompt. */
  datatype SystemMode = Default | Dropped | InCurrent | WithoutAck

  /** Text clean-up and tool-name shortening, which play no part in the shape. */
  datatype Helpers = Helpers(clean: string -> string, shorten: string -> string)

  const CONTINUE := "Continue"
  const ACK := "I will fully incorporate this information when generating my responses, and explicitly acknowledge relevant parts of the summary when answering questions."

  // ------------------------------------------------------------- extraction

  function AnswersIn(bs: seq<Block>): seq<Answer>
  {
    if bs == [] then []
    else
      (match bs[0]
       case ToolResult(id, text, isError) => [Answer(id, if text == "" then "(empty result)" else text, isError)]
       case _ => [])
      + AnswersIn(bs[1..])
  }

  function AnswersOf(c: Content): seq<Answer>
  {
    if c.Text? then [] else AnswersIn(c.blocks)
  }

  function UsesIn(bs: seq<Block>, shorten: string -> string): seq<Use>
  {
    if bs == [] then []
    else (if bs[0].ToolUse? then [Use(bs[0].id, shorten(bs[0].name), bs[0].input)] else []) + UsesIn(bs[1..], shorten)
  }

  function UsesOf(c: Content, shorten: string -> string): seq<Use>
  {
    if c.Text? then [] else UsesIn(c.blocks, shorten)
  }

  function IdsIn(bs: seq<Block>): seq<string>
  {
    if bs == [] then [] else (if bs[0].ToolUse? then [bs[0].id] else []) + IdsIn(bs[1..])
  }

  function IdList(c: Content): seq<string>
  {
    if c.Text? then [] else IdsIn(c.blocks)
  }

  function AnswerIds(rs: seq<Answer>): set<string>
  {
    set r | r in rs :: r.toolUseId
  }

  function EntryIds(us: seq<Use>): set<string>
  {
    set u | u in us :: u.id
  }

  lemma {:induction false} AnswersInIds(bs: seq<Block>)
    ensures AnswerIds(AnswersIn(bs)) == set b | b in bs && b.ToolResult? :: b.toolUseId
  {
    if bs != [] {
      AnswersInIds(bs[1..]);
      var first := if bs[0].ToolResult? then {bs[0].toolUseId} else {};
      assert AnswerIds(AnswersIn(bs)) == first + AnswerIds(AnswersIn(bs[1..]));
    }
  }

  lemma AnswersOfIds(c: Content)
    ensures AnswerIds(AnswersOf(c)) == ResultIds(c)
  {
    if c.Blocks? {
      AnswersInIds(c.blocks);
    }
  }

  lemma {:induction false} UsesInIds(bs: seq<Block>, shorten: string -> string)
    ensures EntryIds(UsesIn(bs, shorten)) == set b | b in bs && b.ToolUse? :: b.id
  {
    if bs != [] {
      UsesInIds(bs[1..], shorten);
      var first := if bs[0].ToolUse? then {bs[0].id} else {};
      assert EntryIds(UsesIn(bs, shorten)) == first + EntryIds(UsesIn(bs[1..], shorten));
    }
  }

  lemma UsesOfIds(c: Content, shorten: string -> string)
    ensures EntryIds(UsesOf(c, shorten)) == UseIds(c)
  {
    if c.Blocks? {
      UsesInIds(c.blocks, shorten);
    }
  }

  // ------------------------------------------------------------- reordering

  function Latest(rs: seq<Answer>): map<string, Answer>
  {
    if rs == [] then map[] else Latest(rs[..|rs| - 1])[rs[|rs| - 1].toolUseId := rs[|rs| - 1]]
  }

  function Picked(ids: seq<string>, index: map<string, Answer>): seq<Answer>
  {
    if ids == [] then []
    else Picked(ids[..|ids| - 1], index) + (if ids[|ids| - 1] in index then [index[ids[|ids| - 1]]] else [])
  }

  function Leftover(rs: seq<Answer>, used: set<string>): seq<Answer>
  {
    if rs == [] then []
    else Leftover(rs[..|rs| - 1], used) + (if rs[|rs| - 1].toolUseId in used then [] else [rs[|rs| - 1]])
  }

  function Known(ids: seq<string>, index: map<string, Answer>): set<string>
  {
    set id | id in ids && id in index
  }

  function Reordered(rs: seq<Answer>, ids: seq<string>): seq<Answer>
  {
    if |rs| <= 1 || |ids| == 0 then rs
    else Picked(ids, Latest(rs)) + Leftover(rs, Known(ids, Latest(rs)))
  }

  method ReorderToolResults(rs: seq<Answer>, ids: seq<string>) returns (ordered: seq<Answer>)
    ensures ordered == Reordered(rs, ids)
    ensures AnswerIds(ordered) == AnswerIds(rs)
    ensures multiset(ordered) == multiset(rs) <==> Matched(rs, ids)
    ensures DistinctIds(rs) && Distinct(ids) ==> multiset(ordered) == multiset(rs)
  {
    ReorderedIds(rs, ids);
    ReorderedPermutes(rs, ids);
    if DistinctIds(rs) && Distinct(ids) {
      DistinctMatches(rs, ids);
    }
    if |rs| <= 1 || |ids| == 0 {
      return rs;
    }
    var index := IndexById(rs);
    var picked, used := PickInOrder(ids, index);
    var rest := Unused(rs, used);
    ordered := picked + rest;
  }

  method IndexById(rs: seq<Answer>) returns (index: map<string, Answer>)
    ensures index == Latest(rs)
  {
    index := map[];
    for i := 0 to |rs|
      invariant index == Latest(rs[..i])
    {
      assert rs[..i + 1][..i] == rs[..i];
      index := index[rs[i].toolUseId := rs[i]];
    }
    assert rs[..|rs|] == rs;
  }

  method PickInOrder(ids: seq<string>, index: map<string, Answer>) returns (picked: seq<Answer>, used: set<string>)
    ensures picked == Picked(ids, index) && used == Known(ids, index)
  {
    picked, used := [], {};
    for i := 0 to |ids|
      invariant picked == Picked(ids[..i], index) && used == Known(ids[..i], index)
    {
      assert ids[..i + 1][..i] == ids[..i] && ids[..i + 1] == ids[..i] + [ids[i]];
      if ids[i] in index {
        picked := picked + [index[ids[i]]];
        used := used + {ids[i]};
      }
    }
    assert ids[..|ids|] == ids;
  }

  method Unused(rs: seq<Answer>, used: set<string>) returns (rest: seq<Answer>)
    ensures rest == Leftover(rs, used)
  {
    rest := [];
    for i := 0 to |rs|
      invariant rest == Leftover(rs[..i], used)
    {
      assert rs[..i + 1][..i] == rs[..i];
      if rs[i].toolUseId !in used {
        rest := rest + [rs[i]];
      }
    }
    assert rs[..|rs|] == rs;
  }

  lemma {:induction false} LatestIds(rs: seq<Answer>)
    ensures Latest(rs).Keys == AnswerIds(rs)
    ensures forall id | id in Latest(rs) :: Latest(rs)[id] in rs && Latest(rs)[id].toolUseId == id
  {
    if rs != [] {
      var init := rs[..|rs| - 1];
      LatestIds(init);
      assert rs == init + [rs[|rs| - 1]];
      assert AnswerIds(rs) == AnswerIds(init) + {rs[|rs| - 1].toolUseId};
    }
  }

  lemma {:induction false} PickedIds(ids: seq<string>, rs: seq<Answer>)
    ensures AnswerIds(Picked(ids, Latest(rs))) == Known(ids, Latest(rs))
  {
    if ids != [] {
      var init, last := ids[..|ids| - 1], ids[|ids| - 1];
      PickedIds(init, rs);
      LatestIds(rs);
      assert ids == init + [last];
      var more := if last in Latest(rs) then {last} else {};
      assert Known(ids, Latest(rs)) == Known(init, Latest(rs)) + more;
      assert AnswerIds(Picked(ids, Latest(rs))) == AnswerIds(Picked(init, Latest(rs))) + more;
    }
  }

  lemma {:induction false} LeftoverIds(rs: seq<Answer>, used: set<string>)
    ensures AnswerIds(Leftover(rs, used)) == AnswerIds(rs) - used
  {
    if rs != [] {
      var init, last := rs[..|rs| - 1], rs[|rs| - 1];
      LeftoverIds(init, used);
      assert rs == init + [last];
      var more := if last.toolUseId in used then {} else {last.toolUseId};
      assert AnswerIds(Leftover(rs, used)) == AnswerIds(Leftover(init, used)) + more;
      assert AnswerIds(rs) == AnswerIds(init) + {last.toolUseId};
    }
  }

  /** Reordering answers the same tool uses. */
  lemma ReorderedIds(rs: seq<Answer>, ids: seq<string>)
    ensures AnswerIds(Reordered(rs, ids)) == AnswerIds(rs)
  {
    var used := Known(ids, Latest(rs));
    PickedIds(ids, rs);
    LeftoverIds(rs, used);
    LatestIds(rs);
    assert used <= AnswerIds(rs);
    IdsOfTwo(Picked(ids, Latest(rs)), Leftover(rs, used));
  }

  lemma IdsOfTwo(a: seq<Answer>, b: seq<Answer>)
    ensures AnswerIds(a + b) == AnswerIds(a) + AnswerIds(b)
  {
  }

  predicate DistinctIds(rs: seq<Answer>)
  {
    forall i, j | 0 <= i < j < |rs| :: rs[i].toolUseId != rs[j].toolUseId
  }

  lemma {:induction false} PickedCount(ids: seq<string>, index: map<string, Answer>, r: Answer)
    requires forall id | id in index :: index[id].toolUseId == id
    ensures multiset(Picked(ids, index))[r] ==
            if r.toolUseId in index && index[r.toolUseId] == r then multiset(ids)[r.toolUseId] else 0
  {
    if ids != [] {
      var init, last := ids[..|ids| - 1], ids[|ids| - 1];
      PickedCount(init, index, r);
      assert ids == init + [last];
      assert last in index ==> Picked(ids, index) == Picked(init, index) + [index[last]];
    }
  }

  lemma {:induction false} LeftoverCount(rs: seq<Answer>, used: set<string>, r: Answer)
    ensures multiset(Leftover(rs, used))[r] == if r.toolUseId in used then 0 else multiset(rs)[r]
  {
    if rs != [] {
      var init, last := rs[..|rs| - 1], rs[|rs| - 1];
      LeftoverCount(init, used, r);
      assert rs == init + [last];
      OneMoreLeft(init, last, used, r);
    }
  }

  lemma OneMoreLeft(init: seq<Answer>, last: Answer, used: set<string>, r: Answer)
    ensures multiset(init + [last])[r] == multiset(init)[r] + (if last == r then 1 else 0)
    ensures multiset(Leftover(init + [last], used))[r] ==
            multiset(Leftover(init, used))[r] + (if last == r && r.toolUseId !in used then 1 else 0)
  {
    assert (init + [last])[..|init|] == init;
    CountOfTwo(init, [last], r);
    CountOfTwo(Leftover(init, used), if last.toolUseId in used then [] else [last], r);
  }

  /** An id that both sides know is used as often as it is answered, always with
      the same answer. */
  ghost predicate MatchedAt(rs: seq<Answer>, ids: seq<string>, id: string)
    requires id in Latest(rs)
  {
    multiset(ids)[id] == multiset(rs)[Latest(rs)[id]] && forall r | r in rs && r.toolUseId == id :: r == Latest(rs)[id]
  }

  /** The condition for reordering to lose and double nothing. */
  ghost predicate Matched(rs: seq<Answer>, ids: seq<string>)
  {
    |rs| <= 1 || ids == [] || forall id | id in Known(ids, Latest(rs)) :: MatchedAt(rs, ids, id)
  }

  lemma ReorderedCount(rs: seq<Answer>, ids: seq<string>, r: Answer)
    requires |rs| > 1 && ids != []
    ensures var l := Latest(rs);
            multiset(Reordered(rs, ids))[r] ==
            if r.toolUseId !in Known(ids, l) then multiset(rs)[r]
            else if l[r.toolUseId] == r then multiset(ids)[r.toolUseId] else 0
  {
    var l := Latest(rs);
    LatestIds(rs);
    PickedCount(ids, l, r);
    LeftoverCount(rs, Known(ids, l), r);
    CountOfTwo(Picked(ids, l), Leftover(rs, Known(ids, l)), r);
    UnknownCount(ids, l, r.toolUseId);
  }

  lemma CountOfTwo(a: seq<Answer>, b: seq<Answer>, r: Answer)
    ensures multiset(a + b)[r] == multiset(a)[r] + multiset(b)[r]
  {
  }

  lemma UnknownCount(ids: seq<string>, index: map<string, Answer>, id: string)
    ensures id in index && id !in Known(ids, index) ==> multiset(ids)[id] == 0
  {
    assert id in multiset(ids) ==> id in ids;
  }

  /** Reordering is a permutation exactly when the ids match. */
  lemma ReorderedPermutes(rs: seq<Answer>, ids: seq<string>)
    ensures multiset(Reordered(rs, ids)) == multiset(rs) <==> Matched(rs, ids)
  {
    if |rs| > 1 && ids != [] {
      LatestIds(rs);
      if multiset(Reordered(rs, ids)) == multiset(rs) {
        forall id | id in Known(ids, Latest(rs)) ensures MatchedAt(rs, ids, id) {
          PermutedMatches(rs, ids, id);
        }
      }
      if forall id | id in Known(ids, Latest(rs)) :: MatchedAt(rs, ids, id) {
        forall r: Answer ensures multiset(Reordered(rs, ids))[r] == multiset(rs)[r] {
          MatchedCounts(rs, ids, r);
        }
      }
    }
  }

  lemma PermutedMatches(rs: seq<Answer>, ids: seq<string>, id: string)
    requires |rs| > 1 && ids != [] && id in Known(ids, Latest(rs)) && multiset(Reordered(rs, ids)) == multiset(rs)
    ensures MatchedAt(rs, ids, id)
  {
    LatestIds(rs);
    ReorderedCount(rs, ids, Latest(rs)[id]);
    forall r | r in rs && r.toolUseId == id ensures r == Latest(rs)[id] {
      ReorderedCount(rs, ids, r);
      assert r in multiset(rs);
    }
  }

  lemma MatchedCounts(rs: seq<Answer>, ids: seq<string>, r: Answer)
    requires |rs| > 1 && ids != [] && forall id | id in Known(ids, Latest(rs)) :: MatchedAt(rs, ids, id)
    ensures multiset(Reordered(rs, ids))[r] == multiset(rs)[r]
  {
    ReorderedCount(rs, ids, r);
    if r.toolUseId in Known(ids, Latest(rs)) {
      assert MatchedAt(rs, ids, r.toolUseId);
      assert multiset(rs)[r] > 0 ==> r in rs;
    }
  }

  lemma {:induction false} OnceEach<T>(s: seq<T>, x: T)
    requires Distinct(s) && x in s
    ensures multiset(s)[x] == 1
  {
    var init, last := s[..|s| - 1], s[|s| - 1];
    assert s == init + [last];
    assert forall i | 0 <= i < |init| :: init[i] == s[i];
    if last == x {
      assert x !in init;
    } else {
      OnceEach(init, x);
    }
  }

  /** Distinct ids on both sides match. */
  lemma DistinctMatches(rs: seq<Answer>, ids: seq<string>)
    requires DistinctIds(rs) && Distinct(ids)
    ensures Matched(rs, ids)
  {
    LatestIds(rs);
    forall id | id in Known(ids, Latest(rs)) ensures MatchedAt(rs, ids, id) {
      OnceEach(ids, id);
      OnceEach(rs, Latest(rs)[id]);
    }
  }

  /** Of two answers to one use the first is lost. */
  lemma DoubleAnswerIsLost(x: Answer, y: Answer)
    requires x.toolUseId == y.toolUseId && x != y
    ensures Reordered([x, y], [x.toolUseId]) == [y]
  {
    var id := x.toolUseId;
    assert [x, y][..1] == [x] && [x][..0] == [] && [id][..0] == [];
    assert Latest([]) == map[] && Latest([x]) == map[id := x];
    assert Latest([x, y]) == map[id := y];
    assert Known([id], Latest([x, y])) == {id};
    assert Picked([id], Latest([x, y])) == [] + [y];
    assert Leftover([], {id}) == [] && Leftover([x], {id}) == [] && Leftover([x, y], {id}) == [];
  }

  // ---------------------------------------------------------------- history

  function EntryFor(prev: Message, m: Message, h: Helpers): seq<Entry>
  {
    if m.role == USER then
      var rs := AnswersOf(m.content);
      [UserEntry(h.clean(ExtractText(m.content)),
                 if |rs| > 1 && prev.role == ASSISTANT then Reordered(rs, IdList(prev.content)) else rs)]
    else if m.role == ASSISTANT then
      [AssistantEntry(ExtractText(m.content), UsesOf(m.content, h.shorten))]
    else []
  }

  function Entries(prev: Message, msgs: seq<Message>, h: Helpers): seq<Entry>
    decreases |msgs|
  {
    if msgs == [] then [] else EntryFor(prev, msgs[0], h) + Entries(msgs[0], msgs[1..], h)
  }

  method BuildHistory(msgs: seq<Message>, h: Helpers) returns (history: seq<Entry>)
    ensures history == Entries(NOBODY, msgs, h)
  {
    history := [];
    for i := 0 to |msgs|
      invariant history + Entries(Before(NOBODY, msgs, i), msgs[i..], h) == Entries(NOBODY, msgs, h)
    {
      var msg, prev := msgs[i], Before(NOBODY, msgs, i);
      assert msgs[i..][1..] == msgs[i + 1..];
      var next := [];
      if msg.role == USER {
        var results := AnswersOf(msg.content);
        if |results| > 1 && prev.role == ASSISTANT {
          results := ReorderToolResults(results, IdList(prev.content));
        }
        next := [UserEntry(h.clean(ExtractText(msg.content)), results)];
      } else if msg.role == ASSISTANT {
        next := [AssistantEntry(ExtractText(msg.content), UsesOf(msg.content, h.shorten))];
      }
      assert next == EntryFor(prev, msg, h);
      EntriesStep(history, prev, msgs[i..], h);
      history := history + next;
    }
    assert msgs[|msgs|..] == [];
  }

  lemma EntriesStep(done: seq<Entry>, prev: Message, msgs: seq<Message>, h: Helpers)
    requires msgs != []
    ensures done + Entries(prev, msgs, h) == (done + EntryFor(prev, msgs[0], h)) + Entries(msgs[0], msgs[1..], h)
  {
  }

  /** One entry for each message, of the same role. */
  lemma {:induction false} EntryPerMessage(prev: Message, msgs: seq<Message>, h: Helpers)
    requires StandardRoles(msgs)
    ensures |Entries(prev, msgs, h)| == |msgs|
    ensures forall i | 0 <= i < |msgs| ::
              EntryFor(Before(prev, msgs, i), msgs[i], h) == [Entries(prev, msgs, h)[i]]
    decreases |msgs|
  {
    if msgs != [] {
      var rest := msgs[1..];
      EntryPerMessage(msgs[0], rest, h);
      forall i | 0 <= i < |msgs| ensures EntryFor(Before(prev, msgs, i), msgs[i], h) == [Entries(prev, msgs, h)[i]] {
        if i > 0 {
          assert EntryFor(Before(msgs[0], rest, i - 1), rest[i - 1], h) == [Entries(msgs[0], rest, h)[i - 1]];
        }
      }
    }
  }

  // --------------------------------------------------------------- splitting

  function Split(msgs: seq<Message>): (seq<Message>, Message)
  {
    if msgs == [] then ([], NOBODY)
    else if msgs[|msgs| - 1].role == ASSISTANT then (msgs, Message(USER, Text(CONTINUE)))
    else (msgs[..|msgs| - 1], msgs[|msgs| - 1])
  }

  function Placed(system: string, mode: SystemMode, history: seq<Entry>): seq<Entry>
  {
    if system == "" then history
    else
      match mode
      case Dropped => history
      case InCurrent => history
      case WithoutAck => [UserEntry(system, [])] + history
      case Default => [UserEntry(system, []), AssistantEntry(ACK, [])] + history
  }

  function CurrentText(system: string, mode: SystemMode, text: string): string
  {
    if system == "" || mode != InCurrent then text
    else if text != "" then "<system_context>\n" + system + "\n</system_context>\n\n" + text
    else "<system_context>\n" + system + "\n</system_context>"
  }

  datatype Request = Request(msgs: seq<Message>, hasTools: bool, system: string, mode: SystemMode)

  datatype Built = Built(history: seq<Entry>, current: Entry)

  function Payloaded(q: Request, h: Helpers): Built
  {
    PayloadFrom(Normalized(q.msgs, q.hasTools), q, h)
  }

  /** The payload of a normalised list. */
  function PayloadFrom(msgs: seq<Message>, q: Request, h: Helpers): Built
  {
    var (past, last) := Split(msgs);
    var text := CurrentText(q.system, q.mode, h.clean(ExtractText(last.content)));
    Built(Placed(q.system, q.mode, Entries(NOBODY, past, h)), CurrentFrom(past, last.content, text))
  }

  /** The current message: its results in the order of the uses before it, and
      something to say unless it has results. */
  function CurrentFrom(past: seq<Message>, c: Content, text: string): Entry
  {
    var answers := Reordered(AnswersOf(c), if past == [] then [] else IdList(past[|past| - 1].content));
    UserEntry(if text == "" && answers == [] then CONTINUE else text, answers)
  }

  method BuildPayload(q: Request, h: Helpers) returns (r: Built)
    ensures r == Payloaded(q, h)
    ensures TurnsAlternate(r.history) <==> q.system == "" || q.mode != WithoutAck
    ensures !q.hasTools || OddRolesAnswered(NOBODY, q.msgs) ==> EveryAnswerHasItsUse(r)
  {
    var msgs := Normalize(q.msgs, q.hasTools);
    r := BuildFrom(msgs, q, h);
    HistoryAlternates(q, h);
    if !q.hasTools || OddRolesAnswered(NOBODY, q.msgs) {
      PayloadAnswered(q, h);
    }
  }

  method BuildFrom(msgs: seq<Message>, q: Request, h: Helpers) returns (r: Built)
    ensures r == PayloadFrom(msgs, q, h)
  {
    var (past, last) := Split(msgs);
    var history := BuildHistory(past, h);
    history := Placed(q.system, q.mode, history);
    var text := CurrentText(q.system, q.mode, h.clean(ExtractText(last.content)));
    var current := BuildCurrent(past, last.content, text);
    r := Built(history, current);
  }

  method BuildCurrent(past: seq<Message>, c: Content, text: string) returns (r: Entry)
    ensures r == CurrentFrom(past, c, text)
  {
    var ids := if past == [] then [] else IdList(past[|past| - 1].content);
    var answers := ReorderToolResults(AnswersOf(c), ids);
    if text == "" && answers == [] {
      return UserEntry(CONTINUE, answers);
    }
    return UserEntry(text, answers);
  }

  // -------------------------------------------------------------- the shape

  /** Entries alternate from the user and end with the assistant. */
  predicate TurnsAlternate(history: seq<Entry>)
  {
    |history| % 2 == 0 && forall i | 0 <= i < |history| :: history[i].UserEntry? <==> i % 2 == 0
  }

  lemma SplitShape(msgs: seq<Message>)
    requires Alternates(msgs)
    ensures var (past, last) := Split(msgs);
            Alternates(past) && |past| % 2 == 0 && (msgs != [] ==> last.role == USER) &&
            (forall i | 0 <= i < |past| :: past[i] == msgs[i])
  {
  }

  lemma EntriesAlternate(past: seq<Message>, h: Helpers)
    requires Alternates(past) && |past| % 2 == 0
    ensures TurnsAlternate(Entries(NOBODY, past, h))
  {
    EntryPerMessage(NOBODY, past, h);
    forall i | 0 <= i < |past| ensures Entries(NOBODY, past, h)[i].UserEntry? <==> i % 2 == 0 {
      assert EntryFor(Before(NOBODY, past, i), past[i], h) == [Entries(NOBODY, past, h)[i]];
    }
  }

  /** The history alternates from user to assistant with even length, except when
      the system prompt is placed without an acknowledgement. */
  lemma HistoryAlternates(q: Request, h: Helpers)
    ensures TurnsAlternate(Payloaded(q, h).history) <==> q.system == "" || q.mode != WithoutAck
  {
    var msgs := Normalized(q.msgs, q.hasTools);
    NormalizedAlternates(q.msgs, q.hasTools);
    SplitShape(msgs);
    EntriesAlternate(Split(msgs).0, h);
    PlacedAlternates(q.system, q.mode, Entries(NOBODY, Split(msgs).0, h));
  }

  lemma PlacedAlternates(system: string, mode: SystemMode, history: seq<Entry>)
    requires TurnsAlternate(history)
    ensures TurnsAlternate(Placed(system, mode, history)) <==> system == "" || mode != WithoutAck
  {
    if system != "" && mode.Default? {
      PairFirst(UserEntry(system, []), AssistantEntry(ACK, []), history);
    }
  }

  lemma PairFirst(a: Entry, b: Entry, history: seq<Entry>)
    requires TurnsAlternate(history) && a.UserEntry? && b.AssistantEntry?
    ensures TurnsAlternate([a, b] + history)
  {
    forall i | 0 <= i < |history| + 2 ensures ([a, b] + history)[i].UserEntry? <==> i % 2 == 0 {
      if i >= 2 {
        assert ([a, b] + history)[i] == history[i - 2];
      }
    }
  }

  // ------------------------------------------------------- answers and uses

  function Offered(e: Entry): set<string>
  {
    if e.AssistantEntry? then EntryIds(e.uses) else {}
  }

  function Claimed(e: Entry): set<string>
  {
    if e.UserEntry? then AnswerIds(e.results) else {}
  }

  const NOTHING := UserEntry("", [])

  function EntryBefore(history: seq<Entry>, i: nat): Entry
    requires i <= |history|
  {
    if i == 0 then NOTHING else history[i - 1]
  }

  predicate Backed(history: seq<Entry>)
  {
    forall i | 0 <= i < |history| :: Claimed(history[i]) <= Offered(EntryBefore(history, i))
  }

  /** Each tool result of an entry names a tool use of the entry before it. */
  predicate EveryAnswerHasItsUse(p: Built)
  {
    Backed(p.history) && Claimed(p.current) <= Offered(EntryBefore(p.history, |p.history|))
  }

  lemma EntryTools(prev: Message, m: Message, h: Helpers)
    requires StandardRole(m.role)
    ensures Offered(EntryFor(prev, m, h)[0]) == OpenIds(m)
    ensures Claimed(EntryFor(prev, m, h)[0]) == if m.role == USER then ResultIds(m.content) else {}
  {
    UsesOfIds(m.content, h.shorten);
    AnswersOfIds(m.content);
    ReorderedIds(AnswersOf(m.content), IdList(prev.content));
  }

  lemma EntriesBacked(past: seq<Message>, h: Helpers)
    requires StandardRoles(past) && ResultsAnswered(past)
    ensures Backed(Entries(NOBODY, past, h))
  {
    var es := Entries(NOBODY, past, h);
    EntryPerMessage(NOBODY, past, h);
    forall i | 0 <= i < |es| ensures Claimed(es[i]) <= Offered(EntryBefore(es, i)) {
      assert EntryFor(Before(NOBODY, past, i), past[i], h) == [es[i]];
      EntryTools(Before(NOBODY, past, i), past[i], h);
      assert Fits(Before(NOBODY, past, i), past[i]);
      if i > 0 {
        assert EntryFor(Before(NOBODY, past, i - 1), past[i - 1], h) == [es[i - 1]];
        EntryTools(Before(NOBODY, past, i - 1), past[i - 1], h);
      }
    }
  }

  lemma PlacedBacked(system: string, mode: SystemMode, history: seq<Entry>)
    requires Backed(history)
    ensures Backed(Placed(system, mode, history))
    ensures var p := Placed(system, mode, history);
            Offered(EntryBefore(history, |history|)) <= Offered(EntryBefore(p, |p|))
  {
    var p := Placed(system, mode, history);
    var k := |p| - |history|;
    forall i | 0 <= i < |p| ensures Claimed(p[i]) <= Offered(EntryBefore(p, i)) {
      if i >= k {
        assert Claimed(history[i - k]) <= Offered(EntryBefore(history, i - k));
      }
    }
  }

  lemma ToolFreeAnswered(msgs: seq<Message>)
    requires ToolFree(msgs)
    ensures ResultsAnswered(msgs)
  {
  }

  /** Every tool result of the payload names a tool use of the entry right before
      it, for a request without tools or whose odd roles allow it. */
  lemma PayloadAnswered(q: Request, h: Helpers)
    requires !q.hasTools || OddRolesAnswered(NOBODY, q.msgs)
    ensures EveryAnswerHasItsUse(Payloaded(q, h))
  {
    var msgs := Normalized(q.msgs, q.hasTools);
    NormalizedAlternates(q.msgs, q.hasTools);
    if q.hasTools {
      NormalizedAnswers(q.msgs);
    } else {
      NormalizedToolFree(q.msgs);
      ToolFreeAnswered(msgs);
    }
    var (past, last) := Split(msgs);
    SplitShape(msgs);
    SplitAnswered(msgs);
    EntriesBacked(past, h);
    PlacedBacked(q.system, q.mode, Entries(NOBODY, past, h));
    LastOffered(past, h);
    AnswersOfIds(last.content);
    ReorderedIds(AnswersOf(last.content), if past == [] then [] else IdList(past[|past| - 1].content));
  }

  lemma SplitAnswered(msgs: seq<Message>)
    requires Alternates(msgs) && ResultsAnswered(msgs)
    ensures var (past, last) := Split(msgs);
            ResultsAnswered(past) && ResultIds(last.content) <= OpenIds(Before(NOBODY, past, |past|))
  {
    if Split(msgs).0 != msgs {
      var n := |msgs| - 1;
      AnsweredPrefix(msgs, n);
      assert Fits(Before(NOBODY, msgs, n), msgs[n]);
      assert Before(NOBODY, msgs, n) == Before(NOBODY, msgs[..n], n);
    }
  }

  lemma AnsweredPrefix(msgs: seq<Message>, n: nat)
    requires ResultsAnswered(msgs) && n <= |msgs|
    ensures ResultsAnswered(msgs[..n])
  {
    forall i | 0 <= i < n ensures Fits(Before(NOBODY, msgs[..n], i), msgs[..n][i]) {
      assert Fits(Before(NOBODY, msgs, i), msgs[i]);
    }
  }

  lemma LastOffered(past: seq<Message>, h: Helpers)
    requires StandardRoles(past)
    ensures var es := Entries(NOBODY, past, h);
            OpenIds(Before(NOBODY, past, |past|)) == Offered(EntryBefore(es, |es|))
  {
    EntryPerMessage(NOBODY, past, h);
    if past != [] {
      var i := |past| - 1;
      assert EntryFor(Before(NOBODY, past, i), past[i], h) == [Entries(NOBODY, past, h)[i]];
      EntryTools(Before(NOBODY, past, i), past[i], h);
    }
  }
}
