/** Normalisation of a message list before it is sent upstream: tool blocks that
    cannot stay are turned into text, roles are reduced to two, runs of plain text
    are merged and the roles made to alternate from the user.
 */
module Normalizer {

  /** A tool result holds its extracted text. `Other` stands for every other kind
      of block, with the name it is shown under. */
  datatype Block =
    | TextBlock(text: string)
    | ToolUse(id: string, name: string, input: string)
    | ToolResult(toolUseId: string, text: string, isError: bool)
    | Other(kind: string, caption: string)

  datatype Content = Text(text: string) | Blocks(blocks: seq<Block>)

  datatype Message = Message(role: string, content: Content)

  const USER := "user"
  const ASSISTANT := "assistant"
  const EMPTY := "(empty)"

  /** What stands before the first message. */
  const NOBODY := Message("", Text(""))

  /** A list of blocks that came out empty is an empty text. */
  function FromBlocks(bs: seq<Block>): Content
  {
    if bs == [] then Text("") else Blocks(bs)
  }

  function UseIds(c: Content): set<string>
  {
    if c.Text? then {} else set b | b in c.blocks && b.ToolUse? :: b.id
  }

  function ResultIds(c: Content): set<string>
  {
    if c.Text? then {} else set b | b in c.blocks && b.ToolResult? :: b.toolUseId
  }

  // ------------------------------------------------------------ tool blocks

  function ResultText(b: Block): Block
    requires b.ToolResult?
  {
    TextBlock("[Tool Result (" + b.toolUseId + ")]\n" + b.text)
  }

  function UseText(b: Block): Block
    requires b.ToolUse?
  {
    TextBlock("[Tool: " + b.name + " (" + b.id + ")]\n" + b.input)
  }

  function Textualized(b: Block): Block
  {
    match b
    case ToolUse(_, _, _) => UseText(b)
    case ToolResult(_, _, _) => ResultText(b)
    case _ => b
  }

  function AllText(bs: seq<Block>): seq<Block>
  {
    if bs == [] then [] else [Textualized(bs[0])] + AllText(bs[1..])
  }

  function WithoutTools(msgs: seq<Message>): seq<Message>
  {
    if msgs == [] then []
    else
      var m := msgs[0];
      [if m.content.Text? then m else Message(m.role, FromBlocks(AllText(m.content.blocks)))] + WithoutTools(msgs[1..])
  }

  function Answered(ids: set<string>, bs: seq<Block>): seq<Block>
  {
    if bs == [] then []
    else
      [if bs[0].ToolResult? && bs[0].toolUseId !in ids then ResultText(bs[0]) else bs[0]] + Answered(ids, bs[1..])
  }

  function OpenIds(prev: Message): set<string>
  {
    if prev.role == ASSISTANT then UseIds(prev.content) else {}
  }

  function Kept(prev: Message, m: Message): Message
  {
    if m.role != USER || m.content.Text? then m
    else Message(m.role, FromBlocks(Answered(OpenIds(prev), m.content.blocks)))
  }

  function WithoutOrphans(prev: Message, msgs: seq<Message>): seq<Message>
    decreases |msgs|
  {
    if msgs == [] then [] else [Kept(prev, msgs[0])] + WithoutOrphans(msgs[0], msgs[1..])
  }

  method TextualizeAllToolContent(msgs: seq<Message>) returns (result: seq<Message>)
    ensures result == WithoutTools(msgs)
  {
    result := [];
    for i := 0 to |msgs|
      invariant result + WithoutTools(msgs[i..]) == WithoutTools(msgs)
    {
      var msg := msgs[i];
      assert msgs[i..][1..] == msgs[i + 1..];
      WithoutToolsStep(result, msgs[i..]);
      if msg.content.Text? {
        result := result + [msg];
      } else {
        var blocks := TextualizeBlocks(msg.content.blocks);
        result := result + [Message(msg.role, FromBlocks(blocks))];
      }
    }
    assert msgs[|msgs|..] == [];
  }

  lemma WithoutToolsStep(done: seq<Message>, msgs: seq<Message>)
    requires msgs != []
    ensures var m := msgs[0];
            var t := if m.content.Text? then m else Message(m.role, FromBlocks(AllText(m.content.blocks)));
            done + WithoutTools(msgs) == (done + [t]) + WithoutTools(msgs[1..])
  {
    var m := msgs[0];
    Joined(done, if m.content.Text? then m else Message(m.role, FromBlocks(AllText(m.content.blocks))),
           WithoutTools(msgs[1..]));
  }

  lemma Joined<T>(done: seq<T>, x: T, rest: seq<T>)
    ensures done + ([x] + rest) == (done + [x]) + rest
  {
  }

  method TextualizeBlocks(bs: seq<Block>) returns (r: seq<Block>)
    ensures r == AllText(bs)
  {
    r := [];
    for i := 0 to |bs|
      invariant r + AllText(bs[i..]) == AllText(bs)
    {
      assert bs[i..][1..] == bs[i + 1..];
      r := r + [Textualized(bs[i])];
    }
    assert bs[|bs|..] == [];
  }

  /** The first `i` messages are done. */
  ghost predicate Settling(result: seq<Message>, msgs: seq<Message>, i: nat)
  {
    i <= |msgs| && result + WithoutOrphans(Before(NOBODY, msgs, i), msgs[i..]) == WithoutOrphans(NOBODY, msgs)
  }

  lemma SettlingNext(result: seq<Message>, msgs: seq<Message>, i: nat)
    requires i < |msgs| && Settling(result, msgs, i)
    ensures Settling(result + [Kept(Before(NOBODY, msgs, i), msgs[i])], msgs, i + 1)
  {
    assert msgs[i..][1..] == msgs[i + 1..];
  }

  method TextualizeOrphanToolResults(msgs: seq<Message>) returns (result: seq<Message>)
    ensures result == WithoutOrphans(NOBODY, msgs)
  {
    result := [];
    for i := 0 to |msgs|
      invariant Settling(result, msgs, i)
    {
      var msg := msgs[i];
      SettlingNext(result, msgs, i);
      if msg.role != USER || msg.content.Text? {
        result := result + [msg];
      } else {
        var ids := if i > 0 && msgs[i - 1].role == ASSISTANT then UseIds(msgs[i - 1].content) else {};
        var blocks := TextualizeUnanswered(ids, msg.content.blocks);
        result := result + [Message(msg.role, FromBlocks(blocks))];
      }
    }
    assert msgs[|msgs|..] == [];
  }

  method TextualizeUnanswered(ids: set<string>, bs: seq<Block>) returns (r: seq<Block>)
    ensures r == Answered(ids, bs)
  {
    r := [];
    for i := 0 to |bs|
      invariant r + Answered(ids, bs[i..]) == Answered(ids, bs)
    {
      assert bs[i..][1..] == bs[i + 1..];
      var b := if bs[i].ToolResult? && bs[i].toolUseId !in ids then ResultText(bs[i]) else bs[i];
      AnsweredStep(r, ids, bs[i..]);
      r := r + [b];
    }
    assert bs[|bs|..] == [];
  }

  lemma AnsweredStep(done: seq<Block>, ids: set<string>, bs: seq<Block>)
    requires bs != []
    ensures var b := if bs[0].ToolResult? && bs[0].toolUseId !in ids then ResultText(bs[0]) else bs[0];
            done + Answered(ids, bs) == (done + [b]) + Answered(ids, bs[1..])
  {
    Joined(done, if bs[0].ToolResult? && bs[0].toolUseId !in ids then ResultText(bs[0]) else bs[0], Answered(ids, bs[1..]));
  }

  // ------------------------------------------------------------------ roles

  predicate StandardRole(role: string)
  {
    role == USER || role == ASSISTANT
  }

  function Standard(m: Message): Message
  {
    if StandardRole(m.role) then m else m.(role := USER)
  }

  function AllStandard(msgs: seq<Message>): seq<Message>
  {
    if msgs == [] then [] else [Standard(msgs[0])] + AllStandard(msgs[1..])
  }

  predicate StandardRoles(msgs: seq<Message>)
  {
    forall m | m in msgs :: StandardRole(m.role)
  }

  method NormalizeRoles(msgs: seq<Message>) returns (result: seq<Message>)
    ensures result == AllStandard(msgs)
  {
    result := msgs;
    for i := 0 to |msgs|
      invariant |result| == |msgs| && forall j | i <= j < |msgs| :: result[j] == msgs[j]
      invariant forall j | 0 <= j < i :: result[j] == Standard(msgs[j])
    {
      if !StandardRole(msgs[i].role) {
        result := result[i := msgs[i].(role := USER)];
      }
    }
    AllStandardAt(msgs);
  }

  /** Message by message. */
  lemma {:induction false} AllStandardAt(msgs: seq<Message>)
    ensures |AllStandard(msgs)| == |msgs| && forall i | 0 <= i < |msgs| :: AllStandard(msgs)[i] == Standard(msgs[i])
  {
    if msgs != [] {
      AllStandardAt(msgs[1..]);
    }
  }

  // ---------------------------------------------------------------- merging

  function Hidden(kind: string): bool
  {
    kind == "thinking" || kind == "image" || kind == "tool_reference"
  }

  function Shown(b: Block): seq<string>
  {
    match b
    case TextBlock(t) => [t]
    case Other(kind, caption) =>
      if Hidden(kind) then [] else if caption == "" then ["[" + kind + "]"] else ["[" + kind + ": " + caption + "]"]
    case _ => []
  }

  function AllShown(bs: seq<Block>): seq<string>
  {
    if bs == [] then [] else Shown(bs[0]) + AllShown(bs[1..])
  }

  function Join(parts: seq<string>, sep: string): string
  {
    if parts == [] then "" else if |parts| == 1 then parts[0] else parts[0] + sep + Join(parts[1..], sep)
  }

  function ExtractText(c: Content): string
  {
    if c.Text? then c.text else Join(AllShown(c.blocks), " ")
  }

  predicate Plain(c: Content)
  {
    c.Text? || forall b | b in c.blocks :: b.TextBlock?
  }

  /** `j` messages from the front form a run that is merged. */
  predicate IsRun(msgs: seq<Message>, j: nat)
  {
    0 < j <= |msgs| && (j > 1 ==> forall k | 0 <= k < j :: msgs[k].role == msgs[0].role && Plain(msgs[k].content))
  }

  predicate Extends(msgs: seq<Message>, j: nat)
  {
    j < |msgs| && msgs[j].role == msgs[0].role && Plain(msgs[0].content) && Plain(msgs[j].content)
  }

  function RunEnd(msgs: seq<Message>, j: nat): (r: nat)
    requires IsRun(msgs, j)
    ensures j <= r && IsRun(msgs, r) && !Extends(msgs, r)
    decreases |msgs| - j
  {
    if Extends(msgs, j) then RunEnd(msgs, j + 1) else j
  }

  function Texts(msgs: seq<Message>): (r: seq<string>)
    ensures |r| == |msgs|
  {
    if msgs == [] then [] else [ExtractText(msgs[0].content)] + Texts(msgs[1..])
  }

  function MergedRun(run: seq<Message>): Message
    requires run != []
  {
    if |run| == 1 then run[0] else Message(run[0].role, Text(Join(Texts(run), "\n")))
  }

  function Merged(msgs: seq<Message>): seq<Message>
    decreases |msgs|
  {
    if msgs == [] then []
    else
      var j := RunEnd(msgs, 1);
      [MergedRun(msgs[..j])] + Merged(msgs[j..])
  }

  lemma MergedStep(done: seq<Message>, msgs: seq<Message>, j: nat)
    requires msgs != [] && j == RunEnd(msgs, 1)
    ensures done + Merged(msgs) == (done + [MergedRun(msgs[..j])]) + Merged(msgs[j..])
  {
  }

  method MergeAdjacentSameRole(msgs: seq<Message>) returns (result: seq<Message>)
    ensures result == Merged(msgs)
  {
    if |msgs| == 0 {
      return msgs;
    }
    result := [];
    var i := 0;
    while i < |msgs|
      invariant i <= |msgs| && result + Merged(msgs[i..]) == Merged(msgs)
    {
      var j := FindRun(msgs, i);
      assert msgs[i..][..j - i] == msgs[i..j] && msgs[i..][j - i..] == msgs[j..];
      MergedStep(result, msgs[i..], j - i);
      if j == i + 1 {
        result := result + [msgs[i]];
      } else {
        var text := JoinRun(msgs[i..j]);
        result := result + [Message(msgs[i].role, Text(text))];
      }
      i := j;
    }
    assert msgs[|msgs|..] == [];
  }

  method FindRun(msgs: seq<Message>, i: nat) returns (j: nat)
    requires i < |msgs|
    ensures i < j <= |msgs| && j - i == RunEnd(msgs[i..], 1)
  {
    j := i + 1;
    if Plain(msgs[i].content) {
      while j < |msgs| && msgs[j].role == msgs[i].role && Plain(msgs[j].content)
        invariant i < j <= |msgs| && IsRun(msgs[i..], j - i) && RunEnd(msgs[i..], 1) == RunEnd(msgs[i..], j - i)
      {
        assert Extends(msgs[i..], j - i);
        j := j + 1;
      }
    }
    assert !Extends(msgs[i..], j - i);
  }

  method JoinRun(run: seq<Message>) returns (text: string)
    requires run != []
    ensures text == Join(Texts(run), "\n")
  {
    text := "";
    for k := 0 to |run|
      invariant Joining(text, run, k)
    {
      JoiningNext(text, run, k);
      if k > 0 {
        text := text + "\n";
      }
      text := text + ExtractText(run[k].content);
    }
    assert run[|run|..] == [];
  }

  /** What is still to be written of a joined run. */
  function JoinRest(run: seq<Message>, started: bool): string
  {
    if run == [] then ""
    else (if started then "\n" else "") + Join(Texts(run), "\n")
  }

  ghost predicate Joining(text: string, run: seq<Message>, k: nat)
  {
    k <= |run| && text + JoinRest(run[k..], k > 0) == Join(Texts(run), "\n")
  }

  lemma JoiningNext(text: string, run: seq<Message>, k: nat)
    requires k < |run| && Joining(text, run, k)
    ensures Joining((if k > 0 then text + "\n" else text) + ExtractText(run[k].content), run, k + 1)
  {
    assert run[k..][1..] == run[k + 1..];
    JoinStep(run[k..], k > 0);
    Regroup(text, if k > 0 then "\n" else "", ExtractText(run[k].content), JoinRest(run[k + 1..], true));
    if k == 0 {
      assert text + "" == text;
    }
  }

  lemma Regroup(a: string, b: string, c: string, d: string)
    ensures a + (b + (c + d)) == ((a + b) + c) + d
  {
  }

  lemma JoinStep(run: seq<Message>, started: bool)
    requires run != []
    ensures JoinRest(run, started) ==
            (if started then "\n" else "") + (ExtractText(run[0].content) + JoinRest(run[1..], true))
  {
    assert Texts(run)[1..] == Texts(run[1..]);
  }

  // ------------------------------------------------------------ alternation

  function StartingWithUser(msgs: seq<Message>): seq<Message>
  {
    if msgs == [] || msgs[0].role == USER then msgs else [Message(USER, Text(EMPTY))] + msgs
  }

  function Opposite(role: string): string
  {
    if role == ASSISTANT then USER else ASSISTANT
  }

  /** The messages after `prev`, with fillers between equal roles. */
  function Filled(prev: Message, msgs: seq<Message>): seq<Message>
    decreases |msgs|
  {
    if msgs == [] then []
    else
      (if msgs[0].role == prev.role then [Message(Opposite(msgs[0].role), Text(EMPTY))] else [])
      + ([msgs[0]] + Filled(msgs[0], msgs[1..]))
  }

  function Alternating(msgs: seq<Message>): seq<Message>
  {
    if msgs == [] then [] else [msgs[0]] + Filled(msgs[0], msgs[1..])
  }

  lemma FilledStep(done: seq<Message>, prev: Message, msgs: seq<Message>)
    requires msgs != []
    ensures var filler := Message(Opposite(msgs[0].role), Text(EMPTY));
            done + Filled(prev, msgs) ==
            ((if msgs[0].role == prev.role then done + [filler] else done) + [msgs[0]]) + Filled(msgs[0], msgs[1..])
  {
  }

  method EnsureAlternatingRoles(msgs: seq<Message>) returns (result: seq<Message>)
    ensures result == Alternating(msgs)
  {
    if |msgs| <= 1 {
      return msgs;
    }
    result := [msgs[0]];
    for i := 1 to |msgs|
      invariant result != [] && result[|result| - 1] == msgs[i - 1]
      invariant result + Filled(msgs[i - 1], msgs[i..]) == Alternating(msgs)
    {
      var msg, last := msgs[i], result[|result| - 1];
      assert msgs[i..][1..] == msgs[i + 1..];
      FilledStep(result, msgs[i - 1], msgs[i..]);
      if msg.role == last.role {
        result := result + [Message(Opposite(msg.role), Text(EMPTY))];
      }
      result := result + [msg];
    }
    assert msgs[|msgs|..] == [];
  }

  // ------------------------------------------------------------ the pipeline

  function ToolsSettled(msgs: seq<Message>, hasTools: bool): seq<Message>
  {
    if hasTools then WithoutOrphans(NOBODY, msgs) else WithoutTools(msgs)
  }

  function Normalized(msgs: seq<Message>, hasTools: bool): seq<Message>
  {
    Alternating(StartingWithUser(Merged(AllStandard(ToolsSettled(msgs, hasTools)))))
  }

  method Normalize(msgs: seq<Message>, hasTools: bool) returns (r: seq<Message>)
    ensures r == Normalized(msgs, hasTools)
    ensures r == [] <==> msgs == []
    ensures Alternates(r)
    ensures !hasTools ==> ToolFree(r)
    ensures hasTools && StandardRoles(msgs) ==> ResultsAnswered(r)
  {
    if hasTools {
      r := TextualizeOrphanToolResults(msgs);
    } else {
      r := TextualizeAllToolContent(msgs);
    }
    r := NormalizeRoles(r);
    r := MergeAdjacentSameRole(r);
    r := StartingWithUser(r);
    r := EnsureAlternatingRoles(r);
    NormalizedAlternates(msgs, hasTools);
    if hasTools {
      NormalizedAnswers(msgs);
      if StandardRoles(msgs) {
        StandardRolesAnswered(NOBODY, msgs);
      }
    } else {
      NormalizedToolFree(msgs);
    }
  }

  // ------------------------------------------------- strict alternation

  /** User first, then strictly alternating. */
  predicate Alternates(msgs: seq<Message>)
  {
    forall i | 0 <= i < |msgs| :: msgs[i].role == if i % 2 == 0 then USER else ASSISTANT
  }

  lemma {:induction false} AllStandardRoles(msgs: seq<Message>)
    ensures StandardRoles(AllStandard(msgs)) && |AllStandard(msgs)| == |msgs|
  {
    if msgs != [] {
      AllStandardRoles(msgs[1..]);
    }
  }

  lemma {:induction false} MergedRoles(msgs: seq<Message>)
    requires StandardRoles(msgs)
    ensures StandardRoles(Merged(msgs)) && (Merged(msgs) == [] <==> msgs == [])
    decreases |msgs|
  {
    if msgs != [] {
      var j := RunEnd(msgs, 1);
      MergedRoles(msgs[j..]);
      assert MergedRun(msgs[..j]).role == msgs[0].role;
    }
  }

  /** The roles take turns, beginning with `role`. */
  predicate TakeTurns(role: string, msgs: seq<Message>)
  {
    forall i | 0 <= i < |msgs| :: msgs[i].role == if i % 2 == 0 then role else Opposite(role)
  }

  lemma TurnsBefore(m: Message, rest: seq<Message>)
    requires StandardRole(m.role) && TakeTurns(Opposite(m.role), rest)
    ensures TakeTurns(m.role, [m] + rest)
  {
    var all := [m] + rest;
    forall i | 0 <= i < |all| ensures all[i].role == if i % 2 == 0 then m.role else Opposite(m.role) {
      if i > 0 {
        Parity(i);
        assert all[i] == rest[i - 1];
      }
    }
  }

  lemma {:induction false} FilledAlternates(prev: Message, msgs: seq<Message>)
    requires StandardRole(prev.role) && StandardRoles(msgs)
    ensures TakeTurns(Opposite(prev.role), Filled(prev, msgs))
    decreases |msgs|
  {
    if msgs != [] {
      var m := msgs[0];
      FilledAlternates(m, msgs[1..]);
      var rest := Filled(m, msgs[1..]);
      TurnsBefore(m, rest);
      if m.role == prev.role {
        TurnsBefore(Message(Opposite(m.role), Text(EMPTY)), [m] + rest);
      } else {
        assert [] + ([m] + rest) == [m] + rest;
      }
    }
  }

  lemma AlternatingAlternates(u: seq<Message>)
    requires StandardRoles(u) && (u == [] || u[0].role == USER)
    ensures Alternates(Alternating(u))
  {
    if u != [] {
      FilledAlternates(u[0], u[1..]);
      TurnsBefore(u[0], Filled(u[0], u[1..]));
    }
  }

  lemma Parity(i: nat)
    requires i > 0
    ensures i % 2 == 0 <==> (i - 1) % 2 != 0
  {
  }

  lemma NormalizedAlternates(msgs: seq<Message>, hasTools: bool)
    ensures Alternates(Normalized(msgs, hasTools)) && (Normalized(msgs, hasTools) == [] <==> msgs == [])
  {
    var t := ToolsSettled(msgs, hasTools);
    SettledLength(msgs, hasTools);
    AllStandardRoles(t);
    MergedRoles(AllStandard(t));
    AlternatingAlternates(StartingWithUser(Merged(AllStandard(t))));
  }

  lemma SettledLength(msgs: seq<Message>, hasTools: bool)
    ensures |ToolsSettled(msgs, hasTools)| == |msgs|
  {
    if hasTools {
      WithoutOrphansLength(NOBODY, msgs);
    } else {
      WithoutToolsLength(msgs);
    }
  }

  lemma {:induction false} WithoutOrphansLength(prev: Message, msgs: seq<Message>)
    ensures |WithoutOrphans(prev, msgs)| == |msgs|
    decreases |msgs|
  {
    if msgs != [] {
      WithoutOrphansLength(msgs[0], msgs[1..]);
    }
  }

  lemma {:induction false} WithoutToolsLength(msgs: seq<Message>)
    ensures |WithoutTools(msgs)| == |msgs|
  {
    if msgs != [] {
      WithoutToolsLength(msgs[1..]);
    }
  }

  // ------------------------------------------------ tool results answered

  /** Each tool result of a user message names a tool use of the message before it. */
  predicate ResultsAnswered(msgs: seq<Message>)
  {
    AnsweredAfter(NOBODY, msgs)
  }

  predicate AnsweredAfter(prev: Message, msgs: seq<Message>)
  {
    forall i | 0 <= i < |msgs| :: Fits(Before(prev, msgs, i), msgs[i])
  }

  function Before(prev: Message, msgs: seq<Message>, i: nat): Message
    requires i <= |msgs|
  {
    if i == 0 then prev else msgs[i - 1]
  }

  predicate Fits(prev: Message, m: Message)
  {
    m.role == USER ==> ResultIds(m.content) <= OpenIds(prev)
  }

  predicate FitAfter(prev: Message, msgs: seq<Message>)
    decreases |msgs|
  {
    msgs == [] || (Fits(prev, msgs[0]) && FitAfter(msgs[0], msgs[1..]))
  }

  lemma {:induction false} FitIsAnswered(prev: Message, msgs: seq<Message>)
    ensures FitAfter(prev, msgs) <==> AnsweredAfter(prev, msgs)
    decreases |msgs|
  {
    if msgs != [] {
      FitIsAnswered(msgs[0], msgs[1..]);
      AnsweredTail(prev, msgs);
    }
  }

  lemma AnsweredTail(prev: Message, msgs: seq<Message>)
    requires msgs != []
    ensures AnsweredAfter(prev, msgs) <==> Fits(prev, msgs[0]) && AnsweredAfter(msgs[0], msgs[1..])
  {
    var rest := msgs[1..];
    assert Before(prev, msgs, 0) == prev;
    if Fits(prev, msgs[0]) && AnsweredAfter(msgs[0], rest) {
      forall i | 0 <= i < |msgs| ensures Fits(Before(prev, msgs, i), msgs[i]) {
        if i > 0 {
          assert Fits(Before(msgs[0], rest, i - 1), rest[i - 1]);
        }
      }
    }
    if AnsweredAfter(prev, msgs) {
      forall i | 0 <= i < |rest| ensures Fits(Before(msgs[0], rest, i), rest[i]) {
        assert Fits(Before(prev, msgs, i + 1), msgs[i + 1]);
      }
    }
  }

  /** A condition on the request: a message of a role that is neither user nor
      assistant holds tool results only for the assistant message before it. */
  predicate OddRolesAnswered(prev: Message, msgs: seq<Message>)
    decreases |msgs|
  {
    msgs == [] ||
    ((StandardRole(msgs[0].role) || ResultIds(msgs[0].content) <= OpenIds(prev)) && OddRolesAnswered(msgs[0], msgs[1..]))
  }

  lemma {:induction false} StandardRolesAnswered(prev: Message, msgs: seq<Message>)
    requires StandardRoles(msgs)
    ensures OddRolesAnswered(prev, msgs)
    decreases |msgs|
  {
    if msgs != [] {
      StandardRolesAnswered(msgs[0], msgs[1..]);
    }
  }

  lemma {:induction false} AnsweredIds(ids: set<string>, bs: seq<Block>)
    ensures forall b | b in Answered(ids, bs) && b.ToolResult? :: b.toolUseId in ids
  {
    if bs != [] {
      AnsweredIds(ids, bs[1..]);
    }
  }

  lemma KeptFits(prev: Message, m: Message)
    ensures ResultIds(Kept(prev, m).content) <= OpenIds(prev) || m.role != USER
  {
    if m.role == USER && m.content.Blocks? {
      AnsweredIds(OpenIds(prev), m.content.blocks);
    }
  }

  /** `p` is an input message and `q` what the first two passes made of it. */
  predicate SameOpen(p: Message, q: Message)
  {
    OpenIds(p) == OpenIds(q)
  }

  lemma {:induction false} OrphansFit(p: Message, q: Message, msgs: seq<Message>)
    requires SameOpen(p, q)
    ensures FitAfter(q, AllStandard(WithoutOrphans(p, msgs))) <==> OddRolesAnswered(p, msgs)
    decreases |msgs|
  {
    if msgs != [] {
      var m := msgs[0];
      var k := Standard(Kept(p, m));
      KeptFits(p, m);
      OrphansFit(m, k, msgs[1..]);
      assert WithoutOrphans(p, msgs)[1..] == WithoutOrphans(m, msgs[1..]);
      assert AllStandard(WithoutOrphans(p, msgs)) == [k] + AllStandard(WithoutOrphans(m, msgs[1..]));
    }
  }

  lemma PlainHasNoTools(c: Content)
    requires Plain(c)
    ensures UseIds(c) == {} && ResultIds(c) == {}
  {
  }

  lemma {:induction false} SkipPlain(prev: Message, msgs: seq<Message>, j: nat)
    requires 0 < j <= |msgs| && forall k | 0 <= k < j :: Plain(msgs[k].content)
    ensures FitAfter(prev, msgs) <==> FitAfter(msgs[j - 1], msgs[j..])
    decreases j
  {
    PlainHasNoTools(msgs[0].content);
    if j > 1 {
      SkipPlain(msgs[0], msgs[1..], j - 1);
      assert msgs[1..][j - 1..] == msgs[j..];
    }
  }

  lemma OpenIdsDecide(p: Message, q: Message, msgs: seq<Message>)
    requires OpenIds(p) == OpenIds(q)
    ensures FitAfter(p, msgs) <==> FitAfter(q, msgs)
  {
  }

  lemma {:induction false} MergingFits(prev: Message, msgs: seq<Message>)
    ensures FitAfter(prev, Merged(msgs)) <==> FitAfter(prev, msgs)
    decreases |msgs|
  {
    if msgs != [] {
      var j := RunEnd(msgs, 1);
      var m := MergedRun(msgs[..j]);
      MergingFits(m, msgs[j..]);
      assert Merged(msgs)[1..] == Merged(msgs[j..]);
      if j > 1 {
        SkipPlain(prev, msgs, j);
        PlainHasNoTools(msgs[j - 1].content);
        OpenIdsDecide(m, msgs[j - 1], msgs[j..]);
      }
    }
  }

  lemma {:induction false} FillingFits(prev: Message, msgs: seq<Message>)
    ensures FitAfter(prev, Filled(prev, msgs)) <==> FitAfter(prev, msgs)
    decreases |msgs|
  {
    if msgs != [] {
      var m := msgs[0];
      FillingFits(m, msgs[1..]);
      var rest := [m] + Filled(m, msgs[1..]);
      assert rest[1..] == Filled(m, msgs[1..]);
      if m.role == prev.role {
        var filler := Message(Opposite(m.role), Text(EMPTY));
        assert Filled(prev, msgs)[1..] == rest;
        assert OpenIds(filler) == {};
      } else {
        assert Filled(prev, msgs) == rest;
      }
    }
  }

  /** With tools, every tool result left in a user message names a tool use of the
      message before it exactly when the request's odd roles allow it. */
  lemma NormalizedAnswers(msgs: seq<Message>)
    ensures ResultsAnswered(Normalized(msgs, true)) <==> OddRolesAnswered(NOBODY, msgs)
  {
    var t := AllStandard(WithoutOrphans(NOBODY, msgs));
    var m := Merged(t);
    var u := StartingWithUser(m);
    OrphansFit(NOBODY, NOBODY, msgs);
    MergingFits(NOBODY, t);
    if u != [] {
      FillingFits(u[0], u[1..]);
      assert Alternating(u)[1..] == Filled(u[0], u[1..]);
      if u != m {
        assert u[1..] == m;
        OpenIdsDecide(u[0], NOBODY, m);
      }
    }
    FitIsAnswered(NOBODY, Alternating(u));
  }

  // ---------------------------------------------------------- without tools

  predicate ToolFree(msgs: seq<Message>)
  {
    forall m | m in msgs :: UseIds(m.content) == {} && ResultIds(m.content) == {}
  }

  lemma {:induction false} AllTextIsToolFree(bs: seq<Block>)
    ensures forall b | b in AllText(bs) :: !b.ToolUse? && !b.ToolResult?
  {
    if bs != [] {
      AllTextIsToolFree(bs[1..]);
    }
  }

  lemma {:induction false} WithoutToolsIsToolFree(msgs: seq<Message>)
    ensures ToolFree(AllStandard(WithoutTools(msgs)))
  {
    if msgs != [] {
      WithoutToolsIsToolFree(msgs[1..]);
      if msgs[0].content.Blocks? {
        AllTextIsToolFree(msgs[0].content.blocks);
      }
      assert WithoutTools(msgs)[1..] == WithoutTools(msgs[1..]);
    }
  }

  lemma {:induction false} MergedToolFree(msgs: seq<Message>)
    requires ToolFree(msgs)
    ensures ToolFree(Merged(msgs))
    decreases |msgs|
  {
    if msgs != [] {
      MergedToolFree(msgs[RunEnd(msgs, 1)..]);
    }
  }

  lemma {:induction false} FilledToolFree(prev: Message, msgs: seq<Message>)
    requires ToolFree(msgs)
    ensures ToolFree(Filled(prev, msgs))
    decreases |msgs|
  {
    if msgs != [] {
      FilledToolFree(msgs[0], msgs[1..]);
    }
  }

  lemma NormalizedToolFree(msgs: seq<Message>)
    ensures ToolFree(Normalized(msgs, false))
  {
    var t := AllStandard(WithoutTools(msgs));
    WithoutToolsIsToolFree(msgs);
    MergedToolFree(t);
    var u := StartingWithUser(Merged(t));
    if u != [] {
      FilledToolFree(u[0], u[1..]);
    }
  }

  // ------------------------------------------------------------ fixed points

  predicate NoBareUser(msgs: seq<Message>)
  {
    forall m | m in msgs && m.role == USER :: m.content != Blocks([])
  }

  /** Nothing left to normalise. */
  predicate Canonical(msgs: seq<Message>)
  {
    Alternates(msgs) && ResultsAnswered(msgs) && NoBareUser(msgs)
  }

  lemma {:induction false} AnsweredKeeps(ids: set<string>, bs: seq<Block>)
    requires forall b | b in bs && b.ToolResult? :: b.toolUseId in ids
    ensures Answered(ids, bs) == bs
  {
    if bs != [] {
      AnsweredKeeps(ids, bs[1..]);
      assert bs == [bs[0]] + bs[1..];
    }
  }

  lemma {:induction false} OrphansKeep(prev: Message, msgs: seq<Message>)
    requires FitAfter(prev, msgs) && NoBareUser(msgs)
    ensures WithoutOrphans(prev, msgs) == msgs
    decreases |msgs|
  {
    if msgs != [] {
      var m := msgs[0];
      if m.role == USER && m.content.Blocks? {
        forall b | b in m.content.blocks && b.ToolResult? ensures b.toolUseId in OpenIds(prev) {
          assert b.toolUseId in ResultIds(m.content);
        }
        AnsweredKeeps(OpenIds(prev), m.content.blocks);
      }
      OrphansKeep(m, msgs[1..]);
      assert msgs == [m] + msgs[1..];
    }
  }

  lemma {:induction false} StandardKeeps(msgs: seq<Message>)
    requires StandardRoles(msgs)
    ensures AllStandard(msgs) == msgs
  {
    if msgs != [] {
      StandardKeeps(msgs[1..]);
      assert msgs == [msgs[0]] + msgs[1..];
    }
  }

  predicate Differ(msgs: seq<Message>)
  {
    forall i | 0 < i < |msgs| :: msgs[i].role != msgs[i - 1].role
  }

  lemma {:induction false} MergedKeeps(msgs: seq<Message>)
    requires Differ(msgs)
    ensures Merged(msgs) == msgs
    decreases |msgs|
  {
    if msgs != [] {
      assert !Extends(msgs, 1);
      MergedKeeps(msgs[1..]);
      assert msgs == [msgs[0]] + msgs[1..];
    }
  }

  lemma {:induction false} FilledKeeps(prev: Message, msgs: seq<Message>)
    requires Differ([prev] + msgs)
    ensures Filled(prev, msgs) == msgs
    decreases |msgs|
  {
    if msgs != [] {
      assert ([prev] + msgs)[1].role != ([prev] + msgs)[0].role;
      assert [msgs[0]] + msgs[1..] == msgs == ([prev] + msgs)[1..];
      FilledKeeps(msgs[0], msgs[1..]);
    }
  }

  lemma AlternatingKeeps(msgs: seq<Message>)
    requires Alternates(msgs)
    ensures Merged(msgs) == msgs && Alternating(StartingWithUser(msgs)) == msgs
  {
    assert Differ(msgs);
    MergedKeeps(msgs);
    if msgs != [] {
      assert msgs == [msgs[0]] + msgs[1..];
      FilledKeeps(msgs[0], msgs[1..]);
    }
  }

  lemma CanonicalIsFixed(msgs: seq<Message>)
    requires Canonical(msgs)
    ensures Normalized(msgs, true) == msgs
  {
    FitIsAnswered(NOBODY, msgs);
    OrphansKeep(NOBODY, msgs);
    StandardKeeps(msgs);
    AlternatingKeeps(msgs);
  }

  lemma {:induction false} OrphansNoBare(prev: Message, msgs: seq<Message>)
    ensures NoBareUser(WithoutOrphans(prev, msgs))
    ensures StandardRoles(msgs) ==> StandardRoles(WithoutOrphans(prev, msgs))
    decreases |msgs|
  {
    if msgs != [] {
      OrphansNoBare(msgs[0], msgs[1..]);
    }
  }

  lemma {:induction false} MergedNoBare(msgs: seq<Message>)
    requires NoBareUser(msgs)
    ensures NoBareUser(Merged(msgs))
    decreases |msgs|
  {
    if msgs != [] {
      MergedNoBare(msgs[RunEnd(msgs, 1)..]);
    }
  }

  lemma {:induction false} FilledNoBare(prev: Message, msgs: seq<Message>)
    requires NoBareUser(msgs)
    ensures NoBareUser(Filled(prev, msgs))
    decreases |msgs|
  {
    if msgs != [] {
      FilledNoBare(msgs[0], msgs[1..]);
    }
  }

  lemma StandardBecomesCanonical(msgs: seq<Message>)
    requires StandardRoles(msgs)
    ensures Canonical(Normalized(msgs, true))
  {
    NormalizedAlternates(msgs, true);
    StandardRolesAnswered(NOBODY, msgs);
    NormalizedAnswers(msgs);
    var t := WithoutOrphans(NOBODY, msgs);
    OrphansNoBare(NOBODY, msgs);
    StandardKeeps(t);
    MergedNoBare(t);
    var u := StartingWithUser(Merged(t));
    if u != [] {
      FilledNoBare(u[0], u[1..]);
    }
  }

  // -------------------------------------------------------- nothing is lost

  /** What one role says, a line at a time. */
  function SpokenBy(role: string, msgs: seq<Message>): string
  {
    if msgs == [] then ""
    else Line(role, msgs[0]) + SpokenBy(role, msgs[1..])
  }

  function Line(role: string, m: Message): string
  {
    if m.role == role then ExtractText(m.content) + "\n" else ""
  }

  /** The messages that hold more than text. */
  function Structured(msgs: seq<Message>): seq<Message>
  {
    if msgs == [] then [] else (if Plain(msgs[0].content) then [] else [msgs[0]]) + Structured(msgs[1..])
  }

  /** The messages that are not fillers. */
  function Real(msgs: seq<Message>): seq<Message>
  {
    if msgs == [] then [] else (if msgs[0].content == Text(EMPTY) then [] else [msgs[0]]) + Real(msgs[1..])
  }

  lemma {:induction false} RunSpeaks(role: string, run: seq<Message>)
    requires run != [] && forall k | 0 <= k < |run| :: run[k].role == run[0].role
    ensures SpokenBy(role, run) == if run[0].role == role then Join(Texts(run), "\n") + "\n" else ""
  {
    if |run| == 1 {
      assert Texts(run) == [ExtractText(run[0].content)] + Texts(run[1..]);
    } else {
      RunSpeaks(role, run[1..]);
      assert Texts(run)[1..] == Texts(run[1..]);
    }
  }

  lemma {:induction false} SpokenSplits(role: string, a: seq<Message>, b: seq<Message>)
    ensures SpokenBy(role, a + b) == SpokenBy(role, a) + SpokenBy(role, b)
  {
    if a == [] {
      assert a + b == b;
    } else {
      SpokenSplits(role, a[1..], b);
      SpokenMore(role, a[0], a[1..], b);
      assert [a[0]] + a[1..] == a;
    }
  }

  lemma SpokenMore(role: string, m: Message, a: seq<Message>, b: seq<Message>)
    requires SpokenBy(role, a + b) == SpokenBy(role, a) + SpokenBy(role, b)
    ensures SpokenBy(role, ([m] + a) + b) == SpokenBy(role, [m] + a) + SpokenBy(role, b)
  {
    ThreeParts([m], a, b);
    SpokenCons(role, m, a + b);
    SpokenCons(role, m, a);
    ThreeParts(Line(role, m), SpokenBy(role, a), SpokenBy(role, b));
  }

  lemma SpokenCons(role: string, m: Message, a: seq<Message>)
    ensures SpokenBy(role, [m] + a) == Line(role, m) + SpokenBy(role, a)
  {
    assert ([m] + a)[1..] == a;
  }

  lemma ThreeParts<T>(a: seq<T>, b: seq<T>, c: seq<T>)
    ensures a + (b + c) == (a + b) + c
  {
  }

  lemma {:induction false} MergedSpeaks(role: string, msgs: seq<Message>)
    ensures SpokenBy(role, Merged(msgs)) == SpokenBy(role, msgs)
    decreases |msgs|
  {
    if msgs != [] {
      var j := RunEnd(msgs, 1);
      MergedSpeaks(role, msgs[j..]);
      MergedRunSpeaks(role, msgs[..j]);
      SameInTwo(role, [MergedRun(msgs[..j])], msgs[..j], Merged(msgs[j..]), msgs[j..]);
      TwoHalves(msgs, j);
    }
  }

  lemma TwoHalves<T>(s: seq<T>, j: nat)
    requires j <= |s|
    ensures s[..j] + s[j..] == s
  {
  }

  lemma SameInTwo(role: string, a: seq<Message>, a': seq<Message>, b: seq<Message>, b': seq<Message>)
    requires SpokenBy(role, a) == SpokenBy(role, a') && SpokenBy(role, b) == SpokenBy(role, b')
    ensures SpokenBy(role, a + b) == SpokenBy(role, a' + b')
  {
    SpokenSplits(role, a, b);
    SpokenSplits(role, a', b');
  }

  lemma MergedRunSpeaks(role: string, run: seq<Message>)
    requires run != [] && forall k | 0 <= k < |run| :: run[k].role == run[0].role
    ensures SpokenBy(role, [MergedRun(run)]) == SpokenBy(role, run)
  {
    if |run| == 1 {
      assert run == [run[0]];
    } else {
      RunSpeaks(role, run);
      assert [MergedRun(run)][1..] == [];
    }
  }

  lemma {:induction false} StructuredSkips(msgs: seq<Message>, j: nat)
    requires j <= |msgs| && forall k | 0 <= k < j :: Plain(msgs[k].content)
    ensures Structured(msgs) == Structured(msgs[j..])
    decreases j
  {
    if j == 0 {
      assert msgs[0..] == msgs;
    } else {
      StructuredSkips(msgs[1..], j - 1);
      assert msgs[1..][j - 1..] == msgs[j..];
    }
  }

  lemma {:induction false} MergedStructure(msgs: seq<Message>)
    ensures Structured(Merged(msgs)) == Structured(msgs)
    decreases |msgs|
  {
    if msgs != [] {
      var j := RunEnd(msgs, 1);
      MergedStructure(msgs[j..]);
      assert Merged(msgs)[1..] == Merged(msgs[j..]);
      if j > 1 {
        StructuredSkips(msgs, j);
      }
    }
  }

  lemma {:induction false} FilledReal(prev: Message, msgs: seq<Message>)
    ensures Real(Filled(prev, msgs)) == Real(msgs)
    decreases |msgs|
  {
    if msgs != [] {
      FilledReal(msgs[0], msgs[1..]);
      var rest := [msgs[0]] + Filled(msgs[0], msgs[1..]);
      assert rest[1..] == Filled(msgs[0], msgs[1..]);
      if msgs[0].role == prev.role {
        assert Filled(prev, msgs)[1..] == rest;
      } else {
        assert Filled(prev, msgs) == rest;
      }
    }
  }

  /** After the tool blocks are settled, merging keeps every line each role says
      and every structured message, in order; then only fillers are added. */
  lemma NothingLost(msgs: seq<Message>, hasTools: bool, role: string)
    ensures var t := AllStandard(ToolsSettled(msgs, hasTools));
            Structured(Merged(t)) == Structured(t) && SpokenBy(role, Merged(t)) == SpokenBy(role, t) &&
            Real(Normalized(msgs, hasTools)) == Real(Merged(t))
  {
    var t := AllStandard(ToolsSettled(msgs, hasTools));
    MergedStructure(t);
    MergedSpeaks(role, t);
    var m := Merged(t);
    var u := StartingWithUser(m);
    assert Real(u) == Real(m) by {
      if u != m {
        assert u[1..] == m;
      }
    }
    if u != [] {
      FilledReal(u[0], u[1..]);
      assert Alternating(u)[1..] == Filled(u[0], u[1..]);
    }
  }
}
