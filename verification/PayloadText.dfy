/** What the payload says: the text of every block, message and system prompt, and
    where it stands.
 */
module PayloadText {
  import T = Text
  import opened Normalizer
  import opened Payload

  // --------------------------------------------------------------- one message

  /** Where the `i`-th part stands in the joined text. */
  function Offset(parts: seq<string>, sep: string, i: nat): nat
    requires i < |parts|
  {
    if i == 0 then 0 else |parts[0]| + |sep| + Offset(parts[1..], sep, i - 1)
  }

  lemma OccursBehind(a: string, b: string, t: string, k: nat)
    requires T.OccursAt(b, t, k)
    ensures T.OccursAt(a + b, t, |a| + k)
  {
    assert (a + b)[|a| + k..|a| + k + |t|] == b[k..k + |t|];
  }

  /** Joining puts each part at its place, a separator behind all but the last, and
      nothing else. */
  lemma {:induction false} JoinAt(parts: seq<string>, sep: string, i: nat)
    requires i < |parts|
    ensures var s, k := Join(parts, sep), Offset(parts, sep, i);
            T.OccursAt(s, parts[i], k) &&
            if i + 1 < |parts| then T.OccursAt(s, sep, k + |parts[i]|) else |s| == k + |parts[i]|
  {
    var s, first := Join(parts, sep), parts[0];
    if |parts| == 1 {
      assert s[0..|first|] == first;
    } else {
      var rest := Join(parts[1..], sep);
      assert s == (first + sep) + rest;
      if i == 0 {
        assert s[0..|first|] == first && s[|first|..|first| + |sep|] == sep;
      } else {
        JoinAt(parts[1..], sep, i - 1);
        JoinRestAt(first + sep, rest, parts, sep, i);
      }
    }
  }

  lemma JoinRestAt(front: string, rest: string, parts: seq<string>, sep: string, i: nat)
    requires 0 < i < |parts| && front == parts[0] + sep
    requires var k := Offset(parts[1..], sep, i - 1);
             T.OccursAt(rest, parts[i], k) &&
             if i + 1 < |parts| then T.OccursAt(rest, sep, k + |parts[i]|) else |rest| == k + |parts[i]|
    ensures var s, k := front + rest, Offset(parts, sep, i);
            T.OccursAt(s, parts[i], k) &&
            if i + 1 < |parts| then T.OccursAt(s, sep, k + |parts[i]|) else |s| == k + |parts[i]|
  {
    var k := Offset(parts[1..], sep, i - 1);
    OccursBehind(front, rest, parts[i], k);
    if i + 1 < |parts| {
      OccursBehind(front, rest, sep, k + |parts[i]|);
    }
  }

  /** Block by block, in order: a text block is shown as it is, tool blocks and hidden
      ones are not shown, any other by its kind and caption. */
  lemma {:induction false} ShownInOrder(a: seq<Block>, b: seq<Block>)
    ensures AllShown(a + b) == AllShown(a) + AllShown(b)
    ensures forall t :: AllShown([TextBlock(t)]) == [t]
    ensures forall x: Block | x.ToolUse? || x.ToolResult? || (x.Other? && Hidden(x.kind)) :: AllShown([x]) == []
  {
    forall x ensures AllShown([x]) == Shown(x) {
      ShownFirst(x, []);
    }
    if a == [] {
      assert a + b == b;
    } else {
      ShownInOrder(a[1..], b);
      ShownFirst(a[0], a[1..]);
      ShownFirst(a[0], a[1..] + b);
      ThreeParts([a[0]], a[1..], b);
      assert [a[0]] + a[1..] == a;
      ThreeParts(Shown(a[0]), AllShown(a[1..]), AllShown(b));
    }
  }

  lemma ShownFirst(x: Block, rest: seq<Block>)
    ensures AllShown([x]) == Shown(x)
    ensures AllShown([x] + rest) == Shown(x) + AllShown(rest)
  {
    assert [x][1..] == [];
    assert ([x] + rest)[1..] == rest;
  }

  /** The text of a message holds, in order and a space apart, what its blocks show. */
  lemma TextHoldsBlocks(c: Content, i: nat)
    ensures c.Text? ==> ExtractText(c) == c.text
    ensures c.Blocks? && AllShown(c.blocks) == [] ==> ExtractText(c) == ""
    ensures c.Blocks? && i < |AllShown(c.blocks)| ==>
              var parts, s := AllShown(c.blocks), ExtractText(c);
              var k := Offset(parts, " ", i);
              T.OccursAt(s, parts[i], k) &&
              if i + 1 < |parts| then T.OccursAt(s, " ", k + |parts[i]|) else |s| == k + |parts[i]|
  {
    if c.Blocks? && i < |AllShown(c.blocks)| {
      JoinAt(AllShown(c.blocks), " ", i);
    }
  }

  /** A tool block turned into text still says what it said: the text names the id,
      and the tool, and ends with the input or the result. */
  lemma TextualizedSays(b: Block)
    ensures b.TextBlock? || b.Other? ==> Textualized(b) == b
    ensures b.ToolUse? || b.ToolResult? ==> Textualized(b).TextBlock?
    ensures b.ToolUse? ==>
              var t := Textualized(b).text;
              |b.input| <= |t| && t[|t| - |b.input|..] == b.input && (exists i :: T.OccursAt(t, b.id, i)) &&
              exists i :: T.OccursAt(t, b.name, i)
    ensures b.ToolResult? ==>
              var t := Textualized(b).text;
              |b.text| <= |t| && t[|t| - |b.text|..] == b.text && exists i :: T.OccursAt(t, b.toolUseId, i)
  {
    match b {
      case ToolUse(id, name, input) =>
        Quoted("[Tool: ", name, " (" + id + ")]\n" + input);
        Quoted("[Tool: " + name + " (", id, ")]\n" + input);
        UseTextParts(id, name, input);
      case ToolResult(id, text, _) =>
        Quoted("[Tool Result (", id, ")]\n" + text);
        ResultTextParts(id, text);
      case _ =>
    }
  }

  lemma Quoted(a: string, b: string, c: string)
    ensures T.OccursAt(a + (b + c), b, |a|)
  {
    assert (a + (b + c))[|a|..|a| + |b|] == b;
  }

  lemma UseTextParts(id: string, name: string, input: string)
    ensures var t := "[Tool: " + name + " (" + id + ")]\n" + input;
            t == "[Tool: " + (name + (" (" + id + ")]\n" + input)) && t == ("[Tool: " + name + " (") + (id + (")]\n" + input)) &&
            t[|t| - |input|..] == input
  {
  }

  lemma ResultTextParts(id: string, text: string)
    ensures var t := "[Tool Result (" + id + ")]\n" + text;
            t == "[Tool Result (" + (id + (")]\n" + text)) && t[|t| - |text|..] == text
  {
  }

  // --------------------------------------------------------------- the payload

  /** What a message says in its entry. */
  function Said(m: Message, h: Helpers): string
  {
    if m.role == USER then h.clean(ExtractText(m.content)) else ExtractText(m.content)
  }

  /** Splitting loses no message: the last one is set apart unless the assistant spoke
      last, and then the user is made to go on. */
  lemma SplitKeeps(msgs: seq<Message>)
    requires msgs != []
    ensures var (past, last) := Split(msgs);
            if msgs[|msgs| - 1].role == ASSISTANT then past == msgs && last == Message(USER, Text(CONTINUE))
            else msgs == past + [last]
  {
  }

  /** The history of messages of the two roles says what they say, one by one. */
  lemma HistorySays(msgs: seq<Message>, h: Helpers)
    requires StandardRoles(msgs)
    ensures |Entries(NOBODY, msgs, h)| == |msgs|
    ensures forall i | 0 <= i < |msgs| :: Entries(NOBODY, msgs, h)[i].content == Said(msgs[i], h)
  {
    EntryPerMessage(NOBODY, msgs, h);
    forall i | 0 <= i < |msgs| ensures Entries(NOBODY, msgs, h)[i].content == Said(msgs[i], h) {
      assert EntryFor(Before(NOBODY, msgs, i), msgs[i], h) == [Entries(NOBODY, msgs, h)[i]];
    }
  }

  /** The messages' own entries end the history, behind the system prompt if it is
      placed there. */
  ghost predicate HistorySaid(q: Request, past: seq<Message>, h: Helpers, history: seq<Entry>)
  {
    var k := |history| - |past|;
    k >= 0 && (forall i | 0 <= i < |past| :: history[k + i].content == Said(past[i], h)) &&
    (k > 0 <==> q.system != "" && (q.mode.Default? || q.mode.WithoutAck?)) &&
    (k > 0 ==> history[0] == UserEntry(q.system, []))
  }

  lemma PastSays(q: Request, past: seq<Message>, h: Helpers)
    requires StandardRoles(past)
    ensures HistorySaid(q, past, h, Placed(q.system, q.mode, Entries(NOBODY, past, h)))
  {
    HistorySays(past, h);
    PlacedSays(q.system, q.mode, Entries(NOBODY, past, h));
    SaidBehind(past, h, Entries(NOBODY, past, h), Placed(q.system, q.mode, Entries(NOBODY, past, h)));
  }

  lemma SaidBehind(past: seq<Message>, h: Helpers, es: seq<Entry>, p: seq<Entry>)
    requires |es| == |past| <= |p| && p[|p| - |past|..] == es
    requires forall i | 0 <= i < |past| :: es[i].content == Said(past[i], h)
    ensures forall i | 0 <= i < |past| :: p[|p| - |past| + i].content == Said(past[i], h)
  {
    forall i | 0 <= i < |past| ensures p[|p| - |past| + i] == es[i] {
      assert p[|p| - |past|..][i] == es[i];
    }
  }

  /** Every payload: the normalised messages' own entries end the history; the last
      message, or a request to continue, is the current one; and the system prompt
      stands first, or before the current text, or nowhere, as the mode says. */
  lemma PayloadSays(q: Request, h: Helpers)
    ensures var p := Payloaded(q, h);
            var (past, last) := Split(Normalized(q.msgs, q.hasTools));
            HistorySaid(q, past, h, p.history) && SaysNow(q, h.clean(ExtractText(last.content)), p.current)
  {
    var msgs := Normalized(q.msgs, q.hasTools);
    NormalizedAlternates(q.msgs, q.hasTools);
    SplitShape(msgs);
    var (past, last) := Split(msgs);
    PastSays(q, past, h);
    CurrentSays(q, past, last.content, h.clean(ExtractText(last.content)));
  }

  lemma PlacedSays(system: string, mode: SystemMode, history: seq<Entry>)
    ensures var p := Placed(system, mode, history);
            var k := |p| - |history|;
            k >= 0 && p[k..] == history && (k > 0 <==> system != "" && (mode.Default? || mode.WithoutAck?)) &&
            (k > 0 ==> p[0] == UserEntry(system, []))
  {
  }

  /** The current message ends with its text, behind the system prompt if it is
      placed there, and is never silent. */
  ghost predicate SaysNow(q: Request, text: string, current: Entry)
  {
    var c := current.content;
    current.UserEntry? && |text| <= |c| && (text != "" ==> c[|c| - |text|..] == text) &&
    (q.system != "" && q.mode.InCurrent? ==> exists i :: T.OccursAt(c, q.system, i)) &&
    (q.system == "" || !q.mode.InCurrent? ==> c == text || (text == "" && c == CONTINUE)) &&
    (c == "" ==> current.results != [])
  }

  lemma CurrentSays(q: Request, past: seq<Message>, c: Content, text: string)
    ensures SaysNow(q, text, CurrentFrom(past, c, CurrentText(q.system, q.mode, text)))
  {
    if q.system != "" && q.mode.InCurrent? {
      SystemSays(q.system, text);
      Quoted("<system_context>\n", q.system, "\n</system_context>");
      Quoted("<system_context>\n", q.system, "\n</system_context>\n\n" + text);
    } else {
      assert text[0..] == text;
    }
  }

  lemma SystemSays(system: string, text: string)
    ensures var t := "<system_context>\n" + system + "\n</system_context>\n\n" + text;
            t == "<system_context>\n" + (system + ("\n</system_context>\n\n" + text)) && t[|t| - |text|..] == text
    ensures "<system_context>\n" + system + "\n</system_context>" == "<system_context>\n" + (system + "\n</system_context>")
  {
  }
}
