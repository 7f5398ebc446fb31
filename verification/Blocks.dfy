/** The stream block by block: the client sees what the accumulator reports, in the
    order in which it is reported, one block for each stretch of text or thinking, and
    a signature once one is known while thinking is shown.
 */
module Blocks {
  import opened Accumulator
  import opened Streaming
  import opened Transcript
  import Drivers
  import Limits
  import Records

  // ------------------------------------------------------ the blocks of a stream

  datatype Part =
    | TextPart(text: string)
    | ThinkingPart(thinking: string)
    | ToolPart(call: ToolCall)
    | RedactedPart(data: string)

  function Started(b: Block): Part
  {
    match b
    case TextBlock => TextPart("")
    case ThinkingBlock(_) => ThinkingPart("")
    case ToolBlock(id, name) => ToolPart(ToolCall(id, name, ""))
    case RedactedBlock(data) => RedactedPart(data)
  }

  function Filled(p: Part, d: Delta): Part
  {
    match (p, d)
    case (TextPart(t), TextDelta(s)) => TextPart(t + s)
    case (ThinkingPart(t), ThinkingDelta(s)) => ThinkingPart(t + s)
    case (ToolPart(c), InputJsonDelta(s)) => ToolPart(c.(input := c.input + s))
    case _ => p
  }

  function FillLast(parts: seq<Part>, d: Delta): seq<Part>
  {
    if parts == [] then [] else parts[..|parts| - 1] + [Filled(parts[|parts| - 1], d)]
  }

  function Grow(parts: seq<Part>, e: SseEvent): seq<Part>
  {
    match e
    case BlockStart(_, b) => parts + [Started(b)]
    case BlockDelta(_, d) => FillLast(parts, d)
    case _ => parts
  }

  /** The content of a stream, block by block. */
  function PartsOf(t: seq<SseEvent>): seq<Part>
  {
    if t == [] then [] else Grow(PartsOf(t[..|t| - 1]), t[|t| - 1])
  }

  function Parts(w: Writer): seq<Part>
  {
    PartsOf(Sent(w))
  }

  // -------------------------------------------------- what is reported, in order

  /** One more piece: it continues the last block if both are text or both thinking. */
  function Joined(parts: seq<Part>, p: Part): seq<Part>
  {
    if parts == [] then [p]
    else
      match (parts[|parts| - 1], p)
      case (TextPart(a), TextPart(b)) => parts[..|parts| - 1] + [TextPart(a + b)]
      case (ThinkingPart(a), ThinkingPart(b)) => parts[..|parts| - 1] + [ThinkingPart(a + b)]
      case _ => parts + [p]
  }

  function JoinedAll(parts: seq<Part>, pieces: seq<Part>): seq<Part>
    decreases |pieces|
  {
    if pieces == [] then parts else JoinedAll(Joined(parts, pieces[0]), pieces[1..])
  }

  function Thought(s: string): seq<Part>
  {
    if s == "" then [] else [ThinkingPart(s)]
  }

  function Spoken(s: string): seq<Part>
  {
    if s == "" then [] else [TextPart(s)]
  }

  /** What one event adds: thinking before text, a call, or redacted thinking. */
  function Pieces(d: EventDelta): seq<Part>
  {
    if d.redacted != "" then [RedactedPart(d.redacted)]
    else if d.tools != [] then [ToolPart(d.tools[0])]
    else Thought(d.thinking) + Spoken(d.text)
  }

  ghost function EndPieces(cfg: Config, a: Acc): seq<Part>
  {
    var (_, text, thinking) := Finalize(cfg, a);
    Thought(thinking) + Spoken(text)
  }

  /** Everything a run reports until it stops, and at its end. */
  ghost function Reported(cfg: Config, a: Acc, events: seq<Event>): seq<Part>
    decreases |events|
  {
    if events == [] then EndPieces(cfg, a)
    else
      var (a', d) := Step(cfg, a, events[0]);
      Pieces(d) + if a'.out.stop.local then EndPieces(cfg, a') else Reported(cfg, a', events[1..])
  }

  // ------------------------------------------------------------- writer actions

  function KindOfPart(p: Part): BlockType
  {
    match p
    case TextPart(_) => Text
    case ThinkingPart(_) => Thinking
    case ToolPart(_) => ToolUseBlock
    case RedactedPart(_) => Redacted
  }

  /** The open block is the last one; only redacted thinking is closed at once. */
  predicate Fits(w: Writer, parts: seq<Part>)
  {
    match w.active
    case NoBlock => parts == [] || parts[|parts| - 1].RedactedPart?
    case Open(k) => parts != [] && KindOfPart(parts[|parts| - 1]) == k
  }

  predicate Sound(w: Writer)
  {
    GateOk(w) && Fits(w, Parts(w))
  }

  lemma EmitParts(w: Writer, e: SseEvent)
    requires GateOk(w)
    ensures GateOk(Emit(w, e)) && Parts(Emit(w, e)) == Grow(Parts(w), e)
  {
    assert Sent(Emit(w, e)) == Sent(w) + [e];
    assert (Sent(w) + [e])[..|Sent(w)|] == Sent(w);
  }

  lemma EnsureStartedParts(w: Writer)
    requires GateOk(w)
    ensures var w' := EnsureStarted(w); GateOk(w') && Parts(w') == Parts(w) && w'.active == w.active
  {
    if !w.started {
      EmitParts(w.(started := true), MessageStart);
    }
  }

  lemma FireVisibleParts(w: Writer)
    requires GateOk(w)
    ensures var w' := FireVisible(w); GateOk(w') && Parts(w') == Parts(w) && w'.active == w.active
  {
    assert (w.gate.client + w.gate.buf) + [] == Sent(w);
  }

  lemma CloseBlockParts(w: Writer)
    requires GateOk(w)
    ensures var w' := CloseBlock(w); GateOk(w') && Parts(w') == Parts(w) && w'.active == NoBlock
  {
    if !w.active.NoBlock? {
      EmitParts(w, BlockStop(w.blockIndex));
    }
  }

  lemma NextBlockParts(w: Writer, b: Block)
    requires GateOk(w)
    ensures var w' := NextBlock(w, b); GateOk(w') && Parts(w') == Parts(w) + [Started(b)] && w'.active == Open(KindOf(b))
  {
    CloseBlockParts(w);
    var c := CloseBlock(w);
    EmitParts(c, BlockStart(c.blockIndex + 1, b));
  }

  lemma FilledLast(parts: seq<Part>, p: Part, d: Delta)
    ensures FillLast(parts + [p], d) == parts + [Filled(p, d)]
  {
    assert (parts + [p])[..|parts|] == parts;
  }

  /** Text or thinking joins the open block of its kind or opens one. */
  lemma PutDeltaParts(w: Writer, b: Block, d: Delta, p: Part)
    requires Sound(w) && (b.TextBlock? || b.ThinkingBlock?) && p == Filled(Started(b), d) && p != Started(b)
    requires if b.TextBlock? then d.TextDelta? else d.ThinkingDelta?
    ensures var w' := EmitDelta(SwitchBlock(w, b), d); Sound(w') && Parts(w') == Joined(Parts(w), p)
  {
    var v := SwitchBlock(w, b);
    if w.active != Open(KindOf(b)) {
      SwitchedParts(w, b);
      NewPart(w, Parts(w), p);
      FilledLast(Parts(w), Started(b), d);
    } else {
      LastOfKind(Parts(w), b, d, p);
    }
    EmitParts(v, BlockDelta(v.blockIndex, d));
  }

  lemma SwitchedParts(w: Writer, b: Block)
    requires GateOk(w) && w.active != Open(KindOf(b))
    ensures var v := SwitchBlock(w, b); GateOk(v) && Parts(v) == Parts(w) + [Started(b)] && v.active == Open(KindOf(b))
  {
    NextBlockParts(w, b);
  }

  /** A piece of another kind than the open block starts its own. */
  lemma NewPart(w: Writer, parts: seq<Part>, p: Part)
    requires Fits(w, parts) && w.active != Open(KindOfPart(p)) && !p.RedactedPart?
    ensures Joined(parts, p) == parts + [p]
  {
  }

  lemma LastOfKind(parts: seq<Part>, b: Block, d: Delta, p: Part)
    requires parts != [] && KindOfPart(parts[|parts| - 1]) == KindOf(b) && p == Filled(Started(b), d)
    requires (b.TextBlock? && d.TextDelta?) || (b.ThinkingBlock? && d.ThinkingDelta?)
    ensures FillLast(parts, d) == Joined(parts, p) && KindOfPart(Joined(parts, p)[|Joined(parts, p)| - 1]) == KindOf(b)
  {
    if b.TextBlock? {
      assert "" + d.text == d.text;
    } else {
      assert "" + d.thinking == d.thinking;
    }
  }

  lemma PutThinkingParts(w: Writer, s: string, signature: string)
    requires Sound(w)
    ensures var w' := PutThinking(w, s, signature); Sound(w') && Parts(w') == JoinedAll(Parts(w), Thought(s))
  {
    if s != "" {
      EnsureStartedParts(w);
      assert "" + s == s;
      PutDeltaParts(EnsureStarted(w), ThinkingBlock(signature), ThinkingDelta(s), ThinkingPart(s));
      assert [ThinkingPart(s)][1..] == [];
      assert JoinedAll(Joined(Parts(w), ThinkingPart(s)), []) == Joined(Parts(w), ThinkingPart(s));
    }
  }

  lemma PutTextParts(w: Writer, s: string)
    requires Sound(w)
    ensures var w' := PutText(w, s); Sound(w') && Parts(w') == JoinedAll(Parts(w), Spoken(s))
  {
    if s != "" {
      EnsureStartedParts(w);
      FireVisibleParts(EnsureStarted(w));
      assert "" + s == s;
      PutDeltaParts(FireVisible(EnsureStarted(w)), TextBlock, TextDelta(s), TextPart(s));
      assert [TextPart(s)][1..] == [];
      assert JoinedAll(Joined(Parts(w), TextPart(s)), []) == Joined(Parts(w), TextPart(s));
    }
  }

  lemma JoinedOne(parts: seq<Part>, p: Part)
    ensures JoinedAll(parts, [p]) == Joined(parts, p)
  {
    assert [p][1..] == [];
    assert JoinedAll(Joined(parts, p), []) == Joined(parts, p);
  }

  lemma PutSignatureParts(w: Writer, signature: string)
    requires Sound(w)
    ensures var w' := PutSignature(w, signature); Sound(w') && Parts(w') == Parts(w)
  {
    if signature != "" && !w.signatureSent {
      EnsureStartedParts(w);
      var s := EnsureStarted(w);
      if s.active == Open(Thinking) {
        EmitParts(s, BlockDelta(s.blockIndex, SignatureDelta(signature)));
        var parts := Parts(w);
        assert FillLast(parts, SignatureDelta(signature)) == parts;
      }
    }
  }

  lemma PutToolParts(w: Writer, call: ToolCall)
    requires Sound(w)
    ensures var w' := PutTool(w, call); Sound(w') && Parts(w') == JoinedAll(Parts(w), [ToolPart(call)])
  {
    EnsureStartedParts(w);
    FireVisibleParts(EnsureStarted(w));
    ToolBlockParts(FireVisible(EnsureStarted(w)), call);
    JoinedOne(Parts(w), ToolPart(call));
  }

  lemma ToolBlockParts(w: Writer, call: ToolCall)
    requires GateOk(w)
    ensures var w' := EmitDelta(NextBlock(w, ToolBlock(call.id, call.name)), InputJsonDelta(call.input));
            Sound(w') && Parts(w') == Parts(w) + [ToolPart(call)]
  {
    var b := ToolBlock(call.id, call.name);
    NextBlockParts(w, b);
    FilledLast(Parts(w), Started(b), InputJsonDelta(call.input));
    assert "" + call.input == call.input;
    EmitParts(NextBlock(w, b), BlockDelta(NextBlock(w, b).blockIndex, InputJsonDelta(call.input)));
  }

  lemma PutRedactedParts(w: Writer, data: string)
    requires Sound(w)
    ensures var w' := PutRedacted(w, data); Sound(w') && Parts(w') == JoinedAll(Parts(w), [RedactedPart(data)])
  {
    EnsureStartedParts(w);
    var b := RedactedBlock(data);
    NextBlockParts(EnsureStarted(w), b);
    CloseBlockParts(NextBlock(EnsureStarted(w), b));
    JoinedOne(Parts(w), RedactedPart(data));
  }

  lemma {:induction false} JoinedTwice(parts: seq<Part>, a: seq<Part>, b: seq<Part>)
    ensures JoinedAll(parts, a + b) == JoinedAll(JoinedAll(parts, a), b)
    decreases |a|
  {
    if a == [] {
      assert a + b == b;
    } else {
      assert (a + b)[1..] == a[1..] + b;
      JoinedTwice(Joined(parts, a[0]), a[1..], b);
    }
  }

  // ----------------------------------------------------------------- whole runs

  /** Each event's contribution is written as it is reported. */
  lemma PutParts(cfg: Config, s: Sse, e: Event)
    requires Sound(s.w) && !IsErrorEvent(e)
    ensures var (a, d) := Step(cfg, s.acc, e);
            var w := Put(s.w, e, d, a.signature).0;
            Sound(w) && Parts(w) == JoinedAll(Parts(s.w), Pieces(d))
  {
    var (a, d) := Step(cfg, s.acc, e);
    StepReportsTools(cfg, s.acc, e);
    OnlyReasoningIsRedacted(cfg, s.acc, e);
    match e {
      case AssistantResponse(_) =>
        PutThinkingParts(s.w, d.thinking, a.signature);
        PutTextParts(PutThinking(s.w, d.thinking, a.signature), d.text);
        JoinedTwice(Parts(s.w), Thought(d.thinking), Spoken(d.text));
      case ReasoningContent(_, _, _) => ReasoningParts(s.w, e, d, a.signature);
      case ToolUse(_, _, _, _) => ToolParts(s.w, e, d, a.signature);
      case _ =>
    }
  }

  lemma OnlyReasoningIsRedacted(cfg: Config, a: Acc, e: Event)
    ensures var d := Step(cfg, a, e).1;
            (d.redacted != "" ==> e.ReasoningContent?) && (d.tools != [] ==> e.ToolUse?) &&
            (e.Metadata? || e.Metering? || e.MessageMetadata? || e.ContextUsage? || e.Ignored? ==> d == NOTHING)
  {
  }

  lemma ReasoningParts(w: Writer, e: Event, d: EventDelta, signature: string)
    requires Sound(w) && e.ReasoningContent? && d.text == "" && d.tools == [] && (d.redacted != "" ==> d.thinking == "")
    ensures var w' := Put(w, e, d, signature).0; Sound(w') && Parts(w') == JoinedAll(Parts(w), Pieces(d))
  {
    if d.redacted != "" {
      PutRedactedParts(w, d.redacted);
    } else {
      PutThinkingParts(w, d.thinking, signature);
      PutSignatureParts(PutThinking(w, d.thinking, signature), d.signature);
      assert Thought(d.thinking) + Spoken("") == Thought(d.thinking);
    }
  }

  lemma ToolParts(w: Writer, e: Event, d: EventDelta, signature: string)
    requires Sound(w) && e.ToolUse? && d.text == "" && d.redacted == "" && (d.tools != [] ==> d.thinking == "")
    ensures var w' := Put(w, e, d, signature).0; Sound(w') && Parts(w') == JoinedAll(Parts(w), Pieces(d))
  {
    if d.tools != [] {
      PutToolParts(w, d.tools[0]);
    } else {
      PutThinkingParts(w, d.thinking, signature);
      assert Thought(d.thinking) + Spoken("") == Thought(d.thinking);
    }
  }

  lemma FinishParts(cfg: Config, s: Sse)
    requires Sound(s.w)
    ensures Parts(Finished(cfg, s).w) == JoinedAll(Parts(s.w), EndPieces(cfg, s.acc))
  {
    var (a, text, thinking) := Finalize(cfg, s.acc);
    var end := Resolved(a.out.stop, a.tools.hasToolUse);
    var w1 := EnsureStarted(s.w);
    EnsureStartedParts(s.w);
    PutThinkingParts(w1, thinking, a.signature);
    var w2 := PutThinking(w1, thinking, a.signature);
    PutTextParts(w2, text);
    JoinedTwice(Parts(s.w), Thought(thinking), Spoken(text));
    ClosingParts(PutText(w2, text), end);
  }

  lemma ClosingParts(w: Writer, end: (StopReason, string))
    requires GateOk(w)
    ensures Parts(Emit(Emit(CloseBlock(w), MessageDelta(end.0, end.1)), MessageStop)) == Parts(w)
  {
    CloseBlockParts(w);
    EmitParts(CloseBlock(w), MessageDelta(end.0, end.1));
    EmitParts(Emit(CloseBlock(w), MessageDelta(end.0, end.1)), MessageStop);
  }

  lemma {:induction false} RunParts(cfg: Config, s: Sse, events: seq<Event>)
    requires Sound(s.w) && Limits.Kept(cfg, s.acc) && !s.acc.out.stop.local && Drivers.NoErrors(events)
    ensures Parts(Streamed(cfg, s, events).0.w) == JoinedAll(Parts(s.w), Reported(cfg, s.acc, events))
    decreases |events|
  {
    if events == [] {
      FinishParts(cfg, s);
    } else {
      var e, rest := events[0], events[1..];
      assert e in events;
      var (a, d) := Step(cfg, s.acc, e);
      var (w, next) := Put(s.w, e, d, a.signature);
      PutParts(cfg, s, e);
      Limits.StopIsSignalled(cfg, s, e);
      Limits.StepKeeps(cfg, s.acc, e);
      Drivers.PutNext(s.w, e, d, a.signature);
      if a.out.stop.local {
        FinishParts(cfg, Sse(a, w));
        JoinedTwice(Parts(s.w), Pieces(d), EndPieces(cfg, a));
      } else {
        RunParts(cfg, Sse(a, w), rest);
        JoinedTwice(Parts(s.w), Pieces(d), Reported(cfg, a, rest));
      }
    }
  }

  /** A completed call of the tool that is reported and not recorded. */
  predicate Dropped(cfg: Config, e: Event)
  {
    e.ToolUse? && e.stop && cfg.dropTool != "" && e.name == cfg.dropTool && Records.Restored(cfg, e.name) != THINKING_TOOL
  }

  /** What an event reports, beside text and thinking: redacted thinking always, a
      signature when it is a new one, and the tool call it makes. */
  lemma ReportsExactly(cfg: Config, a: Acc, e: Event)
    ensures var d := Step(cfg, a, e).1;
            d.redacted == (if e.ReasoningContent? then e.redacted else "") &&
            d.signature == (if e.ReasoningContent? && e.signature != a.signature then e.signature else "") &&
            (a.out.stop.local ==> d.tools == []) &&
            (!a.out.stop.local ==> d.tools == if Dropped(cfg, e) then [ToolCall(e.id, Records.Restored(cfg, e.name), e.input)]
                                              else Records.CallOf(cfg, e))
  {
  }

  /** Every run without errors: the blocks of the stream are exactly what was reported,
      in order, neighbouring pieces of text and of thinking joined. */
  lemma StreamIsReport(cfg: Config, events: seq<Event>)
    requires Drivers.NoErrors(events)
    ensures Parts(Streamed(cfg, Sse(FRESH, NewWriter([])), events).0.w) == JoinedAll([], Reported(cfg, FRESH, events))
  {
    var s0 := Sse(FRESH, NewWriter([]));
    assert Sent(s0.w) == [];
    RunParts(cfg, s0, events);
  }
}
