/** When the client of a stream gets a signature for the thinking it is shown. */
module Signatures {
  import opened Accumulator
  import opened Streaming
  import opened Transcript
  import opened Blocks
  import Drivers
  import Limits

  // -------------------------------------------------- the signatures of a stream

  function Noted(seen: seq<string>, e: SseEvent): seq<string>
  {
    match e
    case BlockStart(_, b) => if b.ThinkingBlock? && b.signature != "" then seen + [b.signature] else seen
    case BlockDelta(_, d) => if d.SignatureDelta? then seen + [d.signature] else seen
    case _ => seen
  }

  function SignaturesOf(t: seq<SseEvent>): seq<string>
  {
    if t == [] then [] else Noted(SignaturesOf(t[..|t| - 1]), t[|t| - 1])
  }

  function Seen(w: Writer): seq<string>
  {
    SignaturesOf(Sent(w))
  }

  // ----------------------------------------------------------- writer actions

  /** The writer knows whether it has sent a signature. */
  predicate Aware(w: Writer)
  {
    Sound(w) && (w.signatureSent <==> Seen(w) != [])
  }

  /** No signature but the given ones, and no more than before unless `more`. */
  predicate Adds(w: Writer, w': Writer, more: bool, signature: string)
  {
    Aware(w') && (w'.signatureSent <==> w.signatureSent || more) && forall x | x in Seen(w') :: x in Seen(w) || (x == signature && x != "")
  }

  lemma EmitSeen(w: Writer, e: SseEvent)
    requires GateOk(w)
    ensures Seen(Emit(w, e)) == Noted(Seen(w), e)
  {
    assert Sent(Emit(w, e)) == Sent(w) + [e];
    assert (Sent(w) + [e])[..|Sent(w)|] == Sent(w);
  }

  lemma EnsureStartedSeen(w: Writer)
    requires GateOk(w)
    ensures var w' := EnsureStarted(w); GateOk(w') && Seen(w') == Seen(w) && w'.signatureSent == w.signatureSent
  {
    EnsureStartedParts(w);
    if !w.started {
      EmitSeen(w.(started := true), MessageStart);
    }
  }

  lemma FireVisibleSeen(w: Writer)
    requires GateOk(w)
    ensures var w' := FireVisible(w); GateOk(w') && Seen(w') == Seen(w) && w'.signatureSent == w.signatureSent
  {
    FireVisibleParts(w);
    assert (w.gate.client + w.gate.buf) + [] == Sent(w);
  }

  lemma CloseBlockSeen(w: Writer)
    requires GateOk(w)
    ensures var w' := CloseBlock(w); GateOk(w') && Seen(w') == Seen(w) && w'.signatureSent == w.signatureSent
  {
    CloseBlockParts(w);
    if !w.active.NoBlock? {
      EmitSeen(w, BlockStop(w.blockIndex));
    }
  }

  lemma NextBlockSeen(w: Writer, b: Block)
    requires GateOk(w)
    ensures var w' := NextBlock(w, b);
            GateOk(w') && w'.signatureSent == w.signatureSent &&
            Seen(w') == if b.ThinkingBlock? && b.signature != "" then Seen(w) + [b.signature] else Seen(w)
  {
    var c := CloseBlock(w);
    CloseBlockSeen(w);
    NextBlockParts(w, b);
    EmitSeen(c, BlockStart(c.blockIndex + 1, b));
    SameSent(Emit(c, BlockStart(c.blockIndex + 1, b)), NextBlock(w, b));
  }

  lemma SameSent(w: Writer, v: Writer)
    requires w.gate == v.gate
    ensures Seen(w) == Seen(v) && Parts(w) == Parts(v)
  {
  }

  /** Opening a block of thinking shows the signature if there is one. */
  lemma SwitchSeen(w: Writer, signature: string)
    requires GateOk(w) && (w.signatureSent <==> Seen(w) != [])
    ensures var v := SwitchBlock(w, ThinkingBlock(signature));
            var more := signature != "" && w.active != Open(Thinking);
            GateOk(v) && (v.signatureSent <==> Seen(v) != []) && (v.signatureSent <==> w.signatureSent || more) &&
            forall x | x in Seen(v) :: x in Seen(w) || (x == signature && x != "")
  {
    if w.active != Open(Thinking) {
      var b := ThinkingBlock(signature);
      NextBlockSeen(w, b);
      SameSent(NextBlock(w, b), SwitchBlock(w, b));
    }
  }

  lemma PutThinkingSeen(w: Writer, s: string, signature: string)
    requires Aware(w)
    ensures Adds(w, PutThinking(w, s, signature), s != "" && signature != "" && w.active != Open(Thinking), signature)
  {
    PutThinkingParts(w, s, signature);
    if s != "" {
      EnsureStartedSeen(w);
      EnsureStartedParts(w);
      SwitchSeen(EnsureStarted(w), signature);
      var u := SwitchBlock(EnsureStarted(w), ThinkingBlock(signature));
      EmitSeen(u, BlockDelta(u.blockIndex, ThinkingDelta(s)));
    }
  }

  lemma PutTextSeen(w: Writer, s: string)
    requires Aware(w)
    ensures Adds(w, PutText(w, s), false, "")
  {
    PutTextParts(w, s);
    if s != "" {
      EnsureStartedSeen(w);
      FireVisibleSeen(EnsureStarted(w));
      var v := FireVisible(EnsureStarted(w));
      NextBlockSeen(v, TextBlock);
      NextBlockParts(v, TextBlock);
      var u := SwitchBlock(v, TextBlock);
      EmitSeen(u, BlockDelta(u.blockIndex, TextDelta(s)));
    }
  }

  lemma PutSignatureSeen(w: Writer, signature: string)
    requires Aware(w)
    ensures Adds(w, PutSignature(w, signature), signature != "" && w.active == Open(Thinking), signature)
  {
    PutSignatureParts(w, signature);
    if signature != "" && !w.signatureSent {
      EnsureStartedSeen(w);
      EnsureStartedParts(w);
      var v := EnsureStarted(w);
      EmitSeen(v, BlockDelta(v.blockIndex, SignatureDelta(signature)));
    }
  }

  lemma PutToolSeen(w: Writer, call: ToolCall)
    requires Aware(w)
    ensures Adds(w, PutTool(w, call), false, "")
  {
    PutToolParts(w, call);
    EnsureStartedSeen(w);
    FireVisibleSeen(EnsureStarted(w));
    var v, b := FireVisible(EnsureStarted(w)), ToolBlock(call.id, call.name);
    NextBlockSeen(v, b);
    EmitSeen(NextBlock(v, b), BlockDelta(NextBlock(v, b).blockIndex, InputJsonDelta(call.input)));
  }

  lemma PutRedactedSeen(w: Writer, data: string)
    requires Aware(w)
    ensures Adds(w, PutRedacted(w, data), false, "")
  {
    PutRedactedParts(w, data);
    EnsureStartedSeen(w);
    NextBlockSeen(EnsureStarted(w), RedactedBlock(data));
    CloseBlockSeen(NextBlock(EnsureStarted(w), RedactedBlock(data)));
  }

  // ------------------------------------------------------------- one event

  /** The last block shown is thinking. */
  predicate EndsThinking(parts: seq<Part>)
  {
    parts != [] && parts[|parts| - 1].ThinkingPart?
  }

  /** The event calls for a signature: it shows thinking and one is known, or it brings
      one, in plain words, while thinking is the last block shown. */
  predicate Signs(parts: seq<Part>, known: string, d: EventDelta)
  {
    (known != "" && d.thinking != "") || (d.signature != "" && d.redacted == "" && EndsThinking(parts))
  }

  /** Whoever is shown thinking has the signature if it was known. */
  predicate Caught(w: Writer, known: string)
  {
    Aware(w) && (w.active == Open(Thinking) && known != "" ==> w.signatureSent)
  }

  lemma PutSigns(cfg: Config, s: Sse, e: Event)
    requires Caught(s.w, s.acc.signature) && !IsErrorEvent(e)
    ensures var (a, d) := Step(cfg, s.acc, e);
            var w := Put(s.w, e, d, a.signature).0;
            Caught(w, a.signature) && (w.signatureSent <==> s.w.signatureSent || Signs(Parts(s.w), a.signature, d)) &&
            forall x | x in Seen(w) :: x in Seen(s.w) || (x == a.signature && x != "")
  {
    var (a, d) := Step(cfg, s.acc, e);
    StepReportsTools(cfg, s.acc, e);
    OnlyReasoningIsRedacted(cfg, s.acc, e);
    ReportsExactly(cfg, s.acc, e);
    match e {
      case AssistantResponse(_) => ResponseSigns(s.w, d, a.signature);
      case ReasoningContent(_, _, _) => ReasoningSigns(s.w, e, d, s.acc.signature, a.signature);
      case ToolUse(_, _, _, _) => ToolSigns(s.w, e, d, a.signature);
      case _ =>
    }
  }

  lemma ResponseSigns(w: Writer, d: EventDelta, known: string)
    requires Caught(w, known) && d.signature == ""
    ensures var w' := PutText(PutThinking(w, d.thinking, known), d.text);
            Caught(w', known) && (w'.signatureSent <==> w.signatureSent || Signs(Parts(w), known, d)) &&
            forall x | x in Seen(w') :: x in Seen(w) || (x == known && x != "")
  {
    var v := PutThinking(w, d.thinking, known);
    PutThinkingSeen(w, d.thinking, known);
    PutTextSeen(v, d.text);
    TextIsNotThinking(v, d.text);
  }

  /** Text leaves no thinking open. */
  lemma TextIsNotThinking(w: Writer, s: string)
    ensures PutText(w, s).active == if s == "" then w.active else Open(Text)
  {
  }

  lemma ReasoningSigns(w: Writer, e: Event, d: EventDelta, before: string, known: string)
    requires Caught(w, before) && e.ReasoningContent? && d.text == "" && (d.redacted != "" ==> d.thinking == "")
    requires if d.signature != "" then known == d.signature else known == before
    ensures var w' := Put(w, e, d, known).0;
            Caught(w', known) && (w'.signatureSent <==> w.signatureSent || Signs(Parts(w), known, d)) &&
            forall x | x in Seen(w') :: x in Seen(w) || (x == known && x != "")
  {
    if d.redacted != "" {
      PutRedactedSeen(w, d.redacted);
    } else {
      var v := PutThinking(w, d.thinking, known);
      PutThinkingSeen(w, d.thinking, known);
      PutSignatureSeen(v, d.signature);
      ThinkingIsOpen(w, d.thinking, known);
    }
  }

  lemma ThinkingIsOpen(w: Writer, s: string, signature: string)
    ensures PutThinking(w, s, signature).active == if s == "" then w.active else Open(Thinking)
  {
  }

  lemma ToolSigns(w: Writer, e: Event, d: EventDelta, known: string)
    requires Caught(w, known) && e.ToolUse? && d.signature == "" && (d.tools != [] ==> d.thinking == "")
    ensures var w' := Put(w, e, d, known).0;
            Caught(w', known) && (w'.signatureSent <==> w.signatureSent || Signs(Parts(w), known, d)) &&
            forall x | x in Seen(w') :: x in Seen(w) || (x == known && x != "")
  {
    if d.tools != [] {
      PutToolSeen(w, d.tools[0]);
    } else {
      PutThinkingSeen(w, d.thinking, known);
      ThinkingIsOpen(w, d.thinking, known);
    }
  }

  // ------------------------------------------------------------- whole runs

  /** Finalisation shows thinking and a signature is known. */
  ghost predicate SignsAtEnd(cfg: Config, a: Acc)
  {
    a.signature != "" && Finalize(cfg, a).2 != ""
  }

  /** Some event of the run, or its end, calls for a signature. */
  ghost predicate Signed(cfg: Config, a: Acc, parts: seq<Part>, events: seq<Event>)
    decreases |events|
  {
    if events == [] then SignsAtEnd(cfg, a)
    else
      var (a', d) := Step(cfg, a, events[0]);
      Signs(parts, a'.signature, d) ||
      if a'.out.stop.local then SignsAtEnd(cfg, a') else Signed(cfg, a', JoinedAll(parts, Pieces(d)), events[1..])
  }

  predicate Brings(e: Event, x: string)
  {
    e.ReasoningContent? && e.signature == x && x != ""
  }

  lemma FinishSigns(cfg: Config, s: Sse)
    requires Caught(s.w, s.acc.signature)
    ensures var w := Finished(cfg, s).w;
            (Seen(w) != [] <==> s.w.signatureSent || SignsAtEnd(cfg, s.acc)) &&
            forall x | x in Seen(w) :: x in Seen(s.w) || (x == s.acc.signature && x != "")
  {
    var (a, text, thinking) := Finalize(cfg, s.acc);
    var end := Resolved(a.out.stop, a.tools.hasToolUse);
    var w1 := EnsureStarted(s.w);
    EnsureStartedSeen(s.w);
    EnsureStartedParts(s.w);
    PutThinkingSeen(w1, thinking, a.signature);
    var w2 := PutThinking(w1, thinking, a.signature);
    PutTextSeen(w2, text);
    ClosingSeen(PutText(w2, text), end);
  }

  lemma ClosingSeen(w: Writer, end: (StopReason, string))
    requires GateOk(w)
    ensures Seen(Emit(Emit(CloseBlock(w), MessageDelta(end.0, end.1)), MessageStop)) == Seen(w)
  {
    CloseBlockSeen(w);
    EmitParts(CloseBlock(w), MessageDelta(end.0, end.1));
    EmitSeen(CloseBlock(w), MessageDelta(end.0, end.1));
    EmitSeen(Emit(CloseBlock(w), MessageDelta(end.0, end.1)), MessageStop);
  }

  /** A signature shown was seen before, was known, or is brought by an event. */
  predicate Sourced(x: string, s: Sse, events: seq<Event>)
  {
    x in Seen(s.w) || (x == s.acc.signature && x != "") || exists e :: e in events && Brings(e, x)
  }

  lemma SignatureSource(cfg: Config, a: Acc, e: Event)
    ensures var known := Step(cfg, a, e).0.signature; known == a.signature || Brings(e, known)
  {
  }

  lemma {:induction false} RunSigns(cfg: Config, s: Sse, events: seq<Event>)
    requires Caught(s.w, s.acc.signature) && Limits.Kept(cfg, s.acc) && !s.acc.out.stop.local && Drivers.NoErrors(events)
    ensures var w := Streamed(cfg, s, events).0.w;
            (Seen(w) != [] <==> s.w.signatureSent || Signed(cfg, s.acc, Parts(s.w), events)) &&
            forall x | x in Seen(w) :: Sourced(x, s, events)
    decreases |events|
  {
    if events == [] {
      FinishSigns(cfg, s);
    } else {
      var e, rest := events[0], events[1..];
      assert e in events;
      var (a, d) := Step(cfg, s.acc, e);
      var w := Put(s.w, e, d, a.signature).0;
      PutSigns(cfg, s, e);
      PutParts(cfg, s, e);
      Limits.StopIsSignalled(cfg, s, e);
      Limits.StepKeeps(cfg, s.acc, e);
      Drivers.PutNext(s.w, e, d, a.signature);
      SignatureSource(cfg, s.acc, e);
      if a.out.stop.local {
        FinishSigns(cfg, Sse(a, w));
      } else {
        RunSigns(cfg, Sse(a, w), rest);
        forall x | x in Seen(Streamed(cfg, s, events).0.w) ensures Sourced(x, s, events) {
          assert Sourced(x, Sse(a, w), rest);
          assert forall f | f in rest :: f in events;
        }
      }
    }
  }

  /** Every run without errors: the client gets a signature exactly when thinking was
      shown with one known, or one arrived while thinking was the last block shown;
      and only signatures that upstream sent. */
  lemma SignedExactly(cfg: Config, events: seq<Event>)
    requires Drivers.NoErrors(events)
    ensures var seen := Seen(Streamed(cfg, Sse(FRESH, NewWriter([])), events).0.w);
            (seen != [] <==> Signed(cfg, FRESH, [], events)) &&
            forall x | x in seen :: exists e :: e in events && Brings(e, x)
  {
    var s0 := Sse(FRESH, NewWriter([]));
    assert Sent(s0.w) == [];
    RunSigns(cfg, s0, events);
    forall x | x in Seen(Streamed(cfg, s0, events).0.w) ensures exists e :: e in events && Brings(e, x) {
      assert Sourced(x, s0, events);
    }
  }
}
