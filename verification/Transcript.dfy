/** Whole streaming runs: the transcript is always well formed, and a client
    that reads it ends up with exactly what the accumulator has recorded.
 */
module Transcript {
  import opened Accumulator
  import opened Streaming
  import ChunkDelta

  // ------------------------------------------------------ one writer action

  predicate GateOk(w: Writer)
  {
    (w.gate.promoted ==> w.gate.buf == []) && w.visible == w.gate.promoted
  }

  /** The client's phase is the one the writer believes it is in. */
  predicate InPhase(w: Writer, p: Phase)
  {
    if !w.started then p == Waiting && w.active.NoBlock? && w.blockIndex == -1
    else
      w.blockIndex >= -1 &&
      match w.active
      case NoBlock => p == Between(w.blockIndex + 1)
      case Open(k) => p.InBlock? && p.index == w.blockIndex && KindOf(p.block) == k
  }

  /** What the client has read of the transcript so far. */
  function Reading(w: Writer): Client
  {
    Read(Sent(w))
  }

  predicate Ok(w: Writer)
  {
    GateOk(w) && InPhase(w, Reading(w).phase)
  }

  predicate SameContent(c: Client, c': Client)
  {
    c'.text == c.text && c'.thinking == c.thinking && c'.calls == c.calls && c'.ending == c.ending
  }

  lemma ReadSnoc(t: seq<SseEvent>, e: SseEvent)
    ensures Read(t + [e]) == Absorb(Read(t), e)
  {
    assert (t + [e])[..|t|] == t;
  }

  lemma EmitRead(w: Writer, e: SseEvent)
    requires GateOk(w)
    ensures GateOk(Emit(w, e))
    ensures Reading(Emit(w, e)) == Absorb(Reading(w), e)
  {
    assert Sent(Emit(w, e)) == Sent(w) + [e];
    ReadSnoc(Sent(w), e);
  }

  lemma EnsureStartedOk(w: Writer)
    requires Ok(w)
    ensures Ok(EnsureStarted(w)) && EnsureStarted(w).started
    ensures SameContent(Reading(w), Reading(EnsureStarted(w)))
  {
    if !w.started {
      EmitRead(w.(started := true), MessageStart);
    }
  }

  /** Promotion moves the transcript on to the client and leaves it as it is. */
  lemma FireVisibleOk(w: Writer)
    requires Ok(w)
    ensures Ok(FireVisible(w)) && FireVisible(w).started == w.started
    ensures Sent(FireVisible(w)) == Sent(w)
  {
    assert (w.gate.client + w.gate.buf) + [] == Sent(w);
  }

  lemma CloseBlockOk(w: Writer)
    requires Ok(w) && w.started
    ensures Ok(CloseBlock(w)) && CloseBlock(w).started && CloseBlock(w).active.NoBlock?
    ensures SameContent(Reading(w), Reading(CloseBlock(w)))
  {
    if !w.active.NoBlock? {
      EmitRead(w, BlockStop(w.blockIndex));
    }
  }

  lemma NextBlockOk(w: Writer, b: Block)
    requires Ok(w) && w.started
    ensures var w' := NextBlock(w, b);
            var c, c' := Reading(w), Reading(w');
            Ok(w') && w'.started && w'.active == Open(KindOf(b)) && c'.phase == InBlock(w'.blockIndex, b) &&
            SameContent(c.(calls := if b.ToolBlock? then c.calls + [ToolCall(b.id, b.name, "")] else c.calls), c')
  {
    CloseBlockOk(w);
    var closed := CloseBlock(w);
    EmitRead(closed, BlockStart(closed.blockIndex + 1, b));
  }

  lemma SwitchBlockOk(w: Writer, b: Block)
    requires Ok(w) && w.started && !b.ToolBlock?
    ensures var w' := SwitchBlock(w, b);
            Ok(w') && w'.started && w'.active == Open(KindOf(b)) && SameContent(Reading(w), Reading(w'))
  {
    if w.active != Open(KindOf(b)) {
      NextBlockOk(w, b);
    }
  }

  lemma EmitDeltaOk(w: Writer, d: Delta)
    requires Ok(w) && w.started && w.active.Open?
    requires d.TextDelta? ==> w.active.kind == Text
    requires d.ThinkingDelta? || d.SignatureDelta? ==> w.active.kind == Thinking
    requires d.InputJsonDelta? ==> w.active.kind == ToolUseBlock
    ensures var w' := EmitDelta(w, d);
            var c, c' := Reading(w), Reading(w');
            Ok(w') && w'.started &&
            match d
            case TextDelta(s) => SameContent(c.(text := c.text + s), c')
            case ThinkingDelta(s) => SameContent(c.(thinking := c.thinking + s), c')
            case SignatureDelta(_) => SameContent(c, c')
            case InputJsonDelta(s) => SameContent(c.(calls := Grown(c.calls, s)), c')
  {
    EmitRead(w, BlockDelta(w.blockIndex, d));
  }

  // ---------------------------------------------------- one contribution

  lemma PutThinkingOk(w: Writer, s: string, signature: string)
    requires Ok(w)
    ensures var w', c := PutThinking(w, s, signature), Reading(w);
            Ok(w') && (w.started ==> w'.started) && SameContent(c.(thinking := c.thinking + s), Reading(w'))
  {
    if s == "" {
      assert Reading(w).thinking + s == Reading(w).thinking;
    } else {
      EnsureStartedOk(w);
      SwitchBlockOk(EnsureStarted(w), ThinkingBlock(signature));
      EmitDeltaOk(SwitchBlock(EnsureStarted(w), ThinkingBlock(signature)), ThinkingDelta(s));
    }
  }

  lemma PutTextOk(w: Writer, s: string)
    requires Ok(w)
    ensures var w', c := PutText(w, s), Reading(w);
            Ok(w') && (w.started ==> w'.started) && SameContent(c.(text := c.text + s), Reading(w'))
  {
    if s == "" {
      assert Reading(w).text + s == Reading(w).text;
    } else {
      EnsureStartedOk(w);
      var v := FireVisible(EnsureStarted(w));
      FireVisibleOk(EnsureStarted(w));
      SwitchBlockOk(v, TextBlock);
      EmitDeltaOk(SwitchBlock(v, TextBlock), TextDelta(s));
    }
  }

  lemma PutSignatureOk(w: Writer, signature: string)
    requires Ok(w)
    ensures Ok(PutSignature(w, signature)) && SameContent(Reading(w), Reading(PutSignature(w, signature)))
  {
    if signature != "" && !w.signatureSent {
      EnsureStartedOk(w);
      if EnsureStarted(w).active == Open(Thinking) {
        EmitDeltaOk(EnsureStarted(w), SignatureDelta(signature));
      }
    }
  }

  lemma PutToolOk(w: Writer, call: ToolCall)
    requires Ok(w)
    ensures var w', c := PutTool(w, call), Reading(w);
            Ok(w') && SameContent(c.(calls := c.calls + [call]), Reading(w'))
  {
    EnsureStartedOk(w);
    var v := FireVisible(EnsureStarted(w));
    FireVisibleOk(EnsureStarted(w));
    NextBlockOk(v, ToolBlock(call.id, call.name));
    EmitDeltaOk(NextBlock(v, ToolBlock(call.id, call.name)), InputJsonDelta(call.input));
    var calls := Reading(w).calls;
    assert (calls + [ToolCall(call.id, call.name, "")])[..|calls|] == calls;
    assert "" + call.input == call.input;
  }

  lemma PutRedactedOk(w: Writer, data: string)
    requires Ok(w)
    ensures Ok(PutRedacted(w, data)) && SameContent(Reading(w), Reading(PutRedacted(w, data)))
  {
    EnsureStartedOk(w);
    NextBlockOk(EnsureStarted(w), RedactedBlock(data));
    CloseBlockOk(NextBlock(EnsureStarted(w), RedactedBlock(data)));
  }

  lemma PutErrorRead(w: Writer, message: string)
    requires Ok(w) && w.started
    ensures Reading(PutError(w, message)).phase == Failed
  {
    CloseBlockOk(w);
    EmitRead(CloseBlock(w), ErrorEvent(message));
  }

  lemma PutEndRead(w: Writer, text: string, thinking: string, end: (StopReason, string), signature: string)
    requires Ok(w)
    ensures var w', c := PutEnd(w, text, thinking, end, signature), Reading(w);
            GateOk(w') && Reading(w') ==
            Client(Done, c.text + text, c.thinking + thinking, c.calls, [MessageDelta(end.0, end.1)])
  {
    EnsureStartedOk(w);
    var w1 := EnsureStarted(w);
    PutThinkingOk(w1, thinking, signature);
    var w2 := PutThinking(w1, thinking, signature);
    PutTextOk(w2, text);
    var w3 := PutText(w2, text);
    CloseBlockOk(w3);
    var w4 := CloseBlock(w3);
    EmitRead(w4, MessageDelta(end.0, end.1));
    EmitRead(Emit(w4, MessageDelta(end.0, end.1)), MessageStop);
  }

  // ----------------------------------------------------------- whole runs

  lemma AddTextReports(cfg: Config, o: Output, s: string)
    ensures var p := AddText(cfg, o, s); p.o.text == o.text + p.piece && p.o.thinking == o.thinking
  {
    assert o.text + "" == o.text;
  }

  lemma AddThinkingReports(cfg: Config, o: Output, s: string)
    ensures var p := AddThinking(cfg, o, s); p.o.thinking == o.thinking + p.piece && p.o.text == o.text
  {
  }

  lemma OnDeltaReports(cfg: Config, o: Output, tags: TagState, delta: string)
    ensures var (o', _, d) := OnDelta(cfg, o, tags, delta);
            o'.text == o.text + d.text && o'.thinking == o.thinking + d.thinking
  {
    assert o.thinking + "" == o.thinking;
    forall s { AddThinkingReports(cfg, o, s); }
    forall o', s { AddTextReports(cfg, o', s); }
  }

  /** What a step reports is exactly what it records. */
  lemma StepReports(cfg: Config, a: Acc, e: Event)
    ensures var (a', d) := Step(cfg, a, e);
            a'.out.text == a.out.text + d.text && a'.out.thinking == a.out.thinking + d.thinking
  {
    assert a.out.text + "" == a.out.text && a.out.thinking + "" == a.out.thinking;
    match e {
      case AssistantResponse(content) =>
        OnDeltaReports(cfg, a.out, a.tags, ChunkDelta.Delta(content, a.lastContent));
      case ReasoningContent(thinking, _, _) =>
        AddThinkingReports(cfg, a.out, ChunkDelta.Delta(thinking, a.lastThinking));
      case ToolUse(_, _, input, _) =>
        AddThinkingReports(cfg, a.out, cfg.thoughtOf(input));
      case _ =>
    }
  }

  lemma StepReportsTools(cfg: Config, a: Acc, e: Event)
    ensures var (a', d) := Step(cfg, a, e);
            (d.tools == [] ==> a'.tools.calls == a.tools.calls) &&
            (d.tools != [] ==> e.ToolUse? && d.thinking == "" && d.tools == [d.tools[0]] &&
                               (cfg.dropTool == "" ==> a'.tools.calls == a.tools.calls + d.tools))
    ensures var d := Step(cfg, a, e).1;
            (!e.AssistantResponse? ==> d.text == "") &&
            (d.thinking != "" ==> e.AssistantResponse? || e.ReasoningContent? || e.ToolUse?) &&
            (d.redacted != "" ==> d.thinking == "") &&
            (d.isError <==> IsErrorEvent(e))
  {
  }

  predicate IsErrorEvent(e: Event)
  {
    e.InvalidState? || e.Exception?
  }

  /** The client holds what the accumulator holds. */
  ghost predicate Mirrors(cfg: Config, c: Client, a: Acc)
  {
    c.text == a.out.text && c.thinking == a.out.thinking && (cfg.dropTool == "" ==> c.calls == a.tools.calls)
  }

  ghost predicate Running(cfg: Config, s: Sse)
  {
    Ok(s.w) && Mirrors(cfg, Reading(s.w), s.acc) && Reading(s.w).ending == []
  }

  ghost predicate Complete(cfg: Config, s: Sse)
  {
    var (reason, sequence) := Resolved(s.acc.out.stop, s.acc.tools.hasToolUse);
    GateOk(s.w) && Mirrors(cfg, Reading(s.w), s.acc) &&
    Reading(s.w).phase == Done && Reading(s.w).ending == [MessageDelta(reason, sequence)]
  }

  /** Upstream failed: the client sees an error, or nothing at all. */
  ghost predicate CutShort(s: Sse)
  {
    GateOk(s.w) && (if s.w.started then Reading(s.w).phase == Failed else Sent(s.w) == [])
  }

  lemma PutMirrors(cfg: Config, s: Sse, e: Event)
    requires Running(cfg, s) && !IsErrorEvent(e)
    ensures var (a, d) := Step(cfg, s.acc, e);
            var (w, next) := Put(s.w, e, d, a.signature);
            Running(cfg, Sse(a, w)) && !next.Abort?
  {
    var (a, d) := Step(cfg, s.acc, e);
    StepReports(cfg, s.acc, e);
    StepReportsTools(cfg, s.acc, e);
    match e {
      case AssistantResponse(_) =>
        PutThinkingOk(s.w, d.thinking, a.signature);
        PutTextOk(PutThinking(s.w, d.thinking, a.signature), d.text);
      case ReasoningContent(_, _, _) =>
        if d.redacted != "" {
          PutRedactedOk(s.w, d.redacted);
        } else if d.thinking == "" {
          PutSignatureOk(s.w, d.signature);
        } else {
          PutThinkingOk(s.w, d.thinking, a.signature);
          PutSignatureOk(PutThinking(s.w, d.thinking, a.signature), d.signature);
        }
      case ToolUse(_, _, _, _) =>
        if d.thinking != "" {
          PutThinkingOk(s.w, d.thinking, a.signature);
        } else if d.tools != [] {
          PutToolOk(s.w, d.tools[0]);
        }
      case _ =>
    }
  }

  lemma FinalizeReports(cfg: Config, a: Acc)
    ensures var (a', text, thinking) := Finalize(cfg, a);
            a'.out.text == a.out.text + text && a'.out.thinking == a.out.thinking + thinking &&
            a'.tools == a.tools && a'.signature == a.signature
  {
    var (o, text, thinking) := FlushTags(cfg, a.out, a.tags);
    TagsReport(cfg, a.out, a.tags);
    PendingReports(cfg, o);
    Joined(a.out.text, text, FlushPending(cfg, o).piece);
  }

  lemma TagsReport(cfg: Config, o: Output, tags: TagState)
    ensures var (o', text, thinking) := FlushTags(cfg, o, tags);
            o'.text == o.text + text && o'.thinking == o.thinking + thinking
  {
    AddTextReports(cfg, o, tags.buf);
    AddThinkingReports(cfg, o, tags.buf);
    assert o.text + "" == o.text && o.thinking + "" == o.thinking;
  }

  lemma PendingReports(cfg: Config, o: Output)
    ensures var p := FlushPending(cfg, o); p.o.text == o.text + p.piece && p.o.thinking == o.thinking
  {
    assert o.text + "" == o.text;
  }

  lemma Joined(a: string, b: string, c: string)
    ensures (a + b) + c == a + (b + c)
  {
  }

  lemma FinishCompletes(cfg: Config, s: Sse)
    requires Running(cfg, s)
    ensures Complete(cfg, Finished(cfg, s))
  {
    var (a, text, thinking) := Finalize(cfg, s.acc);
    FinalizeReports(cfg, s.acc);
    PutEndRead(s.w, text, thinking, Resolved(a.out.stop, a.tools.hasToolUse), a.signature);
  }

  lemma HandledOk(cfg: Config, s: Sse, e: Event)
    requires Running(cfg, s)
    ensures var (s', next) := Handled(cfg, s, e);
            match next
            case Continue => Running(cfg, s')
            case FinishNow => Complete(cfg, s')
            case Abort => CutShort(s') && IsErrorEvent(e)
  {
    if IsErrorEvent(e) {
      if s.w.started {
        PutErrorRead(s.w, e.message);
        CloseBlockOk(s.w);
        EmitRead(CloseBlock(s.w), ErrorEvent(e.message));
      } else {
        WaitingIsEmpty(Sent(s.w));
      }
    } else {
      var (a, d) := Step(cfg, s.acc, e);
      var (w, next) := Put(s.w, e, d, a.signature);
      PutMirrors(cfg, s, e);
      if next.FinishNow? {
        FinishCompletes(cfg, Sse(a, w));
      }
    }
  }

  lemma WaitingIsEmpty(t: seq<SseEvent>)
    requires Read(t).phase == Waiting
    ensures t == []
  {
  }

  lemma {:induction false} HandledAllOk(cfg: Config, s: Sse, events: seq<Event>)
    requires Running(cfg, s)
    ensures var (s', next) := HandledAll(cfg, s, events);
            match next
            case Continue => Running(cfg, s')
            case FinishNow => Complete(cfg, s')
            case Abort => CutShort(s') && exists e :: e in events && IsErrorEvent(e)
    decreases |events|
  {
    if events != [] {
      HandledOk(cfg, s, events[0]);
      var (s1, next) := Handled(cfg, s, events[0]);
      if next.Continue? {
        HandledAllOk(cfg, s1, events[1..]);
      } else {
        assert events[0] in events;
      }
    }
  }

  /** Every attempt: without upstream errors the transcript is complete and
      well formed and carries exactly the accumulated text, thinking, tool calls
      and stop reason; an upstream error leaves a well-formed prefix closed by an
      error event, or nothing at all if nothing had been sent. */
  lemma TranscriptWellFormed(cfg: Config, events: seq<Event>)
    ensures var (s, next) := Streamed(cfg, Sse(FRESH, NewWriter([])), events);
            if next.Abort? then CutShort(s) && exists e :: e in events && IsErrorEvent(e)
            else Complete(cfg, s)
  {
    var s0 := Sse(FRESH, NewWriter([]));
    assert Running(cfg, s0) by {
      assert Sent(s0.w) == [];
    }
    HandledAllOk(cfg, s0, events);
    var (s1, next) := HandledAll(cfg, s0, events);
    if next.Continue? {
      FinishCompletes(cfg, s1);
    }
  }
}
