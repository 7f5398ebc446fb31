/** The server-sent-event writer: turns what the accumulator reports into a
    transcript of content blocks, behind a gate.
 */
module Streaming {
  import opened Accumulator
  import Gate

  // -------------------------------------------------------------- transcript

  datatype BlockType = Text | Thinking | ToolUseBlock | Redacted

  datatype Block =
    | TextBlock
    | ThinkingBlock(signature: string)
    | ToolBlock(id: string, name: string)
    | RedactedBlock(data: string)

  datatype Delta =
    | TextDelta(text: string)
    | ThinkingDelta(thinking: string)
    | SignatureDelta(signature: string)
    | InputJsonDelta(json: string)

  datatype SseEvent =
    | MessageStart
    | BlockStart(index: int, block: Block)
    | BlockDelta(index: int, delta: Delta)
    | BlockStop(index: int)
    | MessageDelta(reason: StopReason, sequence: string)
    | MessageStop
    | ErrorEvent(message: string)

  // ------------------------------------------------- the client's reading

  datatype Phase = Waiting | Between(next: nat) | InBlock(index: nat, block: Block) | Closing | Done | Failed | Malformed

  /** A client that follows the protocol to the letter and collects content. */
  datatype Client = Client(phase: Phase, text: string, thinking: string, calls: seq<ToolCall>, ending: seq<SseEvent>)

  const IDLE := Client(Waiting, "", "", [], [])

  function Grown(calls: seq<ToolCall>, json: string): seq<ToolCall>
  {
    if calls == [] then []
    else
      var last := calls[|calls| - 1];
      calls[..|calls| - 1] + [last.(input := last.input + json)]
  }

  /** Events out of place are not forgiven. */
  function Absorb(c: Client, e: SseEvent): Client
  {
    match (c.phase, e)
    case (Waiting, MessageStart) => c.(phase := Between(0))
    case (Between(n), BlockStart(i, b)) =>
      if i != n then c.(phase := Malformed)
      else c.(phase := InBlock(n, b), calls := if b.ToolBlock? then c.calls + [ToolCall(b.id, b.name, "")] else c.calls)
    case (InBlock(n, b), BlockDelta(i, d)) =>
      if i != n then c.(phase := Malformed)
      else if b.TextBlock? && d.TextDelta? then c.(text := c.text + d.text)
      else if b.ThinkingBlock? && d.ThinkingDelta? then c.(thinking := c.thinking + d.thinking)
      else if b.ThinkingBlock? && d.SignatureDelta? then c
      else if b.ToolBlock? && d.InputJsonDelta? then c.(calls := Grown(c.calls, d.json))
      else c.(phase := Malformed)
    case (InBlock(n, _), BlockStop(i)) => c.(phase := if i == n then Between(n + 1) else Malformed)
    case (Between(_), MessageDelta(_, _)) => c.(phase := Closing, ending := [e])
    case (Closing, MessageStop) => c.(phase := Done)
    case (Between(_), ErrorEvent(_)) => c.(phase := Failed)
    case _ => c.(phase := Malformed)
  }

  function Read(t: seq<SseEvent>): Client
  {
    if t == [] then IDLE else Absorb(Read(t[..|t| - 1]), t[|t| - 1])
  }

  // ------------------------------------------------------------- the writer

  datatype Active = NoBlock | Open(kind: BlockType)

  datatype Writer = Writer(gate: Gate.State<SseEvent>, blockIndex: int, active: Active, started: bool,
                           signatureSent: bool, visible: bool)

  /** Everything written so far, delivered or not. */
  function Sent(w: Writer): seq<SseEvent>
  {
    w.gate.client + w.gate.buf
  }

  function Emit(w: Writer, e: SseEvent): Writer
  {
    w.(gate := Gate.Written(w.gate, e))
  }

  function EnsureStarted(w: Writer): Writer
  {
    if w.started then w else Emit(w.(started := true), MessageStart)
  }

  function FireVisible(w: Writer): Writer
  {
    if w.visible then w else w.(visible := true, gate := Gate.Promoted(w.gate))
  }

  function CloseBlock(w: Writer): Writer
  {
    if w.active.NoBlock? then w else Emit(w, BlockStop(w.blockIndex)).(active := NoBlock)
  }

  function KindOf(b: Block): BlockType
  {
    match b
    case TextBlock => Text
    case ThinkingBlock(_) => Thinking
    case ToolBlock(_, _) => ToolUseBlock
    case RedactedBlock(_) => Redacted
  }

  /** Closes the current block and opens the next one. */
  function NextBlock(w: Writer, b: Block): Writer
  {
    var c := CloseBlock(w);
    Emit(c, BlockStart(c.blockIndex + 1, b)).(blockIndex := c.blockIndex + 1, active := Open(KindOf(b)))
  }

  function SwitchBlock(w: Writer, b: Block): Writer
  {
    if w.active == Open(KindOf(b)) then w
    else if b.ThinkingBlock? && b.signature != "" then NextBlock(w, b).(signatureSent := true)
    else NextBlock(w, b)
  }

  function EmitDelta(w: Writer, d: Delta): Writer
  {
    Emit(w, BlockDelta(w.blockIndex, d))
  }

  function PutThinking(w: Writer, s: string, signature: string): Writer
  {
    if s == "" then w else EmitDelta(SwitchBlock(EnsureStarted(w), ThinkingBlock(signature)), ThinkingDelta(s))
  }

  function PutText(w: Writer, s: string): Writer
  {
    if s == "" then w else EmitDelta(SwitchBlock(FireVisible(EnsureStarted(w)), TextBlock), TextDelta(s))
  }

  function PutSignature(w: Writer, signature: string): Writer
  {
    if signature == "" || w.signatureSent then w
    else
      var s := EnsureStarted(w);
      if s.active != Open(Thinking) then s else EmitDelta(s, SignatureDelta(signature)).(signatureSent := true)
  }

  function PutTool(w: Writer, call: ToolCall): Writer
  {
    EmitDelta(NextBlock(FireVisible(EnsureStarted(w)), ToolBlock(call.id, call.name)), InputJsonDelta(call.input))
  }

  function PutRedacted(w: Writer, data: string): Writer
  {
    CloseBlock(NextBlock(EnsureStarted(w), RedactedBlock(data)))
  }

  function PutError(w: Writer, message: string): Writer
  {
    Emit(CloseBlock(w), ErrorEvent(message))
  }

  /** The closing events, after whatever finalisation still had to say. */
  function PutEnd(w: Writer, text: string, thinking: string, end: (StopReason, string), signature: string): Writer
  {
    var c := CloseBlock(PutText(PutThinking(EnsureStarted(w), thinking, signature), text));
    Emit(Emit(c, MessageDelta(end.0, end.1)), MessageStop)
  }

  /** What the caller has to do after an event. */
  datatype Next = Continue | FinishNow | Abort

  /** Writes what the event contributed. */
  function Put(w: Writer, e: Event, d: EventDelta, signature: string): (Writer, Next)
  {
    var stop := if d.stopSignal then FinishNow else Continue;
    match e
    case AssistantResponse(_) => (PutText(PutThinking(w, d.thinking, signature), d.text), stop)
    case ReasoningContent(_, _, _) =>
      if d.redacted != "" then (PutRedacted(w, d.redacted), Continue)
      else if d.thinking == "" then (PutSignature(w, d.signature), Continue)
      else (PutSignature(PutThinking(w, d.thinking, signature), d.signature), stop)
    case ToolUse(_, _, _, _) =>
      if d.thinking != "" then (PutThinking(w, d.thinking, signature), stop)
      else if d.tools == [] then (w, Continue)
      else (PutTool(w, d.tools[0]), stop)
    case InvalidState(_, m) => (if w.started then PutError(w, m) else w, Abort)
    case Exception(m) => (if w.started then PutError(w, m) else w, Abort)
    case _ => (w, Continue)
  }

  // --------------------------------------------------------- the SSE driver

  datatype Sse = Sse(acc: Acc, w: Writer)

  ghost function Finished(cfg: Config, s: Sse): Sse
  {
    var (a, text, thinking) := Finalize(cfg, s.acc);
    Sse(a.(tools := a.tools.(invalid := [])),
        PutEnd(s.w, text, thinking, Resolved(a.out.stop, a.tools.hasToolUse), a.signature))
  }

  ghost function Handled(cfg: Config, s: Sse, e: Event): (Sse, Next)
  {
    var (a, d) := Step(cfg, s.acc, e);
    var (w, next) := Put(s.w, e, d, a.signature);
    (if next.FinishNow? then Finished(cfg, Sse(a, w)) else Sse(a, w), next)
  }

  /** Events until the writer asks to stop. */
  ghost function HandledAll(cfg: Config, s: Sse, events: seq<Event>): (Sse, Next)
    decreases |events|
  {
    if events == [] then (s, Continue)
    else
      var (s1, next) := Handled(cfg, s, events[0]);
      if next.Continue? then HandledAll(cfg, s1, events[1..]) else (s1, next)
  }

  /** A whole attempt: events, then the closing events unless already written
      or cut short by an upstream error. */
  ghost function Streamed(cfg: Config, s: Sse, events: seq<Event>): (Sse, Next)
  {
    var (s1, next) := HandledAll(cfg, s, events);
    (if next.Continue? then Finished(cfg, s1) else s1, next)
  }

  function NewWriter(client: seq<SseEvent>): Writer
  {
    Writer(Gate.State(client, [], false), -1, NoBlock, false, false, false)
  }

  class SSEWriter {
    const acc: ResponseAccumulator
    const gate: Gate.GateWriter<SseEvent>
    var blockIndex: int
    var active: Active
    var started: bool
    var signatureSent: bool
    var visibleFired: bool

    ghost function WriterView(): Writer
      reads this, gate
    {
      Writer(gate.View(), blockIndex, active, started, signatureSent, visibleFired)
    }

    ghost function View(): Sse
      reads this, gate, acc
    {
      Sse(acc.View(), WriterView())
    }

    constructor (cfg: Config, gate: Gate.GateWriter<SseEvent>)
      ensures this.gate == gate && fresh(acc) && acc.cfg == cfg
      ensures View() == Sse(FRESH, Writer(gate.View(), -1, NoBlock, false, false, false))
    {
      this.gate := gate;
      acc := new ResponseAccumulator(cfg);
      blockIndex, active, started, signatureSent, visibleFired := -1, NoBlock, false, false, false;
    }

    method WriteSSE(e: SseEvent)
      modifies gate
      ensures WriterView() == Emit(old(WriterView()), e)
    {
      gate.Write(e);
    }

    method EnsureStartedNow()
      modifies this, gate
      ensures WriterView() == EnsureStarted(old(WriterView()))
    {
      if started {
        return;
      }
      started := true;
      WriteSSE(MessageStart);
    }

    method FireVisibleOutput()
      modifies this, gate
      ensures WriterView() == FireVisible(old(WriterView()))
    {
      if visibleFired {
        return;
      }
      visibleFired := true;
      gate.Promote();
    }

    method CloseActiveBlock()
      modifies this, gate
      ensures WriterView() == CloseBlock(old(WriterView()))
    {
      if active.NoBlock? {
        return;
      }
      WriteSSE(BlockStop(blockIndex));
      active := NoBlock;
    }

    method StartBlock(b: Block)
      modifies this, gate
      ensures WriterView() == NextBlock(old(WriterView()), b)
    {
      CloseActiveBlock();
      blockIndex := blockIndex + 1;
      active := Open(KindOf(b));
      WriteSSE(BlockStart(blockIndex, b));
    }

    method SwitchTo(b: Block)
      modifies this, gate
      ensures WriterView() == SwitchBlock(old(WriterView()), b)
    {
      if active == Open(KindOf(b)) {
        return;
      }
      StartBlock(b);
      if b.ThinkingBlock? && b.signature != "" {
        signatureSent := true;
      }
    }

    method WriteThinkingDelta(s: string)
      modifies this, gate
      ensures WriterView() == PutThinking(old(WriterView()), s, acc.signature)
    {
      if s == "" {
        return;
      }
      EnsureStartedNow();
      SwitchTo(ThinkingBlock(acc.signature));
      WriteSSE(BlockDelta(blockIndex, ThinkingDelta(s)));
    }

    method WriteTextDelta(s: string)
      modifies this, gate
      ensures WriterView() == PutText(old(WriterView()), s)
    {
      if s == "" {
        return;
      }
      EnsureStartedNow();
      FireVisibleOutput();
      SwitchTo(TextBlock);
      WriteSSE(BlockDelta(blockIndex, TextDelta(s)));
    }

    method WriteSignatureDelta(s: string)
      modifies this, gate
      ensures WriterView() == PutSignature(old(WriterView()), s)
    {
      if s == "" || signatureSent {
        return;
      }
      EnsureStartedNow();
      if active != Open(Thinking) {
        return;
      }
      WriteSSE(BlockDelta(blockIndex, SignatureDelta(s)));
      signatureSent := true;
    }

    method WriteTool(call: ToolCall)
      modifies this, gate
      ensures WriterView() == PutTool(old(WriterView()), call)
    {
      EnsureStartedNow();
      FireVisibleOutput();
      StartBlock(ToolBlock(call.id, call.name));
      WriteSSE(BlockDelta(blockIndex, InputJsonDelta(call.input)));
    }

    method WriteRedacted(data: string)
      modifies this, gate
      ensures WriterView() == PutRedacted(old(WriterView()), data)
    {
      EnsureStartedNow();
      StartBlock(RedactedBlock(data));
      CloseActiveBlock();
    }

    method WriteError(message: string)
      modifies this, gate
      ensures WriterView() == PutError(old(WriterView()), message)
    {
      CloseActiveBlock();
      WriteSSE(ErrorEvent(message));
    }

    method WriteContribution(e: Event, d: EventDelta) returns (next: Next)
      modifies this, gate
      ensures (WriterView(), next) == Put(old(WriterView()), e, d, acc.signature)
    {
      next := Continue;
      match e {
        case AssistantResponse(_) =>
          WriteThinkingDelta(d.thinking);
          WriteTextDelta(d.text);
          if d.stopSignal { next := FinishNow; }
        case ReasoningContent(_, _, _) =>
          if d.redacted != "" {
            WriteRedacted(d.redacted);
          } else if d.thinking == "" {
            WriteSignatureDelta(d.signature);
          } else {
            WriteThinkingDelta(d.thinking);
            WriteSignatureDelta(d.signature);
            if d.stopSignal { next := FinishNow; }
          }
        case ToolUse(_, _, _, _) =>
          if d.thinking != "" {
            WriteThinkingDelta(d.thinking);
            if d.stopSignal { next := FinishNow; }
          } else if d.tools != [] {
            WriteTool(d.tools[0]);
            if d.stopSignal { next := FinishNow; }
          }
        case InvalidState(_, m) =>
          if started { WriteError(m); }
          next := Abort;
        case Exception(m) =>
          if started { WriteError(m); }
          next := Abort;
        case _ =>
      }
    }

    method Finish()
      modifies this, gate, acc
      ensures View() == Finished(acc.cfg, old(View()))
    {
      EnsureStartedNow();
      var text, thinking := acc.FinalizeStream();
      acc.tools := acc.tools.(invalid := []);
      var end := Resolved(acc.stop, acc.tools.hasToolUse);
      WriteThinkingDelta(thinking);
      WriteTextDelta(text);
      CloseActiveBlock();
      WriteSSE(MessageDelta(end.0, end.1));
      WriteSSE(MessageStop);
    }

    method HandleEvent(e: Event) returns (next: Next)
      modifies this, gate, acc
      ensures (View(), next) == Handled(acc.cfg, old(View()), e)
    {
      var d := acc.ProcessEvent(e);
      next := WriteContribution(e, d);
      if next.FinishNow? {
        Finish();
      }
    }
  }
}
