/** The response accumulator: the state both response drivers build up, one
    upstream event at a time.

    The class below carries the fields and the step-by-step updates; the ghost
    functions say, on values, what each step does, and the theorems about whole
    streams are proved of them.
 */
module Accumulator {
  import opened Text
  import ChunkDelta
  import Tags = ThinkingTags
  import Stops = StopSequence
  import TokenBudget

  // ------------------------------------------------------------------ events

  datatype Event =
    | AssistantResponse(content: string)
    | ReasoningContent(thinkingText: string, signature: string, redacted: string)
    | ToolUse(name: string, id: string, input: string, stop: bool)
    | Metadata(tokens: Tokens)
    | Metering(inputTokens: int, outputTokens: int)
    | MessageMetadata(conversationId: string)
    | ContextUsage(percentage: real)
    | InvalidState(reason: string, message: string)
    | Exception(message: string)
    | Ignored

  datatype Tokens = Tokens(input: int, output: int, cacheRead: int, cacheWrite: int)

  datatype ToolCall = ToolCall(id: string, name: string, input: string)
  datatype InvalidToolCall = InvalidToolCall(call: ToolCall, reason: string)

  datatype StopReason = Unset | StopSequence | MaxTokens | EndTurn | ToolUseStop

  /** What one event contributes. Empty strings mean "nothing". */
  datatype EventDelta = EventDelta(
    text: string, thinking: string, signature: string, redacted: string,
    tools: seq<ToolCall>, isError: bool, stopSignal: bool)

  const NOTHING := EventDelta("", "", "", "", [], false, false)

  const THINKING_TOOL := "thinking"

  datatype Verdict = Accepted(normalized: string) | Rejected(reason: string)

  /** Everything fixed for one response. JSON decoding and schema validation
      are taken as given functions. */
  datatype Config = Config(
    stops: seq<string>,                        // usable stop sequences, in order
    keep: nat,                                 // runes held back for them
    maxTokens: int,
    dropTool: string,
    toolNames: map<string, string>,
    thoughtOf: string -> string,               // "" when the input does not decode
    validate: (string, string) -> Verdict,
    validJson: string -> bool,
    canonicalJson: string -> string)           // input as compared by the deduplication

  // ------------------------------------------------------------------- state

  datatype Stop = Stop(local: bool, reason: StopReason, sequence: string)

  /** What has been produced for the client, and what limits it. */
  datatype Output = Output(text: string, thinking: string, hasText: bool, pending: string, runes: nat, stop: Stop)

  datatype TagState = TagState(buf: string, inside: bool, suppress: bool)

  datatype Tools = Tools(calls: seq<ToolCall>, invalid: seq<InvalidToolCall>, hasToolUse: bool, parseError: bool)

  datatype Meta = Meta(hasMetadata: bool, tokens: Tokens, conversationId: string,
                       hasContextUsage: bool, contextPercentage: real)

  datatype Acc = Acc(lastContent: string, lastThinking: string, out: Output, tags: TagState,
                     tools: Tools, signature: string, meta: Meta)

  const NO_STOP := Stop(false, Unset, "")
  const NO_OUTPUT := Output("", "", false, "", 0, NO_STOP)
  const NO_META := Meta(false, Tokens(0, 0, 0, 0), "", false, 0.0)
  const FRESH := Acc("", "", NO_OUTPUT, TagState("", false, false), Tools([], [], false, false), "", NO_META)

  // -------------------------------------------------------- what a step does

  /** New output and the piece that may be passed on. */
  datatype Passed = Passed(o: Output, piece: string)

  ghost function Budget(cfg: Config, o: Output, delta: string): Passed
  {
    var c := TokenBudget.Spend(cfg.maxTokens, o.runes, delta);
    Passed(o.(runes := c.count, stop := if c.exhausted then o.stop.(local := true, reason := MaxTokens) else o.stop),
           c.out)
  }

  ghost function AddThinking(cfg: Config, o: Output, thought: string): Passed
  {
    var b := Budget(cfg, o, thought);
    Passed(b.o.(thinking := b.o.thinking + b.piece), b.piece)
  }

  ghost function FilterStops(cfg: Config, o: Output, delta: string): Passed
  {
    match Stops.Filter(cfg.stops, cfg.keep, o.pending + delta)
    case Stopped(emit, k) =>
      Passed(o.(pending := "", stop := Stop(true, StopSequence, if k < |cfg.stops| then cfg.stops[k] else "")), emit)
    case Passed(emit, pending) =>
      Passed(o.(pending := pending), emit)
  }

  /** The budget does not apply to text that completed a stop sequence. */
  ghost function BudgetText(cfg: Config, o: Output, text: string): Passed
  {
    if text == "" || o.stop.local then Passed(o, text) else Budget(cfg, o, text)
  }

  /** Visible text passes the stop filter and then the budget. */
  ghost function AddText(cfg: Config, o: Output, text: string): Passed
  {
    if text == "" then Passed(o, "")
    else
      var seen := o.(hasText := true);
      var f := if cfg.stops == [] then Passed(seen, text) else FilterStops(cfg, seen, text);
      var b := BudgetText(cfg, f.o, f.piece);
      Passed(b.o.(text := b.o.text + b.piece), b.piece)
  }

  ghost function Route(cfg: Config, o: Output, thinking: string, text: string): (Output, EventDelta)
  {
    var th := if thinking == "" then Passed(o, "") else AddThinking(cfg, o, thinking);
    var tx := AddText(cfg, th.o, text);
    (tx.o, NOTHING.(thinking := th.piece, text := tx.piece, stopSignal := tx.o.stop.local))
  }

  /** New text from upstream: split by the tag parser, then routed. */
  ghost function OnDelta(cfg: Config, o: Output, tags: TagState, delta: string): (Output, TagState, EventDelta)
  {
    var r := Tags.Parse(tags.buf, tags.inside, !o.hasText && o.text == "", delta);
    var (o', d) := Route(cfg, o, r.thinking, r.text);
    (o', TagState(r.buf, r.inside, tags.suppress || r.suppress), d)
  }

  ghost function OnAssistantResponse(cfg: Config, a: Acc, content: string): (Acc, EventDelta)
  {
    var delta := ChunkDelta.Delta(content, a.lastContent);
    var a1 := a.(lastContent := content);
    if delta == "" || a.out.stop.local then (a1, NOTHING)
    else
      var (o, tags, d) := OnDelta(cfg, a.out, a.tags, delta);
      (a1.(out := o, tags := tags), d)
  }

  ghost function OnReasoning(cfg: Config, a: Acc, e: Event): (Acc, EventDelta)
    requires e.ReasoningContent?
  {
    var news := e.signature != "" && e.signature != a.signature;
    var a1 := if news then a.(signature := e.signature) else a;
    var d1 := if news then NOTHING.(signature := e.signature) else NOTHING;
    if e.redacted != "" then (a1, d1.(redacted := e.redacted))
    else if a.tags.suppress then (a1, d1)
    else
      var delta := ChunkDelta.Delta(e.thinkingText, a.lastThinking);
      var a2 := a1.(lastThinking := e.thinkingText);
      if delta == "" || a.out.stop.local then (a2, d1)
      else
        var th := AddThinking(cfg, a.out, delta);
        (a2.(out := th.o), d1.(thinking := th.piece, stopSignal := th.o.stop.local))
  }

  function Original(cfg: Config, name: string): string
  {
    if name in cfg.toolNames then cfg.toolNames[name] else name
  }

  /** Records an accepted call; its input counts towards the budget whole. */
  ghost function RecordCall(cfg: Config, a: Acc, call: ToolCall): (Acc, EventDelta)
  {
    var runes := a.out.runes + |call.input|;
    var over := cfg.maxTokens > 0 && runes / 4 >= cfg.maxTokens;
    var stop := if over then a.out.stop.(local := true, reason := MaxTokens) else a.out.stop;
    var tools := a.tools.(hasToolUse := true, calls := a.tools.calls + [call],
                          parseError := a.tools.parseError || !cfg.validJson(call.input));
    (a.(tools := tools, out := a.out.(runes := runes, stop := stop)),
     NOTHING.(tools := [call], stopSignal := stop.local))
  }

  ghost function OnToolUse(cfg: Config, a: Acc, e: Event): (Acc, EventDelta)
    requires e.ToolUse?
  {
    var call := ToolCall(e.id, Original(cfg, e.name), e.input);
    if !e.stop || a.out.stop.local then (a, NOTHING)
    else if call.name == THINKING_TOOL then
      var thought := cfg.thoughtOf(e.input);
      var th := AddThinking(cfg, a.out, thought);
      if thought == "" then (a, NOTHING)
      else (a.(out := th.o), NOTHING.(thinking := th.piece, stopSignal := th.o.stop.local))
    else if cfg.dropTool != "" && e.name == cfg.dropTool then
      (a, NOTHING.(tools := [call]))
    else
      match cfg.validate(call.name, e.input)
      case Rejected(reason) =>
        (a.(tools := a.tools.(invalid := a.tools.invalid + [InvalidToolCall(call, reason)])), NOTHING)
      case Accepted(input) => RecordCall(cfg, a, call.(input := input))
  }

  function MeteredTokens(m: Meta, input: int, output: int): Meta
  {
    if m.hasMetadata then m else m.(tokens := m.tokens.(input := input, output := output))
  }

  /** One event. */
  ghost function Step(cfg: Config, a: Acc, e: Event): (Acc, EventDelta)
  {
    match e
    case AssistantResponse(content) => OnAssistantResponse(cfg, a, content)
    case ReasoningContent(_, _, _) => OnReasoning(cfg, a, e)
    case ToolUse(_, _, _, _) => OnToolUse(cfg, a, e)
    case Metadata(tokens) => (a.(meta := a.meta.(hasMetadata := true, tokens := tokens)), NOTHING)
    case Metering(input, output) => (a.(meta := MeteredTokens(a.meta, input, output)), NOTHING)
    case MessageMetadata(id) => (a.(meta := a.meta.(conversationId := id)), NOTHING)
    case ContextUsage(p) => (a.(meta := a.meta.(hasContextUsage := true, contextPercentage := p)), NOTHING)
    case InvalidState(_, _) => (a, NOTHING.(isError := true))
    case Exception(_) => (a, NOTHING.(isError := true))
    case Ignored => (a, NOTHING)
  }

  /** Everything still buffered is drained at the end: first the tag buffer,
      then the text held back for the stop sequences. */
  ghost function FlushTags(cfg: Config, o: Output, tags: TagState): (Output, string, string)
  {
    if tags.buf == "" then (o, "", "")
    else if tags.inside then var th := AddThinking(cfg, o, tags.buf); (th.o, "", th.piece)
    else var tx := AddText(cfg, o, tags.buf); (tx.o, tx.piece, "")
  }

  ghost function FlushPending(cfg: Config, o: Output): Passed
  {
    var rest := o.(pending := "");
    if o.pending == "" || o.stop.local then Passed(rest, "")
    else
      var b := Budget(cfg, rest, o.pending);
      Passed(b.o.(text := b.o.text + b.piece), b.piece)
  }

  /** The final state, and the text and thinking still to be sent. */
  ghost function Finalize(cfg: Config, a: Acc): (Acc, string, string)
  {
    var (o, text, thinking) := FlushTags(cfg, a.out, a.tags);
    var rest := FlushPending(cfg, o);
    (a.(out := rest.o, tags := a.tags.(buf := "")), text + rest.piece, thinking)
  }

  /** The reason reported to the client, with the sequence if there is one. */
  function Resolved(stop: Stop, hasToolUse: bool): (StopReason, string)
  {
    if stop.reason != Unset then (stop.reason, if stop.reason == StopSequence then stop.sequence else "")
    else if hasToolUse then (ToolUseStop, "")
    else (EndTurn, "")
  }

  // -------------------------------------------------------- the accumulator

  class ResponseAccumulator {
    const cfg: Config
    var lastContent: string
    var lastThinking: string
    var textBuf: string
    var thinkingBuf: string
    var hasText: bool
    var stopSeqPending: string
    var outputRuneCount: nat
    var stop: Stop
    var tags: TagState
    var tools: Tools
    var signature: string
    var meta: Meta

    ghost function OutputView(): Output
      reads this
    {
      Output(textBuf, thinkingBuf, hasText, stopSeqPending, outputRuneCount, stop)
    }

    ghost function View(): Acc
      reads this
    {
      Acc(lastContent, lastThinking, OutputView(), tags, tools, signature, meta)
    }

    constructor (cfg: Config)
      ensures this.cfg == cfg && View() == FRESH
    {
      this.cfg := cfg;
      lastContent, lastThinking := "", "";
      textBuf, thinkingBuf, hasText, stopSeqPending, outputRuneCount, stop := "", "", false, "", 0, NO_STOP;
      tags, tools, signature, meta := TagState("", false, false), Tools([], [], false, false), "", NO_META;
    }

    method ApplyMaxTokensBudget(delta: string) returns (out: string)
      modifies `outputRuneCount, `stop
      ensures Passed(OutputView(), out) == Budget(cfg, old(OutputView()), delta)
    {
      var c := TokenBudget.ApplyBudget(cfg.maxTokens, outputRuneCount, delta);
      outputRuneCount := c.count;
      if c.exhausted {
        stop := stop.(local := true, reason := MaxTokens);
      }
      out := c.out;
    }

    method AccumulateThinking(thought: string) returns (out: string)
      modifies `outputRuneCount, `stop, `thinkingBuf
      ensures Passed(OutputView(), out) == AddThinking(cfg, old(OutputView()), thought)
    {
      out := ApplyMaxTokensBudget(thought);
      thinkingBuf := thinkingBuf + out;
    }

    method ApplyStopSequenceFilter(delta: string) returns (emit: string)
      modifies `stopSeqPending, `stop
      ensures Passed(OutputView(), emit) == FilterStops(cfg, old(OutputView()), delta)
    {
      stopSeqPending := stopSeqPending + delta;
      var k := 0;
      while k < |cfg.stops|
        invariant k <= |cfg.stops|
        invariant forall i | 0 <= i < k :: !Contains(stopSeqPending, cfg.stops[i])
        modifies {}
      {
        var idx := Index(stopSeqPending, cfg.stops[k]);
        if idx >= 0 {
          break;
        }
        k := k + 1;
      }
      assert Stops.FirstListed(cfg.stops, stopSeqPending) == k;
      if k < |cfg.stops| {
        var idx := Index(stopSeqPending, cfg.stops[k]);
        emit := stopSeqPending[..idx];
        stopSeqPending := "";
        stop := Stop(true, StopSequence, cfg.stops[k]);
      } else if |stopSeqPending| <= cfg.keep {
        emit := "";
      } else {
        var splitAt := |stopSeqPending| - cfg.keep;
        emit := stopSeqPending[..splitAt];
        stopSeqPending := stopSeqPending[splitAt..];
      }
    }

    /** Routes text towards the client: stop filter, budget, text buffer. */
    method AccumulateText(text: string) returns (out: string)
      modifies `stopSeqPending, `stop, `outputRuneCount, `hasText, `textBuf
      ensures Passed(OutputView(), out) == AddText(cfg, old(OutputView()), text)
    {
      out := text;
      if out != "" {
        hasText := true;
        if |cfg.stops| > 0 {
          out := ApplyStopSequenceFilter(out);
        }
        if out != "" && !stop.local {
          out := ApplyMaxTokensBudget(out);
        }
        textBuf := textBuf + out;
      }
    }

    method ParseThinkingTags(delta: string) returns (textOut: string, thinkingOut: string)
      modifies `tags
      ensures var r := Tags.Parse(old(tags).buf, old(tags).inside, !hasText && textBuf == "", delta);
              textOut == r.text && thinkingOut == r.thinking &&
              tags == TagState(r.buf, r.inside, old(tags).suppress || r.suppress)
    {
      var r := Tags.ParseTags(tags.buf, tags.inside, tags.suppress, !hasText && textBuf == "", delta);
      tags := TagState(r.buf, r.inside, r.suppress);
      textOut, thinkingOut := r.text, r.thinking;
    }

    method RouteOutput(thinkingOut: string, textOut: string) returns (d: EventDelta)
      modifies `stopSeqPending, `stop, `outputRuneCount, `hasText, `textBuf, `thinkingBuf
      ensures (OutputView(), d) == Route(cfg, old(OutputView()), thinkingOut, textOut)
    {
      var thinking := "";
      if thinkingOut != "" {
        thinking := AccumulateThinking(thinkingOut);
      }
      var text := AccumulateText(textOut);
      d := NOTHING.(thinking := thinking, text := text, stopSignal := stop.local);
    }

    method ProcessDelta(delta: string) returns (d: EventDelta)
      modifies `tags, `stopSeqPending, `stop, `outputRuneCount, `hasText, `textBuf, `thinkingBuf
      ensures (OutputView(), tags, d) == OnDelta(cfg, old(OutputView()), old(tags), delta)
    {
      var textOut, thinkingOut := ParseThinkingTags(delta);
      d := RouteOutput(thinkingOut, textOut);
    }

    method ProcessAssistantEvent(content: string) returns (d: EventDelta)
      modifies `lastContent, `tags, `stopSeqPending, `stop, `outputRuneCount, `hasText, `textBuf, `thinkingBuf
      ensures (View(), d) == OnAssistantResponse(cfg, old(View()), content)
    {
      d := NOTHING;
      var delta := ChunkDelta.ComputeDelta(content, lastContent);
      lastContent := content;
      if delta != "" && !stop.local {
        d := ProcessDelta(delta);
      }
    }

    method ProcessReasoningEvent(e: Event) returns (d: EventDelta)
      requires e.ReasoningContent?
      modifies this
      ensures (View(), d) == OnReasoning(cfg, old(View()), e)
    {
      d := NOTHING;
      if e.signature != "" && e.signature != signature {
        signature := e.signature;
        d := d.(signature := e.signature);
      }
      if e.redacted != "" {
        return d.(redacted := e.redacted);
      }
      if tags.suppress {
        return;
      }
      var delta := ChunkDelta.ComputeDelta(e.thinkingText, lastThinking);
      lastThinking := e.thinkingText;
      if delta != "" && !stop.local {
        var thinking := AccumulateThinking(delta);
        d := d.(thinking := thinking, stopSignal := stop.local);
      }
    }

    method RecordToolCall(call: ToolCall) returns (d: EventDelta)
      modifies `tools, `outputRuneCount, `stop
      ensures (View(), d) == RecordCall(cfg, old(View()), call)
    {
      tools := tools.(hasToolUse := true, calls := tools.calls + [call],
                      parseError := tools.parseError || !cfg.validJson(call.input));
      outputRuneCount := outputRuneCount + |call.input|;
      if cfg.maxTokens > 0 && outputRuneCount / 4 >= cfg.maxTokens {
        stop := stop.(local := true, reason := MaxTokens);
      }
      d := NOTHING.(tools := [call], stopSignal := stop.local);
    }

    method ProcessToolUseEvent(e: Event) returns (d: EventDelta)
      requires e.ToolUse?
      modifies this
      ensures (View(), d) == OnToolUse(cfg, old(View()), e)
    {
      d := NOTHING;
      if !e.stop || stop.local {
        return;
      }
      var call := ToolCall(e.id, if e.name in cfg.toolNames then cfg.toolNames[e.name] else e.name, e.input);
      if call.name == THINKING_TOOL {
        var thought := cfg.thoughtOf(e.input);
        if thought != "" {
          var thinking := AccumulateThinking(thought);
          d := NOTHING.(thinking := thinking, stopSignal := stop.local);
        }
      } else if cfg.dropTool != "" && e.name == cfg.dropTool {
        d := NOTHING.(tools := [call]);
      } else {
        match cfg.validate(call.name, e.input) {
          case Rejected(reason) =>
            tools := tools.(invalid := tools.invalid + [InvalidToolCall(call, reason)]);
          case Accepted(input) =>
            d := RecordToolCall(call.(input := input));
        }
      }
    }

    method ProcessEvent(e: Event) returns (d: EventDelta)
      modifies this
      ensures (View(), d) == Step(cfg, old(View()), e)
    {
      d := NOTHING;
      match e {
        case AssistantResponse(content) => d := ProcessAssistantEvent(content);
        case ReasoningContent(_, _, _) => d := ProcessReasoningEvent(e);
        case ToolUse(_, _, _, _) => d := ProcessToolUseEvent(e);
        case Metadata(tokens) => meta := meta.(hasMetadata := true, tokens := tokens);
        case Metering(input, output) =>
          if !meta.hasMetadata {
            meta := meta.(tokens := meta.tokens.(input := input, output := output));
          }
        case MessageMetadata(id) => meta := meta.(conversationId := id);
        case ContextUsage(p) => meta := meta.(hasContextUsage := true, contextPercentage := p);
        case InvalidState(_, _) => d := d.(isError := true);
        case Exception(_) => d := d.(isError := true);
        case Ignored =>
      }
    }

    method FinalizeThinkingTags() returns (textDelta: string, thinkingDelta: string)
      modifies `tags, `stopSeqPending, `stop, `outputRuneCount, `hasText, `textBuf, `thinkingBuf
      ensures (OutputView(), textDelta, thinkingDelta) == FlushTags(cfg, old(OutputView()), old(tags))
      ensures tags == old(tags).(buf := "")
    {
      textDelta, thinkingDelta := "", "";
      var buffered := tags.buf;
      tags := tags.(buf := "");
      if buffered != "" {
        if tags.inside {
          thinkingDelta := AccumulateThinking(buffered);
        } else {
          textDelta := AccumulateText(buffered);
        }
      }
    }

    method FlushStopSeqPending() returns (out: string)
      modifies `stopSeqPending, `stop, `outputRuneCount, `textBuf
      ensures Passed(OutputView(), out) == FlushPending(cfg, old(OutputView()))
    {
      var remaining := stopSeqPending;
      stopSeqPending, out := "", "";
      if remaining != "" && !stop.local {
        out := ApplyMaxTokensBudget(remaining);
        textBuf := textBuf + out;
      }
    }

    method FinalizeStream() returns (textDelta: string, thinkingDelta: string)
      modifies `tags, `stopSeqPending, `stop, `outputRuneCount, `hasText, `textBuf, `thinkingBuf
      ensures (View(), textDelta, thinkingDelta) == Finalize(cfg, old(View()))
    {
      textDelta, thinkingDelta := FinalizeThinkingTags();
      var rest := FlushStopSeqPending();
      textDelta := textDelta + rest;
    }
  }
}
