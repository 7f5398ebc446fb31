/** What a whole run of events records, told from the events alone: the tool calls
    of the events heard until the stop, the latest of everything that is overwritten,
    and the reason the reply ends for.
 */
module Records {
  import opened Accumulator
  import opened Drivers
  import ChunkDelta
  import Tags = ThinkingTags
  import Transcript
  import ToolCalls

  // --------------------------------------------------------- the events heard

  /** The events up to the one that stops the response, or all. */
  ghost function Heard(cfg: Config, events: seq<Event>): seq<Event>
  {
    if events == [] then []
    else
      var before := events[..|events| - 1];
      if StepAll(cfg, FRESH, before).out.stop.local then Heard(cfg, before) else events
  }

  lemma {:induction false} HeardDecides(cfg: Config, events: seq<Event>)
    ensures Heard(cfg, events) <= events && SameCore(StepAll(cfg, FRESH, Heard(cfg, events)), StepAll(cfg, FRESH, events))
    ensures Heard(cfg, events) != events ==> StepAll(cfg, FRESH, events).out.stop.local
  {
    if events != [] {
      var n := |events| - 1;
      var before := events[..n];
      HeardDecides(cfg, before);
      if StepAll(cfg, FRESH, before).out.stop.local {
        StoppedAbsorbs(cfg, StepAll(cfg, FRESH, before), events[n]);
      }
    }
  }

  // --------------------------------------------------------------- tool calls

  /** The name the client knows a tool by. */
  function Restored(cfg: Config, name: string): string
  {
    if name in cfg.toolNames then cfg.toolNames[name] else name
  }

  /** An event that is to become a tool call. */
  predicate Calls(cfg: Config, e: Event)
  {
    e.ToolUse? && e.stop && Restored(cfg, e.name) != THINKING_TOOL && !(cfg.dropTool != "" && e.name == cfg.dropTool)
  }

  /** The call of an event: its id, the original name of its tool and the normalised
      input, if the input is valid. */
  function CallOf(cfg: Config, e: Event): seq<ToolCall>
  {
    if !Calls(cfg, e) then []
    else
      match cfg.validate(Restored(cfg, e.name), e.input)
      case Accepted(input) => [ToolCall(e.id, Restored(cfg, e.name), input)]
      case Rejected(_) => []
  }

  function RejectedOf(cfg: Config, e: Event): seq<InvalidToolCall>
  {
    if !Calls(cfg, e) then []
    else
      match cfg.validate(Restored(cfg, e.name), e.input)
      case Accepted(_) => []
      case Rejected(reason) => [InvalidToolCall(ToolCall(e.id, Restored(cfg, e.name), e.input), reason)]
  }

  function CallsOf(cfg: Config, events: seq<Event>): seq<ToolCall>
  {
    if events == [] then [] else CallsOf(cfg, events[..|events| - 1]) + CallOf(cfg, events[|events| - 1])
  }

  function AllRejected(cfg: Config, events: seq<Event>): seq<InvalidToolCall>
  {
    if events == [] then [] else AllRejected(cfg, events[..|events| - 1]) + RejectedOf(cfg, events[|events| - 1])
  }

  predicate ToolsTell(cfg: Config, t: Tools)
  {
    (t.hasToolUse <==> t.calls != []) && (t.parseError <==> exists c :: c in t.calls && !cfg.validJson(c.input))
  }

  lemma StepTools(cfg: Config, a: Acc, e: Event)
    requires !a.out.stop.local && ToolsTell(cfg, a.tools)
    ensures var t := Step(cfg, a, e).0.tools;
            t.calls == a.tools.calls + CallOf(cfg, e) && t.invalid == a.tools.invalid + RejectedOf(cfg, e) && ToolsTell(cfg, t)
  {
    assert a.tools.calls + [] == a.tools.calls && a.tools.invalid + [] == a.tools.invalid;
    if CallOf(cfg, e) != [] {
      var call := CallOf(cfg, e)[0];
      assert Step(cfg, a, e) == RecordCall(cfg, a, call);
      RecordedTools(cfg, a, call);
    }
  }

  lemma RecordedTools(cfg: Config, a: Acc, call: ToolCall)
    requires ToolsTell(cfg, a.tools)
    ensures ToolsTell(cfg, RecordCall(cfg, a, call).0.tools)
  {
    var calls := a.tools.calls + [call];
    assert call in calls && forall c | c in a.tools.calls :: c in calls;
  }

  /** Every run: the calls recorded are those of the events heard, in order, with the
      original names and normalised inputs; invalid ones are withheld in order. */
  lemma {:induction false} ToolsExactly(cfg: Config, events: seq<Event>)
    ensures var t, heard := StepAll(cfg, FRESH, events).tools, Heard(cfg, events);
            t.calls == CallsOf(cfg, heard) && t.invalid == AllRejected(cfg, heard) && ToolsTell(cfg, t)
  {
    if events != [] {
      var n := |events| - 1;
      var a := StepAll(cfg, FRESH, events[..n]);
      ToolsExactly(cfg, events[..n]);
      if a.out.stop.local {
        StoppedAbsorbs(cfg, a, events[n]);
      } else {
        HeardDecides(cfg, events[..n]);
        StepTools(cfg, a, events[n]);
      }
    }
  }

  // ------------------------------------------------------ the latest of a kind

  /** The last event of a kind stands at `k`. */
  ghost predicate LastAt(events: seq<Event>, k: nat, kind: Event -> bool)
  {
    k < |events| && kind(events[k]) && forall j | k < j < |events| :: !kind(events[j])
  }

  predicate NoneOf(events: seq<Event>, kind: Event -> bool)
  {
    forall j | 0 <= j < |events| :: !kind(events[j])
  }

  /** `x` is what `of` says of the last event of the kind, or `default`. */
  ghost predicate Latest<T(!new)>(events: seq<Event>, kind: Event -> bool, of: Event -> T, default: T, x: T)
  {
    (NoneOf(events, kind) ==> x == default) && forall k: nat | LastAt(events, k, kind) :: x == of(events[k])
  }

  lemma LatestNext<T(!new)>(events: seq<Event>, kind: Event -> bool, of: Event -> T, default: T, x: T, x': T)
    requires events != [] && Latest(events[..|events| - 1], kind, of, default, x)
    requires var e := events[|events| - 1]; if kind(e) then x' == of(e) else x' == x
    ensures Latest(events, kind, of, default, x')
  {
    var n := |events| - 1;
    var before := events[..n];
    assert forall j | 0 <= j < n :: before[j] == events[j];
    if !kind(events[n]) {
      assert NoneOf(events, kind) ==> NoneOf(before, kind);
      forall k: nat | LastAt(events, k, kind) ensures LastAt(before, k, kind) {
      }
    }
  }

  const IsResponse := (e: Event) => e.AssistantResponse?
  const IsSignature := (e: Event) => e.ReasoningContent? && e.signature != ""
  const IsConversation := (e: Event) => e.MessageMetadata?
  const IsContextUsage := (e: Event) => e.ContextUsage?
  const IsMetadata := (e: Event) => e.Metadata?
  const IsMetering := (e: Event) => e.Metering?

  const ContentOf := (e: Event) => if e.AssistantResponse? then e.content else ""
  const SignatureOf := (e: Event) => if e.ReasoningContent? then e.signature else ""
  const ConversationOf := (e: Event) => if e.MessageMetadata? then e.conversationId else ""
  const PercentageOf := (e: Event) => if e.ContextUsage? then e.percentage else 0.0
  const TokensOf := (e: Event) => if e.Metadata? then e.tokens else Tokens(0, 0, 0, 0)
  const MeteredOf := (e: Event) => if e.Metering? then Tokens(e.inputTokens, e.outputTokens, 0, 0) else Tokens(0, 0, 0, 0)

  /** Content and signature. */
  lemma {:induction false} LatestText(cfg: Config, events: seq<Event>)
    ensures var a := StepAll(cfg, FRESH, events);
            Latest(events, IsResponse, ContentOf, "", a.lastContent) && Latest(events, IsSignature, SignatureOf, "", a.signature)
  {
    if events != [] {
      var n := |events| - 1;
      var a, a' := StepAll(cfg, FRESH, events[..n]), StepAll(cfg, FRESH, events);
      LatestText(cfg, events[..n]);
      StepLatest(cfg, a, events[n]);
      LatestNext(events, IsResponse, ContentOf, "", a.lastContent, a'.lastContent);
      LatestNext(events, IsSignature, SignatureOf, "", a.signature, a'.signature);
    }
  }

  lemma StepLatest(cfg: Config, a: Acc, e: Event)
    ensures var a' := Step(cfg, a, e).0;
            a'.lastContent == (if IsResponse(e) then ContentOf(e) else a.lastContent) &&
            a'.signature == (if IsSignature(e) then SignatureOf(e) else a.signature)
  {
  }

  /** What upstream told about the conversation: the latest of each, and token counts
      from the last metadata event or, without any, from the last metering event. */
  ghost predicate MetaTells(events: seq<Event>, m: Meta)
  {
    Latest(events, IsConversation, ConversationOf, "", m.conversationId) &&
    Latest(events, IsContextUsage, PercentageOf, 0.0, m.contextPercentage) &&
    (m.hasContextUsage <==> !NoneOf(events, IsContextUsage)) && (m.hasMetadata <==> !NoneOf(events, IsMetadata)) &&
    if m.hasMetadata then Latest(events, IsMetadata, TokensOf, Tokens(0, 0, 0, 0), m.tokens)
    else Latest(events, IsMetering, MeteredOf, Tokens(0, 0, 0, 0), m.tokens)
  }

  lemma NoneNext(events: seq<Event>, kind: Event -> bool)
    requires events != []
    ensures var n := |events| - 1; NoneOf(events, kind) <==> NoneOf(events[..n], kind) && !kind(events[n])
  {
    var n := |events| - 1;
    assert forall j | 0 <= j < n :: events[..n][j] == events[j];
  }

  lemma MetaNext(events: seq<Event>, m: Meta, m': Meta)
    requires events != [] && MetaTells(events[..|events| - 1], m)
    requires var e := events[|events| - 1];
             m' == match e
                   case Metadata(tokens) => m.(hasMetadata := true, tokens := tokens)
                   case Metering(input, output) => MeteredTokens(m, input, output)
                   case MessageMetadata(id) => m.(conversationId := id)
                   case ContextUsage(p) => m.(hasContextUsage := true, contextPercentage := p)
                   case _ => m
    requires !m.hasMetadata ==> m.tokens.cacheRead == m.tokens.cacheWrite == 0
    ensures MetaTells(events, m')
  {
    var n := |events| - 1;
    var none := Tokens(0, 0, 0, 0);
    NoneNext(events, IsContextUsage);
    NoneNext(events, IsMetadata);
    LatestNext(events, IsConversation, ConversationOf, "", m.conversationId, m'.conversationId);
    LatestNext(events, IsContextUsage, PercentageOf, 0.0, m.contextPercentage, m'.contextPercentage);
    if m.hasMetadata {
      LatestNext(events, IsMetadata, TokensOf, none, m.tokens, m'.tokens);
    } else if m'.hasMetadata {
      FirstOfKind(events, IsMetadata, TokensOf, none);
    } else {
      LatestNext(events, IsMetering, MeteredOf, none, m.tokens, m'.tokens);
    }
  }

  lemma FirstOfKind<T(!new)>(events: seq<Event>, kind: Event -> bool, of: Event -> T, default: T)
    requires events != [] && NoneOf(events[..|events| - 1], kind) && kind(events[|events| - 1])
    ensures Latest(events, kind, of, default, of(events[|events| - 1]))
  {
    var n := |events| - 1;
    assert forall j | 0 <= j < n :: events[..n][j] == events[j];
  }

  lemma {:induction false} MetaExactly(cfg: Config, events: seq<Event>)
    ensures var m := StepAll(cfg, FRESH, events).meta;
            MetaTells(events, m) && (!m.hasMetadata ==> m.tokens.cacheRead == m.tokens.cacheWrite == 0)
  {
    if events != [] {
      var n := |events| - 1;
      MetaExactly(cfg, events[..n]);
      StepMeta(cfg, StepAll(cfg, FRESH, events[..n]), events[n]);
      MetaNext(events, StepAll(cfg, FRESH, events[..n]).meta, StepAll(cfg, FRESH, events).meta);
    }
  }

  lemma StepMeta(cfg: Config, a: Acc, e: Event)
    ensures Step(cfg, a, e).0.meta ==
            match e
            case Metadata(tokens) => a.meta.(hasMetadata := true, tokens := tokens)
            case Metering(input, output) => MeteredTokens(a.meta, input, output)
            case MessageMetadata(id) => a.meta.(conversationId := id)
            case ContextUsage(p) => a.meta.(hasContextUsage := true, contextPercentage := p)
            case _ => a.meta
  {
  }

  // -------------------------------------------------------------- stop reasons

  /** A stop has a cause: the limit was reached, or a listed sequence was found. */
  ghost predicate Caused(cfg: Config, o: Output)
  {
    match o.stop.reason
    case Unset => !o.stop.local
    case MaxTokens => o.stop.local && cfg.maxTokens > 0 && o.runes >= 4 * cfg.maxTokens
    case StopSequence => o.stop.local && o.stop.sequence in cfg.stops
    case _ => false
  }

  lemma BudgetCaused(cfg: Config, o: Output, delta: string)
    requires Caused(cfg, o)
    ensures Caused(cfg, Budget(cfg, o, delta).o)
  {
  }

  lemma AddTextCaused(cfg: Config, o: Output, text: string)
    requires Caused(cfg, o)
    ensures Caused(cfg, AddText(cfg, o, text).o)
  {
    if text != "" {
      var seen := o.(hasText := true);
      var f := if cfg.stops == [] then Passed(seen, text) else FilterStops(cfg, seen, text);
      BudgetCaused(cfg, f.o, f.piece);
    }
  }

  lemma StepCaused(cfg: Config, a: Acc, e: Event)
    requires Caused(cfg, a.out)
    ensures Caused(cfg, Step(cfg, a, e).0.out)
  {
    match e {
      case AssistantResponse(_) => ResponseCaused(cfg, a, e);
      case ReasoningContent(text, _, _) =>
        BudgetCaused(cfg, a.out, ChunkDelta.Delta(text, a.lastThinking));
      case ToolUse(_, _, input, _) => BudgetCaused(cfg, a.out, cfg.thoughtOf(input));
      case _ =>
    }
  }

  lemma ResponseCaused(cfg: Config, a: Acc, e: Event)
    requires Caused(cfg, a.out) && e.AssistantResponse?
    ensures Caused(cfg, OnAssistantResponse(cfg, a, e.content).0.out)
  {
    var r := Tags.Parse(a.tags.buf, a.tags.inside, !a.out.hasText && a.out.text == "",
                        ChunkDelta.Delta(e.content, a.lastContent));
    BudgetCaused(cfg, a.out, r.thinking);
    AddTextCaused(cfg, if r.thinking == "" then a.out else AddThinking(cfg, a.out, r.thinking).o, r.text);
  }

  lemma {:induction false} RunCaused(cfg: Config, events: seq<Event>)
    ensures Caused(cfg, StepAll(cfg, FRESH, events).out)
  {
    if events != [] {
      RunCaused(cfg, events[..|events| - 1]);
      StepCaused(cfg, StepAll(cfg, FRESH, events[..|events| - 1]), events[|events| - 1]);
    }
  }

  lemma FinalizeCaused(cfg: Config, a: Acc)
    requires Caused(cfg, a.out)
    ensures Caused(cfg, Finalize(cfg, a).0.out)
  {
    BudgetCaused(cfg, a.out, a.tags.buf);
    AddTextCaused(cfg, a.out, a.tags.buf);
    var o := FlushTags(cfg, a.out, a.tags).0;
    BudgetCaused(cfg, o.(pending := ""), o.pending);
  }

  /** Why a reply ends: at a listed stop sequence, at the limit, or else for its tool
      calls if it has any and because its turn is over if it has none. */
  lemma ReasonExactly(cfg: Config, events: seq<Event>)
    ensures var o := Finalize(cfg, StepAll(cfg, FRESH, events)).0.out;
            var m := MessageOf(cfg, StepAll(cfg, FRESH, events));
            (m.reason == ToolUseStop <==> !o.stop.local && m.calls != []) &&
            (m.reason == EndTurn <==> !o.stop.local && m.calls == []) &&
            (m.reason == MaxTokens ==> cfg.maxTokens > 0 && o.runes >= 4 * cfg.maxTokens) &&
            (m.reason == StopSequence ==> m.sequence in cfg.stops) && (m.reason != StopSequence ==> m.sequence == "") &&
            m.reason != Unset
  {
    var a := StepAll(cfg, FRESH, events);
    RunCaused(cfg, events);
    FinalizeCaused(cfg, a);
    ToolsExactly(cfg, events);
    Transcript.FinalizeReports(cfg, a);
    ToolCalls.DedupDistinct(cfg.canonicalJson, a.tools.calls);
  }
}
