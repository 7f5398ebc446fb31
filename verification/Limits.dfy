/** What the token limit guarantees for whole responses: every rune is counted
    until the response stops, thinking never exceeds four runes per token, and a
    reply exceeds them exactly when the event that stops it passes too much.
 */
module Limits {
  import opened Accumulator
  import opened Streaming
  import Transcript
  import Drivers
  import ChunkDelta
  import Tags = ThinkingTags
  import TokenBudget

  function InputRunes(calls: seq<ToolCall>): nat
  {
    if calls == [] then 0 else InputRunes(calls[..|calls| - 1]) + |calls[|calls| - 1].input|
  }

  /** Until the response stops, the counter is the output so far, below the limit. */
  ghost predicate Counts(cfg: Config, o: Output, inputs: nat)
  {
    !o.stop.local ==>
      o.runes == |o.text| + |o.thinking| + inputs && (cfg.maxTokens > 0 ==> o.runes < 4 * cfg.maxTokens)
  }

  /** Thinking is counted always, and cut at the limit. */
  ghost predicate Bounded(cfg: Config, o: Output)
  {
    |o.thinking| <= o.runes && (cfg.maxTokens > 0 ==> |o.thinking| <= 4 * cfg.maxTokens)
  }

  ghost predicate Kept(cfg: Config, a: Acc)
  {
    Counts(cfg, a.out, InputRunes(a.tools.calls)) && Bounded(cfg, a.out)
  }

  lemma BudgetKeeps(cfg: Config, o: Output, delta: string)
    ensures var p := Budget(cfg, o, delta);
            p.o.runes == o.runes + |p.piece| && (o.stop.local ==> p.o.stop.local) &&
            (cfg.maxTokens > 0 ==> |p.piece| <= TokenBudget.Room(cfg.maxTokens, o.runes)) &&
            (cfg.maxTokens > 0 && !p.o.stop.local ==> p.o.runes < 4 * cfg.maxTokens) &&
            p.o.text == o.text && p.o.thinking == o.thinking
  {
  }

  lemma AddThinkingKeeps(cfg: Config, o: Output, thought: string, inputs: nat)
    requires Counts(cfg, o, inputs) && Bounded(cfg, o)
    ensures var p := AddThinking(cfg, o, thought); Counts(cfg, p.o, inputs) && Bounded(cfg, p.o)
  {
    BudgetKeeps(cfg, o, thought);
  }

  lemma AddTextKeeps(cfg: Config, o: Output, text: string, inputs: nat)
    requires Counts(cfg, o, inputs) && Bounded(cfg, o)
    ensures var p := AddText(cfg, o, text); Counts(cfg, p.o, inputs) && Bounded(cfg, p.o)
  {
    if text != "" {
      var seen := o.(hasText := true);
      var f := if cfg.stops == [] then Passed(seen, text) else FilterStops(cfg, seen, text);
      BudgetKeeps(cfg, f.o, f.piece);
    }
  }

  lemma OnDeltaKeeps(cfg: Config, o: Output, tags: TagState, delta: string, inputs: nat)
    requires Counts(cfg, o, inputs) && Bounded(cfg, o)
    ensures var o' := OnDelta(cfg, o, tags, delta).0; Counts(cfg, o', inputs) && Bounded(cfg, o')
  {
    var r := Tags.Parse(tags.buf, tags.inside, !o.hasText && o.text == "", delta);
    var th := if r.thinking == "" then Passed(o, "") else AddThinking(cfg, o, r.thinking);
    if r.thinking != "" {
      AddThinkingKeeps(cfg, o, r.thinking, inputs);
    }
    AddTextKeeps(cfg, th.o, r.text, inputs);
  }

  lemma RecordCallKeeps(cfg: Config, a: Acc, call: ToolCall)
    requires Kept(cfg, a)
    ensures Kept(cfg, RecordCall(cfg, a, call).0)
  {
    var calls := a.tools.calls;
    assert (calls + [call])[..|calls|] == calls;
  }

  lemma StepKeeps(cfg: Config, a: Acc, e: Event)
    requires Kept(cfg, a)
    ensures Kept(cfg, Step(cfg, a, e).0)
  {
    var n := InputRunes(a.tools.calls);
    match e {
      case AssistantResponse(content) =>
        OnDeltaKeeps(cfg, a.out, a.tags, ChunkDelta.Delta(content, a.lastContent), n);
      case ReasoningContent(thinking, _, _) =>
        AddThinkingKeeps(cfg, a.out, ChunkDelta.Delta(thinking, a.lastThinking), n);
      case ToolUse(_, _, _, _) => ToolKeeps(cfg, a, e);
      case _ =>
    }
  }

  lemma ToolKeeps(cfg: Config, a: Acc, e: Event)
    requires Kept(cfg, a) && e.ToolUse?
    ensures Kept(cfg, OnToolUse(cfg, a, e).0)
  {
    var call := ToolCall(e.id, Original(cfg, e.name), e.input);
    AddThinkingKeeps(cfg, a.out, cfg.thoughtOf(e.input), InputRunes(a.tools.calls));
    match cfg.validate(call.name, e.input) {
      case Accepted(normalized) => RecordCallKeeps(cfg, a, call.(input := normalized));
      case Rejected(_) =>
    }
  }

  /** In every run, as long as the response has not stopped, the counter is
      exactly the text, thinking and tool input produced, and below the limit;
      and thinking is within the limit throughout. */
  lemma {:induction false} RunCounts(cfg: Config, events: seq<Event>)
    ensures Kept(cfg, Drivers.StepAll(cfg, FRESH, events))
  {
    if events != [] {
      RunCounts(cfg, events[..|events| - 1]);
      StepKeeps(cfg, Drivers.StepAll(cfg, FRESH, events[..|events| - 1]), events[|events| - 1]);
    }
  }

  /** The thinking of every reply is within four runes per allowed token. */
  lemma ThinkingWithinLimit(cfg: Config, events: seq<Event>)
    requires cfg.maxTokens > 0
    ensures |Drivers.MessageOf(cfg, Drivers.StepAll(cfg, FRESH, events)).thinking| <= 4 * cfg.maxTokens
  {
    var a := Drivers.StepAll(cfg, FRESH, events);
    var n := InputRunes(a.tools.calls);
    RunCounts(cfg, events);
    AddThinkingKeeps(cfg, a.out, a.tags.buf, n);
    AddTextKeeps(cfg, a.out, a.tags.buf, n);
    var o := FlushTags(cfg, a.out, a.tags).0;
    BudgetKeeps(cfg, o.(pending := ""), o.pending);
  }

  // ------------------------------------------------- when replies exceed it

  /** Everything produced so far, in runes. */
  ghost function Produced(o: Output, inputs: nat): nat
  {
    |o.text| + |o.thinking| + inputs
  }

  ghost function Size(a: Acc): nat
  {
    Produced(a.out, InputRunes(a.tools.calls))
  }

  /** Text after the stop filter, before the budget. */
  ghost function Filtered(cfg: Config, o: Output, text: string): Passed
  {
    var seen := o.(hasText := true);
    if cfg.stops == [] then Passed(seen, text) else FilterStops(cfg, seen, text)
  }

  /** The text meets a stop that is already set, or completes a stop sequence, so
      that it is not budgeted, and it is more than there is room for. */
  ghost predicate TextOverruns(cfg: Config, o: Output, size: nat, text: string)
  {
    text != "" &&
    var f := Filtered(cfg, o, text);
    f.o.stop.local && size + |f.piece| > 4 * cfg.maxTokens
  }

  /** What thinking of the same event leaves before its text is added. */
  ghost function AfterThinking(cfg: Config, o: Output, thinking: string): Output
  {
    if thinking == "" then o else AddThinking(cfg, o, thinking).o
  }

  /** The input of the call an event records, if it records one. */
  ghost predicate Records(cfg: Config, e: Event, input: string)
  {
    e.ToolUse? && e.stop && Original(cfg, e.name) != THINKING_TOOL && !(cfg.dropTool != "" && e.name == cfg.dropTool) &&
    cfg.validate(Original(cfg, e.name), e.input) == Accepted(input)
  }

  /** The event stops the response with more output than there was room for:
      text behind thinking that used up the limit, text before a stop sequence,
      or a tool call, whose input is never cut. */
  ghost predicate Overruns(cfg: Config, a: Acc, e: Event)
  {
    !a.out.stop.local &&
    match e
    case AssistantResponse(content) =>
      var delta := ChunkDelta.Delta(content, a.lastContent);
      var r := Tags.Parse(a.tags.buf, a.tags.inside, !a.out.hasText && a.out.text == "", delta);
      var o := AfterThinking(cfg, a.out, r.thinking);
      delta != "" && TextOverruns(cfg, o, Produced(o, InputRunes(a.tools.calls)), r.text)
    case ToolUse(_, _, _, _) =>
      exists input :: Records(cfg, e, input) && Size(a) + |input| > 4 * cfg.maxTokens
    case _ => false
  }

  /** The tag buffer, drained as text at the end, is more than there is room for. */
  ghost predicate EndOverruns(cfg: Config, a: Acc)
  {
    !a.tags.inside && TextOverruns(cfg, a.out, Size(a), a.tags.buf)
  }

  /** A stopped response has no thinking left to add. */
  ghost predicate Drained(cfg: Config, a: Acc)
  {
    a.out.stop.local ==> a.tags.buf == "" || a.out.runes >= 4 * cfg.maxTokens
  }

  lemma AddThinkingSize(cfg: Config, o: Output, thought: string, inputs: nat)
    requires cfg.maxTokens > 0 && Counts(cfg, o, inputs) && Bounded(cfg, o)
    requires o.stop.local ==> o.runes >= 4 * cfg.maxTokens
    ensures var o' := AddThinking(cfg, o, thought).o;
            (Produced(o', inputs) > 4 * cfg.maxTokens <==> Produced(o, inputs) > 4 * cfg.maxTokens) &&
            (o'.stop.local ==> o'.runes >= 4 * cfg.maxTokens)
  {
    BudgetKeeps(cfg, o, thought);
  }

  lemma AddTextSize(cfg: Config, o: Output, text: string, inputs: nat)
    requires cfg.maxTokens > 0 && Counts(cfg, o, inputs) && Bounded(cfg, o)
    ensures Produced(AddText(cfg, o, text).o, inputs) > 4 * cfg.maxTokens <==>
            Produced(o, inputs) > 4 * cfg.maxTokens || TextOverruns(cfg, o, Produced(o, inputs), text)
  {
    if text != "" {
      var f := Filtered(cfg, o, text);
      BudgetKeeps(cfg, f.o, f.piece);
    }
  }

  lemma DeltaSize(cfg: Config, a: Acc, delta: string)
    requires cfg.maxTokens > 0 && Kept(cfg, a) && !a.out.stop.local && delta != ""
    ensures var r := Tags.Parse(a.tags.buf, a.tags.inside, !a.out.hasText && a.out.text == "", delta);
            var o, n := AfterThinking(cfg, a.out, r.thinking), InputRunes(a.tools.calls);
            var (o', tags', _) := OnDelta(cfg, a.out, a.tags, delta);
            (Produced(o', n) > 4 * cfg.maxTokens <==> TextOverruns(cfg, o, Produced(o, n), r.text)) &&
            (o'.stop.local ==> tags'.buf == "" || o'.runes >= 4 * cfg.maxTokens)
  {
    var n := InputRunes(a.tools.calls);
    var r := Tags.Parse(a.tags.buf, a.tags.inside, !a.out.hasText && a.out.text == "", delta);
    var o := AfterThinking(cfg, a.out, r.thinking);
    if r.thinking != "" {
      AddThinkingSize(cfg, a.out, r.thinking, n);
      AddThinkingKeeps(cfg, a.out, r.thinking, n);
    }
    AddTextSize(cfg, o, r.text, n);
    TextEmptiesBuffer(a.tags, !a.out.hasText && a.out.text == "", delta);
  }

  lemma TextEmptiesBuffer(tags: TagState, noText: bool, delta: string)
    ensures var r := Tags.Parse(tags.buf, tags.inside, noText, delta); r.text != "" ==> r.buf == ""
  {
    Tags.FastPathAgrees(tags.buf, tags.inside, noText, delta);
  }

  lemma ToolSize(cfg: Config, a: Acc, e: Event)
    requires cfg.maxTokens > 0 && Kept(cfg, a) && !a.out.stop.local && e.ToolUse?
    ensures var a' := Step(cfg, a, e).0;
            (Size(a') > 4 * cfg.maxTokens <==> Overruns(cfg, a, e)) && Drained(cfg, a')
  {
    var call := ToolCall(e.id, Original(cfg, e.name), e.input);
    AddThinkingSize(cfg, a.out, cfg.thoughtOf(e.input), InputRunes(a.tools.calls));
    match cfg.validate(call.name, e.input) {
      case Rejected(_) =>
      case Accepted(input) =>
        var calls := a.tools.calls;
        assert (calls + [call.(input := input)])[..|calls|] == calls;
        assert Records(cfg, e, input) ==> Step(cfg, a, e) == RecordCall(cfg, a, call.(input := input));
    }
  }

  lemma StepSize(cfg: Config, a: Acc, e: Event)
    requires cfg.maxTokens > 0 && Kept(cfg, a) && Drained(cfg, a)
    ensures var a' := Step(cfg, a, e).0;
            (Size(a') > 4 * cfg.maxTokens <==> Size(a) > 4 * cfg.maxTokens || Overruns(cfg, a, e)) && Drained(cfg, a')
  {
    if a.out.stop.local {
      Drivers.StoppedAbsorbs(cfg, a, e);
    } else {
      match e {
        case AssistantResponse(content) =>
          var delta := ChunkDelta.Delta(content, a.lastContent);
          if delta != "" {
            DeltaSize(cfg, a, delta);
          }
        case ReasoningContent(thinking, _, _) =>
          AddThinkingSize(cfg, a.out, ChunkDelta.Delta(thinking, a.lastThinking), InputRunes(a.tools.calls));
        case ToolUse(_, _, _, _) => ToolSize(cfg, a, e);
        case _ =>
      }
    }
  }

  /** Some event of the run overruns the limit. */
  ghost predicate SomeOverruns(cfg: Config, events: seq<Event>)
  {
    exists k :: 0 <= k < |events| && Overruns(cfg, Drivers.StepAll(cfg, FRESH, events[..k]), events[k])
  }

  lemma SomeOverrunsSnoc(cfg: Config, events: seq<Event>)
    requires events != []
    ensures var before, last := events[..|events| - 1], events[|events| - 1];
            SomeOverruns(cfg, events) <==>
            SomeOverruns(cfg, before) || Overruns(cfg, Drivers.StepAll(cfg, FRESH, before), last)
  {
    var n := |events| - 1;
    var before := events[..n];
    forall k | 0 <= k < n ensures before[..k] == events[..k] && before[k] == events[k] {
    }
    if SomeOverruns(cfg, before) {
      var k :| 0 <= k < n && Overruns(cfg, Drivers.StepAll(cfg, FRESH, before[..k]), before[k]);
      assert Overruns(cfg, Drivers.StepAll(cfg, FRESH, events[..k]), events[k]);
    }
    if SomeOverruns(cfg, events) {
      var k :| 0 <= k < |events| && Overruns(cfg, Drivers.StepAll(cfg, FRESH, events[..k]), events[k]);
      if k < n {
        assert Overruns(cfg, Drivers.StepAll(cfg, FRESH, before[..k]), before[k]);
      }
    }
  }

  lemma {:induction false} RunSize(cfg: Config, events: seq<Event>)
    requires cfg.maxTokens > 0
    ensures var a := Drivers.StepAll(cfg, FRESH, events);
            (Size(a) > 4 * cfg.maxTokens <==> SomeOverruns(cfg, events)) && Drained(cfg, a)
  {
    if events != [] {
      var before := events[..|events| - 1];
      RunSize(cfg, before);
      RunCounts(cfg, before);
      StepSize(cfg, Drivers.StepAll(cfg, FRESH, before), events[|events| - 1]);
      SomeOverrunsSnoc(cfg, events);
    }
  }

  lemma EndSize(cfg: Config, a: Acc)
    requires cfg.maxTokens > 0 && Kept(cfg, a) && Drained(cfg, a)
    ensures Size(Finalize(cfg, a).0) > 4 * cfg.maxTokens <==> Size(a) > 4 * cfg.maxTokens || EndOverruns(cfg, a)
  {
    var n := InputRunes(a.tools.calls);
    if a.tags.buf != "" && a.tags.inside {
      AddThinkingSize(cfg, a.out, a.tags.buf, n);
      AddThinkingKeeps(cfg, a.out, a.tags.buf, n);
    } else if a.tags.buf != "" {
      AddTextSize(cfg, a.out, a.tags.buf, n);
      AddTextKeeps(cfg, a.out, a.tags.buf, n);
    }
    var o := FlushTags(cfg, a.out, a.tags).0;
    BudgetKeeps(cfg, o.(pending := ""), o.pending);
  }

  /** The finished reply holds more than four runes per allowed token. */
  ghost predicate Exceeds(cfg: Config, events: seq<Event>)
  {
    Size(Finalize(cfg, Drivers.StepAll(cfg, FRESH, events)).0) > 4 * cfg.maxTokens
  }

  /** A finished reply holds more than four runes per allowed token exactly when
      one event, or the draining of the tag buffer at the end, passed more text
      behind a stop, or a longer tool input, than there was room for. */
  lemma ExceedsExactly(cfg: Config, events: seq<Event>)
    requires cfg.maxTokens > 0
    ensures Exceeds(cfg, events) <==>
            SomeOverruns(cfg, events) || EndOverruns(cfg, Drivers.StepAll(cfg, FRESH, events))
  {
    RunCounts(cfg, events);
    RunSize(cfg, events);
    EndSize(cfg, Drivers.StepAll(cfg, FRESH, events));
  }

  // --------------------------------------------------------- stops signalled

  /** An event that stops the response makes the streaming writer finish at once. */
  lemma StopIsSignalled(cfg: Config, s: Sse, e: Event)
    requires Kept(cfg, s.acc) && !s.acc.out.stop.local && !Transcript.IsErrorEvent(e)
    ensures Handled(cfg, s, e).1.FinishNow? <==> Step(cfg, s.acc, e).0.out.stop.local
  {
    if e.ReasoningContent? {
      ReasoningSignals(cfg, s, e);
    } else if e.ToolUse? {
      ToolSignals(cfg, s, e);
    }
  }

  lemma ReasoningSignals(cfg: Config, s: Sse, e: Event)
    requires Kept(cfg, s.acc) && !s.acc.out.stop.local && e.ReasoningContent?
    ensures var (a, d) := OnReasoning(cfg, s.acc, e); Put(s.w, e, d, a.signature).1.FinishNow? <==> a.out.stop.local
  {
    BudgetStops(cfg, s.acc.out, ChunkDelta.Delta(e.thinkingText, s.acc.lastThinking), InputRunes(s.acc.tools.calls));
  }

  lemma ToolSignals(cfg: Config, s: Sse, e: Event)
    requires Kept(cfg, s.acc) && !s.acc.out.stop.local && e.ToolUse?
    ensures var (a, d) := OnToolUse(cfg, s.acc, e); Put(s.w, e, d, a.signature).1.FinishNow? <==> a.out.stop.local
  {
    BudgetStops(cfg, s.acc.out, cfg.thoughtOf(e.input), InputRunes(s.acc.tools.calls));
  }

  /** Thinking that reaches the limit is not cut to nothing. */
  lemma BudgetStops(cfg: Config, o: Output, delta: string, inputs: nat)
    requires Counts(cfg, o, inputs) && !o.stop.local
    ensures var p := Budget(cfg, o, delta); p.o.stop.local && delta != "" ==> p.piece != ""
  {
  }

  /** The streaming driver finishes early exactly when the accumulator, fed with
      all events, has stopped. */
  lemma {:induction false} FinishesWhenStopped(cfg: Config, s: Sse, events: seq<Event>)
    requires Kept(cfg, s.acc) && !s.acc.out.stop.local && Drivers.NoErrors(events)
    ensures HandledAll(cfg, s, events).1.FinishNow? <==> Drivers.StepAll(cfg, s.acc, events).out.stop.local
    decreases |events|
  {
    if events != [] {
      var e, rest := events[0], events[1..];
      var a := Step(cfg, s.acc, e).0;
      assert events == [e] + rest && e in events;
      Drivers.StepAllFrom(cfg, s.acc, e, rest);
      Drivers.EventKeepsMessage(cfg, s, e, rest);
      StopIsSignalled(cfg, s, e);
      if a.out.stop.local {
        Drivers.StoppedAbsorbsAll(cfg, a, rest);
      } else {
        StepKeeps(cfg, s.acc, e);
        FinishesWhenStopped(cfg, Handled(cfg, s, e).0, rest);
      }
    }
  }
}
