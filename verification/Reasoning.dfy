/** Reasoning events among others: cumulative reasoning is shown once and whole, cut
    at the token limit; it is not shown beside tagged thinking; and without a limit
    the visible text does not depend on any of it.
 */
module Reasoning {
  import opened Accumulator
  import opened Drivers
  import opened Records
  import opened TokenBudget
  import ChunkDelta
  import Limits
  import Transcript

  // ------------------------------------------------------ cumulative reasoning

  /** An event that carries reasoning in plain words. */
  predicate Reasons(e: Event)
  {
    e.ReasoningContent? && e.redacted == ""
  }

  /** An event that adds no thinking but by reasoning: visible text without tags, and
      no call of the thinking tool. */
  predicate Plain(cfg: Config, e: Event)
  {
    match e
    case AssistantResponse(content) => '<' !in content
    case ToolUse(name, _, _, _) => Original(cfg, name) != THINKING_TOOL
    case _ => true
  }

  predicate AllPlain(cfg: Config, events: seq<Event>)
  {
    forall e | e in events :: Plain(cfg, e)
  }

  /** The last reasoning text, "" if there is none. */
  function LastThought(events: seq<Event>): string
  {
    if events == [] then ""
    else if Reasons(events[|events| - 1]) then events[|events| - 1].thinkingText
    else LastThought(events[..|events| - 1])
  }

  /** Each reasoning text repeats the one before it and may go on. */
  predicate Chain(events: seq<Event>)
  {
    forall k | 0 <= k < |events| && Reasons(events[k]) :: LastThought(events[..k]) <= events[k].thinkingText
  }

  lemma ChainBefore(events: seq<Event>)
    requires events != [] && Chain(events)
    ensures Chain(events[..|events| - 1])
    ensures var n := |events| - 1; Reasons(events[n]) ==> LastThought(events[..n]) <= events[n].thinkingText
  {
    var n := |events| - 1;
    forall k | 0 <= k < n && Reasons(events[..n][k]) ensures LastThought(events[..n][..k]) <= events[..n][k].thinkingText {
      assert events[..n][..k] == events[..k];
    }
  }

  lemma PlainBefore(cfg: Config, events: seq<Event>)
    requires events != [] && AllPlain(cfg, events)
    ensures AllPlain(cfg, events[..|events| - 1]) && Plain(cfg, events[|events| - 1])
  {
  }

  const NO_TAGS := TagState("", false, false)

  lemma NoAngleInDelta(chunk: string, previous: string)
    requires '<' !in chunk
    ensures '<' !in ChunkDelta.Delta(chunk, previous)
  {
  }

  /** Events without reasoning leave thinking alone. */
  lemma PlainStep(cfg: Config, a: Acc, e: Event)
    requires Plain(cfg, e) && !Reasons(e) && a.tags == NO_TAGS
    ensures var a' := Step(cfg, a, e).0;
            a'.tags == NO_TAGS && a'.lastThinking == a.lastThinking && a'.out.thinking == a.out.thinking
  {
    if e.AssistantResponse? {
      var delta := ChunkDelta.Delta(e.content, a.lastContent);
      NoAngleInDelta(e.content, a.lastContent);
      Transcript.AddTextReports(cfg, a.out, delta);
    }
  }

  /** Room for thinking beside the text and tool inputs recorded. */
  ghost function ThinkingRoom(cfg: Config, a: Acc): int
  {
    4 * cfg.maxTokens - |a.out.text| - Limits.InputRunes(a.tools.calls)
  }

  ghost function CutThought(cfg: Config, a: Acc, thought: string): string
  {
    if cfg.maxTokens <= 0 then thought else Prefix(thought, ThinkingRoom(cfg, a))
  }

  lemma ReasoningStep(cfg: Config, a: Acc, e: Event)
    requires Reasons(e) && a.tags == NO_TAGS && !a.out.stop.local && Limits.Kept(cfg, a)
    requires a.lastThinking == a.out.thinking <= e.thinkingText
    ensures var a' := Step(cfg, a, e).0;
            a'.tags == NO_TAGS && a'.lastThinking == e.thinkingText && a'.out.text == a.out.text && a'.tools == a.tools &&
            a'.out.thinking == CutThought(cfg, a, e.thinkingText) &&
            (!a'.out.stop.local ==> a'.out.thinking == e.thinkingText)
  {
    var delta := ChunkDelta.Delta(e.thinkingText, a.lastThinking);
    Continues(a.lastThinking, e.thinkingText);
    if delta != "" {
      BudgetCuts(cfg, a.out, delta, Limits.InputRunes(a.tools.calls));
    } else {
      WholeFits(cfg, a);
    }
  }

  lemma Continues(previous: string, chunk: string)
    requires previous <= chunk
    ensures previous + ChunkDelta.Delta(chunk, previous) == chunk
  {
  }

  lemma WholeFits(cfg: Config, a: Acc)
    requires !a.out.stop.local && Limits.Kept(cfg, a)
    ensures CutThought(cfg, a, a.out.thinking) == a.out.thinking
  {
  }

  lemma BudgetCuts(cfg: Config, o: Output, delta: string, inputs: nat)
    requires !o.stop.local && Limits.Counts(cfg, o, inputs)
    ensures var p := AddThinking(cfg, o, delta);
            p.o.thinking == (if cfg.maxTokens <= 0 then o.thinking + delta
                             else Prefix(o.thinking + delta, 4 * cfg.maxTokens - |o.text| - inputs)) &&
            (!p.o.stop.local ==> p.o.thinking == o.thinking + delta) && p.o.text == o.text
  {
    if cfg.maxTokens > 0 {
      var room := Room(cfg.maxTokens, o.runes);
      if |delta| >= room {
        assert (o.thinking + delta)[..|o.thinking| + room] == o.thinking + delta[..room];
      }
    }
  }

  /** The last event heard carries reasoning. */
  predicate EndsReasoning(events: seq<Event>)
  {
    events != [] && Reasons(events[|events| - 1])
  }

  /** What a plain run has of its reasoning. */
  ghost predicate HasReasoning(cfg: Config, events: seq<Event>, a: Acc)
  {
    a.tags == NO_TAGS &&
    (!a.out.stop.local ==> a.lastThinking == a.out.thinking == LastThought(events)) &&
    a.out.thinking == if EndsReasoning(Heard(cfg, events)) then CutThought(cfg, a, LastThought(Heard(cfg, events)))
                      else LastThought(Heard(cfg, events))
  }

  lemma {:induction false} PlainRun(cfg: Config, events: seq<Event>)
    requires AllPlain(cfg, events) && Chain(events)
    ensures HasReasoning(cfg, events, StepAll(cfg, FRESH, events))
  {
    if events != [] {
      var n := |events| - 1;
      ChainBefore(events);
      PlainBefore(cfg, events);
      PlainRun(cfg, events[..n]);
      PlainRunNext(cfg, events);
    }
  }

  lemma PlainRunNext(cfg: Config, events: seq<Event>)
    requires events != [] && Plain(cfg, events[|events| - 1])
    requires var n := |events| - 1;
             HasReasoning(cfg, events[..n], StepAll(cfg, FRESH, events[..n])) &&
             (Reasons(events[n]) ==> LastThought(events[..n]) <= events[n].thinkingText)
    ensures HasReasoning(cfg, events, StepAll(cfg, FRESH, events))
  {
    var n := |events| - 1;
    var a := StepAll(cfg, FRESH, events[..n]);
    assert StepAll(cfg, FRESH, events) == Step(cfg, a, events[n]).0;
    if a.out.stop.local {
      StoppedAbsorbs(cfg, a, events[n]);
      SameThought(cfg, a, StepAll(cfg, FRESH, events), LastThought(Heard(cfg, events)));
    } else {
      Limits.RunCounts(cfg, events[..n]);
      NextThought(cfg, a, events[n], LastThought(events[..n]));
      assert Heard(cfg, events) == events;
    }
  }

  lemma SameThought(cfg: Config, a: Acc, b: Acc, thought: string)
    requires SameCore(a, b)
    ensures CutThought(cfg, a, thought) == CutThought(cfg, b, thought)
  {
  }

  lemma NextThought(cfg: Config, a: Acc, e: Event, thought: string)
    requires Plain(cfg, e) && a.tags == NO_TAGS && !a.out.stop.local && Limits.Kept(cfg, a)
    requires a.lastThinking == a.out.thinking == thought && (Reasons(e) ==> thought <= e.thinkingText)
    ensures var a' := Step(cfg, a, e).0;
            a'.tags == NO_TAGS &&
            if Reasons(e) then
              a'.lastThinking == e.thinkingText && a'.out.thinking == CutThought(cfg, a', e.thinkingText) &&
              (!a'.out.stop.local ==> a'.out.thinking == e.thinkingText)
            else a'.lastThinking == a'.out.thinking == thought
  {
    if Reasons(e) {
      ReasoningStep(cfg, a, e);
    } else {
      PlainStep(cfg, a, e);
    }
  }

  lemma NothingBuffered(cfg: Config, a: Acc)
    requires a.tags == NO_TAGS
    ensures MessageOf(cfg, a).thinking == a.out.thinking
  {
    Transcript.FinalizeReports(cfg, a);
    assert a.out.thinking + "" == a.out.thinking;
  }

  /** Cumulative reasoning, with any other events in between that add no thinking: the
      reply's thinking is the last reasoning text heard, whole, or cut at the limit
      if that text reached it. */
  lemma ReasoningExactly(cfg: Config, events: seq<Event>)
    requires AllPlain(cfg, events) && Chain(events)
    ensures var a, heard := StepAll(cfg, FRESH, events), Heard(cfg, events);
            MessageOf(cfg, a).thinking ==
            if EndsReasoning(heard) then CutThought(cfg, a, LastThought(heard)) else LastThought(heard)
  {
    PlainRun(cfg, events);
    NothingBuffered(cfg, StepAll(cfg, FRESH, events));
  }

  /** In particular the last reasoning text of all, if the response was not stopped. */
  lemma ReasoningWhole(cfg: Config, events: seq<Event>)
    requires AllPlain(cfg, events) && Chain(events) && !StepAll(cfg, FRESH, events).out.stop.local
    ensures MessageOf(cfg, StepAll(cfg, FRESH, events)).thinking == LastThought(events)
  {
    PlainRun(cfg, events);
    NothingBuffered(cfg, StepAll(cfg, FRESH, events));
  }

  /** An event that shows nothing: no visible text and no tool call. */
  predicate Silent(e: Event)
  {
    !e.AssistantResponse? && !e.ToolUse?
  }

  predicate AllSilent(events: seq<Event>)
  {
    forall e | e in events :: Silent(e)
  }

  lemma SilentBefore(events: seq<Event>)
    requires events != [] && AllSilent(events)
    ensures AllSilent(events[..|events| - 1]) && Silent(events[|events| - 1])
  {
  }

  lemma SilentStep(cfg: Config, a: Acc, e: Event)
    requires Silent(e)
    ensures var a' := Step(cfg, a, e).0; a'.out.text == a.out.text && a'.tools == a.tools && Plain(cfg, e)
  {
  }

  lemma {:induction false} SilentRun(cfg: Config, events: seq<Event>)
    requires AllSilent(events)
    ensures var a := StepAll(cfg, FRESH, events); a.out.text == "" && a.tools.calls == []
  {
    if events != [] {
      var n := |events| - 1;
      SilentBefore(events);
      SilentRun(cfg, events[..n]);
      SilentStep(cfg, StepAll(cfg, FRESH, events[..n]), events[n]);
    }
  }

  lemma SilentIsPlain(cfg: Config, events: seq<Event>)
    requires AllSilent(events)
    ensures AllPlain(cfg, events)
  {
    forall e | e in events ensures Plain(cfg, e) {
      assert Silent(e);
    }
  }

  lemma {:induction false} ThoughtsGrow(events: seq<Event>, n: nat)
    requires Chain(events) && n <= |events|
    ensures LastThought(events[..n]) <= LastThought(events)
  {
    if n == |events| {
      assert events[..n] == events;
    } else {
      var m := |events| - 1;
      ChainBefore(events);
      ThoughtsGrow(events[..m], n);
      assert events[..m][..n] == events[..n];
    }
  }

  /** Reasoning alone: exactly the first runes of the last text that the limit allows. */
  lemma ReasoningAlone(cfg: Config, events: seq<Event>)
    requires AllSilent(events) && Chain(events)
    ensures var m := MessageOf(cfg, StepAll(cfg, FRESH, events));
            m.thinking == if cfg.maxTokens <= 0 then LastThought(events) else Prefix(LastThought(events), 4 * cfg.maxTokens)
  {
    var a, heard := StepAll(cfg, FRESH, events), Heard(cfg, events);
    SilentRun(cfg, events);
    SilentIsPlain(cfg, events);
    ReasoningExactly(cfg, events);
    PlainRun(cfg, events);
    Limits.RunCounts(cfg, events);
    HeardDecides(cfg, events);
    assert heard == events[..|heard|];
    ThoughtsGrow(events, |heard|);
    if a.out.stop.local {
      SilentStops(cfg, events);
    }
  }

  /** A silent run is stopped by reasoning that reaches the limit, only. */
  lemma {:induction false} SilentStops(cfg: Config, events: seq<Event>)
    requires AllSilent(events) && Chain(events) && StepAll(cfg, FRESH, events).out.stop.local
    ensures cfg.maxTokens > 0 && EndsReasoning(Heard(cfg, events)) && |LastThought(Heard(cfg, events))| >= 4 * cfg.maxTokens
  {
    if events != [] {
      var n := |events| - 1;
      var a := StepAll(cfg, FRESH, events[..n]);
      ChainBefore(events);
      SilentBefore(events);
      if a.out.stop.local {
        SilentStops(cfg, events[..n]);
      } else {
        SilentRun(cfg, events[..n]);
        SilentIsPlain(cfg, events[..n]);
        PlainRun(cfg, events[..n]);
        Limits.RunCounts(cfg, events[..n]);
        StopByThought(cfg, a, events[n]);
      }
    }
  }

  lemma StopByThought(cfg: Config, a: Acc, e: Event)
    requires Silent(e) && a.tags == NO_TAGS && !a.out.stop.local && Limits.Kept(cfg, a) && a.out.text == "" && a.tools.calls == []
    requires a.lastThinking == a.out.thinking && (Reasons(e) ==> a.lastThinking <= e.thinkingText)
    requires Step(cfg, a, e).0.out.stop.local
    ensures cfg.maxTokens > 0 && Reasons(e) && |e.thinkingText| >= 4 * cfg.maxTokens
  {
    if Reasons(e) {
      Continues(a.lastThinking, e.thinkingText);
    }
  }
}
