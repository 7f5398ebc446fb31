/** Events of different kinds in one stream. Without a token limit the visible text
    depends on the assistant's text alone, thinking is woven from reasoning and the
    thinking tool in the order of arrival, and once the text has opened a thinking
    tag, reasoning events are not counted a second time.
 */
module Interleaving {
  import opened Accumulator
  import opened Drivers
  import opened Reasoning
  import T = Text
  import ChunkDelta
  import Tags = ThinkingTags
  import Stops = StopSequence
  import EndToEnd

  // ------------------------------------------------------- text and the others

  ghost predicate SameShown(o: Output, o': Output)
  {
    o.text == o'.text && o.hasText == o'.hasText && o.pending == o'.pending && o.stop == o'.stop
  }

  /** Everything the visible text depends on and is. */
  ghost predicate SameText(a: Acc, b: Acc)
  {
    a.lastContent == b.lastContent && a.tags == b.tags && SameShown(a.out, b.out)
  }

  /** The contents of the assistant's events. */
  function Contents(events: seq<Event>): seq<string>
  {
    if events == [] then []
    else
      var before, e := Contents(events[..|events| - 1]), events[|events| - 1];
      if e.AssistantResponse? then before + [e.content] else before
  }

  lemma {:induction false} ResponsesSnoc(contents: seq<string>, c: string)
    ensures EndToEnd.Responses(contents + [c]) == EndToEnd.Responses(contents) + [AssistantResponse(c)]
  {
    if contents != [] {
      ResponsesSnoc(contents[1..], c);
      assert (contents + [c])[1..] == contents[1..] + [c];
    }
  }

  lemma OtherKeepsText(cfg: Config, a: Acc, e: Event)
    requires cfg.maxTokens <= 0 && !e.AssistantResponse?
    ensures SameText(a, Step(cfg, a, e).0)
  {
  }

  lemma AddThinkingSame(cfg: Config, o: Output, o': Output, thinking: string, thinking': string)
    requires cfg.maxTokens <= 0 && SameShown(o, o')
    ensures SameShown(AddThinking(cfg, o, thinking).o, AddThinking(cfg, o', thinking').o)
  {
  }

  lemma BudgetSame(cfg: Config, o: Output, o': Output, text: string)
    requires cfg.maxTokens <= 0 && SameShown(o, o')
    ensures var p, p' := BudgetText(cfg, o, text), BudgetText(cfg, o', text); p.piece == p'.piece == text && SameShown(p.o, p'.o)
  {
  }

  lemma AddTextSame(cfg: Config, o: Output, o': Output, text: string)
    requires cfg.maxTokens <= 0 && SameShown(o, o')
    ensures SameShown(AddText(cfg, o, text).o, AddText(cfg, o', text).o)
  {
    if text != "" {
      var seen, seen' := o.(hasText := true), o'.(hasText := true);
      var f := if cfg.stops == [] then Passed(seen, text) else FilterStops(cfg, seen, text);
      var f' := if cfg.stops == [] then Passed(seen', text) else FilterStops(cfg, seen', text);
      BudgetSame(cfg, f.o, f'.o, f.piece);
    }
  }

  lemma OnDeltaSame(cfg: Config, o: Output, o': Output, tags: TagState, delta: string)
    requires cfg.maxTokens <= 0 && SameShown(o, o')
    ensures var (p, t, _) := OnDelta(cfg, o, tags, delta);
            var (p', t', _) := OnDelta(cfg, o', tags, delta);
            SameShown(p, p') && t == t'
  {
    var r := Tags.Parse(tags.buf, tags.inside, !o.hasText && o.text == "", delta);
    if r.thinking == "" {
      AddTextSame(cfg, o, o', r.text);
    } else {
      AddThinkingSame(cfg, o, o', r.thinking, r.thinking);
      AddTextSame(cfg, AddThinking(cfg, o, r.thinking).o, AddThinking(cfg, o', r.thinking).o, r.text);
    }
  }

  lemma ResponseSameText(cfg: Config, a: Acc, b: Acc, content: string)
    requires cfg.maxTokens <= 0 && SameText(a, b)
    ensures SameText(Step(cfg, a, AssistantResponse(content)).0, Step(cfg, b, AssistantResponse(content)).0)
  {
    OnDeltaSame(cfg, a.out, b.out, a.tags, ChunkDelta.Delta(content, a.lastContent));
  }

  lemma SameTextOn(a: Acc, b: Acc, c: Acc)
    requires SameText(a, b) && SameText(b, c)
    ensures SameText(a, c) && SameText(c, a)
  {
  }

  /** Without a limit, the text state of any run is that of the assistant's events
      alone. */
  lemma {:induction false} TextIgnoresOthers(cfg: Config, events: seq<Event>)
    requires cfg.maxTokens <= 0
    ensures SameText(StepAll(cfg, FRESH, events), StepAll(cfg, FRESH, EndToEnd.Responses(Contents(events))))
  {
    if events != [] {
      var n := |events| - 1;
      var e, a, b := events[n], StepAll(cfg, FRESH, events[..n]), StepAll(cfg, FRESH, EndToEnd.Responses(Contents(events[..n])));
      TextIgnoresOthers(cfg, events[..n]);
      if e.AssistantResponse? {
        ResponseSameText(cfg, a, b, e.content);
        ResponsesSnoc(Contents(events[..n]), e.content);
        StepAllSnoc(cfg, FRESH, EndToEnd.Responses(Contents(events[..n])), e);
      } else {
        OtherKeepsText(cfg, a, e);
        SameTextOn(Step(cfg, a, e).0, a, b);
      }
    }
  }

  lemma StepAllSnoc(cfg: Config, a: Acc, events: seq<Event>, e: Event)
    ensures StepAll(cfg, a, events + [e]) == Step(cfg, StepAll(cfg, a, events), e).0
  {
    assert (events + [e])[..|events|] == events;
  }

  lemma FlushTagsSame(cfg: Config, o: Output, o': Output, tags: TagState)
    requires cfg.maxTokens <= 0 && SameShown(o, o')
    ensures SameShown(FlushTags(cfg, o, tags).0, FlushTags(cfg, o', tags).0)
  {
    AddTextSame(cfg, o, o', tags.buf);
    AddThinkingSame(cfg, o, o', tags.buf, tags.buf);
  }

  lemma FlushPendingSame(cfg: Config, o: Output, o': Output)
    requires cfg.maxTokens <= 0 && SameShown(o, o')
    ensures SameShown(FlushPending(cfg, o).o, FlushPending(cfg, o').o)
  {
  }

  lemma FinalSameText(cfg: Config, a: Acc, b: Acc)
    requires cfg.maxTokens <= 0 && SameText(a, b)
    ensures MessageOf(cfg, a).text == MessageOf(cfg, b).text
    ensures Finalize(cfg, a).0.out.stop == Finalize(cfg, b).0.out.stop
  {
    FlushTagsSame(cfg, a.out, b.out, a.tags);
    FlushPendingSame(cfg, FlushTags(cfg, a.out, a.tags).0, FlushTags(cfg, b.out, b.tags).0);
  }

  /** Without a limit: for any events at all, if the assistant's cumulative text is
      steady and its stops settled, the reply's text is that text's visible part up
      to its stop sequence, whatever reasoning, tool calls and metadata arrive in
      between. */
  lemma TextOfAnyRun(cfg: Config, events: seq<Event>, full: string)
    requires cfg.maxTokens <= 0 && EndToEnd.Prepared(cfg) && EndToEnd.Delivers(Contents(events), full)
    requires Tags.Steady(full, false) && Stops.Settled(cfg.stops, Tags.Reference(full, false).0)
    ensures MessageOf(cfg, StepAll(cfg, FRESH, events)).text ==
            EndToEnd.Expected(cfg.stops, Tags.Reference(full, false).0).0
  {
    var alone := EndToEnd.Responses(Contents(events));
    TextIgnoresOthers(cfg, events);
    FinalSameText(cfg, StepAll(cfg, FRESH, events), StepAll(cfg, FRESH, alone));
    EndToEnd.ReplyIsFunctionOfText(cfg, Contents(events), full);
  }

  // --------------------------------------------------------- woven thinking

  /** A completed call of the thinking tool. */
  predicate Ponders(cfg: Config, e: Event)
  {
    e.ToolUse? && e.stop && Original(cfg, e.name) == THINKING_TOOL
  }

  /** What each event adds to the thinking, in order. */
  function Woven(cfg: Config, events: seq<Event>): string
  {
    if events == [] then ""
    else
      var before, e := events[..|events| - 1], events[|events| - 1];
      Woven(cfg, before) +
      if Reasons(e) && |LastThought(before)| <= |e.thinkingText| then e.thinkingText[|LastThought(before)|..]
      else if Ponders(cfg, e) then cfg.thoughtOf(e.input)
      else ""
  }

  predicate NoTags(events: seq<Event>)
  {
    forall e | e in events && e.AssistantResponse? :: '<' !in e.content
  }

  ghost predicate Weaves(cfg: Config, events: seq<Event>, a: Acc)
  {
    a.tags == NO_TAGS &&
    (!a.out.stop.local ==> a.lastThinking == LastThought(events) && a.out.thinking == Woven(cfg, events))
  }

  lemma WeaveStep(cfg: Config, a: Acc, e: Event, thought: string)
    requires cfg.maxTokens <= 0 && a.tags == NO_TAGS && !a.out.stop.local && a.lastThinking == thought
    requires e.AssistantResponse? ==> '<' !in e.content
    requires Reasons(e) ==> thought <= e.thinkingText
    ensures var a' := Step(cfg, a, e).0;
            a'.tags == NO_TAGS && a'.lastThinking == (if Reasons(e) then e.thinkingText else thought) &&
            a'.out.thinking == a.out.thinking + (if Reasons(e) then e.thinkingText[|thought|..]
                                                 else if Ponders(cfg, e) then cfg.thoughtOf(e.input) else "")
  {
    assert a.out.thinking + "" == a.out.thinking;
    if Plain(cfg, e) && !Reasons(e) {
      PlainStep(cfg, a, e);
    } else if Reasons(e) {
      assert ChunkDelta.Delta(e.thinkingText, thought) == e.thinkingText[|thought|..];
    }
  }

  lemma StoppedKeepsTags(cfg: Config, a: Acc, e: Event)
    requires a.out.stop.local
    ensures Step(cfg, a, e).0.tags == a.tags && Step(cfg, a, e).0.out == a.out
  {
  }

  /** Without a limit and without tags in the text: until a stop sequence is found the
      thinking is exactly what reasoning and the thinking tool add, in their order. */
  lemma {:induction false} ThinkingIsWoven(cfg: Config, events: seq<Event>)
    requires cfg.maxTokens <= 0 && NoTags(events) && Chain(events)
    ensures Weaves(cfg, events, StepAll(cfg, FRESH, events))
  {
    if events != [] {
      var n := |events| - 1;
      var a, e := StepAll(cfg, FRESH, events[..n]), events[n];
      ChainBefore(events);
      assert NoTags(events[..n]) && e in events;
      ThinkingIsWoven(cfg, events[..n]);
      if a.out.stop.local {
        StoppedKeepsTags(cfg, a, e);
      } else {
        WeaveStep(cfg, a, e, LastThought(events[..n]));
      }
    }
  }

  // -------------------------------------------------- tags and reasoning events

  /** The events without reasoning in plain words. */
  function WithoutReasoning(events: seq<Event>): seq<Event>
  {
    if events == [] then []
    else
      var before, e := WithoutReasoning(events[..|events| - 1]), events[|events| - 1];
      if Reasons(e) then before else before + [e]
  }

  ghost predicate SameReply(a: Acc, b: Acc)
  {
    SameCore(a, b) && a.lastContent == b.lastContent && (a.tags.suppress <==> b.tags.suppress)
  }

  lemma SuppressedStep(cfg: Config, a: Acc, b: Acc, e: Event)
    requires a.tags.suppress && SameReply(a, b)
    ensures Step(cfg, a, e).0.tags.suppress && SameReply(Step(cfg, a, e).0, if Reasons(e) then b else Step(cfg, b, e).0)
  {
  }

  /** Once a thinking tag has been seen in the text, reasoning events change nothing
      in the reply. */
  lemma {:induction false} SuppressedReasoning(cfg: Config, a: Acc, events: seq<Event>)
    requires a.tags.suppress
    ensures var b := StepAll(cfg, a, events);
            b.tags.suppress && SameReply(b, StepAll(cfg, a, WithoutReasoning(events)))
  {
    if events != [] {
      var n := |events| - 1;
      var less := WithoutReasoning(events[..n]);
      SuppressedReasoning(cfg, a, events[..n]);
      SuppressedStep(cfg, StepAll(cfg, a, events[..n]), StepAll(cfg, a, less), events[n]);
      StepAllSnoc(cfg, a, less, events[n]);
    }
  }

  /** The text so far is the beginning of a tag, held back whole. */
  ghost predicate Opening(a: Acc, seen: string)
  {
    seen < Tags.OPEN && a.tags == TagState(seen, false, false) && !a.out.hasText && a.out.text == "" &&
    a.lastContent == seen && !a.out.stop.local
  }

  lemma OpeningStep(cfg: Config, a: Acc, seen: string, content: string)
    requires Opening(a, seen) && seen <= content && (content <= Tags.OPEN || Tags.OPEN <= content)
    ensures var a' := Step(cfg, a, AssistantResponse(content)).0;
            if Tags.OPEN <= content then a'.tags.suppress else Opening(a', content)
  {
    var delta := ChunkDelta.Delta(content, seen);
    assert seen + delta == content;
    if delta != "" {
      Tags.FastPathAgrees(seen, false, true, delta);
      if Tags.OPEN <= content {
        Tags.ScanOpenMeaning(content, "");
      } else {
        PartialTag(content);
      }
    }
  }

  /** A proper beginning of the tag is held back. */
  lemma PartialTag(s: string)
    requires s != "" && s < Tags.OPEN
    ensures Tags.Scan(s, false, true) == Tags.Parsed(s, false, false, "", "")
  {
    assert T.IsOverlap(s, Tags.OPEN, |s|) by {
      assert s[|s| - |s|..] == s == Tags.OPEN[..|s|];
    }
    assert T.Overlap(s, Tags.OPEN) == |s|;
    assert s[0..] == s && s[..0] == "";
  }

  /** Text that begins with a thinking tag, in whatever chunks. */
  lemma {:induction false} TagIsSeen(cfg: Config, contents: seq<string>, shown: string)
    requires EndToEnd.Delivers(contents, shown) && (shown <= Tags.OPEN || Tags.OPEN <= shown)
    ensures var a := StepAll(cfg, FRESH, EndToEnd.Responses(contents));
            if Tags.OPEN <= shown then a.tags.suppress else Opening(a, shown)
  {
    if contents == [] {
      assert shown == "";
    } else {
      var n := |contents| - 1;
      var before, c := contents[..n], contents[n];
      var prior := ([""] + contents)[n];
      DeliversBefore(contents, shown);
      assert contents == before + [c];
      ResponsesSnoc(before, c);
      var a := StepAll(cfg, FRESH, EndToEnd.Responses(before));
      StepAllSnoc(cfg, FRESH, EndToEnd.Responses(before), AssistantResponse(c));
      TagIsSeen(cfg, before, prior);
      if Tags.OPEN <= prior {
        SuppressedStep(cfg, a, a, AssistantResponse(c));
      } else {
        OpeningStep(cfg, a, prior, c);
      }
    }
  }

  lemma DeliversBefore(contents: seq<string>, shown: string)
    requires contents != [] && EndToEnd.Delivers(contents, shown)
    ensures var n := |contents| - 1;
            var prior := ([""] + contents)[n];
            shown == contents[n] && EndToEnd.Delivers(contents[..n], prior) && prior <= shown
  {
    var n := |contents| - 1;
    var all := [""] + contents;
    assert [""] + contents[..n] == all[..n + 1];
    assert all[n] <= all[n + 1];
  }

  lemma {:induction false} StepAllJoins(cfg: Config, a: Acc, x: seq<Event>, y: seq<Event>)
    ensures StepAll(cfg, a, x + y) == StepAll(cfg, StepAll(cfg, a, x), y)
  {
    if y == [] {
      assert x + y == x;
    } else {
      var n := |y| - 1;
      StepAllJoins(cfg, a, x, y[..n]);
      assert (x + y)[..|x + y| - 1] == x + y[..n];
    }
  }

  /** Thinking is not counted twice: after text that begins with a thinking tag, in
      whatever chunks, the reply is the same with and without the reasoning events
      that follow. */
  lemma TagsWin(cfg: Config, contents: seq<string>, shown: string, rest: seq<Event>)
    requires EndToEnd.Delivers(contents, shown) && Tags.OPEN <= shown
    ensures var begun := EndToEnd.Responses(contents);
            MessageOf(cfg, StepAll(cfg, FRESH, begun + rest)) ==
            MessageOf(cfg, StepAll(cfg, FRESH, begun + WithoutReasoning(rest)))
  {
    var begun := EndToEnd.Responses(contents);
    var a := StepAll(cfg, FRESH, begun);
    TagIsSeen(cfg, contents, shown);
    StepAllJoins(cfg, FRESH, begun, rest);
    StepAllJoins(cfg, FRESH, begun, WithoutReasoning(rest));
    SuppressedReasoning(cfg, a, rest);
    MessageOfCore(cfg, StepAll(cfg, a, rest), StepAll(cfg, a, WithoutReasoning(rest)));
  }
}
