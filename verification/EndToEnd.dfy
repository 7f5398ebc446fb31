/** The pipeline as a whole: cumulative chunks, tag parsing, stop sequences and
    finalisation together compute a function of the complete upstream text,
    whatever the chunks were.
 */
module EndToEnd {
  import opened Text
  import opened Accumulator
  import opened Drivers
  import opened ChunkDelta
  import Tags = ThinkingTags
  import Stops = StopSequence
  import Transcript
  import Streaming

  /** Stop sequences as the accumulator's set-up prepares them. */
  predicate Prepared(cfg: Config)
  {
    Stops.NonEmpty(cfg.stops) && Stops.Suffices(cfg.keep, cfg.stops) && (cfg.stops == [] ==> cfg.keep == 0)
  }

  /** That many runes stay below the token limit, if there is one. */
  predicate Fits(cfg: Config, runes: nat)
  {
    cfg.maxTokens <= 0 || runes < 4 * cfg.maxTokens
  }

  /** The stop filter, running, has seen `seen`, and what it passed is counted. */
  ghost predicate Filtering(cfg: Config, o: Output, seen: string)
  {
    Stops.Tracks(cfg.stops, cfg.keep, Stops.Running(o.text, o.pending), seen) && o.stop == NO_STOP &&
    o.runes + |o.pending| == |seen| + |o.thinking|
  }

  /** A stop sequence was completed by `seen`. */
  ghost predicate FilterStopped(cfg: Config, o: Output, seen: string)
  {
    var k := Stops.FirstListed(cfg.stops, seen);
    k < |cfg.stops| && o.text == Before(seen, cfg.stops[k]) && o.pending == "" &&
    o.stop == Stop(true, StopSequence, cfg.stops[k])
  }

  lemma AddThinkingFits(cfg: Config, o: Output, s: string)
    requires Fits(cfg, o.runes + |s|)
    ensures AddThinking(cfg, o, s) == Passed(o.(thinking := o.thinking + s, runes := o.runes + |s|), s)
  {
  }

  lemma AddTextFilters(cfg: Config, o: Output, seen: string, text: string)
    requires Prepared(cfg) && Filtering(cfg, o, seen) && text != "" && Fits(cfg, |seen + text| + |o.thinking|)
    ensures var o' := AddText(cfg, o, text).o;
            o'.hasText && o'.thinking == o.thinking &&
            if Stops.ContainsAny(cfg.stops, seen + text) then FilterStopped(cfg, o', seen + text)
            else Filtering(cfg, o', seen + text)
  {
    var r := Stops.Running(o.text, o.pending);
    Stops.PushTracks(cfg.stops, cfg.keep, r, seen, text);
    if cfg.stops == [] {
      assert o.pending == "" && (o.text + text) + "" == seen + text;
    }
  }

  /** Accumulator and tag parser in step, nothing stopped. */
  ghost predicate InStep(cfg: Config, o: Output, tags: TagState, p: Tags.Stream)
  {
    Tags.Between(p) && Tags.BufferIsPartial(p) &&
    tags.buf == p.buf && tags.inside == p.inside &&
    o.hasText == p.hasText && o.thinking == p.thinking && Filtering(cfg, o, p.text)
  }

  ghost predicate InStepStopped(cfg: Config, o: Output, tags: TagState, p: Tags.Stream)
  {
    p.hasText && tags.buf == "" && o.thinking == p.thinking && FilterStopped(cfg, o, p.text)
  }

  lemma RouteInStep(cfg: Config, o: Output, p: Tags.Stream, thinking: string, text: string)
    requires Prepared(cfg) && Filtering(cfg, o, p.text) && o.hasText == p.hasText && o.thinking == p.thinking
    requires Fits(cfg, |p.text + text| + |p.thinking + thinking|)
    ensures var o' := Route(cfg, o, thinking, text).0;
            o'.hasText == (p.hasText || text != "") && o'.thinking == p.thinking + thinking &&
            if Stops.ContainsAny(cfg.stops, p.text + text) then FilterStopped(cfg, o', p.text + text)
            else Filtering(cfg, o', p.text + text)
  {
    AddThinkingFits(cfg, o, thinking);
    var th := if thinking == "" then Passed(o, "") else AddThinking(cfg, o, thinking);
    assert th.o.thinking == p.thinking + thinking;
    if text == "" {
      assert p.text + text == p.text;
    } else {
      AddTextFilters(cfg, th.o, p.text, text);
    }
  }

  lemma OnDeltaInStep(cfg: Config, o: Output, tags: TagState, p: Tags.Stream, delta: string)
    requires Prepared(cfg) && InStep(cfg, o, tags, p)
    requires Fits(cfg, |Tags.Feed(p, delta).text| + |Tags.Feed(p, delta).thinking|)
    ensures var (o', tags', _) := OnDelta(cfg, o, tags, delta);
            var p' := Tags.Feed(p, delta);
            InStep(cfg, o', tags', p') || InStepStopped(cfg, o', tags', p')
  {
    var r := Tags.Parse(p.buf, p.inside, !p.hasText, delta);
    assert o.text != "" ==> p.text != "";
    RouteInStep(cfg, o, p, r.thinking, r.text);
    ParseKeepsPartial(p, delta);
    if p.text == "" && Stops.ContainsAny(cfg.stops, p.text + r.text) {
      Stops.NothingInNothing(cfg.stops);
    }
    if r.text == "" {
      assert p.text + r.text == p.text;
    }
  }

  lemma ParseKeepsPartial(p: Tags.Stream, delta: string)
    requires Tags.Between(p)
    ensures Tags.BufferIsPartial(Tags.Feed(p, delta)) && Tags.Between(Tags.Feed(p, delta))
    ensures var r := Tags.Parse(p.buf, p.inside, !p.hasText, delta);
            r.text != "" ==> r.buf == "" && !r.inside
  {
    Tags.FastPathAgrees(p.buf, p.inside, !p.hasText, delta);
    Tags.ScanBuffer(p.buf + delta, p.inside, !p.hasText);
    if p.hasText {
      assert p.buf + delta == delta;
      Tags.ScanAfterText(delta);
    }
  }

  // ---------------------------------------------------------- all chunks

  /** Cumulative chunks of one upstream text. */
  ghost predicate Delivers(contents: seq<string>, full: string)
  {
    IsCumulative([""] + contents) && ([""] + contents)[|contents|] == full
  }

  function Responses(contents: seq<string>): seq<Event>
  {
    if contents == [] then [] else [AssistantResponse(contents[0])] + Responses(contents[1..])
  }

  /** Part of the upstream text is processed, `rest` is still to come, and the
      whole will mean `whole`. */
  ghost predicate Processing(cfg: Config, a: Acc, p: Tags.Stream, rest: string, whole: (string, string))
  {
    if a.out.stop.local then
      InStepStopped(cfg, a.out, a.tags, p) && p.text <= whole.0 && p.thinking == whole.1
    else
      InStep(cfg, a.out, a.tags, p) && Tags.SteadyFrom(p, rest) && Tags.Meaning(p, rest) == whole
  }

  /** The whole reply stays below the token limit, if there is one. */
  predicate Ample(cfg: Config, whole: (string, string))
  {
    Fits(cfg, |whole.0| + |whole.1|)
  }

  lemma MeaningHolds(p: Tags.Stream, rest: string)
    requires Tags.Between(p)
    ensures |p.text| <= |Tags.Meaning(p, rest).0| && |p.thinking| <= |Tags.Meaning(p, rest).1|
  {
  }

  lemma ChunkProcessed(cfg: Config, a: Acc, p: Tags.Stream, delta: string, rest: string, whole: (string, string))
    requires Prepared(cfg) && Ample(cfg, whole) && !a.out.stop.local && Processing(cfg, a, p, delta + rest, whole)
    ensures var (o', tags', _) := OnDelta(cfg, a.out, a.tags, delta);
            Processing(cfg, a.(out := o', tags := tags'), Tags.Feed(p, delta), rest, whole)
  {
    Tags.FeedMeaning(p, delta, rest);
    MeaningHolds(Tags.Feed(p, delta), rest);
    OnDeltaInStep(cfg, a.out, a.tags, p, delta);
  }

  lemma ResponseProcessed(cfg: Config, a: Acc, p: Tags.Stream, content: string, rest: string, whole: (string, string))
      returns (p': Tags.Stream)
    requires Prepared(cfg) && Ample(cfg, whole) && a.lastContent <= content
    requires Processing(cfg, a, p, content[|a.lastContent|..] + rest, whole)
    ensures var a' := Step(cfg, a, AssistantResponse(content)).0;
            a'.lastContent == content && Processing(cfg, a', p', rest, whole)
  {
    var delta := Delta(content, a.lastContent);
    assert delta == content[|a.lastContent|..];
    if a.out.stop.local || delta == "" {
      p' := p;
      if delta == "" {
        assert delta + rest == rest;
      }
    } else {
      p' := Tags.Feed(p, delta);
      ChunkProcessed(cfg, a, p, delta, rest, whole);
      var (o', tags', _) := OnDelta(cfg, a.out, a.tags, delta);
      ProcessingIgnores(cfg, a.(out := o', tags := tags'), Step(cfg, a, AssistantResponse(content)).0, p', rest, whole);
    }
  }

  lemma ProcessingIgnores(cfg: Config, a: Acc, b: Acc, p: Tags.Stream, rest: string, whole: (string, string))
    requires Processing(cfg, a, p, rest, whole) && a.out == b.out && a.tags == b.tags
    ensures Processing(cfg, b, p, rest, whole)
  {
  }

  lemma {:induction false} AllProcessed(cfg: Config, a: Acc, p: Tags.Stream, contents: seq<string>, full: string,
                                        whole: (string, string)) returns (p': Tags.Stream)
    requires Prepared(cfg) && Ample(cfg, whole)
    requires IsCumulative([a.lastContent] + contents) && ([a.lastContent] + contents)[|contents|] == full
    requires a.lastContent <= full && Processing(cfg, a, p, full[|a.lastContent|..], whole)
    ensures Processing(cfg, StepAll(cfg, a, Responses(contents)), p', "", whole)
    ensures StepAll(cfg, a, Responses(contents)).tools == a.tools
    decreases |contents|
  {
    if contents == [] {
      p' := p;
      assert full[|a.lastContent|..] == "";
    } else {
      var c, more := contents[0], contents[1..];
      var e := AssistantResponse(c);
      CumulativeTail(a.lastContent, contents, full);
      assert full[|a.lastContent|..] == c[|a.lastContent|..] + full[|c|..];
      p' := ResponseProcessed(cfg, a, p, c, full[|c|..], whole);
      StepAllFrom(cfg, a, e, Responses(more));
      p' := AllProcessed(cfg, Step(cfg, a, e).0, p', more, full, whole);
    }
  }

  /** Every chunk of a cumulative stream is a prefix of the last one. */
  lemma {:induction false} CumulativeTail(first: string, rest: seq<string>, full: string)
    requires IsCumulative([first] + rest) && ([first] + rest)[|rest|] == full
    ensures first <= full
    ensures rest != [] ==> first <= rest[0] <= full && IsCumulative([rest[0]] + rest[1..]) &&
                           ([rest[0]] + rest[1..])[|rest| - 1] == full
    decreases |rest|
  {
    if rest != [] {
      var all, tail := [first] + rest, [rest[0]] + rest[1..];
      assert all[0] <= all[1];
      assert tail == all[1..];
      forall i | 0 < i < |tail| ensures tail[i - 1] <= tail[i] {
        assert all[i] <= all[i + 1];
      }
      CumulativeTail(rest[0], rest[1..], full);
    }
  }

  // ----------------------------------------------------------- the end

  /** The text a settled stream shows, and the reason it ends for. */
  ghost function Expected(stops: seq<string>, text: string): (string, StopReason, string)
  {
    var k := Stops.FirstListed(stops, text);
    if k < |stops| then (Before(text, stops[k]), StopSequence, stops[k]) else (text, EndTurn, "")
  }

  /** The tag buffer is drained into text or thinking. */
  lemma TagsFlushed(cfg: Config, o: Output, tags: TagState, p: Tags.Stream)
    requires Prepared(cfg) && InStep(cfg, o, tags, p) && Ample(cfg, Tags.Flushed(p))
    ensures var o' := FlushTags(cfg, o, tags).0;
            var whole := Tags.Flushed(p);
            o'.thinking == whole.1 &&
            if Stops.ContainsAny(cfg.stops, whole.0) then FilterStopped(cfg, o', whole.0)
            else Filtering(cfg, o', whole.0)
  {
    if tags.buf == "" {
      assert p.text + "" == p.text && p.thinking + "" == p.thinking;
    } else if tags.inside {
      AddThinkingFits(cfg, o, tags.buf);
    } else {
      AddTextFilters(cfg, o, p.text, tags.buf);
    }
  }

  lemma PendingFlushed(cfg: Config, o: Output)
    requires o.stop.local || Fits(cfg, o.runes + |o.pending|)
    ensures var o' := FlushPending(cfg, o).o;
            o'.thinking == o.thinking && o'.stop == o.stop &&
            o'.text == if o.stop.local then o.text else o.text + o.pending
  {
    assert o.text + "" == o.text;
  }

  lemma Ending(cfg: Config, a: Acc, p: Tags.Stream, whole: (string, string))
    requires Prepared(cfg) && Ample(cfg, whole) && Processing(cfg, a, p, "", whole) && Stops.Settled(cfg.stops, whole.0)
    requires !a.tools.hasToolUse
    ensures var m := MessageOf(cfg, a);
            m.thinking == whole.1 && (m.text, m.reason, m.sequence) == Expected(cfg.stops, whole.0)
  {
    if a.out.stop.local {
      assert p.text == whole.0[..|p.text|];
      Stops.BeforeGrow(cfg.stops[Stops.FirstListed(cfg.stops, whole.0)], p.text, whole.0);
      PendingFlushed(cfg, a.out);
    } else {
      Tags.FlushedIsMeaning(p);
      TagsFlushed(cfg, a.out, a.tags, p);
      PendingFlushed(cfg, FlushTags(cfg, a.out, a.tags).0);
    }
  }

  /** Whatever the chunks of a cumulative upstream text, the reply is what the
      reference parser makes of the last one, cut before its stop sequence. */
  lemma ReplyIsFunctionOfText(cfg: Config, contents: seq<string>, full: string)
    requires Prepared(cfg) && Delivers(contents, full)
    requires Tags.Steady(full, false) && Ample(cfg, Tags.Reference(full, false))
    requires Stops.Settled(cfg.stops, Tags.Reference(full, false).0)
    ensures var (text, thinking) := Tags.Reference(full, false);
            var m := MessageOf(cfg, StepAll(cfg, FRESH, Responses(contents)));
            m.thinking == thinking && m.calls == [] &&
            (m.text, m.reason, m.sequence) == Expected(cfg.stops, text)
  {
    var whole := Tags.Reference(full, false);
    Stops.NothingInNothing(cfg.stops);
    assert full[|""|..] == full && "" + full == full && "" + whole.1 == whole.1;
    assert Processing(cfg, FRESH, Tags.START, full, whole);
    var p := AllProcessed(cfg, FRESH, Tags.START, contents, full, whole);
    Ending(cfg, StepAll(cfg, FRESH, Responses(contents)), p, whole);
  }

  lemma {:induction false} ResponsesHaveNoErrors(contents: seq<string>)
    ensures NoErrors(Responses(contents))
  {
    if contents != [] {
      ResponsesHaveNoErrors(contents[1..]);
    }
  }

  /** The same holds of what a client reads from the stream. */
  lemma StreamIsFunctionOfText(cfg: Config, contents: seq<string>, full: string)
    requires Prepared(cfg) && Delivers(contents, full)
    requires Tags.Steady(full, false) && Ample(cfg, Tags.Reference(full, false))
    requires Stops.Settled(cfg.stops, Tags.Reference(full, false).0)
    ensures var s := Streaming.Streamed(cfg, Streaming.Sse(FRESH, Streaming.NewWriter([])), Responses(contents)).0;
            var c := Transcript.Reading(s.w);
            var (text, reason, sequence) := Expected(cfg.stops, Tags.Reference(full, false).0);
            c.text == text && c.thinking == Tags.Reference(full, false).1 &&
            c.ending == [Streaming.MessageDelta(reason, sequence)]
  {
    ResponsesHaveNoErrors(contents);
    DriversAgree(cfg, Responses(contents));
    ReplyIsFunctionOfText(cfg, contents, full);
  }
}
