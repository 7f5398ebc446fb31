/** Concrete runs that show where the response pipeline does less than one might
    expect: replies beyond the token limit on each of the four ways there are, a
    reply without visible text that still depends on the chunking, and a repeated
    call that is streamed twice and buffered once.
 */
module Witnesses {
  import opened Text
  import opened Accumulator
  import opened Limits
  import opened LimitedText
  import opened EndToEnd
  import Drivers
  import Streaming
  import Transcript
  import ToolCalls
  import Stops = StopSequence
  import Tags = ThinkingTags

  /** No tools to drop or rename, every input accepted as it is. */
  function Plain(maxTokens: int, stops: seq<string>): Config
  {
    Config(stops, 0, maxTokens, "", map[], _ => "", (name, input) => Accepted(input), _ => true, input => input)
  }

  function Many(n: nat): (s: string)
    ensures |s| == n && forall c | c in s :: c == 'a'
  {
    if n == 0 then "" else Many(n - 1) + "a"
  }

  // ------------------------------------------------------------------ thoughts

  function Thought(t: string, rest: string): string
  {
    OPEN + (t + (CLOSE + rest))
  }

  lemma ClosesThere(t: string, rest: string)
    requires forall c | c in t :: c != '<'
    ensures var s := t + (CLOSE + rest);
            Contains(s, CLOSE) && IndexOf(s, CLOSE) == |t| && s[..|t|] == t && s[|t| + |CLOSE|..] == rest
  {
    var s := t + (CLOSE + rest);
    assert s[|t|..|t| + |CLOSE|] == CLOSE;
    assert OccursAt(s, CLOSE, |t|);
    assert forall i | 0 <= i < |t| :: s[i] == t[i] && t[i] in t;
    forall i | OccursAt(s, CLOSE, i) ensures s[i] == '<' {
      assert s[i] == s[i..i + |CLOSE|][0];
    }
  }

  lemma ThoughtMeans(t: string, rest: string)
    requires forall c | c in t :: c != '<'
    ensures var s := Thought(t, rest);
            Tags.Reference(s, false) == (Tags.Reference(rest, false).0, t + Tags.Reference(rest, false).1) &&
            Tags.Steady(s, false) == Tags.Steady(rest, false) &&
            Lead(s, false) == if rest == "" then 0 else |t| + Lead(rest, false)
  {
    var s, body := Thought(t, rest), t + (CLOSE + rest);
    assert OPEN <= s && s[|OPEN|..] == body;
    ClosesThere(t, rest);
    OpenIsSteady(s);
  }

  lemma OpenIsSteady(s: string)
    requires OPEN <= s
    ensures Tags.Steady(s, false) == Tags.Steady(s[|OPEN|..], true)
  {
    assert s[0] == OPEN[0] == '<';
  }

  // --------------------------------------------------- beyond the token limit

  /** The size of a reply without calls. */
  lemma SizeOfReply(cfg: Config, events: seq<Event>)
    ensures var m := Drivers.MessageOf(cfg, Drivers.StepAll(cfg, FRESH, events));
            |m.text| + |m.thinking| > 4 * cfg.maxTokens ==> Exceeds(cfg, events)
  {
  }

  /** Text behind thinking that used up the limit in the same event: for every
      text in one chunk whose thinking reaches the limit before it. */
  lemma ExceedsBehindThinking(cfg: Config, full: string)
    requires Limited(cfg) && Tags.Steady(full, false)
    requires Tags.Reference(full, false).0 != "" && |Tags.Reference(full, false).1| >= 4 * cfg.maxTokens
    ensures Exceeds(cfg, Responses([full]))
  {
    LeadBeforeText(full, false);
    OneChunk(cfg, full);
    SizeOfReply(cfg, Responses([full]));
  }

  /** Such texts exist for every limit. */
  lemma SomeTextExceeds(n: nat)
    requires n > 0
    ensures Exceeds(Plain(n, []), Responses([Thought(Many(4 * n), "b")]))
  {
    ThoughtMeans(Many(4 * n), "b");
    TextAlone("b");
    ExceedsBehindThinking(Plain(n, []), Thought(Many(4 * n), "b"));
  }

  lemma TextAlone(c: string)
    requires |c| == 1
    ensures Tags.Reference(c, false) == (c, "") && Tags.Steady(c, false)
  {
  }

  lemma NoAngle(s: string)
    requires forall c | c in s :: c != '<'
    ensures !Contains(s, "<")
  {
    assert forall i | 0 <= i < |s| :: s[i] in s;
    forall i | OccursAt(s, "<", i) ensures s[i] == '<' {
      assert s[i..i + 1][0] == s[i];
    }
  }

  /** Text before a stop sequence completed in the same event. */
  lemma ExceedsBeforeStop(n: nat)
    requires n > 0
    ensures Exceeds(Plain(n, ["X"]), [AssistantResponse(Many(4 * n + 1) + "X")])
  {
    var cfg, t := Plain(n, ["X"]), Many(4 * n + 1);
    var s, e := t + "X", AssistantResponse(t + "X");
    StopsThere(t);
    PlainDelta(cfg, s);
    assert TextOverruns(cfg, NO_OUTPUT, 0, s) by {
      assert "" + s == s;
    }
    assert [e][..0] == [] && Overruns(cfg, Drivers.StepAll(cfg, FRESH, [e][..0]), [e][0]);
    ExceedsExactly(cfg, [e]);
  }

  lemma PlainDelta(cfg: Config, s: string)
    requires s != "" && forall c | c in s :: c != '<'
    ensures var r := Tags.Parse("", false, true, s); r.text == s && r.thinking == "" && r.buf == ""
    ensures Overruns(cfg, FRESH, AssistantResponse(s)) <==> TextOverruns(cfg, NO_OUTPUT, 0, s)
  {
    NoAngle(s);
  }

  lemma StopsThere(t: string)
    requires forall c | c in t :: c == 'a'
    ensures Stops.Filter(["X"], 0, t + "X") == Stops.Stopped(t, 0)
  {
    var s := t + "X";
    assert forall i | 0 <= i < |t| :: s[i] == t[i] && t[i] in t;
    assert s[|t|..|t| + 1] == "X";
    assert OccursAt(s, "X", |t|);
    forall i | OccursAt(s, "X", i) ensures s[i] == 'X' {
      assert s[i] == s[i..i + 1][0];
    }
    assert s[..|t|] == t && ["X"][0] == "X";
    assert Stops.FirstListed(["X"], s) == 0;
  }

  /** A tool call, whose input is never cut. */
  lemma ExceedsByToolInput(n: nat)
    requires n > 0
    ensures Exceeds(Plain(n, []), [ToolUse("t", "1", Many(4 * n + 1), true)])
  {
    var cfg, e := Plain(n, []), ToolUse("t", "1", Many(4 * n + 1), true);
    assert Records(cfg, e, Many(4 * n + 1));
    assert [e][..0] == [] && Overruns(cfg, Drivers.StepAll(cfg, FRESH, [e][..0]), [e][0]);
    ExceedsExactly(cfg, [e]);
  }

  /** The tag buffer, drained as text after the response has stopped. */
  lemma ExceedsAtTheEnd(n: nat)
    requires n > 0
    ensures Exceeds(Plain(n, []), [AssistantResponse("<"), ToolUse("t", "1", Many(4 * n), true)])
  {
    var cfg := Plain(n, []);
    var e, f := AssistantResponse("<"), ToolUse("t", "1", Many(4 * n), true);
    TwoSteps(cfg, e, f);
    AfterAngle(cfg);
    var a := Step(cfg, FRESH, e).0;
    assert Records(cfg, f, Many(4 * n));
    DrainedAfterTool(cfg, a, f, Many(4 * n));
    ExceedsExactly(cfg, [e, f]);
  }

  lemma TwoSteps(cfg: Config, e: Event, f: Event)
    ensures Drivers.StepAll(cfg, FRESH, [e, f]) == Step(cfg, Step(cfg, FRESH, e).0, f).0
  {
    assert [e, f][..1] == [e] && [e][..0] == [];
    assert Drivers.StepAll(cfg, FRESH, []) == FRESH;
  }

  /** A call that fills the limit leaves the tag buffer to be drained. */
  lemma DrainedAfterTool(cfg: Config, a: Acc, e: Event, input: string)
    requires cfg.maxTokens > 0 && cfg.stops == [] && Records(cfg, e, input) && |input| == 4 * cfg.maxTokens
    requires a == FRESH.(lastContent := "<", tags := TagState("<", false, false))
    ensures EndOverruns(cfg, Step(cfg, a, e).0)
  {
    var call := ToolCall(e.id, Original(cfg, e.name), input);
    RecordsCall(cfg, a, e, input);
    FillsLimit(cfg, a, call);
  }

  lemma RecordsCall(cfg: Config, a: Acc, e: Event, input: string)
    requires Records(cfg, e, input) && !a.out.stop.local
    ensures Step(cfg, a, e).0 == RecordCall(cfg, a, ToolCall(e.id, Original(cfg, e.name), input)).0
  {
  }

  lemma FillsLimit(cfg: Config, a: Acc, call: ToolCall)
    requires cfg.maxTokens > 0 && cfg.stops == [] && |call.input| == 4 * cfg.maxTokens
    requires a == FRESH.(lastContent := "<", tags := TagState("<", false, false))
    ensures EndOverruns(cfg, RecordCall(cfg, a, call).0)
  {
    var b := RecordCall(cfg, a, call).0;
    OneInput(call);
    assert b.out.stop.local && b.out.text == "" && b.out.thinking == "" && b.tags == a.tags;
    assert b.tools.calls == [call];
  }

  lemma OneInput(call: ToolCall)
    ensures InputRunes([call]) == |call.input|
  {
    assert [call][..0] == [];
    assert InputRunes([]) == 0;
  }

  /** The state after a single `<`. */
  lemma AfterAngle(cfg: Config)
    ensures Step(cfg, FRESH, AssistantResponse("<")).0 == FRESH.(lastContent := "<", tags := TagState("<", false, false))
  {
    AngleParsed();
    QuietResponse(cfg, "<");
  }

  lemma AngleParsed()
    ensures Tags.Parse("", false, true, "<") == Tags.Parsed("<", false, false, "", "")
  {
    AngleHeld();
    Tags.FastPathAgrees("", false, true, "<");
    assert "" + "<" == "<";
  }

  /** A first chunk of which nothing is passed on yet. */
  lemma QuietResponse(cfg: Config, content: string)
    requires var r := Tags.Parse("", false, true, content); content != "" && r.text == "" && r.thinking == ""
    ensures var r := Tags.Parse("", false, true, content);
            Step(cfg, FRESH, AssistantResponse(content)).0 ==
            FRESH.(lastContent := content, tags := TagState(r.buf, r.inside, r.suppress))
  {
    NothingRouted(cfg, NO_OUTPUT);
  }

  lemma NothingRouted(cfg: Config, o: Output)
    ensures Route(cfg, o, "", "").0 == o
  {
  }

  // ------------------------------------------------------- chunking and limit

  /** Even a reply without visible text can depend on the chunking: when the limit
      is reached before a later thought. */
  lemma EmptyTextIsNotEnough()
    ensures var full := Thought("aaaa", Thought("b", ""));
            Tags.Reference(full, false) == ("", "aaaab") && Tags.Steady(full, false) && Lead(full, false) == 4
    ensures exists a, b :: var full := Thought("aaaa", Thought("b", ""));
              Delivers(a, full) && Delivers(b, full) && Reply(Plain(1, []), a) != Reply(Plain(1, []), b)
  {
    var full := Thought("aaaa", Thought("b", ""));
    ThoughtMeans("b", "");
    ThoughtMeans("aaaa", Thought("b", ""));
    assert Tags.Reference("", false) == ("", "") && Tags.Steady("", false);
    assert "b" + "" == "b" && "aaaa" + "b" == "aaaab";
    var a, b := TwoReplies(Plain(1, []), full);
    assert Reply(Plain(1, []), a) != Reply(Plain(1, []), b);
  }

  // ----------------------------------------------------------- repeated calls

  /** A call repeated under another id is streamed twice and buffered once. */
  lemma RepeatedCall()
    ensures var cfg := Plain(0, []);
            var events := [ToolUse("t", "1", "{}", true), ToolUse("t", "2", "{}", true)];
            var s := Streaming.Streamed(cfg, Streaming.Sse(FRESH, Streaming.NewWriter([])), events).0;
            |Transcript.Reading(s.w).calls| == 2 &&
            Drivers.MessageOf(cfg, Drivers.StepAll(cfg, FRESH, events)).calls == [ToolCall("1", "t", "{}")]
  {
    var cfg := Plain(0, []);
    var e, f := ToolUse("t", "1", "{}", true), ToolUse("t", "2", "{}", true);
    var x, y := ToolCall("1", "t", "{}"), ToolCall("2", "t", "{}");
    var a := Drivers.StepAll(cfg, FRESH, [e, f]);
    TwoCalls(cfg, e, f, x, y);
    OncePerKey(cfg.canonicalJson, x, y);
    StreamHoldsCalls(cfg, [e, f]);
    Transcript.FinalizeReports(cfg, a);
  }

  lemma TwoCalls(cfg: Config, e: Event, f: Event, x: ToolCall, y: ToolCall)
    requires cfg.maxTokens <= 0 && Records(cfg, e, x.input) && Records(cfg, f, y.input)
    requires x == ToolCall(e.id, Original(cfg, e.name), x.input) && y == ToolCall(f.id, Original(cfg, f.name), y.input)
    ensures var a := Drivers.StepAll(cfg, FRESH, [e, f]); a.tools.calls == [x, y] && !a.out.stop.local
  {
    TwoSteps(cfg, e, f);
    var a := Step(cfg, FRESH, e).0;
    RecordsCall(cfg, FRESH, e, x.input);
    RecordsCall(cfg, a, f, y.input);
  }

  lemma OncePerKey(norm: ToolCalls.Norm, x: ToolCall, y: ToolCall)
    requires x.id != y.id && x.name == y.name && norm(x.input) == norm(y.input)
    ensures ToolCalls.Dedup(norm, [x, y]) == [x]
  {
    ToolCalls.DistinctStay([x, y]);
    assert [x, y][..1] == [x] && [x][..0] == [];
    assert x in [x];
    assert ToolCalls.KeyOf(norm, x) in ToolCalls.KeysOf(norm, [x]);
    assert ToolCalls.KeysOf(norm, []) == {};
    assert ToolCalls.PerKey(norm, []) == [];
    assert ToolCalls.PerKey(norm, [x]) == [x];
  }

  /** A stream that was not stopped early carries every recorded call. */
  lemma StreamHoldsCalls(cfg: Config, events: seq<Event>)
    requires cfg.dropTool == "" && Drivers.NoErrors(events) && !Drivers.StepAll(cfg, FRESH, events).out.stop.local
    ensures var s := Streaming.Streamed(cfg, Streaming.Sse(FRESH, Streaming.NewWriter([])), events).0;
            Transcript.Reading(s.w).calls == Drivers.StepAll(cfg, FRESH, events).tools.calls
  {
    var s0 := Streaming.Sse(FRESH, Streaming.NewWriter([]));
    Transcript.TranscriptWellFormed(cfg, events);
    Drivers.StreamingKeepsMessage(cfg, s0, events);
    FinishesWhenStopped(cfg, s0, events);
    FinishedHoldsCalls(cfg, Streaming.HandledAll(cfg, s0, events).0);
  }

  lemma FinishedHoldsCalls(cfg: Config, s: Streaming.Sse)
    requires cfg.dropTool == "" && Transcript.Complete(cfg, Streaming.Finished(cfg, s))
    ensures Transcript.Reading(Streaming.Finished(cfg, s).w).calls == s.acc.tools.calls
  {
    Transcript.FinalizeReports(cfg, s.acc);
  }
}
