/** The token limit and the chunking. Without stop sequences a limited reply
    depends on how the upstream text was cut exactly when the limit is reached
    before the last segment of the text -- its visible part, or else its last
    thought -- begins: what follows in the same event then passes unbudgeted,
    while later events pass nothing.
 */
module LimitedText {
  import opened Text
  import opened Accumulator
  import opened Drivers
  import opened ChunkDelta
  import opened EndToEnd
  import opened TokenBudget
  import Tags = ThinkingTags

  const OPEN := Tags.OPEN
  const CLOSE := Tags.CLOSE

  // --------------------------------------------------------- the last segment

  /** A thought that is closed and not the end of the stream. */
  ghost predicate Followed(s: string)
  {
    Contains(s, CLOSE) && AfterClose(s) != ""
  }

  ghost function AfterClose(s: string): string
    requires Contains(s, CLOSE)
  {
    s[IndexOf(s, CLOSE) + |CLOSE|..]
  }

  /** The runes of thinking before the last segment. */
  ghost function Lead(s: string, inside: bool): nat
    decreases |s|
  {
    if inside then if Followed(s) then IndexOf(s, CLOSE) + Lead(AfterClose(s), false) else 0
    else if OPEN <= s then Lead(s[|OPEN|..], true) else 0
  }

  /** Starting with `n` runes, no more than `top` have been thought whenever a
      further segment begins. */
  ghost predicate Goes(top: nat, n: nat, s: string, inside: bool)
    decreases |s|
  {
    if inside then Followed(s) ==> Goes(top, n + IndexOf(s, CLOSE), AfterClose(s), false)
    else s != "" ==> n <= top && (OPEN <= s ==> Goes(top, n, s[|OPEN|..], true))
  }

  lemma {:induction false} LeadGoes(n: nat, s: string, inside: bool)
    ensures Goes(n + Lead(s, inside), n, s, inside)
    decreases |s|
  {
    if inside {
      if Followed(s) {
        LeadGoes(n + IndexOf(s, CLOSE), AfterClose(s), false);
      }
    } else if OPEN <= s {
      LeadGoes(n, s[|OPEN|..], true);
    }
  }

  /** Before visible text stands all the thinking. */
  lemma {:induction false} LeadBeforeText(s: string, inside: bool)
    requires Tags.Reference(s, inside).0 != ""
    ensures Lead(s, inside) == |Tags.Reference(s, inside).1|
    decreases |s|
  {
    if inside {
      LeadBeforeText(AfterClose(s), false);
    } else if OPEN <= s {
      LeadBeforeText(s[|OPEN|..], true);
    }
  }

  // ------------------------------------------------------------- the parser

  lemma GoesHeldBack(top: nat, n: nat, b: string, rest: string)
    requires !Contains(b, CLOSE) && Goes(top, n, b + rest, true)
    ensures var cut := |b| - Overlap(b, CLOSE); Goes(top, n + cut, b[cut..] + rest, true)
  {
    var cut := |b| - Overlap(b, CLOSE);
    var held := b[cut..] + rest;
    HoldBackIndex(b, CLOSE, rest);
    assert b + rest == b[..cut] + held;
    if Contains(held, CLOSE) {
      assert AfterClose(b + rest) == AfterClose(held);
    }
  }

  lemma GoesPastClose(top: nat, n: nat, b: string, rest: string)
    requires Contains(b, CLOSE) && Goes(top, n, b + rest, true) && Tags.Steady(b + rest, true)
    ensures Goes(top, n + IndexOf(b, CLOSE), AfterClose(b) + rest, false) && Tags.Steady(AfterClose(b) + rest, false)
  {
    Tags.ScanInsideClosed(b, rest);
  }

  lemma ScanPastClose(b: string)
    requires Contains(b, CLOSE)
    ensures var r, q := Tags.Scan(b, true, true), Tags.Scan(AfterClose(b), false, true);
            Tags.SameState(r, q) && |r.thinking| == IndexOf(b, CLOSE) + |q.thinking|
  {
  }

  /** The account after a scan. */
  ghost predicate StillGoes(top: nat, n: nat, r: Tags.Parsed, rest: string)
  {
    Goes(top, n + |r.thinking|, r.buf + rest, r.inside)
  }

  /** Only the state and the amount of thinking matter. */
  lemma StillGoesAs(top: nat, m: nat, q: Tags.Parsed, n: nat, r: Tags.Parsed, rest: string)
    requires StillGoes(top, m, q, rest) && Tags.SameState(r, q) && m + |q.thinking| == n + |r.thinking|
    ensures StillGoes(top, n, r, rest)
  {
  }

  lemma NothingScanned(top: nat, n: nat, inside: bool, rest: string)
    requires Goes(top, n, "" + rest, inside)
    ensures StillGoes(top, n, Tags.Scan("", inside, true), rest)
  {
    assert "" + rest == rest;
  }

  lemma HeldBackGoes(top: nat, n: nat, b: string, rest: string)
    requires b != "" && !Contains(b, CLOSE) && Goes(top, n, b + rest, true)
    ensures StillGoes(top, n, Tags.Scan(b, true, true), rest)
  {
    GoesHeldBack(top, n, b, rest);
  }

  lemma GoesPastOpen(top: nat, n: nat, b: string, rest: string)
    requires OPEN <= b && Goes(top, n, b + rest, false) && Tags.Steady(b + rest, false)
    ensures Goes(top, n, b[|OPEN|..] + rest, true) && Tags.Steady(b[|OPEN|..] + rest, true)
    ensures Tags.Scan(b, false, true) == Tags.Scan(b[|OPEN|..], true, true).(suppress := true)
  {
    Tags.ScanOpenMeaning(b, rest);
    assert OPEN <= b + rest && (b + rest)[|OPEN|..] == b[|OPEN|..] + rest;
  }

  lemma OutsideGoes(top: nat, n: nat, b: string, rest: string)
    requires b != "" && !(OPEN <= b) && Tags.Steady(b + rest, false) && Goes(top, n, b + rest, false)
    ensures var r := Tags.Scan(b, false, true); r.text == "" ==> StillGoes(top, n, r, rest)
  {
    Tags.ScanOutsideMeaning(b, rest);
    HeldWhole(top, n, Tags.Scan(b, false, true), b, rest);
  }

  lemma HeldWhole(top: nat, n: nat, r: Tags.Parsed, b: string, rest: string)
    requires Goes(top, n, b + rest, false) && !r.inside && r.thinking == ""
    ensures r.buf == b ==> StillGoes(top, n, r, rest)
  {
  }

  /** Scanning part of a steady stream keeps the account of what is still to come. */
  lemma {:induction false} ScanGoes(top: nat, n: nat, b: string, inside: bool, rest: string)
    requires Tags.Steady(b + rest, inside) && Goes(top, n, b + rest, inside)
    ensures var r := Tags.Scan(b, inside, true); r.text == "" ==> StillGoes(top, n, r, rest)
    decreases |b|
  {
    if b == "" {
      NothingScanned(top, n, inside, rest);
    } else if inside && Contains(b, CLOSE) {
      GoesPastClose(top, n, b, rest);
      ScanGoes(top, n + IndexOf(b, CLOSE), AfterClose(b), false, rest);
      CloseTransfers(top, n, b, rest);
    } else if inside {
      HeldBackGoes(top, n, b, rest);
    } else if OPEN <= b {
      GoesPastOpen(top, n, b, rest);
      ScanGoes(top, n, b[|OPEN|..], true, rest);
      OpenTransfers(top, n, b, rest);
    } else {
      OutsideGoes(top, n, b, rest);
    }
  }

  lemma CloseTransfers(top: nat, n: nat, b: string, rest: string)
    requires Contains(b, CLOSE)
    requires var q := Tags.Scan(AfterClose(b), false, true);
             q.text == "" ==> StillGoes(top, n + IndexOf(b, CLOSE), q, rest)
    ensures var r := Tags.Scan(b, true, true); r.text == "" ==> StillGoes(top, n, r, rest)
  {
    ScanPastClose(b);
    var q := Tags.Scan(AfterClose(b), false, true);
    if q.text == "" {
      StillGoesAs(top, n + IndexOf(b, CLOSE), q, n, Tags.Scan(b, true, true), rest);
    }
  }

  lemma OpenTransfers(top: nat, n: nat, b: string, rest: string)
    requires OPEN <= b && Tags.Scan(b, false, true) == Tags.Scan(b[|OPEN|..], true, true).(suppress := true)
    requires var q := Tags.Scan(b[|OPEN|..], true, true); q.text == "" ==> StillGoes(top, n, q, rest)
    ensures var r := Tags.Scan(b, false, true); r.text == "" ==> StillGoes(top, n, r, rest)
  {
    var q := Tags.Scan(b[|OPEN|..], true, true);
    if q.text == "" {
      StillGoesAs(top, n, q, n, Tags.Scan(b, false, true), rest);
    }
  }

  // -------------------------------------------------------------- the output

  /** The text that a limited reply shows. */
  function TextCut(limit: int, whole: (string, string)): string
  {
    if |whole.1| >= limit then "" else Prefix(whole.0, limit - |whole.1|)
  }

  function LimitedReply(limit: int, whole: (string, string)): Message
  {
    Message(Prefix(whole.1, limit), TextCut(limit, whole), [],
            if |whole.0| + |whole.1| >= limit then MaxTokens else EndTurn, "")
  }

  predicate Limited(cfg: Config)
  {
    cfg.stops == [] && cfg.keep == 0 && cfg.maxTokens > 0
  }

  /** Accumulator and parser in step, below the limit. */
  ghost predicate Below(cfg: Config, o: Output, tags: TagState, p: Tags.Stream)
  {
    Tags.Between(p) && Tags.BufferIsPartial(p) && tags.buf == p.buf && tags.inside == p.inside &&
    o == Output(p.text, p.thinking, p.hasText, "", |p.text| + |p.thinking|, NO_STOP) && o.runes < 4 * cfg.maxTokens
  }

  /** The limit was reached, and what is produced is what the whole text allows. */
  ghost predicate Cut(cfg: Config, o: Output, tags: TagState, whole: (string, string))
  {
    var limit := 4 * cfg.maxTokens;
    o.stop == Stop(true, MaxTokens, "") && o.pending == "" && o.thinking == Prefix(whole.1, limit) &&
    o.text == TextCut(limit, whole) && o.runes == limit && |whole.0| + |whole.1| >= limit &&
    (tags.buf == "" || tags.inside)
  }

  /** Thinking, budgeted below the limit. */
  lemma ThinkingBudgeted(cfg: Config, o: Output, s: string)
    requires Limited(cfg) && o.stop == NO_STOP && o.runes < 4 * cfg.maxTokens
    ensures var room := 4 * cfg.maxTokens - o.runes;
            AddThinking(cfg, o, s).o ==
            if |s| < room then o.(thinking := o.thinking + s, runes := o.runes + |s|)
            else o.(thinking := o.thinking + s[..room], runes := 4 * cfg.maxTokens, stop := Stop(true, MaxTokens, ""))
  {
  }

  /** Text, budgeted below the limit. */
  lemma TextBudgeted(cfg: Config, o: Output, s: string)
    requires Limited(cfg) && o.stop == NO_STOP && o.runes < 4 * cfg.maxTokens && s != ""
    ensures var room := 4 * cfg.maxTokens - o.runes;
            AddText(cfg, o, s).o ==
            if |s| < room then o.(text := o.text + s, runes := o.runes + |s|, hasText := true)
            else o.(text := o.text + s[..room], runes := 4 * cfg.maxTokens, hasText := true,
                    stop := Stop(true, MaxTokens, ""))
  {
  }

  /** Text that reaches the limit behind all the thinking is cut where the reply is. */
  lemma TextReaches(cfg: Config, before: string, s: string, thinking: string, rest: string)
    requires cfg.maxTokens > 0 && |before| + |thinking| < 4 * cfg.maxTokens <= |before| + |s| + |thinking|
    ensures before + s[..4 * cfg.maxTokens - |before| - |thinking|] ==
            TextCut(4 * cfg.maxTokens, (before + s + rest, thinking))
  {
  }

  // ----------------------------------------------------------------- one chunk

  /** Part of the text is processed, `rest` is still to come, and the whole will
      mean `whole`; `top` bounds the thinking before any further segment. */
  ghost predicate Going(cfg: Config, a: Acc, p: Tags.Stream, rest: string, whole: (string, string), top: nat)
  {
    if a.out.stop.local then Cut(cfg, a.out, a.tags, whole)
    else
      Below(cfg, a.out, a.tags, p) && Tags.SteadyFrom(p, rest) && Tags.Meaning(p, rest) == whole &&
      (p.hasText || Goes(top, |p.thinking|, p.buf + rest, p.inside))
  }

  /** What is known of the whole text when the limit is not reached before its
      last segment. */
  ghost predicate Leads(cfg: Config, whole: (string, string), top: nat)
  {
    Limited(cfg) && top < 4 * cfg.maxTokens && (whole.0 != "" ==> |whole.1| <= top)
  }

  lemma RouteWithText(cfg: Config, o: Output, p: Tags.Stream, thinking: string, text: string, rest: string)
    requires Limited(cfg) && text != "" && |p.thinking| + |thinking| < 4 * cfg.maxTokens && (p.text != "" ==> thinking == "")
    requires o == Output(p.text, p.thinking, p.hasText, "", |p.text| + |p.thinking|, NO_STOP) && o.runes < 4 * cfg.maxTokens
    ensures var o' := Route(cfg, o, thinking, text).0;
            var t, th := p.text + text, p.thinking + thinking;
            if |t| + |th| < 4 * cfg.maxTokens then o' == Output(t, th, true, "", |t| + |th|, NO_STOP)
            else Cut(cfg, o', TagState("", false, false), (t + rest, th))
  {
    ThinkingBudgeted(cfg, o, thinking);
    var th := if thinking == "" then Passed(o, "") else AddThinking(cfg, o, thinking);
    assert p.thinking + "" == p.thinking;
    TextBudgeted(cfg, th.o, text);
    if |p.text| + |text| + |p.thinking + thinking| >= 4 * cfg.maxTokens {
      TextReaches(cfg, p.text, text, p.thinking + thinking, rest);
      assert Prefix(p.thinking + thinking, 4 * cfg.maxTokens) == p.thinking + thinking;
    }
  }

  lemma RouteWithoutText(cfg: Config, o: Output, p: Tags.Stream, thinking: string)
    requires Limited(cfg) && !p.hasText && p.text == ""
    requires o == Output(p.text, p.thinking, p.hasText, "", |p.text| + |p.thinking|, NO_STOP) && o.runes < 4 * cfg.maxTokens
    ensures var o' := Route(cfg, o, thinking, "").0;
            var th := p.thinking + thinking;
            if |th| < 4 * cfg.maxTokens then o' == Output("", th, false, "", |th|, NO_STOP)
            else o' == Output("", th[..4 * cfg.maxTokens], false, "", 4 * cfg.maxTokens, Stop(true, MaxTokens, ""))
  {
    ThinkingBudgeted(cfg, o, thinking);
    assert p.thinking + "" == p.thinking;
    if |p.thinking + thinking| >= 4 * cfg.maxTokens {
      var room := 4 * cfg.maxTokens - |p.thinking|;
      assert (p.thinking + thinking)[..4 * cfg.maxTokens] == p.thinking + thinking[..room];
    }
  }

  lemma FeedGoes(p: Tags.Stream, delta: string, rest: string, top: nat)
    requires Tags.Between(p) && !p.hasText && Tags.SteadyFrom(p, delta + rest)
    requires Goes(top, |p.thinking|, p.buf + (delta + rest), p.inside)
    ensures var p' := Tags.Feed(p, delta);
            p'.hasText || Goes(top, |p'.thinking|, p'.buf + rest, p'.inside)
  {
    Tags.FastPathAgrees(p.buf, p.inside, true, delta);
    assert p.buf + (delta + rest) == (p.buf + delta) + rest;
    if Tags.Scan(p.buf + delta, p.inside, true).text == "" {
      ScanGoes(top, |p.thinking|, p.buf + delta, p.inside, rest);
    }
  }

  lemma DeltaGoes(cfg: Config, a: Acc, p: Tags.Stream, delta: string, rest: string, whole: (string, string), top: nat)
    requires Leads(cfg, whole, top) && !a.out.stop.local && Going(cfg, a, p, delta + rest, whole, top)
    ensures var (o', tags', _) := OnDelta(cfg, a.out, a.tags, delta);
            Going(cfg, a.(out := o', tags := tags'), Tags.Feed(p, delta), rest, whole, top)
  {
    var p' := Tags.Feed(p, delta);
    var r := Tags.Parse(p.buf, p.inside, !p.hasText, delta);
    Tags.FeedMeaning(p, delta, rest);
    ParseKeepsPartial(p, delta);
    if !p.hasText {
      FeedGoes(p, delta, rest, top);
    }
    if r.text != "" {
      TextGoes(cfg, a, p, delta, rest, whole);
    } else {
      ThoughtGoes(cfg, a, p, delta, rest, whole, top);
    }
  }

  lemma TextGoes(cfg: Config, a: Acc, p: Tags.Stream, delta: string, rest: string, whole: (string, string))
    requires Limited(cfg) && (whole.0 != "" ==> |whole.1| < 4 * cfg.maxTokens)
    requires Below(cfg, a.out, a.tags, p) && Tags.Parse(p.buf, p.inside, !p.hasText, delta).text != ""
    requires Tags.Meaning(Tags.Feed(p, delta), rest) == whole
    ensures var (o', tags', _) := OnDelta(cfg, a.out, a.tags, delta);
            if o'.stop.local then Cut(cfg, o', tags', whole) else Below(cfg, o', tags', Tags.Feed(p, delta))
  {
    var r := Tags.Parse(p.buf, p.inside, !p.hasText, delta);
    ParseKeepsPartial(p, delta);
    if p.hasText {
      NoThoughtAfterText(p, delta);
    }
    RouteWithText(cfg, a.out, p, r.thinking, r.text, rest);
  }

  lemma NoThoughtAfterText(p: Tags.Stream, delta: string)
    requires Tags.Between(p) && p.hasText
    ensures var r := Tags.Parse(p.buf, p.inside, false, delta); r.thinking == "" && r.text == delta
  {
    Tags.FastPathAgrees(p.buf, p.inside, false, delta);
    assert p.buf + delta == delta;
    Tags.ScanAfterText(delta);
  }

  lemma ThoughtGoes(cfg: Config, a: Acc, p: Tags.Stream, delta: string, rest: string, whole: (string, string), top: nat)
    requires Leads(cfg, whole, top)
    requires Below(cfg, a.out, a.tags, p) && Tags.Parse(p.buf, p.inside, !p.hasText, delta).text == ""
    requires var p' := Tags.Feed(p, delta);
             Tags.Meaning(p', rest) == whole && (p'.hasText || Goes(top, |p'.thinking|, p'.buf + rest, p'.inside))
    ensures var (o', tags', _) := OnDelta(cfg, a.out, a.tags, delta);
            if o'.stop.local then Cut(cfg, o', tags', whole) else Below(cfg, o', tags', Tags.Feed(p, delta))
  {
    var p' := Tags.Feed(p, delta);
    var r := Tags.Parse(p.buf, p.inside, !p.hasText, delta);
    ParseKeepsPartial(p, delta);
    assert p.text + "" == p.text;
    if p.hasText {
      NoThoughtAfterText(p, delta);
      assert p.thinking + "" == p.thinking;
    } else {
      RouteWithoutText(cfg, a.out, p, r.thinking);
      if |p'.thinking| >= 4 * cfg.maxTokens {
        MeaningHolds(p', rest);
        assert Prefix(whole.1, 4 * cfg.maxTokens) == p'.thinking[..4 * cfg.maxTokens];
      }
    }
  }

  // -------------------------------------------------------------- all chunks

  lemma ResponseGoes(cfg: Config, a: Acc, p: Tags.Stream, content: string, rest: string, whole: (string, string), top: nat)
      returns (p': Tags.Stream)
    requires Leads(cfg, whole, top) && a.lastContent <= content
    requires Going(cfg, a, p, content[|a.lastContent|..] + rest, whole, top)
    ensures var a' := Step(cfg, a, AssistantResponse(content)).0;
            a'.lastContent == content && Going(cfg, a', p', rest, whole, top)
  {
    var delta := Delta(content, a.lastContent);
    assert delta == content[|a.lastContent|..];
    if a.out.stop.local || delta == "" {
      p' := p;
      if delta == "" {
        assert delta + rest == rest;
      }
    } else {
      p' := Tags.Feed(p, delta);
      DeltaGoes(cfg, a, p, delta, rest, whole, top);
      var (o', tags', _) := OnDelta(cfg, a.out, a.tags, delta);
      GoingIgnores(cfg, a.(out := o', tags := tags'), Step(cfg, a, AssistantResponse(content)).0, p', rest, whole, top);
    }
  }

  lemma GoingIgnores(cfg: Config, a: Acc, b: Acc, p: Tags.Stream, rest: string, whole: (string, string), top: nat)
    requires Going(cfg, a, p, rest, whole, top) && a.out == b.out && a.tags == b.tags
    ensures Going(cfg, b, p, rest, whole, top)
  {
  }

  lemma {:induction false} AllGo(cfg: Config, a: Acc, p: Tags.Stream, contents: seq<string>, full: string,
                                 whole: (string, string), top: nat) returns (p': Tags.Stream)
    requires Leads(cfg, whole, top)
    requires IsCumulative([a.lastContent] + contents) && ([a.lastContent] + contents)[|contents|] == full
    requires a.lastContent <= full && Going(cfg, a, p, full[|a.lastContent|..], whole, top)
    ensures Going(cfg, StepAll(cfg, a, Responses(contents)), p', "", whole, top)
    ensures StepAll(cfg, a, Responses(contents)).tools == a.tools
    decreases |contents|
  {
    if contents == [] {
      p' := p;
      assert full[|a.lastContent|..] == "";
    } else {
      var c, more := contents[0], contents[1..];
      var e := AssistantResponse(c);
      CumulativeTail(a.lastContent, contents, full);
      assert full[|a.lastContent|..] == c[|a.lastContent|..] + full[|c|..];
      p' := ResponseGoes(cfg, a, p, c, full[|c|..], whole, top);
      StepAllFrom(cfg, a, e, Responses(more));
      p' := AllGo(cfg, Step(cfg, a, e).0, p', more, full, whole, top);
    }
  }

  // ------------------------------------------------------------------ the end

  /** What is left in the tag buffer is budgeted like the rest. */
  lemma BufferEnds(cfg: Config, a: Acc, p: Tags.Stream, whole: (string, string))
    requires Limited(cfg) && Below(cfg, a.out, a.tags, p) && whole == Tags.Flushed(p)
    requires whole.0 != "" ==> |whole.1| < 4 * cfg.maxTokens
    ensures var o := FlushTags(cfg, a.out, a.tags).0;
            var limit := 4 * cfg.maxTokens;
            o.pending == "" && o.thinking == Prefix(whole.1, limit) && o.text == TextCut(limit, whole) &&
            o.stop == if |whole.0| + |whole.1| >= limit then Stop(true, MaxTokens, "") else NO_STOP
  {
    var o := a.out;
    assert p.text + "" == p.text && p.thinking + "" == p.thinking;
    if a.tags.buf != "" && a.tags.inside {
      ThinkingBudgeted(cfg, o, p.buf);
      if |o.thinking + p.buf| >= 4 * cfg.maxTokens {
        assert (o.thinking + p.buf)[..4 * cfg.maxTokens] == o.thinking + p.buf[..4 * cfg.maxTokens - o.runes];
      }
    } else if a.tags.buf != "" {
      TextBudgeted(cfg, o, p.buf);
      if |p.text + p.buf| + |p.thinking| >= 4 * cfg.maxTokens {
        TextReaches(cfg, p.text, p.buf, p.thinking, "");
        assert p.text + p.buf + "" == p.text + p.buf;
      }
    }
  }

  lemma CutEnds(cfg: Config, a: Acc, whole: (string, string))
    requires Limited(cfg) && Cut(cfg, a.out, a.tags, whole) && !a.tools.hasToolUse && a.tools.calls == []
    ensures MessageOf(cfg, a) == LimitedReply(4 * cfg.maxTokens, whole)
  {
    assert a.out.thinking + "" == a.out.thinking;
  }

  lemma GoingEnds(cfg: Config, a: Acc, p: Tags.Stream, whole: (string, string), top: nat)
    requires Leads(cfg, whole, top) && Going(cfg, a, p, "", whole, top) && !a.tools.hasToolUse && a.tools.calls == []
    ensures MessageOf(cfg, a) == LimitedReply(4 * cfg.maxTokens, whole)
  {
    if a.out.stop.local {
      CutEnds(cfg, a, whole);
    } else {
      Tags.FlushedIsMeaning(p);
      BufferEnds(cfg, a, p, whole);
    }
  }

  ghost function Reply(cfg: Config, contents: seq<string>): Message
  {
    MessageOf(cfg, StepAll(cfg, FRESH, Responses(contents)))
  }

  /** If the limit is not reached before the last segment, the reply is what the
      reference parser makes of the whole text, cut at the limit. */
  lemma LimitedReplyIsFunctionOfText(cfg: Config, contents: seq<string>, full: string)
    requires Limited(cfg) && Delivers(contents, full)
    requires Tags.Steady(full, false) && Lead(full, false) < 4 * cfg.maxTokens
    ensures Reply(cfg, contents) == LimitedReply(4 * cfg.maxTokens, Tags.Reference(full, false))
  {
    var whole, top := Tags.Reference(full, false), Lead(full, false);
    if whole.0 != "" {
      LeadBeforeText(full, false);
    }
    LeadGoes(0, full, false);
    NothingInNothing(CLOSE);
    assert full[|""|..] == full && "" + full == full && "" + whole.1 == whole.1;
    assert Going(cfg, FRESH, Tags.START, full, whole, top);
    var p := AllGo(cfg, FRESH, Tags.START, contents, full, whole, top);
    GoingEnds(cfg, StepAll(cfg, FRESH, Responses(contents)), p, whole, top);
  }

  // -------------------------------------------------------- reached too early

  /** Where the last segment begins. */
  ghost function SegmentAt(s: string, inside: bool): (e: nat)
    requires inside ==> Followed(s)
    ensures e <= |s|
    decreases |s|
  {
    if inside then IndexOf(s, CLOSE) + |CLOSE| + SegmentAt(AfterClose(s), false)
    else if OPEN <= s && Followed(s[|OPEN|..]) then |OPEN| + SegmentAt(s[|OPEN|..], true)
    else 0
  }

  /** The same state with `n` more runes of thinking handed on. */
  ghost predicate Ahead(r: Tags.Parsed, q: Tags.Parsed, n: nat)
  {
    Tags.SameState(r, q) && |r.thinking| == n + |q.thinking|
  }

  lemma AheadTwice(r: Tags.Parsed, q: Tags.Parsed, p: Tags.Parsed, m: nat, n: nat)
    requires Ahead(r, q, m) && Ahead(q, p, n)
    ensures Ahead(r, p, m + n)
  {
  }

  /** At the last segment the parser is as if it had just started, with all the
      thinking before it handed on. */
  lemma {:induction false} SegmentScan(s: string, inside: bool, x: string)
    requires inside ==> Followed(s)
    ensures Segmented(s, inside, x)
    decreases |s|
  {
    if inside {
      SegmentScan(AfterClose(s), false, x);
      SegmentPastClose(s, x);
    } else if OPEN <= s && Followed(s[|OPEN|..]) {
      SegmentScan(s[|OPEN|..], true, x);
      SegmentPastOpen(s, x);
    } else {
      assert s[..0] + x == x;
    }
  }

  ghost predicate Segmented(s: string, inside: bool, x: string)
    requires inside ==> Followed(s)
  {
    Ahead(Tags.Scan(s[..SegmentAt(s, inside)] + x, inside, true), Tags.Scan(x, false, true), Lead(s, inside))
  }

  lemma SegmentPastClose(s: string, x: string)
    requires Followed(s) && Segmented(AfterClose(s), false, x)
    ensures Segmented(s, true, x)
  {
    var after := AfterClose(s);
    var k := SegmentAt(after, false);
    PastClose(s, k, x);
    AheadTwice(Tags.Scan(s[..IndexOf(s, CLOSE) + |CLOSE| + k] + x, true, true), Tags.Scan(after[..k] + x, false, true),
               Tags.Scan(x, false, true), IndexOf(s, CLOSE), Lead(after, false));
  }

  lemma SegmentPastOpen(s: string, x: string)
    requires OPEN <= s && Followed(s[|OPEN|..]) && Segmented(s[|OPEN|..], true, x)
    ensures Segmented(s, false, x)
  {
    var k := SegmentAt(s[|OPEN|..], true);
    PastOpen(s, k, x);
    AheadTwice(Tags.Scan(s[..|OPEN| + k] + x, false, true), Tags.Scan(s[|OPEN|..][..k] + x, true, true),
               Tags.Scan(x, false, true), 0, Lead(s[|OPEN|..], true));
  }

  lemma PastClose(s: string, k: nat, x: string)
    requires Contains(s, CLOSE) && k <= |AfterClose(s)|
    ensures Ahead(Tags.Scan(s[..IndexOf(s, CLOSE) + |CLOSE| + k] + x, true, true),
                  Tags.Scan(AfterClose(s)[..k] + x, false, true), IndexOf(s, CLOSE))
  {
    CutTwice(s, IndexOf(s, CLOSE) + |CLOSE|, k, x);
    Tags.ScanPastClose(s, AfterClose(s)[..k] + x);
  }

  lemma PastOpen(s: string, k: nat, x: string)
    requires OPEN <= s && |OPEN| + k <= |s|
    ensures Ahead(Tags.Scan(s[..|OPEN| + k] + x, false, true), Tags.Scan(s[|OPEN|..][..k] + x, true, true), 0)
  {
    CutTwice(s, |OPEN|, k, x);
    assert s[..|OPEN|] == OPEN;
    ScanOpened(s[|OPEN|..][..k] + x);
  }

  lemma ScanOpened(tail: string)
    ensures Ahead(Tags.Scan(OPEN + tail, false, true), Tags.Scan(tail, true, true), 0)
  {
    assert (OPEN + tail)[|OPEN|..] == tail;
    Tags.ScanOpenMeaning(OPEN + tail, "");
  }

  lemma {:induction false} SegmentText(s: string, inside: bool)
    requires inside ==> Followed(s)
    ensures var rest := s[SegmentAt(s, inside)..];
            Tags.Reference(s, inside).0 == Tags.Reference(rest, false).0 && (s != "" ==> rest != "")
    decreases |s|
  {
    if inside {
      SegmentText(AfterClose(s), false);
      assert s[SegmentAt(s, true)..] == AfterClose(s)[SegmentAt(AfterClose(s), false)..];
    } else if OPEN <= s && Followed(s[|OPEN|..]) {
      SegmentText(s[|OPEN|..], true);
      assert s[SegmentAt(s, false)..] == s[|OPEN|..][SegmentAt(s[|OPEN|..], true)..];
    } else {
      assert s[0..] == s;
    }
  }

  // ------------------------------------------------- two replies to one text

  /** All in one chunk: the text behind the thinking passes whole. */
  lemma OneChunk(cfg: Config, full: string)
    requires Limited(cfg) && Tags.Steady(full, false) && Lead(full, false) >= 4 * cfg.maxTokens
    ensures Reply(cfg, [full]).text == Tags.Reference(full, false).0
    ensures |Reply(cfg, [full]).thinking| >= 4 * cfg.maxTokens
  {
    var r := Tags.Scan(full, false, true);
    var e := SegmentAt(full, false);
    SegmentScan(full, false, full[e..]);
    assert full[..e] + full[e..] == full;
    ChunkReply(cfg, full);
    ScanShows(full);
  }

  /** The text a scan leads to, flushed. */
  lemma ScanShows(full: string)
    requires Tags.Steady(full, false)
    ensures var r := Tags.Scan(full, false, true);
            r.text + (if r.inside then "" else r.buf) == Tags.Reference(full, false).0
  {
    var r := Tags.Scan(full, false, true);
    assert full + "" == full && r.buf + "" == r.buf && r.text + "" == r.text;
    Tags.ScanMeaning(full, false, "");
    Tags.ScanBuffer(full, false, true);
    if r.text == "" {
      assert "" + r.buf == r.buf;
    }
  }

  ghost function AfterFirst(cfg: Config, chunk: string): Acc
  {
    Step(cfg, FRESH, AssistantResponse(chunk)).0
  }

  /** A first chunk with enough thinking stops the response. */
  lemma FirstChunk(cfg: Config, chunk: string)
    requires Limited(cfg) && |Tags.Scan(chunk, false, true).thinking| >= 4 * cfg.maxTokens
    ensures var r, a := Tags.Scan(chunk, false, true), AfterFirst(cfg, chunk);
            a.out.stop.local && a.out.text == r.text && a.out.pending == "" && |a.out.thinking| == 4 * cfg.maxTokens &&
            a.tags.buf == r.buf && a.tags.inside == r.inside
  {
    var r := Tags.Scan(chunk, false, true);
    assert chunk != "" && "" + chunk == chunk;
    Tags.FastPathAgrees("", false, true, chunk);
    ThinkingBudgeted(cfg, NO_OUTPUT, r.thinking);
    assert "" + r.text == r.text;
  }

  lemma StoppedReply(cfg: Config, a: Acc)
    requires Limited(cfg) && a.out.stop.local && a.out.pending == ""
    ensures MessageOf(cfg, a).text == a.out.text + if a.tags.inside then "" else a.tags.buf
    ensures |MessageOf(cfg, a).thinking| >= |a.out.thinking|
  {
    assert a.out.text + "" == a.out.text;
  }

  lemma ChunkReply(cfg: Config, chunk: string)
    requires Limited(cfg) && |Tags.Scan(chunk, false, true).thinking| >= 4 * cfg.maxTokens
    ensures var r := Tags.Scan(chunk, false, true);
            Reply(cfg, [chunk]).text == (r.text + if r.inside then "" else r.buf) &&
            |Reply(cfg, [chunk]).thinking| >= 4 * cfg.maxTokens
  {
    FirstChunk(cfg, chunk);
    StoppedReply(cfg, AfterFirst(cfg, chunk));
    OneStep(cfg, chunk);
  }

  lemma OneStep(cfg: Config, chunk: string)
    ensures StepAll(cfg, FRESH, Responses([chunk])) == AfterFirst(cfg, chunk)
  {
    assert Responses([chunk]) == [AssistantResponse(chunk)] + Responses([]);
    StepAllFrom(cfg, FRESH, AssistantResponse(chunk), Responses([]));
  }

  /** A first chunk with enough thinking decides the text, whatever follows. */
  lemma TwoChunks(cfg: Config, first: string, full: string)
    requires Limited(cfg) && |Tags.Scan(first, false, true).thinking| >= 4 * cfg.maxTokens
    ensures Reply(cfg, [first, full]).text == Reply(cfg, [first]).text
  {
    var a, rest := AfterFirst(cfg, first), Responses([full]);
    FirstChunk(cfg, first);
    assert [first, full][1..] == [full];
    assert Responses([first, full]) == [AssistantResponse(first)] + rest;
    StepAllFrom(cfg, FRESH, AssistantResponse(first), rest);
    StoppedAbsorbsAll(cfg, a, rest);
    MessageOfCore(cfg, a, StepAll(cfg, a, rest));
    OneStep(cfg, first);
  }

  lemma AngleHeld()
    ensures Tags.Scan("<", false, true) == Tags.Parsed("<", false, false, "", "")
  {
    assert IsOverlap("<", OPEN, 1) by {
      assert "<"[0..] == OPEN[..1];
    }
    assert !Contains("<", OPEN);
    assert Overlap("<", OPEN) == 1;
    assert "<"[..0] == "" && "<"[0..] == "<";
  }

  lemma Deliveries(first: string, full: string)
    requires first <= full
    ensures Delivers([full], full) && Delivers([first, full], full)
  {
    var a, b := [""] + [full], [""] + [first, full];
    assert a[0] == "" && a[1] == full && b[0] == "" && b[1] == first && b[2] == full;
  }

  /** If the limit is reached before the last segment, cutting the text there, or
      within the tag there, gives a different reply. */
  lemma TwoReplies(cfg: Config, full: string) returns (a: seq<string>, b: seq<string>)
    requires Limited(cfg) && Tags.Steady(full, false) && Lead(full, false) >= 4 * cfg.maxTokens
    ensures Delivers(a, full) && Delivers(b, full) && Reply(cfg, a).text != Reply(cfg, b).text
  {
    var e := SegmentAt(full, false);
    var text := Tags.Reference(full, false).0;
    OneChunk(cfg, full);
    SegmentText(full, false);
    a := [full];
    if text != "" {
      var first := full[..e];
      assert first + "" == first;
      SegmentScan(full, false, "");
      b := [first, full];
      Deliveries(first, full);
      ChunkReply(cfg, first);
      TwoChunks(cfg, first, full);
    } else {
      var first := full[..e] + "<";
      assert full[e..] != "" && OPEN <= full[e..] && full[e] == full[e..][0] == '<';
      assert first <= full;
      AngleHeld();
      SegmentScan(full, false, "<");
      b := [first, full];
      Deliveries(first, full);
      ChunkReply(cfg, first);
      TwoChunks(cfg, first, full);
    }
  }

  /** Without stop sequences, the reply to a steady text is the same for every
      chunking exactly when there is no limit or it is not reached before the last
      segment begins. */
  lemma LimitedChunkingIndependence(cfg: Config, full: string)
    requires cfg.stops == [] && cfg.keep == 0 && Tags.Steady(full, false)
    ensures cfg.maxTokens <= 0 || Lead(full, false) < 4 * cfg.maxTokens <==>
            forall a, b | Delivers(a, full) && Delivers(b, full) :: Reply(cfg, a) == Reply(cfg, b)
  {
    if cfg.maxTokens > 0 && Lead(full, false) >= 4 * cfg.maxTokens {
      var a, b := TwoReplies(cfg, full);
      assert Reply(cfg, a) != Reply(cfg, b);
    } else {
      forall a, b | Delivers(a, full) && Delivers(b, full) ensures Reply(cfg, a) == Reply(cfg, b) {
        if cfg.maxTokens > 0 {
          LimitedReplyIsFunctionOfText(cfg, a, full);
          LimitedReplyIsFunctionOfText(cfg, b, full);
        } else {
          ReplyIsFunctionOfText(cfg, a, full);
          ReplyIsFunctionOfText(cfg, b, full);
        }
      }
    }
  }
}
