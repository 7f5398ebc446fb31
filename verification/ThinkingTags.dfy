/** Prompt-injected reasoning arrives inside the visible text as
    `<thinking>...</thinking>`, cut anywhere by chunk boundaries. The parser
    splits such a stream into text and thinking.
 */
module ThinkingTags {
  import opened Text

  const OPEN := "<thinking>"
  const CLOSE := "</thinking>"

  /** Unicode white space, as trimmed by the original. */
  predicate IsSpace(c: char)
  {
    c in "\t\n\r \U{000B}\U{000C}\U{0085}\U{00A0}\U{1680}\U{2028}\U{2029}\U{202F}\U{205F}\U{3000}" ||
    '\U{2000}' <= c <= '\U{200A}'
  }

  predicate AllSpace(s: string)
  {
    forall i | 0 <= i < |s| :: IsSpace(s[i])
  }

  // ---------------------------------------------------------------- parser

  /** One parser call: the new parser state and what the call hands on. */
  datatype Parsed = Parsed(buf: string, inside: bool, suppress: bool, text: string, thinking: string)

  /** Consumes the buffered text. `noText` says that no visible text exists yet,
      so that an opening tag is still a control tag. */
  ghost function Scan(b: string, inside: bool, noText: bool): (r: Parsed)
    ensures |r.text| + |r.buf| <= |b|
    ensures r.text != "" ==> r.buf == "" && !r.inside
    decreases |b|
  {
    if b == "" then
      Parsed("", inside, false, "", "")
    else if inside then
      var i := IndexOf(b, CLOSE);
      if i >= 0 then
        var r := Scan(b[i + |CLOSE|..], false, noText);
        r.(thinking := b[..i] + r.thinking)
      else
        var cut := |b| - Overlap(b, CLOSE);
        Parsed(b[cut..], true, false, "", b[..cut])
    else
      var i := IndexOf(b, OPEN);
      var cut := |b| - Overlap(b, OPEN);
      if i >= 0 && noText && AllSpace(b[..i]) then
        Scan(b[i + |OPEN|..], true, noText).(suppress := true)
      else if i < 0 && cut < |b| && noText && AllSpace(b[..cut]) then
        Parsed(b[cut..], false, false, "", "")
      else
        Parsed("", false, false, b, "")
  }

  /** A call with a new piece of text; text without any `<` skips the scan. */
  ghost function Parse(buf: string, inside: bool, noText: bool, delta: string): Parsed
  {
    if buf == "" && !inside && '<' !in delta then Parsed("", false, false, delta, "")
    else Scan(buf + delta, inside, noText)
  }

  lemma NoTagWithoutAngle(b: string)
    requires '<' !in b
    ensures !Contains(b, OPEN) && Overlap(b, OPEN) == 0
  {
    TagAngle(b);
  }

  /** Tags and partial tags start with an angle bracket. */
  lemma TagAngle(b: string)
    ensures Contains(b, OPEN) ==> b[IndexOf(b, OPEN)] == '<'
    ensures Overlap(b, OPEN) > 0 ==> b[|b| - Overlap(b, OPEN)] == '<'
  {
    var i, k := IndexOf(b, OPEN), Overlap(b, OPEN);
    if i >= 0 {
      assert b[i] == b[i..i + |OPEN|][0];
    }
    if k > 0 {
      assert b[|b| - k] == b[|b| - k..][0] == OPEN[..k][0];
    }
  }

  /** The fast path computes what the scan would have computed. */
  lemma FastPathAgrees(buf: string, inside: bool, noText: bool, delta: string)
    ensures Parse(buf, inside, noText, delta) == Scan(buf + delta, inside, noText)
  {
    if buf == "" && !inside && '<' !in delta {
      NoTagWithoutAngle(delta);
      assert buf + delta == delta;
    }
  }

  /** The longest proper prefix of `tag` that ends `s`, by descending search. */
  method PartialTagSuffix(s: string, tag: string) returns (n: nat)
    requires tag != ""
    ensures n == Overlap(s, tag)
  {
    n := if |tag| - 1 < |s| then |tag| - 1 else |s|;
    while n > 0
      invariant n < |tag| && n <= |s|
      invariant forall j | n < j < |tag| :: !IsOverlap(s, tag, j)
    {
      if s[|s| - n..] == tag[..n] {
        assert IsOverlap(s, tag, n);
        return;
      }
      n := n - 1;
    }
  }

  /** The scan with what earlier rounds of the parser loop have handed on. */
  ghost function ScanFrom(b: string, inside: bool, noText: bool, suppress: bool, thinking: string): Parsed
    decreases |b|
  {
    if b == "" then
      Parsed("", inside, suppress, "", thinking)
    else if inside then
      var i := IndexOf(b, CLOSE);
      var cut := |b| - Overlap(b, CLOSE);
      if i >= 0 then ScanFrom(b[i + |CLOSE|..], false, noText, suppress, thinking + b[..i])
      else Parsed(b[cut..], true, suppress, "", thinking + b[..cut])
    else
      var i := IndexOf(b, OPEN);
      var cut := |b| - Overlap(b, OPEN);
      if i >= 0 && noText && AllSpace(b[..i]) then ScanFrom(b[i + |OPEN|..], true, noText, true, thinking)
      else if i < 0 && cut < |b| && noText && AllSpace(b[..cut]) then Parsed(b[cut..], false, suppress, "", thinking)
      else Parsed("", false, suppress, b, thinking)
  }

  lemma {:induction false} ScanFromIsScan(b: string, inside: bool, noText: bool, suppress: bool, thinking: string)
    ensures var r := Scan(b, inside, noText);
            ScanFrom(b, inside, noText, suppress, thinking) ==
            r.(suppress := suppress || r.suppress, thinking := thinking + r.thinking)
    decreases |b|
  {
    if b != "" && inside && Contains(b, CLOSE) {
      var i := IndexOf(b, CLOSE);
      var after := b[i + |CLOSE|..];
      ScanFromIsScan(after, false, noText, suppress, thinking + b[..i]);
      var r := Scan(after, false, noText);
      assert thinking + (b[..i] + r.thinking) == (thinking + b[..i]) + r.thinking;
    } else if b != "" && !inside && Contains(b, OPEN) && noText && AllSpace(b[..IndexOf(b, OPEN)]) {
      ScanFromIsScan(b[IndexOf(b, OPEN) + |OPEN|..], true, noText, true, thinking);
    } else {
      assert thinking + "" == thinking;
    }
  }

  /** A parser call. `suppress` in the result says that a tag was opened now or
      before. */
  method ParseTags(buf: string, inside: bool, suppress: bool, noText: bool, delta: string) returns (r: Parsed)
    ensures var p := Parse(buf, inside, noText, delta);
            r == p.(suppress := suppress || p.suppress)
  {
    if buf == "" && !inside && '<' !in delta {
      return Parsed("", false, suppress, delta, "");
    }
    r := ScanLoop(buf + delta, inside, suppress, noText);
    ScanFromIsScan(buf + delta, inside, noText, suppress, "");
    assert "" + Scan(buf + delta, inside, noText).thinking == Scan(buf + delta, inside, noText).thinking;
  }

  method ScanLoop(buf0: string, inside0: bool, suppress0: bool, noText: bool) returns (r: Parsed)
    ensures r == ScanFrom(buf0, inside0, noText, suppress0, "")
  {
    var buf, inside, suppress, thinking := buf0, inside0, suppress0, "";
    ghost var goal := ScanFrom(buf, inside, noText, suppress, thinking);
    while |buf| > 0
      invariant goal == ScanFrom(buf, inside, noText, suppress, thinking)
      decreases |buf|
    {
      if inside {
        var idx := Index(buf, CLOSE);
        if idx >= 0 {
          thinking := thinking + buf[..idx];
          buf, inside := buf[idx + |CLOSE|..], false;
          continue;
        }
        var keep := PartialTagSuffix(buf, CLOSE);
        var cut := |buf| - keep;
        return Parsed(buf[cut..], true, suppress, "", thinking + buf[..cut]);
      }
      var idx := Index(buf, OPEN);
      if idx >= 0 {
        if !(noText && AllSpace(buf[..idx])) {
          return Parsed("", false, suppress, buf, thinking);
        }
        buf, inside, suppress := buf[idx + |OPEN|..], true, true;
        continue;
      }
      var keep := PartialTagSuffix(buf, OPEN);
      var cut := |buf| - keep;
      if keep > 0 && noText && AllSpace(buf[..cut]) {
        return Parsed(buf[cut..], false, suppress, "", thinking);
      }
      return Parsed("", false, suppress, buf, thinking);
    }
    return Parsed("", inside, suppress, "", thinking);
  }

  // ---------------------------------------------------------------- streams

  /** Parser state across calls, with everything handed on so far. */
  datatype Stream = Stream(buf: string, inside: bool, hasText: bool, text: string, thinking: string)

  const START := Stream("", false, false, "", "")

  ghost function Feed(p: Stream, delta: string): Stream
  {
    var r := Parse(p.buf, p.inside, !p.hasText, delta);
    Stream(r.buf, r.inside, p.hasText || r.text != "", p.text + r.text, p.thinking + r.thinking)
  }

  ghost function FeedAll(p: Stream, chunks: seq<string>): Stream
    decreases |chunks|
  {
    if chunks == [] then p else FeedAll(Feed(p, chunks[0]), chunks[1..])
  }

  /** Text and thinking once the stream has ended and the buffer is flushed. */
  ghost function Flushed(p: Stream): (string, string)
  {
    if p.inside then (p.text, p.thinking + p.buf) else (p.text + p.buf, p.thinking)
  }

  ghost function Split(chunks: seq<string>): (string, string)
  {
    Flushed(FeedAll(START, chunks))
  }

  // -------------------------------------------- chunking independence

  /** What an undivided stream means: blocks of thinking while the text still
      starts with an opening tag, then visible text. */
  ghost function Reference(s: string, inside: bool): (string, string)
    decreases |s|
  {
    if inside then
      var i := IndexOf(s, CLOSE);
      if i < 0 then ("", s)
      else var r := Reference(s[i + |CLOSE|..], false); (r.0, s[..i] + r.1)
    else if OPEN <= s then Reference(s[|OPEN|..], true)
    else (s, "")
  }

  predicate SpaceThenAngleAt(s: string, n: int)
  {
    0 < n < |s| && AllSpace(s[..n]) && s[n] == '<'
  }

  /** White space directly followed by something that might be a tag. */
  ghost predicate SpaceThenAngle(s: string)
  {
    exists n :: SpaceThenAngleAt(s, n)
  }

  /** Wherever an opening tag would still count -- at the start, and behind each
      closing tag -- no white space stands before a `<`. */
  ghost predicate Steady(s: string, inside: bool)
    decreases |s|
  {
    if inside then
      var i := IndexOf(s, CLOSE);
      i >= 0 ==> Steady(s[i + |CLOSE|..], false)
    else if OPEN <= s then Steady(s[|OPEN|..], true)
    else !SpaceThenAngle(s)
  }

  lemma SpaceBeforeTag(b: string, i: nat, rest: string)
    requires SpaceThenAngleAt(b, i)
    ensures SpaceThenAngle(b + rest) && !(OPEN <= b + rest) && !Steady(b + rest, false)
  {
    assert (b + rest)[..i] == b[..i];
    assert SpaceThenAngleAt(b + rest, i);
    assert IsSpace(b[..i][0]);
  }

  /** The buffer keeps exactly what may still become an opening tag. */
  lemma OpenAtStart(b: string, rest: string)
    requires b != "" && OPEN <= b + rest
    ensures OPEN <= b || (b < OPEN && Overlap(b, OPEN) == |b|)
    ensures !(OPEN <= b) ==> !Contains(b, OPEN)
    ensures OPEN <= b ==> IndexOf(b, OPEN) == 0
  {
    if |b| >= |OPEN| {
      assert (b + rest)[..|OPEN|] == b[..|OPEN|];
      assert OccursAt(b, OPEN, 0);
    } else {
      assert b == (b + rest)[..|b|] == OPEN[..|b|];
      assert IsOverlap(b, OPEN, |b|);
    }
  }

  lemma ScanInsideClosed(b: string, rest: string)
    requires Contains(b, CLOSE)
    ensures var i := IndexOf(b, CLOSE);
            IndexOf(b + rest, CLOSE) == i &&
            (b + rest)[i + |CLOSE|..] == b[i + |CLOSE|..] + rest &&
            (b + rest)[..i] == b[..i]
  {
    IndexOfGrow(b, CLOSE, rest);
  }

  lemma ReferenceHoldsBack(b: string, rest: string)
    requires !Contains(b, CLOSE)
    ensures var cut := |b| - Overlap(b, CLOSE);
            var x := Reference(b[cut..] + rest, true);
            Reference(b + rest, true) == (x.0, b[..cut] + x.1)
    ensures Steady(b + rest, true) == Steady(b[|b| - Overlap(b, CLOSE)..] + rest, true)
  {
    var cut := |b| - Overlap(b, CLOSE);
    var held := b[cut..] + rest;
    HoldBackIndex(b, CLOSE, rest);
    assert b + rest == b[..cut] + held;
    var i := IndexOf(held, CLOSE);
    if i >= 0 {
      assert (b + rest)[cut + i + |CLOSE|..] == held[i + |CLOSE|..];
      assert (b + rest)[..cut + i] == b[..cut] + held[..i];
      var y := Reference(held[i + |CLOSE|..], false);
      assert (b[..cut] + held[..i]) + y.1 == b[..cut] + (held[..i] + y.1);
    }
  }

  /** Scanning has produced `r`; `rest` is still to come; `whole` is the result. */
  ghost predicate ReadsOn(r: Parsed, rest: string, whole: (string, string))
  {
    if r.text != "" then whole == (r.text + rest, r.thinking)
    else
      var x := Reference(r.buf + rest, r.inside);
      Steady(r.buf + rest, r.inside) && whole == (x.0, r.thinking + x.1)
  }

  lemma ReadsOnAfterThought(r: Parsed, rest: string, whole: (string, string), thought: string)
    requires ReadsOn(r, rest, whole)
    ensures ReadsOn(r.(thinking := thought + r.thinking), rest, (whole.0, thought + whole.1))
  {
    var x := Reference(r.buf + rest, r.inside);
    assert thought + (r.thinking + x.1) == (thought + r.thinking) + x.1;
  }

  /** Scanning a prefix of a steady stream and reading on gives what the
      reference gives for the whole. */
  lemma {:induction false} ScanMeaning(b: string, inside: bool, rest: string)
    requires Steady(b + rest, inside)
    ensures ReadsOn(Scan(b, inside, true), rest, Reference(b + rest, inside))
    decreases |b|
  {
    if b == "" {
      assert "" + rest == rest;
      assert "" + Reference(rest, inside).1 == Reference(rest, inside).1;
    } else if inside && Contains(b, CLOSE) {
      ScanInsideClosed(b, rest);
      ScanMeaning(b[IndexOf(b, CLOSE) + |CLOSE|..], false, rest);
      ScanClosedMeaning(b, rest);
    } else if inside {
      ScanStaysMeaning(b, rest);
    } else if OPEN <= b {
      ScanOpenMeaning(b, rest);
      ScanMeaning(b[|OPEN|..], true, rest);
    } else {
      ScanTextMeaning(b, rest);
    }
  }

  lemma ScanStaysMeaning(b: string, rest: string)
    requires b != "" && !Contains(b, CLOSE) && Steady(b + rest, true)
    ensures ReadsOn(Scan(b, true, true), rest, Reference(b + rest, true))
  {
    ReferenceHoldsBack(b, rest);
  }

  lemma ScanTextMeaning(b: string, rest: string)
    requires b != "" && !(OPEN <= b) && Steady(b + rest, false)
    ensures ReadsOn(Scan(b, false, true), rest, Reference(b + rest, false))
  {
    ScanOutsideMeaning(b, rest);
    assert "" + Reference(b + rest, false).1 == Reference(b + rest, false).1;
  }

  lemma ScanClosedMeaning(b: string, rest: string)
    requires Contains(b, CLOSE)
    requires var after := b[IndexOf(b, CLOSE) + |CLOSE|..];
             ReadsOn(Scan(after, false, true), rest, Reference(after + rest, false))
    ensures ReadsOn(Scan(b, true, true), rest, Reference(b + rest, true))
  {
    var i := IndexOf(b, CLOSE);
    var after := b[i + |CLOSE|..];
    ScanInsideClosed(b, rest);
    ReadsOnAfterThought(Scan(after, false, true), rest, Reference(after + rest, false), b[..i]);
  }

  lemma ScanOpenMeaning(b: string, rest: string)
    requires OPEN <= b
    ensures Scan(b, false, true) == Scan(b[|OPEN|..], true, true).(suppress := true)
    ensures Reference(b + rest, false) == Reference(b[|OPEN|..] + rest, true)
    ensures Steady(b + rest, false) == Steady(b[|OPEN|..] + rest, true)
  {
    assert (b + rest)[..|OPEN|] == b[..|OPEN|];
    OpenAtStart(b, rest);
    assert (b + rest)[|OPEN|..] == b[|OPEN|..] + rest;
  }

  lemma ScanOutsideMeaning(b: string, rest: string)
    requires b != "" && Steady(b + rest, false) && !(OPEN <= b)
    ensures var r := Scan(b, false, true);
            !r.inside && r.thinking == "" &&
            (r.text == b || (r.text == "" && r.buf == b)) &&
            (r.text == b ==> Reference(b + rest, false) == (b + rest, ""))
  {
    var i, cut := IndexOf(b, OPEN), |b| - Overlap(b, OPEN);
    if i >= 0 {
      assert b[i..i + |OPEN|] == OPEN;
      assert i > 0 && b[i] == OPEN[0];
      if AllSpace(b[..i]) {
        SpaceBeforeTag(b, i, rest);
      }
    } else if cut < |b| && AllSpace(b[..cut]) {
      assert b[cut..][0] == OPEN[0];
      if cut > 0 {
        SpaceBeforeTag(b, cut, rest);
      }
    }
    if OPEN <= b + rest {
      OpenAtStart(b, rest);
    }
  }

  lemma ScanAfterText(b: string)
    ensures Scan(b, false, false) == Parsed("", false, false, b, "")
  {
  }

  /** States the parser can be in between chunks. */
  predicate Between(p: Stream)
  {
    p.hasText == (p.text != "") && (p.hasText ==> p.buf == "" && !p.inside)
  }

  /** The final result if exactly `rest` is still to come. */
  ghost function Meaning(p: Stream, rest: string): (string, string)
  {
    if p.hasText then (p.text + rest, p.thinking)
    else var x := Reference(p.buf + rest, p.inside); (x.0, p.thinking + x.1)
  }

  ghost predicate SteadyFrom(p: Stream, rest: string)
  {
    p.hasText || Steady(p.buf + rest, p.inside)
  }

  lemma FeedMeaning(p: Stream, d: string, rest: string)
    requires Between(p) && SteadyFrom(p, d + rest)
    ensures Between(Feed(p, d)) && SteadyFrom(Feed(p, d), rest)
    ensures Meaning(Feed(p, d), rest) == Meaning(p, d + rest)
  {
    FastPathAgrees(p.buf, p.inside, !p.hasText, d);
    if p.hasText {
      assert p.buf + d == d;
      ScanAfterText(d);
      assert p.text + (d + rest) == (p.text + d) + rest;
      assert p.thinking + "" == p.thinking;
    } else {
      assert p.buf + (d + rest) == (p.buf + d) + rest;
      ScanMeaning(p.buf + d, p.inside, rest);
      var r, whole := Scan(p.buf + d, p.inside, true), Reference((p.buf + d) + rest, p.inside);
      ReadsOnAfterThought(r, rest, whole, p.thinking);
      assert p.text + r.text == r.text;
    }
  }

  lemma {:induction false} FeedAllMeaning(p: Stream, chunks: seq<string>, rest: string)
    requires Between(p) && SteadyFrom(p, Concat(chunks) + rest)
    ensures Between(FeedAll(p, chunks)) && SteadyFrom(FeedAll(p, chunks), rest)
    ensures Meaning(FeedAll(p, chunks), rest) == Meaning(p, Concat(chunks) + rest)
    decreases |chunks|
  {
    if chunks == [] {
      assert Concat(chunks) + rest == rest;
    } else {
      var more := Concat(chunks[1..]) + rest;
      assert Concat(chunks) + rest == chunks[0] + more;
      FeedMeaning(p, chunks[0], more);
      FeedAllMeaning(Feed(p, chunks[0]), chunks[1..], rest);
    }
  }

  /** The buffer never holds a complete tag, so flushing it is all that is left. */
  ghost predicate BufferIsPartial(p: Stream)
  {
    if p.inside then !Contains(p.buf, CLOSE) else !(OPEN <= p.buf)
  }

  lemma {:induction false} ScanBuffer(b: string, inside: bool, noText: bool)
    ensures var r := Scan(b, inside, noText);
            if r.inside then !Contains(r.buf, CLOSE) else !(OPEN <= r.buf)
    decreases |b|
  {
    if b == "" {
    } else if inside && Contains(b, CLOSE) {
      ScanBuffer(b[IndexOf(b, CLOSE) + |CLOSE|..], false, noText);
    } else if inside {
      var held := b[|b| - Overlap(b, CLOSE)..];
      assert |held| < |CLOSE|;
    } else if Contains(b, OPEN) && noText && AllSpace(b[..IndexOf(b, OPEN)]) {
      ScanBuffer(b[IndexOf(b, OPEN) + |OPEN|..], true, noText);
    }
  }

  lemma {:induction false} FeedAllBuffer(p: Stream, chunks: seq<string>)
    requires BufferIsPartial(p)
    ensures BufferIsPartial(FeedAll(p, chunks))
    decreases |chunks|
  {
    if chunks != [] {
      FastPathAgrees(p.buf, p.inside, !p.hasText, chunks[0]);
      ScanBuffer(p.buf + chunks[0], p.inside, !p.hasText);
      FeedAllBuffer(Feed(p, chunks[0]), chunks[1..]);
    }
  }

  lemma FlushedIsMeaning(p: Stream)
    requires Between(p) && BufferIsPartial(p)
    ensures Flushed(p) == Meaning(p, "")
  {
    assert p.buf + "" == p.buf && p.text + "" == p.text && p.thinking + "" == p.thinking;
    assert p.text == "" ==> p.text + p.buf == p.buf;
  }

  /** A steady stream gives the same text and thinking however it is cut. */
  lemma SteadySplit(chunks: seq<string>)
    requires Steady(Concat(chunks), false)
    ensures Split(chunks) == Reference(Concat(chunks), false)
  {
    var s := Concat(chunks);
    assert s + "" == s && "" + s == s;
    assert "" + Reference(s, false).1 == Reference(s, false).1;
    FeedAllMeaning(START, chunks, "");
    FeedAllBuffer(START, chunks);
    FlushedIsMeaning(FeedAll(START, chunks));
  }

  ghost predicate SameState(r: Parsed, q: Parsed)
  {
    r.buf == q.buf && r.inside == q.inside && r.text == q.text
  }

  lemma ScanPastClose(s: string, tail: string)
    requires Contains(s, CLOSE)
    ensures var c := IndexOf(s, CLOSE) + |CLOSE|;
            var r, q := Scan(s[..c] + tail, true, true), Scan(tail, false, true);
            SameState(r, q) && |r.thinking| == IndexOf(s, CLOSE) + |q.thinking|
  {
    var i := IndexOf(s, CLOSE);
    var pre := s[..i + |CLOSE|];
    assert OccursAt(pre, CLOSE, i);
    assert s == pre + s[|pre|..];
    IndexOfGrow(pre, CLOSE, s[|pre|..]);
    ScanInsideClosed(pre, tail);
    assert pre[|pre|..] + tail == tail;
  }

  /** Everything before that point leaves the scanner as if it had just started. */
  /** Past `pre` the parser reads on as if it had just begun outside a tag. */
  ghost predicate Restarts(pre: string, inside: bool)
  {
    forall x :: SameState(Scan(pre + x, inside, true), Scan(x, false, true))
  }

  ghost predicate ThoughtEndsAt(s: string, c: nat)
  {
    c == IndexOf(s, CLOSE) + |CLOSE| && |CLOSE| <= c <= |s|
  }

  lemma RestartsAtOnce()
    ensures Restarts("", false)
  {
    forall x ensures SameState(Scan("" + x, false, true), Scan(x, false, true)) {
      assert "" + x == x;
    }
  }

  lemma RestartsAfterClose(s: string, c: nat, pre: string)
    requires ThoughtEndsAt(s, c) && Restarts(pre, false)
    ensures Restarts(s[..c] + pre, true)
  {
    forall x ensures SameState(Scan((s[..c] + pre) + x, true, true), Scan(x, false, true)) {
      ScanPastClose(s, pre + x);
      ConcatAssoc(s[..c], pre, x);
    }
  }

  lemma RestartsAfterOpen(pre: string)
    requires Restarts(pre, true)
    ensures Restarts(OPEN + pre, false)
  {
    forall x ensures SameState(Scan((OPEN + pre) + x, false, true), Scan(x, false, true)) {
      ScanOpenMeaning(OPEN + (pre + x), "");
      assert (OPEN + (pre + x))[|OPEN|..] == pre + x;
      ConcatAssoc(OPEN, pre, x);
    }
  }

  lemma ConcatAssoc(a: string, b: string, c: string)
    ensures (a + b) + c == a + (b + c)
  {
  }

  /** The tag at the front of an unsteady stream, with the thought before it, and
      what follows. */
  lemma UnsteadyHead(s: string, inside: bool) returns (c: nat)
    requires !Steady(s, inside) && (inside || OPEN <= s)
    ensures 0 < c <= |s| && !Steady(s[c..], !inside)
    ensures if inside then ThoughtEndsAt(s, c) else s[..c] == OPEN
  {
    if inside {
      c := IndexOf(s, CLOSE) + |CLOSE|;
    } else {
      c := |OPEN|;
    }
  }

  /** `s` is `pre` and `rest`, and past `pre` the parser restarts. */
  ghost predicate RestartsIn(s: string, inside: bool, pre: string, rest: string)
  {
    s == pre + rest && Restarts(pre, inside)
  }

  lemma RestartsAfterHead(s: string, inside: bool, c: nat, pre: string, rest: string)
    requires c <= |s| && RestartsIn(s[c..], !inside, pre, rest)
    requires if inside then ThoughtEndsAt(s, c) else s[..c] == OPEN
    ensures RestartsIn(s, inside, s[..c] + pre, rest)
  {
    assert s == s[..c] + s[c..];
    ConcatAssoc(s[..c], pre, rest);
    if inside {
      RestartsAfterClose(s, c, pre);
    } else {
      RestartsAfterOpen(pre);
    }
  }

  /** An unsteady stream has white space before a `<` where the parser restarts. */
  lemma {:induction false} UnsteadyParts(s: string, inside: bool) returns (pre: string, rest: string)
    requires !Steady(s, inside)
    ensures SpaceThenAngle(rest) && RestartsIn(s, inside, pre, rest)
    decreases |s|
  {
    if !inside && !(OPEN <= s) {
      RestartsAtOnce();
      pre, rest := "", s;
    } else {
      var c := UnsteadyHead(s, inside);
      pre, rest := UnsteadyParts(s[c..], !inside);
      RestartsAfterHead(s, inside, c, pre, rest);
      pre := s[..c] + pre;
    }
  }

  lemma ScanSpace(ws: string)
    requires ws != "" && AllSpace(ws)
    ensures Scan(ws, false, true) == Parsed("", false, false, ws, "")
    ensures Scan(ws + "<", false, true) == Parsed("<", false, false, "", "")
  {
    forall i | 0 <= i < |ws| ensures ws[i] != '<' {
      assert IsSpace(ws[i]);
    }
    NoTagWithoutAngle(ws);
    var b := ws + "<";
    TagAngle(b);
    assert b[..|b| - 1] == ws;
    assert IsOverlap(b, OPEN, 1) by {
      assert b[|b| - 1..] == "<" == OPEN[..1];
    }
  }

  lemma {:induction false} TextBound(p: Stream, chunks: seq<string>)
    ensures |Flushed(FeedAll(p, chunks)).0| <= |p.text| + |p.buf| + |Concat(chunks)|
    decreases |chunks|
  {
    if chunks != [] {
      FastPathAgrees(p.buf, p.inside, !p.hasText, chunks[0]);
      TextBound(Feed(p, chunks[0]), chunks[1..]);
    }
  }

  /** Cut behind the white space, the stream shows it. */
  lemma SpaceShown(pre: string, ws: string, t: string)
    requires ws != "" && AllSpace(ws)
    requires SameState(Scan(pre + ws, false, true), Scan(ws, false, true))
    ensures |Split([pre + ws, t]).0| == |ws| + |t|
  {
    ScanSpace(ws);
    var p := Feed(START, pre + ws);
    FastPathAgrees("", false, true, pre + ws);
    assert "" + (pre + ws) == pre + ws;
    FastPathAgrees("", false, false, t);
    assert "" + t == t;
    ScanAfterText(t);
    assert [pre + ws, t][1..] == [t] && [t][1..] == [];
    assert FeedAll(START, [pre + ws, t]) == FeedAll(p, [t]) == FeedAll(Feed(p, t), []);
  }

  /** Cut behind the `<`, the stream swallows it. */
  lemma SpaceSwallowed(pre: string, ws: string, t: string)
    requires ws != "" && AllSpace(ws)
    requires SameState(Scan(pre + (ws + "<"), false, true), Scan(ws + "<", false, true))
    ensures |Split([pre + (ws + "<"), t]).0| <= 1 + |t|
  {
    ScanSpace(ws);
    var first := pre + (ws + "<");
    FastPathAgrees("", false, true, first);
    assert "" + first == first;
    assert [first, t][1..] == [t];
    TextBound(Feed(START, first), [t]);
    assert Concat([t]) == t + Concat([]) == t;
  }

  /** Two cuts of one stream that differ in the visible text. */
  lemma SpaceDecides(pre: string, ws: string, t: string)
    requires ws != "" && AllSpace(ws)
    requires SameState(Scan(pre + ws, false, true), Scan(ws, false, true))
    requires SameState(Scan(pre + (ws + "<"), false, true), Scan(ws + "<", false, true))
    ensures Concat([pre + ws, "<" + t]) == Concat([pre + (ws + "<"), t]) == pre + (ws + ("<" + t))
    ensures Split([pre + ws, "<" + t]) != Split([pre + (ws + "<"), t])
  {
    ConcatPair(pre + ws, "<" + t);
    ConcatPair(pre + (ws + "<"), t);
    assert pre + (ws + ("<" + t)) == (pre + ws) + ("<" + t) == (pre + (ws + "<")) + t;
    SpaceShown(pre, ws, "<" + t);
    SpaceSwallowed(pre, ws, t);
  }

  lemma SpaceParts(rest: string) returns (ws: string, t: string)
    requires SpaceThenAngle(rest)
    ensures rest == ws + ("<" + t) && ws != "" && AllSpace(ws)
  {
    var n :| SpaceThenAngleAt(rest, n);
    ws, t := rest[..n], rest[n + 1..];
  }

  /** An unsteady stream can be cut so that the white space is shown, and so
      that it is swallowed. */
  lemma UnsteadySplits(s: string) returns (shown: seq<string>, swallowed: seq<string>)
    requires !Steady(s, false)
    ensures Concat(shown) == s && Concat(swallowed) == s
    ensures Split(shown) != Split(swallowed)
  {
    var pre, rest := UnsteadyParts(s, false);
    var ws, t := SpaceParts(rest);
    shown, swallowed := [pre + ws, "<" + t], [pre + (ws + "<"), t];
    SpaceDecides(pre, ws, t);
  }

  /** Text and thinking are independent of the chunking exactly for steady streams. */
  lemma ChunkingIndependence(s: string)
    ensures Steady(s, false) <==>
            forall a, b | Concat(a) == s && Concat(b) == s :: Split(a) == Split(b)
  {
    if Steady(s, false) {
      forall a, b | Concat(a) == s && Concat(b) == s ensures Split(a) == Split(b) {
        SteadySplit(a);
        SteadySplit(b);
      }
    } else {
      var a, b := UnsteadySplits(s);
    }
  }
}
