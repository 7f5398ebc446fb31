/** What the tag parser hands on, read back as a grammar: for every chunking the
    stream is a list of thinking blocks followed by visible text or by one
    unclosed thought, and nothing but tags and white space is ever dropped.
 */
module ThinkingGrammar {
  import opened Text
  import opened ThinkingTags

  datatype Shape =
    | Visible(space: string, text: string)
    | Unclosed(space: string, thought: string)
    | Closed(space: string, thought: string, rest: Shape)

  ghost predicate WellFormed(sh: Shape)
  {
    AllSpace(sh.space) &&
    (!sh.Visible? ==> !Contains(sh.thought, CLOSE)) &&
    (sh.Closed? ==> WellFormed(sh.rest))
  }

  /** The stream a shape stands for. */
  function Render(sh: Shape): string
  {
    match sh
    case Visible(space, text) => space + text
    case Unclosed(space, thought) => space + (OPEN + thought)
    case Closed(space, thought, rest) => space + (OPEN + (thought + (CLOSE + Render(rest))))
  }

  function ShownText(sh: Shape): string
  {
    match sh
    case Visible(_, text) => text
    case Unclosed(_, _) => ""
    case Closed(_, _, rest) => ShownText(rest)
  }

  function Thoughts(sh: Shape): string
  {
    match sh
    case Visible(_, _) => ""
    case Unclosed(_, thought) => thought
    case Closed(_, thought, rest) => thought + Thoughts(rest)
  }

  // ------------------------------------------------------- parser states

  /** The part of an open thought that is held back, and the part handed on. */
  ghost function Held(z: string): string
  {
    z[|z| - Overlap(z, CLOSE)..]
  }

  ghost function Emitted(z: string): string
  {
    z[..|z| - Overlap(z, CLOSE)]
  }

  /** The thinking handed on while the stream is still running. */
  ghost function EmittedThoughts(sh: Shape): string
  {
    match sh
    case Visible(_, _) => ""
    case Unclosed(_, z) => Emitted(z)
    case Closed(_, thought, rest) => thought + EmittedThoughts(rest)
  }

  /** The end of the shape agrees with a parser state and the text shown. */
  ghost predicate Matches(sh: Shape, buf: string, inside: bool, text: string)
  {
    match sh
    case Visible(_, t) => !inside && t == text + buf && (text != "" ==> buf == "")
    case Unclosed(_, z) => inside && buf == Held(z) && text == ""
    case Closed(_, _, rest) => Matches(rest, buf, inside, text)
  }

  /** `sh` accounts for parsing `b` from scratch with outcome `r`. */
  ghost predicate Explains(sh: Shape, b: string, r: Parsed)
  {
    WellFormed(sh) && Render(sh) == b &&
    EmittedThoughts(sh) == r.thinking && Matches(sh, r.buf, r.inside, r.text)
  }

  // ------------------------------------------------------------ one scan

  lemma SliceShift(e: string, b: string, n: nat)
    requires n <= |b|
    ensures (e + b)[|e| + n..] == b[n..]
    ensures (e + b)[..|e| + n] == e + b[..n]
  {
  }

  lemma CutAtClose(s: string)
    requires Contains(s, CLOSE)
    ensures var i := IndexOf(s, CLOSE);
            !Contains(s[..i], CLOSE) && s == s[..i] + (CLOSE + s[i + |CLOSE|..])
  {
    var i := IndexOf(s, CLOSE);
    assert s == s[..i] + s[i..];
    IndexOfGrow(s[..i], CLOSE, s[i..]);
  }

  /** A thought closes at the first closing tag of the whole thought, however
      much of it had been handed on before. */
  lemma InsideCloses(z: string, d: string, noText: bool)
    requires !Contains(z, CLOSE) && Contains(z + d, CLOSE)
    ensures var i := IndexOf(z + d, CLOSE);
            var thought, after := (z + d)[..i], (z + d)[i + |CLOSE|..];
            var r, q := Scan(Held(z) + d, true, noText), Scan(after, false, noText);
            |after| < |d| && SameState(r, q) && Emitted(z) + r.thinking == thought + q.thinking
  {
    var e, b := Emitted(z), Held(z) + d;
    ClosePosition(z, d);
    var i := IndexOf(b, CLOSE);
    var q := Scan(b[i + |CLOSE|..], false, noText);
    assert Scan(b, true, noText) == q.(thinking := b[..i] + q.thinking);
    Regroup(e, b[..i], q.thinking);
  }

  lemma Regroup(x: string, y: string, z: string)
    ensures x + (y + z) == (x + y) + z
    ensures "" + z == z
  {
  }

  /** The closing tag stands in the new part of what the parser holds. */
  lemma ClosePosition(z: string, d: string)
    requires !Contains(z, CLOSE) && Contains(z + d, CLOSE)
    ensures var e, b := Emitted(z), Held(z) + d;
            var i, j := IndexOf(b, CLOSE), IndexOf(z + d, CLOSE);
            i >= 0 && b != "" && (z + d)[..j] == e + b[..i] && (z + d)[j + |CLOSE|..] == b[i + |CLOSE|..] &&
            |(z + d)[j + |CLOSE|..]| < |d|
  {
    var e, b := Emitted(z), Held(z) + d;
    HoldBackIndex(z, CLOSE, d);
    IndexOfGrow(z, CLOSE, d);
    var i := IndexOf(b, CLOSE);
    assert z + d == e + b;
    SliceShift(e, b, i);
    SliceShift(e, b, i + |CLOSE|);
  }

  lemma InsideStays(z: string, d: string, noText: bool)
    requires !Contains(z, CLOSE) && !Contains(z + d, CLOSE)
    ensures var r := Scan(Held(z) + d, true, noText);
            r.inside && r.text == "" && r.buf == Held(z + d) && Emitted(z) + r.thinking == Emitted(z + d)
  {
    var e, b := Emitted(z), Held(z) + d;
    HoldBackIndex(z, CLOSE, d);
    HoldBackOverlap(z, CLOSE, d);
    assert z + d == e + b;
    SliceShift(e, b, |b| - Overlap(b, CLOSE));
    if b == "" {
      assert e + "" == e;
    }
  }

  lemma {:induction false} InsideShape(space: string, z: string, d: string, noText: bool) returns (sh: Shape)
    requires AllSpace(space) && !Contains(z, CLOSE)
    ensures var r := Scan(Held(z) + d, true, noText);
            Explains(sh, space + (OPEN + (z + d)), r.(thinking := Emitted(z) + r.thinking))
    decreases |d|, 0
  {
    var s := z + d;
    if Contains(s, CLOSE) {
      var i := IndexOf(s, CLOSE);
      var after := s[i + |CLOSE|..];
      InsideCloses(z, d, noText);
      CutAtClose(s);
      var rest := OutsideShape(after, noText);
      sh := Closed(space, s[..i], rest);
      ClosedExplains(space, s[..i], rest, after, Scan(after, false, noText),
                     Scan(Held(z) + d, true, noText).(thinking := Emitted(z) + Scan(Held(z) + d, true, noText).thinking));
    } else {
      InsideStays(z, d, noText);
      sh := Unclosed(space, s);
    }
  }

  lemma ClosedExplains(space: string, thought: string, rest: Shape, after: string, q: Parsed, r: Parsed)
    requires AllSpace(space) && !Contains(thought, CLOSE) && Explains(rest, after, q)
    requires SameState(r, q) && r.thinking == thought + q.thinking
    ensures Explains(Closed(space, thought, rest), space + (OPEN + (thought + (CLOSE + after))), r)
  {
  }

  lemma {:induction false} OutsideShape(b: string, noText: bool) returns (sh: Shape)
    ensures Explains(sh, b, Scan(b, false, noText))
    decreases |b|, 1
  {
    var i, cut := IndexOf(b, OPEN), |b| - Overlap(b, OPEN);
    if b != "" && i >= 0 && noText && AllSpace(b[..i]) {
      var inner := b[i + |OPEN|..];
      assert b == b[..i] + (OPEN + inner);
      NothingHeld(inner, Scan(inner, true, noText).thinking);
      sh := InsideShape(b[..i], "", inner, noText);
    } else if b != "" && i < 0 && cut < |b| && noText && AllSpace(b[..cut]) {
      sh := Visible(b[..cut], b[cut..]);
    } else {
      sh := Visible("", b);
    }
  }

  lemma NothingHeld(inner: string, thinking: string)
    ensures !Contains("", CLOSE) && Held("") + inner == inner && "" + inner == inner
    ensures Emitted("") + thinking == thinking
  {
    NothingInNothing(CLOSE);
    Regroup("", "", inner);
    Regroup("", "", thinking);
  }

  // ---------------------------------------------------------- whole streams

  /** White space already dropped joins that of the first block. */
  lemma AfterSpace(space: string, sh: Shape, b: string, r: Parsed) returns (sh': Shape)
    requires AllSpace(space) && Explains(sh, b, r)
    ensures Explains(sh', space + b, r)
  {
    sh' := sh.(space := space + sh.space);
    match sh {
      case Visible(_, text) =>
      case Unclosed(_, thought) =>
      case Closed(_, thought, rest) =>
    }
  }

  /** New input only changes the end of a shape. */
  ghost predicate Extends(sh': Shape, sh: Shape, text: string, d: string, r: Parsed)
  {
    WellFormed(sh') && Render(sh') == Render(sh) + d &&
    EmittedThoughts(sh') == EmittedThoughts(sh) + r.thinking &&
    Matches(sh', r.buf, r.inside, text + r.text)
  }

  lemma {:induction false} FeedShape(sh: Shape, buf: string, inside: bool, text: string, d: string) returns (sh': Shape)
    requires WellFormed(sh) && Matches(sh, buf, inside, text)
    ensures Extends(sh', sh, text, d, Scan(buf + d, inside, text == ""))
    decreases sh
  {
    match sh {
      case Closed(space, thought, rest) =>
        var rest' := FeedShape(rest, buf, inside, text, d);
        sh' := Closed(space, thought, rest');
        ClosedExtends(sh, rest', text, d, Scan(buf + d, inside, text == ""));
      case Unclosed(space, z) =>
        sh' := InsideShape(space, z, d, true);
        assert space + (OPEN + (z + d)) == (space + (OPEN + z)) + d;
        var r := Scan(buf + d, true, true);
        assert text + r.text == r.text;
      case Visible(space, t) =>
        sh' := FeedVisible(sh, buf, text, d);
    }
  }

  lemma AppendDeep(a: string, b: string, c: string, e: string, x: string, d: string)
    ensures a + (b + (c + (e + (x + d)))) == (a + (b + (c + (e + x)))) + d
  {
    assert c + (e + (x + d)) == (c + (e + x)) + d;
  }

  lemma ClosedExtends(sh: Shape, rest': Shape, text: string, d: string, r: Parsed)
    requires sh.Closed? && WellFormed(sh) && Extends(rest', sh.rest, text, d, r)
    ensures Extends(sh.(rest := rest'), sh, text, d, r)
  {
    AppendDeep(sh.space, OPEN, sh.thought, CLOSE, Render(sh.rest), d);
    var e := EmittedThoughts(sh.rest);
    assert sh.thought + (e + r.thinking) == (sh.thought + e) + r.thinking;
  }

  lemma FeedVisible(sh: Shape, buf: string, text: string, d: string) returns (sh': Shape)
    requires sh.Visible? && WellFormed(sh) && Matches(sh, buf, false, text)
    ensures Extends(sh', sh, text, d, Scan(buf + d, false, text == ""))
  {
    if text == "" {
      var b := buf + d;
      var inner := OutsideShape(b, true);
      sh' := AfterSpace(sh.space, inner, b, Scan(b, false, true));
      assert sh.text == buf by {
        assert "" + buf == buf;
      }
      ExplainsExtends(sh', sh, d, Scan(b, false, true));
    } else {
      assert buf + d == d && text + buf == text;
      ScanAfterText(d);
      sh' := Visible(sh.space, text + d);
      assert sh.space + (text + d) == (sh.space + text) + d;
      assert (text + d) + "" == text + d;
    }
  }

  /** A shape found from scratch continues one that had shown nothing. */
  lemma ExplainsExtends(sh': Shape, sh: Shape, d: string, r: Parsed)
    requires sh.Visible? && Explains(sh', sh.space + (sh.text + d), r)
    ensures Extends(sh', sh, "", d, r)
  {
    assert sh.space + (sh.text + d) == (sh.space + sh.text) + d;
    assert "" + r.thinking == r.thinking && "" + r.text == r.text;
  }

  lemma {:induction false} FeedAllShape(sh: Shape, p: Stream, chunks: seq<string>) returns (sh': Shape)
    requires StandsFor(sh, p) && p.hasText == (p.text != "")
    ensures StandsFor(sh', FeedAll(p, chunks)) && Render(sh') == Render(sh) + Concat(chunks)
    decreases |chunks|
  {
    if chunks == [] {
      sh' := sh;
      assert Render(sh) + "" == Render(sh);
    } else {
      var d := chunks[0];
      sh' := FeedOneShape(sh, p, d);
      Regroup(Render(sh), d, Concat(chunks[1..]));
      sh' := FeedAllShape(sh', Feed(p, d), chunks[1..]);
    }
  }

  /** The shape stands for a parser state. */
  ghost predicate StandsFor(sh: Shape, p: Stream)
  {
    WellFormed(sh) && Matches(sh, p.buf, p.inside, p.text) && EmittedThoughts(sh) == p.thinking
  }

  lemma FeedOneShape(sh: Shape, p: Stream, d: string) returns (sh': Shape)
    requires StandsFor(sh, p) && p.hasText == (p.text != "")
    ensures StandsFor(sh', Feed(p, d)) && Render(sh') == Render(sh) + d
    ensures Feed(p, d).hasText == (Feed(p, d).text != "")
  {
    FastPathAgrees(p.buf, p.inside, !p.hasText, d);
    sh' := FeedShape(sh, p.buf, p.inside, p.text, d);
  }

  lemma {:induction false} FlushShape(sh: Shape, p: Stream)
    requires WellFormed(sh) && Matches(sh, p.buf, p.inside, p.text) && EmittedThoughts(sh) == p.thinking
    ensures Flushed(p) == (ShownText(sh), Thoughts(sh))
    decreases sh
  {
    match sh {
      case Closed(_, thought, rest) =>
        FlushShape(rest, p.(thinking := EmittedThoughts(rest)));
        assert thought + (EmittedThoughts(rest) + p.buf) == (thought + EmittedThoughts(rest)) + p.buf;
      case Unclosed(_, z) =>
        assert Emitted(z) + Held(z) == z;
      case Visible(_, _) =>
    }
  }

  /** For every chunking the input is the rendering of a shape, the text is
      exactly the shape's text and the thinking exactly its thoughts. */
  lemma StreamGrammar(chunks: seq<string>) returns (sh: Shape)
    ensures WellFormed(sh) && Render(sh) == Concat(chunks)
    ensures Split(chunks) == (ShownText(sh), Thoughts(sh))
  {
    var empty := Visible("", "");
    assert Render(empty) + Concat(chunks) == Concat(chunks);
    sh := FeedAllShape(empty, START, chunks);
    FlushShape(sh, FeedAll(START, chunks));
  }
}
