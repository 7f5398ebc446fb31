/** Client-supplied stop sequences are found across chunk boundaries by holding
    back, at any time, as many runes as could still begin a match.
 */
module StopSequence {
  import opened Text

  /** The position in the list of the first sequence that occurs in `s`. */
  ghost function FirstListed(seqs: seq<string>, s: string): (k: nat)
    ensures k <= |seqs|
    ensures forall i | 0 <= i < k :: !Contains(s, seqs[i])
    ensures k < |seqs| ==> Contains(s, seqs[k])
  {
    if seqs == [] || Contains(s, seqs[0]) then 0 else 1 + FirstListed(seqs[1..], s)
  }

  ghost predicate ContainsAny(seqs: seq<string>, s: string)
  {
    FirstListed(seqs, s) < |seqs|
  }

  predicate NonEmpty(seqs: seq<string>)
  {
    forall i | 0 <= i < |seqs| :: seqs[i] != ""
  }

  /** Empty sequences would match everywhere and are dropped. */
  function Usable(seqs: seq<string>): (r: seq<string>)
    ensures NonEmpty(r)
  {
    if seqs == [] then []
    else if seqs[|seqs| - 1] == "" then Usable(seqs[..|seqs| - 1])
    else Usable(seqs[..|seqs| - 1]) + [seqs[|seqs| - 1]]
  }

  lemma UsableSnoc(a: seq<string>, s: string)
    ensures Usable(a + [s]) == if s == "" then Usable(a) else Usable(a) + [s]
  {
    assert (a + [s])[..|a|] == a;
  }

  lemma UsableOne(s: string)
    ensures Usable([s]) == if s == "" then [] else [s]
  {
    UsableSnoc([], s);
    assert [] + [s] == [s];
  }

  lemma UsableStep(a: seq<string>, b: seq<string>, s: string)
    requires Usable(a + b) == Usable(a) + Usable(b)
    ensures Usable(a + (b + [s])) == Usable(a) + Usable(b + [s])
  {
    JoinedRight(a, b, s);
    UsableSnoc(a + b, s);
    UsableSnoc(b, s);
    JoinedRight(Usable(a), Usable(b), s);
  }

  /** All but the empty sequences are kept, in order. */
  lemma {:induction false} UsableInOrder(a: seq<string>, b: seq<string>)
    ensures Usable(a + b) == Usable(a) + Usable(b)
  {
    if b == [] {
      assert a + b == a && Usable(a) + [] == Usable(a);
    } else {
      var init, last := b[..|b| - 1], b[|b| - 1];
      UsableInOrder(a, init);
      UsableStep(a, init, last);
      assert b == init + [last];
    }
  }

  lemma JoinedRight(a: seq<string>, b: seq<string>, s: string)
    ensures (a + b) + [s] == a + (b + [s])
  {
  }

  /** `keep` runes are enough to hold back every proper prefix of every sequence. */
  predicate Suffices(keep: nat, seqs: seq<string>)
  {
    forall i | 0 <= i < |seqs| :: |seqs[i]| <= keep + 1
  }

  /** The accumulator's set-up: the usable sequences, and the least number of
      runes that suffices for them. */
  method InitStopSequences(seqs: seq<string>) returns (stops: seq<string>, keep: nat)
    ensures stops == Usable(seqs) && Suffices(keep, stops)
    ensures keep > 0 ==> exists i :: 0 <= i < |stops| && |stops[i]| == keep + 1
  {
    stops, keep := [], 0;
    for i := 0 to |seqs|
      invariant stops == Usable(seqs[..i]) && Suffices(keep, stops)
      invariant keep > 0 ==> exists i :: 0 <= i < |stops| && |stops[i]| == keep + 1
    {
      assert seqs[..i + 1][..i] == seqs[..i];
      var s := seqs[i];
      if s == "" {
        continue;
      }
      ghost var before := stops;
      stops := stops + [s];
      assert forall j | 0 <= j < |before| :: stops[j] == before[j];
      if |s| - 1 > keep {
        keep := |s| - 1;
        assert |stops[|before|]| == keep + 1;
      }
    }
    assert seqs[..|seqs|] == seqs;
  }

  datatype Filtered =
    | Passed(emit: string, pending: string)
    | Stopped(emit: string, which: nat)

  ghost function Filter(seqs: seq<string>, keep: nat, p: string): Filtered
  {
    var k := FirstListed(seqs, p);
    if k < |seqs| then Stopped(p[..IndexOf(p, seqs[k])], k)
    else if |p| <= keep then Passed("", p)
    else Passed(p[..|p| - keep], p[|p| - keep..])
  }

  // ----------------------------------------------------------------- streams

  datatype Run =
    | Running(emitted: string, pending: string)
    | Halted(emitted: string, which: nat)

  const START := Running("", "")

  /** Nothing is filtered any more once a sequence was found. */
  ghost function Push(seqs: seq<string>, keep: nat, r: Run, delta: string): Run
  {
    match r
    case Halted(_, _) => r
    case Running(emitted, pending) =>
      match Filter(seqs, keep, pending + delta)
      case Stopped(emit, k) => Halted(emitted + emit, k)
      case Passed(emit, pending') => Running(emitted + emit, pending')
  }

  ghost function PushAll(seqs: seq<string>, keep: nat, r: Run, chunks: seq<string>): Run
    decreases |chunks|
  {
    if chunks == [] then r else PushAll(seqs, keep, Push(seqs, keep, r, chunks[0]), chunks[1..])
  }

  /** The text shown once the stream has ended. */
  function Shown(r: Run): string
  {
    if r.Running? then r.emitted + r.pending else r.emitted
  }

  /** No match so far: everything was passed on or is held back. */
  ghost predicate Tracks(seqs: seq<string>, keep: nat, r: Run, seen: string)
  {
    r.Running? && !ContainsAny(seqs, seen) && r.emitted + r.pending == seen &&
    |r.pending| == if |seen| < keep then |seen| else keep
  }

  /** A match was completed by the text `upto` and not before. */
  ghost predicate HaltedAt(seqs: seq<string>, r: Run, upto: string)
  {
    var k := FirstListed(seqs, upto);
    k < |seqs| && r == Halted(Before(upto, seqs[k]), k)
  }

  /** Holding back `keep` runes, a match in all the text is a match in the
      pending text, at the same place. */
  lemma PendingSeesAll(s: string, keep: nat, emitted: string, pending: string, d: string)
    requires s != "" && |s| <= keep + 1
    requires !Contains(emitted + pending, s)
    requires |pending| == if |emitted + pending| < keep then |emitted + pending| else keep
    ensures Contains(pending + d, s) <==> Contains(emitted + pending + d, s)
    ensures Contains(pending + d, s) ==>
              IndexOf(emitted + pending + d, s) == |emitted| + IndexOf(pending + d, s)
  {
    var seen := emitted + pending;
    assert emitted + pending + d == emitted + (pending + d);
    forall q | OccursAt(emitted + (pending + d), s, q) ensures q >= |emitted| {
      assert OccursAt(seen + d, s, q);
      if q + |s| <= |seen| {
        OccursAtGrow(seen, s, d, q);
      }
    }
    IndexOfShift(emitted, pending + d, s);
  }

  lemma PendingFirstListed(seqs: seq<string>, keep: nat, r: Run, seen: string, d: string)
    requires NonEmpty(seqs) && Suffices(keep, seqs) && Tracks(seqs, keep, r, seen)
    ensures FirstListed(seqs, r.pending + d) == FirstListed(seqs, seen + d)
  {
    forall i | 0 <= i < |seqs| ensures Contains(r.pending + d, seqs[i]) <==> Contains(seen + d, seqs[i]) {
      PendingSeesAll(seqs[i], keep, r.emitted, r.pending, d);
    }
  }

  /** One chunk: the stop fires exactly if the text so far contains a sequence. */
  lemma PushTracks(seqs: seq<string>, keep: nat, r: Run, seen: string, d: string)
    requires NonEmpty(seqs) && Suffices(keep, seqs) && Tracks(seqs, keep, r, seen)
    ensures if ContainsAny(seqs, seen + d) then HaltedAt(seqs, Push(seqs, keep, r, d), seen + d)
            else Tracks(seqs, keep, Push(seqs, keep, r, d), seen + d)
  {
    PendingFirstListed(seqs, keep, r, seen, d);
    if ContainsAny(seqs, seen + d) {
      PushHalts(seqs, keep, r, seen, d);
    } else {
      PushHolds(seqs, keep, r, seen, d);
    }
  }

  lemma PushHalts(seqs: seq<string>, keep: nat, r: Run, seen: string, d: string)
    requires NonEmpty(seqs) && Suffices(keep, seqs) && Tracks(seqs, keep, r, seen)
    requires ContainsAny(seqs, seen + d) && FirstListed(seqs, r.pending + d) == FirstListed(seqs, seen + d)
    ensures HaltedAt(seqs, Push(seqs, keep, r, d), seen + d)
  {
    var p := r.pending + d;
    var k := FirstListed(seqs, p);
    PendingSeesAll(seqs[k], keep, r.emitted, r.pending, d);
    assert seen + d == r.emitted + p;
    CutBehind(r.emitted, p, IndexOf(p, seqs[k]));
  }

  lemma PushHolds(seqs: seq<string>, keep: nat, r: Run, seen: string, d: string)
    requires Tracks(seqs, keep, r, seen)
    requires !ContainsAny(seqs, seen + d) && FirstListed(seqs, r.pending + d) == FirstListed(seqs, seen + d)
    ensures Tracks(seqs, keep, Push(seqs, keep, r, d), seen + d)
  {
    var p := r.pending + d;
    HeldBack(r.emitted, r.pending, d, keep);
    var cut := if |p| <= keep then 0 else |p| - keep;
    assert Push(seqs, keep, r, d) == Running(r.emitted + p[..cut], p[cut..]);
  }

  /** Holding back the last `keep` runes of the text so far. */
  lemma HeldBack(emitted: string, pending: string, d: string, keep: nat)
    requires |pending| == if |emitted + pending| < keep then |emitted + pending| else keep
    ensures var p := pending + d;
            var cut := if |p| <= keep then 0 else |p| - keep;
            (emitted + p[..cut]) + p[cut..] == (emitted + pending) + d &&
            |p[cut..]| == if |(emitted + pending) + d| < keep then |(emitted + pending) + d| else keep
  {
    var p := pending + d;
    assert (emitted + pending) + d == emitted + p;
    CutBehind(emitted, p, if |p| <= keep then 0 else |p| - keep);
  }

  lemma CutBehind(a: string, b: string, i: nat)
    requires i <= |b|
    ensures (a + b)[..|a| + i] == a + b[..i] && (a + b[..i]) + b[i..] == a + b
  {
  }

  lemma {:induction false} HaltedStays(seqs: seq<string>, keep: nat, r: Run, chunks: seq<string>)
    requires r.Halted?
    ensures PushAll(seqs, keep, r, chunks) == r
    decreases |chunks|
  {
    if chunks != [] {
      HaltedStays(seqs, keep, r, chunks[1..]);
    }
  }

  /** The text up to and including the chunk that first completes a listed
      sequence, or all of it. */
  ghost function Considered(seqs: seq<string>, seen: string, chunks: seq<string>): (r: string)
    ensures seen <= r <= seen + Concat(chunks)
    ensures !ContainsAny(seqs, r) ==> r == seen + Concat(chunks)
    decreases |chunks|
  {
    if chunks == [] || ContainsAny(seqs, seen) then seen
    else
      assert seen + Concat(chunks) == (seen + chunks[0]) + Concat(chunks[1..]);
      Considered(seqs, seen + chunks[0], chunks[1..])
  }

  lemma {:induction false} PushAllTracks(seqs: seq<string>, keep: nat, r: Run, seen: string, chunks: seq<string>)
    requires NonEmpty(seqs) && Suffices(keep, seqs) && Tracks(seqs, keep, r, seen)
    ensures var upto := Considered(seqs, seen, chunks);
            var r' := PushAll(seqs, keep, r, chunks);
            if ContainsAny(seqs, upto) then HaltedAt(seqs, r', upto) else Tracks(seqs, keep, r', upto)
    decreases |chunks|
  {
    if chunks != [] {
      PushTracks(seqs, keep, r, seen, chunks[0]);
      var r1, seen1 := Push(seqs, keep, r, chunks[0]), seen + chunks[0];
      if ContainsAny(seqs, seen1) {
        HaltedStays(seqs, keep, r1, chunks[1..]);
        assert Considered(seqs, seen1, chunks[1..]) == seen1;
      } else {
        PushAllTracks(seqs, keep, r1, seen1, chunks[1..]);
      }
    }
  }

  lemma NothingInNothing(seqs: seq<string>)
    requires NonEmpty(seqs)
    ensures !ContainsAny(seqs, "")
  {
  }

  /** The stop fires exactly on the first chunk that completes any sequence; the
      text shown is then everything before the first occurrence of the first
      listed one. Until then nothing is lost. */
  lemma FilterExact(seqs: seq<string>, keep: nat, chunks: seq<string>)
    requires NonEmpty(seqs) && Suffices(keep, seqs)
    ensures var upto := Considered(seqs, "", chunks);
            var r := PushAll(seqs, keep, START, chunks);
            if ContainsAny(seqs, upto) then HaltedAt(seqs, r, upto)
            else r.Running? && Shown(r) == Concat(chunks)
  {
    NothingInNothing(seqs);
    assert Tracks(seqs, keep, START, "");
    PushAllTracks(seqs, keep, START, "", chunks);
    assert "" + Concat(chunks) == Concat(chunks);
  }

  lemma BeforeGrow(s: string, u: string, t: string)
    requires u <= t && Contains(u, s)
    ensures Before(t, s) == Before(u, s)
  {
    assert t == u + t[|u|..];
    IndexOfGrow(u, s, t[|u|..]);
  }

  /** With one stop sequence the chunking does not matter. */
  lemma SingleStop(stop: string, keep: nat, chunks: seq<string>)
    requires stop != "" && |stop| <= keep + 1
    ensures Shown(PushAll([stop], keep, START, chunks)) == Before(Concat(chunks), stop)
  {
    var upto := Considered([stop], "", chunks);
    FilterExact([stop], keep, chunks);
    assert "" + Concat(chunks) == Concat(chunks);
    if ContainsAny([stop], upto) {
      BeforeGrow(stop, upto, Concat(chunks));
    } else {
      assert upto == Concat(chunks);
      assert !Contains(upto, [stop][0]);
    }
  }

  // ------------------------------------------------- several sequences

  /** Every prefix that contains some listed sequence already contains the one
      that is listed first among those occurring in `t`. */
  ghost predicate Settled(seqs: seq<string>, t: string)
  {
    forall e | 0 <= e <= |t| && ContainsAny(seqs, t[..e]) :: FirstListed(seqs, t[..e]) == FirstListed(seqs, t)
  }

  /** The text shown and the sequence reported; none is |seqs|. */
  ghost function Outcome(seqs: seq<string>, keep: nat, chunks: seq<string>): (string, nat)
  {
    var r := PushAll(seqs, keep, START, chunks);
    (Shown(r), if r.Halted? then r.which else |seqs|)
  }

  lemma SettledOutcome(seqs: seq<string>, keep: nat, chunks: seq<string>)
    requires NonEmpty(seqs) && Suffices(keep, seqs) && Settled(seqs, Concat(chunks))
    ensures var t := Concat(chunks);
            var k := FirstListed(seqs, t);
            Outcome(seqs, keep, chunks) == (if k < |seqs| then Before(t, seqs[k]) else t, k)
  {
    var t := Concat(chunks);
    var upto := Considered(seqs, "", chunks);
    FilterExact(seqs, keep, chunks);
    assert "" + t == t;
    assert upto == t[..|upto|];
    if ContainsAny(seqs, upto) {
      BeforeGrow(seqs[FirstListed(seqs, t)], upto, t);
    }
  }

  lemma OutcomeOfFirst(seqs: seq<string>, keep: nat, first: string, rest: seq<string>)
    requires NonEmpty(seqs) && Suffices(keep, seqs) && ContainsAny(seqs, first)
    ensures Outcome(seqs, keep, [first] + rest).1 == FirstListed(seqs, first)
  {
    NothingInNothing(seqs);
    PushTracks(seqs, keep, START, "", first);
    assert "" + first == first;
    assert ([first] + rest)[1..] == rest;
    HaltedStays(seqs, keep, Push(seqs, keep, START, first), rest);
  }

  /** With several sequences the outcome is independent of the chunking exactly
      for settled texts. */
  lemma ChunkingIndependence(seqs: seq<string>, keep: nat, t: string)
    requires NonEmpty(seqs) && Suffices(keep, seqs)
    ensures Settled(seqs, t) <==>
            forall a, b | Concat(a) == t && Concat(b) == t :: Outcome(seqs, keep, a) == Outcome(seqs, keep, b)
  {
    if Settled(seqs, t) {
      forall a, b | Concat(a) == t && Concat(b) == t ensures Outcome(seqs, keep, a) == Outcome(seqs, keep, b) {
        SettledOutcome(seqs, keep, a);
        SettledOutcome(seqs, keep, b);
      }
    } else {
      var a, b := UnsettledSplits(seqs, keep, t);
    }
  }

  lemma UnsettledSplits(seqs: seq<string>, keep: nat, t: string) returns (a: seq<string>, b: seq<string>)
    requires NonEmpty(seqs) && Suffices(keep, seqs) && !Settled(seqs, t)
    ensures Concat(a) == t && Concat(b) == t
    ensures Outcome(seqs, keep, a).1 != Outcome(seqs, keep, b).1
  {
    var e :| 0 <= e <= |t| && ContainsAny(seqs, t[..e]) && FirstListed(seqs, t[..e]) != FirstListed(seqs, t);
    a, b := [t] + [], [t[..e]] + [t[e..]];
    ConcatPair(t[..e], t[e..]);
    ConcatOne(t);
    assert t == t[..e] + t[e..];
    MonotoneListed(seqs, t[..e], t);
    OutcomeOfFirst(seqs, keep, t, []);
    OutcomeOfFirst(seqs, keep, t[..e], [t[e..]]);
  }

  lemma MonotoneListed(seqs: seq<string>, u: string, t: string)
    requires u <= t && ContainsAny(seqs, u)
    ensures FirstListed(seqs, t) <= FirstListed(seqs, u)
  {
    var k := FirstListed(seqs, u);
    assert t == u + t[|u|..];
    IndexOfGrow(u, seqs[k], t[|u|..]);
  }

  lemma FirstOfTwo()
    ensures FirstListed(["c", "b"], "bc") == 0 && IndexOf("bc", "c") == 1
    ensures FirstListed(["c", "b"], "b") == 1 && IndexOf("b", "b") == 0
  {
    var seqs := ["c", "b"];
    assert OccursAt("bc", "c", 1) && Contains("bc", seqs[0]);
    assert !OccursAt("bc", "c", 0) by {
      assert "bc"[0..1] == "b";
    }
    assert OccursAt("b", "b", 0) && Contains("b", seqs[1]);
    assert !OccursAt("b", "c", 0) && !Contains("b", seqs[0]) by {
      assert "b"[0..1] == "b";
    }
  }

  /** Two cuts of one text: in one piece the sequence listed first is reported and
      the text before it shown, in two the other one and nothing. */
  lemma SeveralStopsDependOnChunking()
    ensures Outcome(["c", "b"], 0, ["bc"]) == ("b", 0)
    ensures Outcome(["c", "b"], 0, ["b", "c"]) == ("", 1)
    ensures !Settled(["c", "b"], "bc")
  {
    var seqs := ["c", "b"];
    FirstOfTwo();
    assert "" + "bc" == "bc" && "" + "b" == "b" && "bc"[..1] == "b" && "b"[..0] == "";
    assert Push(seqs, 0, START, "bc") == Halted("b", 0);
    assert ["bc"][1..] == [];
    assert PushAll(seqs, 0, START, ["bc"]) == Halted("b", 0);
    assert Push(seqs, 0, START, "b") == Halted("", 1);
    assert ["b", "c"][1..] == ["c"];
    HaltedStays(seqs, 0, Halted("", 1), ["c"]);
  }
}
