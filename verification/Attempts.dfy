/** When a request is tried again and whose reply the client gets. */
module Attempts {
  import opened Accumulator
  import opened Streaming
  import opened Retry
  import Drivers
  import Transcript
  import Limits
  import Records
  import ToolCalls

  // ------------------------------------------------------------- two attempts

  /** The first attempt asks for another one, and one can be prepared. */
  ghost predicate TriedAgain(cfg: Config, stream: bool, up1: Upstream, prepared: bool)
  {
    var o := Attempt(cfg, stream, UNTOUCHED, up1).1;
    o.Retryable? && !(o.reason == INVALID_TOOL && !prepared)
  }

  /** A second attempt is made exactly when the first asks for it and can be prepared;
      the result is then that of the second attempt alone, on a client that has heard
      nothing, or one error if that asks for another try as well. */
  lemma SecondAttempt(cfg: Config, stream: bool, up1: Upstream, up2: Upstream, prepared: bool)
    ensures var r := Executed(cfg, stream, up1, up2, prepared);
            var (f1, o1) := Attempt(cfg, stream, UNTOUCHED, up1);
            var (f2, o2) := Attempt(cfg, stream, UNTOUCHED, up2);
            r.attempts == (if TriedAgain(cfg, stream, up1, prepared) then 2 else 1) &&
            (r.attempts == 1 && !o1.Retryable? ==> r.front == f1 && r.ok == o1.Settled?) &&
            (r.attempts == 2 && !o2.Retryable? ==> r.front == f2 && r.ok == o2.Settled?) &&
            (r.attempts == 2 && o2.Retryable? ==> !r.ok && SaysOnce(r.front)) &&
            (r.attempts == 1 && o1.Retryable? ==> !r.ok && SaysOnce(r.front))
  {
    AttemptSafe(cfg, stream, up1);
    AttemptSafe(cfg, stream, up2);
  }

  /** Nothing but one body that tells of a failure. */
  predicate SaysOnce(f: Front)
  {
    f.stream == [] && |f.bodies| == 1 && !f.bodies[0].JsonBody?
  }

  /** What the client is told when both attempts ask for another one. */
  lemma LastWord(cfg: Config, stream: bool, up1: Upstream, up2: Upstream, prepared: bool)
    requires TriedAgain(cfg, stream, up1, prepared) && Attempt(cfg, stream, UNTOUCHED, up2).1.Retryable?
    ensures var o1, o2 := Attempt(cfg, stream, UNTOUCHED, up1).1, Attempt(cfg, stream, UNTOUCHED, up2).1;
            var said := Executed(cfg, stream, up1, up2, prepared).front.bodies;
            if o2.reason == EMPTY_VISIBLE then said == [ErrorBody(502, "upstream returned empty response")]
            else if o1.reason == o2.reason == INVALID_TOOL then said == [FallbackBody(o2.calls)] && o2.calls != []
            else said == [ErrorBody(400, "invalid state: " + o2.reason)]
  {
    AttemptSafe(cfg, stream, up1);
    AttemptSafe(cfg, stream, up2);
  }

  // ------------------------------------------------------- a buffered attempt

  /** Upstream failures that are worth another try: three invalid states. */
  predicate WorthRetrying(e: Event)
  {
    e.InvalidState? && e.reason in {"CONTENT_LENGTH_EXCEEDS_THRESHOLD", "INVALID_CONVERSATION_STATE", "STALE_CONVERSATION"}
  }

  lemma {:induction false} NoErrorUntil(events: seq<Event>)
    ensures Drivers.NoErrors(UntilError(events))
    ensures Transcript.IsErrorEvent(FirstError(events)) <==> !Drivers.NoErrors(events)
    ensures Drivers.NoErrors(events) ==> UntilError(events) == events
  {
    if events != [] {
      NoErrorUntil(events[1..]);
      assert events == [events[0]] + events[1..];
    }
  }

  /** The outcome of a buffered attempt: upstream's failures first; then calls that
      are withheld; then a turn of thoughts only; else the reply. */
  lemma BufferedOutcome(cfg: Config, events: seq<Event>, broken: bool)
    ensures var (f, o) := BufferAttempt(cfg, UNTOUCHED, events, broken);
            var e := FirstError(events);
            var a := Drivers.StepAll(cfg, FRESH, events);
            var m := Drivers.MessageOf(cfg, a);
            if !Drivers.NoErrors(events) then
              if WorthRetrying(e) then o == Retryable(e.reason, []) && f == UNTOUCHED else o.Settled? && SaysOnce(f)
            else if broken then o.Settled? && SaysOnce(f)
            else if a.tools.invalid != [] then o == Retryable(INVALID_TOOL, a.tools.invalid) && f == UNTOUCHED
            else if m.reason == EndTurn && m.text == "" && m.thinking != "" then
              o == Retryable(EMPTY_VISIBLE, []) && f == UNTOUCHED
            else o.Settled? && f == Front([], [JsonBody(m)])
  {
    NoErrorUntil(events);
    ReplyOutcome(cfg, events);
    FailureOutcome(FirstError(events));
  }

  lemma FailureOutcome(e: Event)
    ensures var (f, o) := OnUpstreamError(UNTOUCHED, e);
            if WorthRetrying(e) then o == Retryable(e.reason, []) && f == UNTOUCHED else o.Settled? && SaysOnce(f)
  {
  }

  lemma ReplyOutcome(cfg: Config, events: seq<Event>)
    ensures var a := Drivers.StepAll(cfg, FRESH, events);
            var m := Drivers.MessageOf(cfg, a);
            var (f, o) := BufferVerdict(cfg, UNTOUCHED, a);
            if a.tools.invalid != [] then o == Retryable(INVALID_TOOL, a.tools.invalid) && f == UNTOUCHED
            else if m.reason == EndTurn && m.text == "" && m.thinking != "" then
              o == Retryable(EMPTY_VISIBLE, []) && f == UNTOUCHED
            else o.Settled? && f == Front([], [JsonBody(m)])
  {
    EmptyIsThoughtsOnly(cfg, events);
  }

  lemma EmptyIsThoughtsOnly(cfg: Config, events: seq<Event>)
    ensures var a := Drivers.StepAll(cfg, FRESH, events);
            var m := Drivers.MessageOf(cfg, a);
            EmptyVisible(Finalize(cfg, a).0) <==> m.reason == EndTurn && m.text == "" && m.thinking != ""
  {
    var a := Drivers.StepAll(cfg, FRESH, events);
    Records.ReasonExactly(cfg, events);
    Records.ToolsExactly(cfg, events);
    Transcript.FinalizeReports(cfg, a);
    ToolCalls.DedupDistinct(cfg.canonicalJson, a.tools.calls);
  }

  // ------------------------------------------------------ a streaming attempt

  /** Up to an error the stream goes as it would without it; the error then aborts it
      unless it had been finished before. */
  lemma {:induction false} HandledUntilError(cfg: Config, s: Sse, events: seq<Event>)
    ensures var (s1, n1) := HandledAll(cfg, s, UntilError(events));
            var (s2, n2) := HandledAll(cfg, s, events);
            if n1.Continue? && !Drivers.NoErrors(events) then
              n2.Abort? && s2.acc == s1.acc && s2.w.gate.promoted == s1.w.gate.promoted
            else s2 == s1 && n2 == n1
    decreases |events|
  {
    NoErrorUntil(events);
    if events != [] {
      var e := events[0];
      if Transcript.IsErrorEvent(e) {
        ErrorAborts(cfg, s, e);
      } else {
        NoErrorUntil(events[1..]);
        assert UntilError(events)[1..] == UntilError(events[1..]);
        HandledUntilError(cfg, Handled(cfg, s, e).0, events[1..]);
      }
    }
  }

  lemma ErrorAborts(cfg: Config, s: Sse, e: Event)
    requires Transcript.IsErrorEvent(e)
    ensures var (s', next) := Handled(cfg, s, e); next.Abort? && s'.acc == s.acc && s'.w.gate.promoted == s.w.gate.promoted
  {
    ErrorIsReported(cfg, s.acc, e);
  }

  /** Nothing a client could see has been produced. */
  ghost predicate NothingShown(a: Acc)
  {
    a.out.text == "" && a.tools.calls == []
  }

  /** How the stream stands after the events: stopped exactly when the accumulator
      is; otherwise it holds what the events until the first error amount to, the gate
      tells whether anything was shown, and it is aborted exactly by an error. */
  ghost predicate Stands(s: Sse, next: Next, a: Acc, failed: bool)
  {
    if next.FinishNow? then a.out.stop.local && s.acc.out.stop.local && s.acc.tools.invalid == []
    else
      !a.out.stop.local && s.acc == a && Gated(s.w) && (s.w.gate.promoted <==> !NothingShown(a)) && (next.Abort? <==> failed)
  }

  lemma StandsBeforeError(cfg: Config, events: seq<Event>)
    requires cfg.dropTool == "" && Drivers.NoErrors(events)
    ensures var (s, next) := HandledAll(cfg, Sse(FRESH, NewWriter([])), events);
            Stands(s, next, Drivers.StepAll(cfg, FRESH, events), false)
  {
    var s0 := Sse(FRESH, NewWriter([]));
    HandledAllTells(cfg, s0, events);
    Drivers.StreamingKeepsMessage(cfg, s0, events);
    Limits.FinishesWhenStopped(cfg, s0, events);
    FinishNowIsLocal(cfg, s0, events);
    var (s, next) := HandledAll(cfg, s0, events);
    if next.FinishNow? {
      NoneWithheld(cfg, s, Drivers.MessageOf(cfg, Drivers.StepAll(cfg, FRESH, events)));
    }
  }

  lemma NoneWithheld(cfg: Config, s: Sse, m: Drivers.Message)
    requires Drivers.ClosedWith(cfg, s, m)
    ensures s.acc.tools.invalid == []
  {
  }

  lemma StreamStands(cfg: Config, events: seq<Event>)
    requires cfg.dropTool == ""
    ensures var (s, next) := HandledAll(cfg, Sse(FRESH, NewWriter([])), events);
            Stands(s, next, Drivers.StepAll(cfg, FRESH, UntilError(events)), !Drivers.NoErrors(events))
  {
    var s0 := Sse(FRESH, NewWriter([]));
    NoErrorUntil(events);
    StandsBeforeError(cfg, UntilError(events));
    HandledUntilError(cfg, s0, events);
    HandledAllGated(cfg, s0, events);
  }

  /** The outcome of a streaming attempt, told by what the events until the first
      error amount to: final once the response has stopped or anything was shown, and
      otherwise that of the buffered attempt. */
  lemma StreamedOutcome(cfg: Config, events: seq<Event>, broken: bool)
    requires cfg.dropTool == ""
    ensures var o := StreamAttempt(cfg, UNTOUCHED, events, broken).1;
            var a := Drivers.StepAll(cfg, FRESH, UntilError(events));
            if a.out.stop.local || !NothingShown(a) then o.Settled?
            else o == BufferAttempt(cfg, UNTOUCHED, events, broken).1
  {
    var a := Drivers.StepAll(cfg, FRESH, UntilError(events));
    var (s, next) := HandledAll(cfg, Sse(FRESH, NewWriter([])), events);
    NoErrorUntil(events);
    StreamStands(cfg, events);
    VerdictOutcome(cfg, s, next, a, FirstError(events), broken);
  }

  lemma VerdictOutcome(cfg: Config, s: Sse, next: Next, a: Acc, failure: Event, broken: bool)
    requires Stands(s, next, a, Transcript.IsErrorEvent(failure))
    ensures var o := StreamVerdict(cfg, UNTOUCHED, s, next, failure, broken).1;
            if a.out.stop.local || !NothingShown(a) then o.Settled?
            else if next.Abort? then o == OnUpstreamError(UNTOUCHED, failure).1
            else if broken then o.Settled?
            else o == BufferVerdict(cfg, UNTOUCHED, a).1
  {
    if next.Continue? {
      ClosedOutcome(cfg, s);
    }
  }

  lemma ClosedOutcome(cfg: Config, s: Sse)
    requires Gated(s.w) && (s.w.gate.promoted <==> !NothingShown(s.acc))
    ensures var o := CompleteVerdict(cfg, UNTOUCHED, s, Continue).1;
            if !NothingShown(s.acc) then o.Settled? else o == BufferVerdict(cfg, UNTOUCHED, s.acc).1
  {
    FinishedGated(cfg, s);
    Transcript.FinalizeReports(cfg, s.acc);
    FinishedEmpty(cfg, s);
  }

  lemma FinishedEmpty(cfg: Config, s: Sse)
    ensures EmptyVisible(Finished(cfg, s).acc) <==> EmptyVisible(Finalize(cfg, s.acc).0)
  {
  }

  // ------------------------------------------------------ what the client gets

  /** A reply with something to see. */
  predicate Visible(m: Drivers.Message)
  {
    m.text != "" || m.calls != []
  }

  /** Without errors and withheld calls, a visible reply is final in both drivers. */
  lemma VisibleIsFinal(cfg: Config, stream: bool, events: seq<Event>)
    requires cfg.dropTool == "" && Drivers.NoErrors(events)
    requires var a := Drivers.StepAll(cfg, FRESH, events); a.tools.invalid == [] && Visible(Drivers.MessageOf(cfg, a))
    ensures Attempt(cfg, stream, UNTOUCHED, Reply(events, false)).1.Settled?
  {
    NoErrorUntil(events);
    ReplyOutcome(cfg, events);
    Records.ReasonExactly(cfg, events);
    StreamedOutcome(cfg, events, false);
  }

  /** A settled stream without errors that has something to show has shown the client
      exactly the buffered reply. */
  lemma StreamDelivers(cfg: Config, events: seq<Event>)
    requires cfg.dropTool == "" && Drivers.NoErrors(events)
    requires Visible(Drivers.MessageOf(cfg, Drivers.StepAll(cfg, FRESH, events)))
    requires StreamAttempt(cfg, UNTOUCHED, events, false).1.Settled?
    ensures var f := StreamAttempt(cfg, UNTOUCHED, events, false).0;
            f.bodies == [] && Drivers.Replies(cfg, Read(f.stream), Drivers.MessageOf(cfg, Drivers.StepAll(cfg, FRESH, events)))
  {
    var s0 := Sse(FRESH, NewWriter([]));
    var t := Streamed(cfg, s0, events).0;
    Drivers.DriversAgree(cfg, events);
    Drivers.StreamedCloses(cfg, s0, events);
    StreamedTells(cfg, events);
    ClosedHolds(cfg, t, Drivers.MessageOf(cfg, Drivers.StepAll(cfg, FRESH, events)));
    DeliveredWhole(t.w);
    SettledStream(cfg, events);
  }

  lemma StreamedTells(cfg: Config, events: seq<Event>)
    requires cfg.dropTool == ""
    ensures GateTells(Streamed(cfg, Sse(FRESH, NewWriter([])), events).0)
  {
    var s0 := Sse(FRESH, NewWriter([]));
    HandledAllTells(cfg, s0, events);
    FinishedTells(cfg, HandledAll(cfg, s0, events).0);
  }

  lemma ClosedHolds(cfg: Config, t: Sse, m: Drivers.Message)
    requires Drivers.ClosedWith(cfg, t, m)
    ensures t.acc.out.text == m.text && (t.acc.tools.calls == [] <==> m.calls == [])
  {
    var a, w :| t == Finished(cfg, Sse(a, w)) && Drivers.MessageOf(cfg, a) == m;
    ToolCalls.DedupDistinct(cfg.canonicalJson, Finalize(cfg, a).0.tools.calls);
  }

  /** What a settled stream without errors has delivered. */
  lemma SettledStream(cfg: Config, events: seq<Event>)
    requires Drivers.NoErrors(events) && StreamAttempt(cfg, UNTOUCHED, events, false).1.Settled?
    ensures StreamAttempt(cfg, UNTOUCHED, events, false).0 ==
            Front(Streamed(cfg, Sse(FRESH, NewWriter([])), events).0.w.gate.client, [])
  {
    var s0 := Sse(FRESH, NewWriter([]));
    FinishNowIsLocal(cfg, s0, events);
    Drivers.StreamingKeepsMessage(cfg, s0, events);
  }

  /** A good second reply reaches the client whole, streamed or buffered, and is all
      it gets. */
  lemma GoodSecondReply(cfg: Config, stream: bool, up1: Upstream, events: seq<Event>, prepared: bool)
    requires cfg.dropTool == "" && TriedAgain(cfg, stream, up1, prepared) && Drivers.NoErrors(events)
    requires var a := Drivers.StepAll(cfg, FRESH, events); a.tools.invalid == [] && Visible(Drivers.MessageOf(cfg, a))
    ensures var r := Executed(cfg, stream, up1, Reply(events, false), prepared);
            var m := Drivers.MessageOf(cfg, Drivers.StepAll(cfg, FRESH, events));
            r.ok && r.attempts == 2 &&
            if stream then r.front.bodies == [] && Drivers.Replies(cfg, Read(r.front.stream), m)
            else r.front == Front([], [JsonBody(m)])
  {
    SecondAttempt(cfg, stream, up1, Reply(events, false), prepared);
    VisibleIsFinal(cfg, stream, events);
    if stream {
      StreamDelivers(cfg, events);
    } else {
      BufferedOutcome(cfg, events, false);
    }
  }
}
