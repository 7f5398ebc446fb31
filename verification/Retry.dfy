/** One client request: at most two upstream attempts behind a gate, so that a
    failed first attempt stays invisible.
 */
module Retry {
  import opened Accumulator
  import opened Streaming
  import Transcript
  import Drivers
  import ToolCalls
  import Limits
  import Gate

  /** A response written straight to the client. */
  datatype Body =
    | ErrorBody(status: int, message: string)
    | JsonBody(m: Drivers.Message)
    | FallbackBody(calls: seq<InvalidToolCall>)

  /** What the client has received: streamed events and whole bodies. */
  datatype Front = Front(stream: seq<SseEvent>, bodies: seq<Body>)

  const UNTOUCHED := Front([], [])

  /** What upstream does with one attempt: refuses the call, or sends events and
      then ends the stream properly or not. */
  datatype Upstream = Refused | Reply(events: seq<Event>, broken: bool)

  datatype Outcome = Settled | CallFailed | Retryable(reason: string, calls: seq<InvalidToolCall>)

  const EMPTY_VISIBLE := "empty_visible_end_turn"
  const INVALID_TOOL := "invalid_tool_use"

  function Say(front: Front, b: Body): Front
  {
    front.(bodies := front.bodies + [b])
  }

  predicate RetryableState(reason: string)
  {
    reason == "CONTENT_LENGTH_EXCEEDS_THRESHOLD" || reason == "INVALID_CONVERSATION_STATE" || reason == "STALE_CONVERSATION"
  }

  /** An upstream failure is final, or asks for a retry and writes nothing. */
  function OnUpstreamError(front: Front, failure: Event): (Front, Outcome)
  {
    if failure.Exception? then (Say(front, ErrorBody(502, "upstream exception")), Settled)
    else if failure.InvalidState? && RetryableState(failure.reason) then (front, Retryable(failure.reason, []))
    else (Say(front, ErrorBody(400, "invalid state: request rejected by upstream")), Settled)
  }

  /** The event that cut the stream short. */
  function FirstError(events: seq<Event>): Event
  {
    if events == [] then Ignored
    else if Transcript.IsErrorEvent(events[0]) then events[0]
    else FirstError(events[1..])
  }

  ghost predicate EmptyVisible(a: Acc)
  {
    !a.out.stop.local && a.out.thinking != "" && a.out.text == "" && !a.tools.hasToolUse
  }

  // ------------------------------------------------------ a streaming attempt

  ghost function StreamAttempt(cfg: Config, front: Front, events: seq<Event>, broken: bool): (Front, Outcome)
  {
    var (s, next) := HandledAll(cfg, Sse(FRESH, NewWriter(front.stream)), events);
    StreamVerdict(cfg, front, s, next, FirstError(events), broken)
  }

  /** A broken stream is reported within the stream once it has passed the gate. */
  ghost function ErrorWritten(front: Front, w: Writer): Front
  {
    if w.started && w.gate.promoted then front.(stream := PutError(w, "upstream stream error").gate.client)
    else Say(front.(stream := w.gate.client), ErrorBody(502, "upstream stream error"))
  }

  ghost function StreamVerdict(cfg: Config, front: Front, s: Sse, next: Next, failure: Event, broken: bool): (Front, Outcome)
  {
    var delivered := front.(stream := s.w.gate.client);
    var failed := !next.Continue? && !s.acc.out.stop.local;
    if failed && !(s.w.started && s.w.gate.promoted) then
      OnUpstreamError(delivered, failure)
    else
      EndVerdict(cfg, front, s, next, broken)
  }

  /** Judges a stream whose events gave no cause to drop it. */
  ghost function EndVerdict(cfg: Config, front: Front, s: Sse, next: Next, broken: bool): (Front, Outcome)
  {
    if broken && next.Continue? then (ErrorWritten(front, s.w), Settled)
    else CompleteVerdict(cfg, front, s, next)
  }

  /** Judges a stream that was neither cut short nor broken. */
  ghost function CompleteVerdict(cfg: Config, front: Front, s: Sse, next: Next): (Front, Outcome)
  {
    var delivered := front.(stream := s.w.gate.client);
    if s.acc.tools.invalid != [] && !s.w.gate.promoted then
      (delivered, Retryable(INVALID_TOOL, s.acc.tools.invalid))
    else if !next.Continue? then
      (delivered, Settled)
    else
      CloseVerdict(front, Finished(cfg, s))
  }

  /** Judges a stream that was closed after the last event. */
  ghost function CloseVerdict(front: Front, t: Sse): (Front, Outcome)
  {
    (front.(stream := t.w.gate.client),
     if EmptyVisible(t.acc) && !t.w.gate.promoted then Retryable(EMPTY_VISIBLE, []) else Settled)
  }

  method HandleStreamingResponse(cfg: Config, front: Front, events: seq<Event>, broken: bool)
    returns (front': Front, out: Outcome)
    ensures (front', out) == StreamAttempt(cfg, front, events, broken)
  {
    var gate := new Gate.GateWriter(front.stream);
    var sw := new SSEWriter(cfg, gate);
    var next, failure, i := Continue, Ignored, 0;
    while i < |events| && next.Continue?
      invariant i <= |events| && sw.acc.cfg == cfg && sw.gate == gate && fresh(sw) && fresh(gate) && fresh(sw.acc)
      invariant HandledAll(cfg, Sse(FRESH, NewWriter(front.stream)), events) ==
                if next.Continue? then HandledAll(cfg, sw.View(), events[i..]) else (sw.View(), next)
      invariant if next.Abort? then failure == FirstError(events)
                else next.Continue? ==> FirstError(events) == FirstError(events[i..])
    {
      if Transcript.IsErrorEvent(events[i]) {
        failure := events[i];
      }
      ghost var before := sw.View();
      next := sw.HandleEvent(events[i]);
      AbortIsError(cfg, before, events[i]);
      assert events[i..][1..] == events[i + 1..];
      i := i + 1;
    }
    FinishNowIsLocal(cfg, Sse(FRESH, NewWriter(front.stream)), events);
    front', out := JudgeStream(cfg, front, sw, gate, next, failure, broken);
  }

  /** What follows the parsing of the stream. */
  method JudgeStream(cfg: Config, front: Front, sw: SSEWriter, gate: Gate.GateWriter<SseEvent>, next: Next,
                     failure: Event, broken: bool)
    returns (front': Front, out: Outcome)
    requires sw.acc.cfg == cfg && sw.gate == gate
    modifies sw, gate, sw.acc
    ensures (front', out) == StreamVerdict(cfg, front, old(sw.View()), next, failure, broken)
  {
    var streamErr := !next.Continue? && !sw.acc.stop.local;
    if streamErr && !(sw.started && gate.promoted) {
      front', out := JudgeFailure(front, sw, gate, failure);
    } else {
      front', out := JudgeEnd(cfg, front, sw, gate, next, broken);
    }
  }

  method JudgeEnd(cfg: Config, front: Front, sw: SSEWriter, gate: Gate.GateWriter<SseEvent>, next: Next, broken: bool)
    returns (front': Front, out: Outcome)
    requires sw.acc.cfg == cfg && sw.gate == gate
    modifies sw, gate, sw.acc
    ensures (front', out) == EndVerdict(cfg, front, old(sw.View()), next, broken)
  {
    if broken && next.Continue? {
      front' := WriteStreamingOrJSONError(front, sw, gate);
      return front', Settled;
    }
    front', out := JudgeComplete(cfg, front, sw, gate, next);
  }

  /** A failure that nothing at the client shows: what waits at the gate is dropped. */
  method JudgeFailure(front: Front, sw: SSEWriter, gate: Gate.GateWriter<SseEvent>, failure: Event)
    returns (front': Front, out: Outcome)
    modifies gate
    ensures (front', out) == OnUpstreamError(front.(stream := old(gate.client)), failure)
  {
    if sw.started {
      gate.Discard();
    }
    var (f, o) := OnUpstreamError(front.(stream := gate.client), failure);
    return f, o;
  }

  method JudgeComplete(cfg: Config, front: Front, sw: SSEWriter, gate: Gate.GateWriter<SseEvent>, next: Next)
    returns (front': Front, out: Outcome)
    requires sw.acc.cfg == cfg && sw.gate == gate
    modifies sw, gate, sw.acc
    ensures (front', out) == CompleteVerdict(cfg, front, old(sw.View()), next)
  {
    if |sw.acc.tools.invalid| > 0 && !gate.promoted {
      gate.Discard();
      return front.(stream := gate.client), Retryable(INVALID_TOOL, sw.acc.tools.invalid);
    }
    if next.Continue? {
      front', out := CloseStream(cfg, front, sw, gate);
    } else {
      front', out := front.(stream := gate.client), Settled;
    }
  }

  method WriteStreamingOrJSONError(front: Front, sw: SSEWriter, gate: Gate.GateWriter<SseEvent>) returns (front': Front)
    requires sw.gate == gate
    modifies sw, gate
    ensures front' == ErrorWritten(front, old(sw.WriterView()))
  {
    if sw.started && gate.promoted {
      sw.WriteError("upstream stream error");
      return front.(stream := gate.client);
    }
    if !gate.promoted {
      gate.Discard();
    }
    return Say(front.(stream := gate.client), ErrorBody(502, "upstream stream error"));
  }

  method CloseStream(cfg: Config, front: Front, sw: SSEWriter, gate: Gate.GateWriter<SseEvent>)
    returns (front': Front, out: Outcome)
    requires sw.acc.cfg == cfg && sw.gate == gate
    modifies sw, gate, sw.acc
    ensures (front', out) == CloseVerdict(front, Finished(cfg, old(sw.View())))
  {
    sw.Finish();
    if !sw.acc.stop.local && sw.acc.thinkingBuf != "" && sw.acc.textBuf == "" && !sw.acc.tools.hasToolUse && !gate.promoted {
      gate.Discard();
      return front.(stream := gate.client), Retryable(EMPTY_VISIBLE, []);
    }
    return front.(stream := gate.client), Settled;
  }

  lemma AbortIsError(cfg: Config, s: Sse, e: Event)
    ensures Handled(cfg, s, e).1.Abort? <==> Transcript.IsErrorEvent(e)
  {
    var (a, d) := Step(cfg, s.acc, e);
    Drivers.PutNext(s.w, e, d, a.signature);
  }

  /** An adapter-side stop is recognised as one afterwards. */
  lemma FinalizeKeepsLocal(cfg: Config, a: Acc)
    requires a.out.stop.local
    ensures Finalize(cfg, a).0.out.stop.local
  {
  }

  lemma {:induction false} FinishNowIsLocal(cfg: Config, s: Sse, events: seq<Event>)
    ensures var (s', next) := HandledAll(cfg, s, events); next.FinishNow? ==> s'.acc.out.stop.local
    decreases |events|
  {
    if events != [] {
      var (s1, next) := Handled(cfg, s, events[0]);
      if next.Continue? {
        FinishNowIsLocal(cfg, s1, events[1..]);
      } else if next.FinishNow? {
        var (a, d) := Step(cfg, s.acc, events[0]);
        Drivers.PutNext(s.w, events[0], d, a.signature);
        Drivers.StopSignalStops(cfg, s.acc, events[0]);
        FinalizeKeepsLocal(cfg, a);
      }
    }
  }

  // ------------------------------------------------------ a buffered attempt

  /** The events before the first error. */
  function UntilError(events: seq<Event>): seq<Event>
  {
    if events == [] || Transcript.IsErrorEvent(events[0]) then [] else [events[0]] + UntilError(events[1..])
  }

  ghost function BufferAttempt(cfg: Config, front: Front, events: seq<Event>, broken: bool): (Front, Outcome)
  {
    if Transcript.IsErrorEvent(FirstError(events)) then OnUpstreamError(front, FirstError(events))
    else if broken then (Say(front, ErrorBody(502, "upstream stream error")), Settled)
    else BufferVerdict(cfg, front, Drivers.StepAll(cfg, FRESH, UntilError(events)))
  }

  ghost function BufferVerdict(cfg: Config, front: Front, a: Acc): (Front, Outcome)
  {
    if a.tools.invalid != [] then (front, Retryable(INVALID_TOOL, a.tools.invalid))
    else if EmptyVisible(Finalize(cfg, a).0) then (front, Retryable(EMPTY_VISIBLE, []))
    else (Say(front, JsonBody(Drivers.MessageOf(cfg, a))), Settled)
  }

  method HandleNonStreamingResponse(cfg: Config, front: Front, events: seq<Event>, broken: bool)
    returns (front': Front, out: Outcome)
    ensures (front', out) == BufferAttempt(cfg, front, events, broken)
  {
    var acc := new ResponseAccumulator(cfg);
    var failure := Consume(acc, events);
    if Transcript.IsErrorEvent(failure) {
      var (f, o) := OnUpstreamError(front, failure);
      return f, o;
    }
    StepUntilErrorIsStepAll(cfg, FRESH, events);
    if broken {
      return Say(front, ErrorBody(502, "upstream stream error")), Settled;
    }
    front', out := JudgeBuffered(front, acc);
  }

  /** Feeds the events to the accumulator up to the first error, which is returned. */
  method Consume(acc: ResponseAccumulator, events: seq<Event>) returns (failure: Event)
    modifies acc
    ensures failure == FirstError(events)
    ensures acc.View() == StepUntilError(acc.cfg, old(acc.View()), events)
  {
    failure := Ignored;
    for i := 0 to |events|
      invariant FirstError(events) == FirstError(events[i..])
      invariant StepUntilError(acc.cfg, old(acc.View()), events) == StepUntilError(acc.cfg, acc.View(), events[i..])
    {
      ErrorIsReported(acc.cfg, acc.View(), events[i]);
      var d := acc.ProcessEvent(events[i]);
      assert events[i..][1..] == events[i + 1..];
      if d.isError {
        return events[i];
      }
    }
  }

  ghost function StepUntilError(cfg: Config, a: Acc, events: seq<Event>): Acc
    decreases |events|
  {
    if events == [] || Transcript.IsErrorEvent(events[0]) then a
    else StepUntilError(cfg, Step(cfg, a, events[0]).0, events[1..])
  }

  lemma {:induction false} StepUntilErrorIsStepAll(cfg: Config, a: Acc, events: seq<Event>)
    ensures StepUntilError(cfg, a, events) == Drivers.StepAll(cfg, a, UntilError(events))
    decreases |events|
  {
    if events != [] && !Transcript.IsErrorEvent(events[0]) {
      StepUntilErrorIsStepAll(cfg, Step(cfg, a, events[0]).0, events[1..]);
      Drivers.StepAllFrom(cfg, a, events[0], UntilError(events[1..]));
    }
  }

  method JudgeBuffered(front: Front, acc: ResponseAccumulator) returns (front': Front, out: Outcome)
    modifies acc
    ensures (front', out) == BufferVerdict(acc.cfg, front, old(acc.View()))
  {
    if |acc.tools.invalid| > 0 {
      return front, Retryable(INVALID_TOOL, acc.tools.invalid);
    }
    var _, _ := acc.FinalizeStream();
    if !acc.stop.local && acc.thinkingBuf != "" && acc.textBuf == "" && !acc.tools.hasToolUse {
      return front, Retryable(EMPTY_VISIBLE, []);
    }
    var end := Resolved(acc.stop, acc.tools.hasToolUse);
    var calls := ToolCalls.DeduplicateToolCalls(acc.cfg.canonicalJson, acc.tools.calls);
    return Say(front, JsonBody(Drivers.Message(acc.thinkingBuf, acc.textBuf, calls, end.0, end.1))), Settled;
  }

  lemma ErrorIsReported(cfg: Config, a: Acc, e: Event)
    ensures Step(cfg, a, e).1.isError <==> Transcript.IsErrorEvent(e)
    ensures Transcript.IsErrorEvent(e) ==> Step(cfg, a, e).0 == a
  {
  }

  // ------------------------------------------------------------ two attempts

  ghost function Attempt(cfg: Config, stream: bool, front: Front, up: Upstream): (Front, Outcome)
  {
    match up
    case Refused => (Say(front, ErrorBody(502, "upstream API error")), CallFailed)
    case Reply(events, broken) =>
      if stream then StreamAttempt(cfg, front, events, broken) else BufferAttempt(cfg, front, events, broken)
  }

  method CallAndHandle(cfg: Config, stream: bool, front: Front, up: Upstream) returns (front': Front, out: Outcome)
    ensures (front', out) == Attempt(cfg, stream, front, up)
  {
    match up {
      case Refused => return Say(front, ErrorBody(502, "upstream API error")), CallFailed;
      case Reply(events, broken) =>
        if stream {
          front', out := HandleStreamingResponse(cfg, front, events, broken);
        } else {
          front', out := HandleNonStreamingResponse(cfg, front, events, broken);
        }
    }
  }

  /** What is said when the second attempt asks for a retry as well. */
  function GiveUp(front: Front, first: string, second: Outcome): Front
    requires second.Retryable?
  {
    if second.reason == EMPTY_VISIBLE then Say(front, ErrorBody(502, "upstream returned empty response"))
    else if first == INVALID_TOOL && second.reason == INVALID_TOOL then
      if second.calls == [] then front else Say(front, FallbackBody(second.calls))
    else Say(front, ErrorBody(400, "invalid state: " + second.reason))
  }

  datatype Result = Result(front: Front, attempts: nat, ok: bool)

  /** A request whose attempts meet `up1` and `up2`; `prepared` says whether the
      invalid tool results could be fed back. */
  ghost function Executed(cfg: Config, stream: bool, up1: Upstream, up2: Upstream, prepared: bool): Result
  {
    var (f1, o1) := Attempt(cfg, stream, UNTOUCHED, up1);
    if !o1.Retryable? then Result(f1, 1, o1.Settled?)
    else if o1.reason == INVALID_TOOL && !prepared then
      Result(Say(f1, ErrorBody(502, "invalid tool retry preparation failed")), 1, false)
    else
      var (f2, o2) := Attempt(cfg, stream, f1, up2);
      if o2.Retryable? then Result(GiveUp(f2, o1.reason, o2), 2, false) else Result(f2, 2, o2.Settled?)
  }

  method ExecuteWithRetry(cfg: Config, stream: bool, up1: Upstream, up2: Upstream, prepared: bool) returns (r: Result)
    ensures r == Executed(cfg, stream, up1, up2, prepared)
    ensures r.attempts <= 2 && (r.front == UNTOUCHED || OneResponse(r.front))
    ensures !stream || !r.ok ==> OneResponse(r.front)
  {
    OneResponseAtMost(cfg, stream, up1, up2, prepared);
    var front, out := CallAndHandle(cfg, stream, UNTOUCHED, up1);
    if !out.Retryable? {
      return Result(front, 1, out.Settled?);
    }
    if out.reason == INVALID_TOOL && !prepared {
      return Result(Say(front, ErrorBody(502, "invalid tool retry preparation failed")), 1, false);
    }
    var front2, out2 := CallAndHandle(cfg, stream, front, up2);
    if !out2.Retryable? {
      return Result(front2, 2, out2.Settled?);
    }
    return Result(GiveUp(front2, out.reason, out2), 2, false);
  }

  // ------------------------------------------------------------- the promise

  /** One complete response: a stream that ended or failed properly, or one body. */
  predicate OneResponse(f: Front)
  {
    (f.bodies == [] && (Read(f.stream).phase == Done || Read(f.stream).phase == Failed)) ||
    (f.stream == [] && |f.bodies| == 1)
  }

  /** Nothing has passed the gate, or everything has. */
  predicate Gated(w: Writer)
  {
    w.visible == w.gate.promoted && (if w.gate.promoted then w.started && w.gate.buf == [] else w.gate.client == [])
  }

  lemma PutTextGated(w: Writer, s: string)
    requires Gated(w)
    ensures Gated(PutText(w, s)) && PutText(w, s).gate.promoted == (w.gate.promoted || s != "")
  {
  }

  lemma PutThinkingGated(w: Writer, s: string, signature: string)
    requires Gated(w)
    ensures Gated(PutThinking(w, s, signature)) && PutThinking(w, s, signature).gate.promoted == w.gate.promoted
  {
  }

  lemma PutSignatureGated(w: Writer, signature: string)
    requires Gated(w)
    ensures Gated(PutSignature(w, signature)) && PutSignature(w, signature).gate.promoted == w.gate.promoted
  {
  }

  lemma PutToolGated(w: Writer, call: ToolCall)
    requires Gated(w)
    ensures Gated(PutTool(w, call)) && PutTool(w, call).gate.promoted
  {
  }

  lemma PutRedactedGated(w: Writer, data: string)
    requires Gated(w)
    ensures Gated(PutRedacted(w, data)) && PutRedacted(w, data).gate.promoted == w.gate.promoted
  {
  }

  lemma PutErrorGated(w: Writer, message: string)
    requires Gated(w)
    ensures Gated(PutError(w, message)) && PutError(w, message).gate.promoted == w.gate.promoted
  {
  }

  lemma PutEndGated(w: Writer, text: string, thinking: string, end: (StopReason, string), signature: string)
    requires Gated(w)
    ensures var w' := PutEnd(w, text, thinking, end, signature);
            Gated(w') && w'.gate.promoted == (w.gate.promoted || text != "")
  {
    var w1 := EnsureStarted(w);
    PutThinkingGated(w1, thinking, signature);
    PutTextGated(PutThinking(w1, thinking, signature), text);
  }

  /** An event's contribution passes the gate exactly when it is visible. */
  predicate Shows(e: Event, d: EventDelta)
  {
    (e.AssistantResponse? && d.text != "") || (e.ToolUse? && d.thinking == "" && d.tools != [])
  }

  lemma PutGated(w: Writer, e: Event, d: EventDelta, signature: string)
    requires Gated(w)
    ensures var w' := Put(w, e, d, signature).0;
            Gated(w') && w'.gate.promoted == (w.gate.promoted || Shows(e, d))
  {
    match e {
      case AssistantResponse(_) =>
        PutThinkingGated(w, d.thinking, signature);
        PutTextGated(PutThinking(w, d.thinking, signature), d.text);
      case ReasoningContent(_, _, _) =>
        PutRedactedGated(w, d.redacted);
        PutSignatureGated(w, d.signature);
        PutThinkingGated(w, d.thinking, signature);
        PutSignatureGated(PutThinking(w, d.thinking, signature), d.signature);
      case ToolUse(_, _, _, _) =>
        PutThinkingGated(w, d.thinking, signature);
        if d.tools != [] {
          PutToolGated(w, d.tools[0]);
        }
      case InvalidState(_, m) => PutErrorGated(w, m);
      case Exception(m) => PutErrorGated(w, m);
      case _ =>
    }
  }

  lemma FinishedGated(cfg: Config, s: Sse)
    requires Gated(s.w)
    ensures Gated(Finished(cfg, s).w)
    ensures Finished(cfg, s).w.gate.promoted == (s.w.gate.promoted || Finalize(cfg, s.acc).1 != "")
  {
    var (a, text, thinking) := Finalize(cfg, s.acc);
    PutEndGated(s.w, text, thinking, Resolved(a.out.stop, a.tools.hasToolUse), a.signature);
  }

  lemma HandledGated(cfg: Config, s: Sse, e: Event)
    requires Gated(s.w)
    ensures Gated(Handled(cfg, s, e).0.w)
  {
    var (a, d) := Step(cfg, s.acc, e);
    PutGated(s.w, e, d, a.signature);
    var (w, next) := Put(s.w, e, d, a.signature);
    FinishedGated(cfg, Sse(a, w));
  }

  lemma {:induction false} HandledAllGated(cfg: Config, s: Sse, events: seq<Event>)
    requires Gated(s.w)
    ensures Gated(HandledAll(cfg, s, events).0.w)
    decreases |events|
  {
    if events != [] {
      HandledGated(cfg, s, events[0]);
      var (s1, next) := Handled(cfg, s, events[0]);
      if next.Continue? {
        HandledAllGated(cfg, s1, events[1..]);
      }
    }
  }

  /** A stream that passed the gate has reached the client whole. */
  lemma DeliveredWhole(w: Writer)
    requires Gated(w)
    ensures w.gate.client == if w.gate.promoted then Sent(w) else []
  {
    assert w.gate.client + [] == w.gate.client;
  }

  /** The two ways to end a stream that upstream left open. */
  lemma OpenEndSafe(cfg: Config, s: Sse)
    requires Gated(s.w) && Transcript.Running(cfg, s)
    ensures Safe(ErrorWritten(UNTOUCHED, s.w), Settled)
    ensures var (f, o) := CloseVerdict(UNTOUCHED, Finished(cfg, s)); Safe(f, o)
  {
    ClosedSafe(cfg, s);
    if s.w.gate.promoted {
      Transcript.PutErrorRead(s.w, "upstream stream error");
      PutErrorGated(s.w, "upstream stream error");
      DeliveredWhole(PutError(s.w, "upstream stream error"));
    }
  }

  lemma ClosedSafe(cfg: Config, s: Sse)
    requires Gated(s.w) && Transcript.Running(cfg, s)
    ensures var (f, o) := CloseVerdict(UNTOUCHED, Finished(cfg, s)); Safe(f, o)
  {
    Transcript.FinishCompletes(cfg, s);
    FinishedGated(cfg, s);
    DeliveredWhole(Finished(cfg, s).w);
  }

  lemma VerdictSafe(cfg: Config, s: Sse, next: Next, failure: Event, broken: bool)
    requires Gated(s.w)
    requires match next
             case Continue => Transcript.Running(cfg, s)
             case FinishNow => Transcript.Complete(cfg, s) && s.acc.out.stop.local
             case Abort => Transcript.CutShort(s)
    ensures var (f, o) := StreamVerdict(cfg, UNTOUCHED, s, next, failure, broken); Safe(f, o)
  {
    DeliveredWhole(s.w);
    if next.Continue? {
      OpenEndSafe(cfg, s);
    }
  }

  /** An attempt that asks for a retry has left no byte at the client; a final one
      has given one response, or none when a stream ended without visible output. */
  predicate Safe(f: Front, o: Outcome)
  {
    match o
    case Retryable(reason, calls) => f == UNTOUCHED && (reason == INVALID_TOOL ==> calls != [])
    case CallFailed => OneResponse(f)
    case Settled => f == UNTOUCHED || OneResponse(f)
  }

  lemma StreamAttemptSafe(cfg: Config, events: seq<Event>, broken: bool)
    ensures var (f, o) := StreamAttempt(cfg, UNTOUCHED, events, broken); Safe(f, o)
  {
    var s0 := Sse(FRESH, NewWriter([]));
    assert Transcript.Running(cfg, s0) by {
      assert Sent(s0.w) == [];
    }
    Transcript.HandledAllOk(cfg, s0, events);
    HandledAllGated(cfg, s0, events);
    FinishNowIsLocal(cfg, s0, events);
    var (s, next) := HandledAll(cfg, s0, events);
    VerdictSafe(cfg, s, next, FirstError(events), broken);
  }

  lemma AttemptSafe(cfg: Config, stream: bool, up: Upstream)
    ensures var (f, o) := Attempt(cfg, stream, UNTOUCHED, up);
            Safe(f, o) && (!stream && o.Settled? ==> OneResponse(f))
  {
    if up.Reply? && stream {
      StreamAttemptSafe(cfg, up.events, up.broken);
    }
  }

  /** Every request: at most two attempts, nothing at the client before the last
      one, and at most one response. */
  lemma OneResponseAtMost(cfg: Config, stream: bool, up1: Upstream, up2: Upstream, prepared: bool)
    ensures var r := Executed(cfg, stream, up1, up2, prepared);
            r.attempts <= 2 && (r.front == UNTOUCHED || OneResponse(r.front)) &&
            (!stream || !r.ok ==> OneResponse(r.front))
    ensures Attempt(cfg, stream, UNTOUCHED, up1).1.Retryable? ==> Attempt(cfg, stream, UNTOUCHED, up1).0 == UNTOUCHED
  {
    AttemptSafe(cfg, stream, up1);
    AttemptSafe(cfg, stream, up2);
    var (f1, o1) := Attempt(cfg, stream, UNTOUCHED, up1);
    var (f2, o2) := Attempt(cfg, stream, UNTOUCHED, up2);
    if o1.Retryable? && o2.Retryable? {
      GiveUpSafe(f2, o1.reason, o2);
    }
  }

  /** Giving up says one thing to a client that has heard nothing. */
  lemma GiveUpSafe(f: Front, first: string, second: Outcome)
    requires second.Retryable? && Safe(f, second)
    ensures OneResponse(GiveUp(f, first, second))
  {
  }

  // ------------------------------------------------------ silent responses

  /** The gate is open exactly when there is text or a tool call. */
  ghost predicate GateTells(s: Sse)
  {
    Gated(s.w) && (s.w.gate.promoted <==> s.acc.out.text != "" || s.acc.tools.calls != [])
  }

  lemma FinishedTells(cfg: Config, s: Sse)
    requires GateTells(s)
    ensures GateTells(Finished(cfg, s))
  {
    FinishedGated(cfg, s);
    Transcript.FinalizeReports(cfg, s.acc);
  }

  lemma PutTells(cfg: Config, s: Sse, e: Event)
    requires GateTells(s) && cfg.dropTool == ""
    ensures var (a, d) := Step(cfg, s.acc, e); GateTells(Sse(a, Put(s.w, e, d, a.signature).0))
  {
    var (a, d) := Step(cfg, s.acc, e);
    PutGated(s.w, e, d, a.signature);
    Transcript.StepReports(cfg, s.acc, e);
    Transcript.StepReportsTools(cfg, s.acc, e);
  }

  lemma {:induction false} HandledAllTells(cfg: Config, s: Sse, events: seq<Event>)
    requires GateTells(s) && cfg.dropTool == ""
    ensures GateTells(HandledAll(cfg, s, events).0)
    decreases |events|
  {
    if events != [] {
      PutTells(cfg, s, events[0]);
      var (a, d) := Step(cfg, s.acc, events[0]);
      var (w, next) := Put(s.w, events[0], d, a.signature);
      FinishedTells(cfg, Sse(a, w));
      if next.Continue? {
        HandledAllTells(cfg, Sse(a, w), events[1..]);
      }
    }
  }

  /** The reply has nothing to show and no reason to be tried again. */
  ghost predicate NothingToShow(cfg: Config, events: seq<Event>)
  {
    var a := Drivers.StepAll(cfg, FRESH, events);
    var m := Drivers.MessageOf(cfg, a);
    m.text == "" && m.calls == [] &&
    (a.out.stop.local || (a.tools.invalid == [] && !EmptyVisible(Finalize(cfg, a).0)))
  }

  /** A stream that upstream completed leaves the client with nothing at all
      exactly when the buffered reply would have had no text and no tool call and
      the attempt is not one to retry. */
  lemma SilentExactly(cfg: Config, events: seq<Event>)
    requires cfg.dropTool == "" && Drivers.NoErrors(events)
    ensures StreamAttempt(cfg, UNTOUCHED, events, false) == (UNTOUCHED, Settled) <==> NothingToShow(cfg, events)
  {
    var s0 := Sse(FRESH, NewWriter([]));
    var all := Drivers.StepAll(cfg, FRESH, events);
    var (s, next) := HandledAll(cfg, s0, events);
    HandledAllTells(cfg, s0, events);
    Drivers.StreamingKeepsMessage(cfg, s0, events);
    Limits.FinishesWhenStopped(cfg, s0, events);
    if next.Continue? {
      SilentClosing(cfg, s, FirstError(events));
    } else {
      FinishNowIsLocal(cfg, s0, events);
      SilentStop(cfg, s, Drivers.MessageOf(cfg, all), FirstError(events));
    }
  }

  /** A stream still open after the last event. */
  lemma SilentClosing(cfg: Config, s: Sse, failure: Event)
    requires GateTells(s)
    ensures StreamVerdict(cfg, UNTOUCHED, s, Continue, failure, false) == (UNTOUCHED, Settled) <==>
            var m := Drivers.MessageOf(cfg, s.acc);
            m.text == "" && m.calls == [] && s.acc.tools.invalid == [] && !EmptyVisible(Finalize(cfg, s.acc).0)
  {
    var t := Finished(cfg, s);
    FinishedTells(cfg, s);
    FinishedGated(cfg, s);
    Transcript.FinalizeReports(cfg, s.acc);
    ToolCalls.DedupDistinct(cfg.canonicalJson, s.acc.tools.calls);
    ClosedStreamEmpty(cfg, s);
  }

  /** A closed stream that reached the client is not empty. */
  lemma ClosedStreamEmpty(cfg: Config, s: Sse)
    requires Gated(s.w)
    ensures var t := Finished(cfg, s); t.w.gate.client == [] <==> !t.w.gate.promoted
  {
    FinishedGated(cfg, s);
    LastIsStop(cfg, s);
    DeliveredWhole(Finished(cfg, s).w);
  }

  lemma LastIsStop(cfg: Config, s: Sse)
    ensures Sent(Finished(cfg, s).w) != []
  {
  }

  /** A stream closed at a stop signal. */
  lemma SilentStop(cfg: Config, s: Sse, m: Drivers.Message, failure: Event)
    requires GateTells(s) && s.acc.out.stop.local && Drivers.ClosedWith(cfg, s, m)
    ensures StreamVerdict(cfg, UNTOUCHED, s, FinishNow, failure, false) == (UNTOUCHED, Settled) <==>
            m.text == "" && m.calls == []
  {
    var a, w :| s == Finished(cfg, Sse(a, w)) && Drivers.MessageOf(cfg, a) == m;
    LastIsStop(cfg, Sse(a, w));
    DeliveredWhole(s.w);
    Transcript.FinalizeReports(cfg, a);
    ToolCalls.DedupDistinct(cfg.canonicalJson, a.tools.calls);
  }

  /** The promise of a response is broken by an empty reply. */
  lemma EmptyReplyIsSilent(cfg: Config)
    requires cfg.dropTool == ""
    ensures StreamAttempt(cfg, UNTOUCHED, [], false) == (UNTOUCHED, Settled)
  {
    SilentExactly(cfg, []);
    assert "" + "" == "";
  }
}
