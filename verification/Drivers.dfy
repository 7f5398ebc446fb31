/** The two response drivers. The streaming one stops at the first stop signal;
    the buffering one consumes every event and then builds one message. They
    agree.
 */
module Drivers {
  import opened Accumulator
  import opened Streaming
  import opened ToolCalls
  import Transcript
  import Gate

  /** The buffered reply. */
  datatype Message = Message(thinking: string, text: string, calls: seq<ToolCall>, reason: StopReason, sequence: string)

  ghost function StepAll(cfg: Config, a: Acc, events: seq<Event>): Acc
  {
    if events == [] then a else Step(cfg, StepAll(cfg, a, events[..|events| - 1]), events[|events| - 1]).0
  }

  ghost function MessageOf(cfg: Config, a: Acc): Message
  {
    var a' := Finalize(cfg, a).0;
    var end := Resolved(a'.out.stop, a'.tools.hasToolUse);
    Message(a'.out.thinking, a'.out.text, Dedup(cfg.canonicalJson, a'.tools.calls), end.0, end.1)
  }

  method BuildNonStreamingResponse(cfg: Config, events: seq<Event>) returns (m: Message)
    ensures m == MessageOf(cfg, StepAll(cfg, FRESH, events))
  {
    var acc := new ResponseAccumulator(cfg);
    for i := 0 to |events|
      invariant acc.View() == StepAll(cfg, FRESH, events[..i])
    {
      assert events[..i + 1][..i] == events[..i];
      var _ := acc.ProcessEvent(events[i]);
    }
    assert events[..|events|] == events;
    var _, _ := acc.FinalizeStream();
    var end := Resolved(acc.stop, acc.tools.hasToolUse);
    var calls := DeduplicateToolCalls(cfg.canonicalJson, acc.tools.calls);
    m := Message(acc.thinkingBuf, acc.textBuf, calls, end.0, end.1);
  }

  /** The streaming attempt, run on a fresh writer behind a fresh gate. */
  method StreamResponse(cfg: Config, events: seq<Event>) returns (sent: seq<SseEvent>, next: Next)
    ensures var (s, n) := Streamed(cfg, Sse(FRESH, NewWriter([])), events);
            sent == Sent(s.w) && next == n
  {
    var gate := new Gate.GateWriter([]);
    var sw := new SSEWriter(cfg, gate);
    next := Continue;
    var i := 0;
    while i < |events| && next.Continue?
      invariant i <= |events| && sw.acc.cfg == cfg && sw.gate == gate && fresh(sw) && fresh(gate) && fresh(sw.acc)
      invariant HandledAll(cfg, Sse(FRESH, NewWriter([])), events) ==
                if next.Continue? then HandledAll(cfg, sw.View(), events[i..]) else (sw.View(), next)
    {
      next := sw.HandleEvent(events[i]);
      assert events[i..][1..] == events[i + 1..];
      i := i + 1;
    }
    if next.Continue? {
      sw.Finish();
    }
    sent := gate.client + gate.buf;
  }

  // ----------------------------------------------------------- agreement

  /** The part of the accumulator that decides the reply. */
  ghost predicate SameCore(a: Acc, b: Acc)
  {
    a.out == b.out && a.tags == b.tags && a.tools == b.tools
  }

  lemma MessageOfCore(cfg: Config, a: Acc, b: Acc)
    requires SameCore(a, b)
    ensures MessageOf(cfg, a) == MessageOf(cfg, b)
  {
  }

  /** A stop signal means that the accumulator has stopped. */
  lemma StopSignalStops(cfg: Config, a: Acc, e: Event)
    ensures var (a', d) := Step(cfg, a, e); d.stopSignal ==> a'.out.stop.local
  {
  }

  /** A stopped accumulator takes no further content. */
  lemma StoppedAbsorbs(cfg: Config, a: Acc, e: Event)
    requires a.out.stop.local
    ensures SameCore(a, Step(cfg, a, e).0)
  {
  }

  lemma {:induction false} StoppedAbsorbsAll(cfg: Config, a: Acc, events: seq<Event>)
    requires a.out.stop.local
    ensures SameCore(a, StepAll(cfg, a, events))
  {
    if events != [] {
      var before := events[..|events| - 1];
      StoppedAbsorbsAll(cfg, a, before);
      StoppedAbsorbs(cfg, StepAll(cfg, a, before), events[|events| - 1]);
    }
  }

  lemma {:induction false} StepAllFrom(cfg: Config, a: Acc, e: Event, rest: seq<Event>)
    ensures StepAll(cfg, a, [e] + rest) == StepAll(cfg, Step(cfg, a, e).0, rest)
  {
    var all := [e] + rest;
    if rest == [] {
      assert all == [e] && all[..0] == [];
      assert StepAll(cfg, a, []) == a;
    } else {
      assert all[..|all| - 1] == [e] + rest[..|rest| - 1];
      StepAllFrom(cfg, a, e, rest[..|rest| - 1]);
    }
  }

  ghost predicate NoErrors(events: seq<Event>)
  {
    forall e | e in events :: !Transcript.IsErrorEvent(e)
  }

  /** The stream was closed on an accumulator that holds the reply `m`. */
  ghost predicate ClosedWith(cfg: Config, s: Sse, m: Message)
  {
    exists a, w :: s == Finished(cfg, Sse(a, w)) && MessageOf(cfg, a) == m
  }

  lemma PutNext(w: Writer, e: Event, d: EventDelta, signature: string)
    ensures var next := Put(w, e, d, signature).1;
            (next.FinishNow? ==> d.stopSignal) && (next.Abort? <==> Transcript.IsErrorEvent(e))
  {
  }

  lemma EventKeepsMessage(cfg: Config, s: Sse, e: Event, rest: seq<Event>)
    requires !Transcript.IsErrorEvent(e)
    ensures var (s1, next) := Handled(cfg, s, e);
            var a := Step(cfg, s.acc, e).0;
            !next.Abort? &&
            (next.Continue? ==> s1.acc == a) &&
            (next.FinishNow? ==> ClosedWith(cfg, s1, MessageOf(cfg, StepAll(cfg, a, rest))))
  {
    var (a, d) := Step(cfg, s.acc, e);
    var (w, next) := Put(s.w, e, d, a.signature);
    PutNext(s.w, e, d, a.signature);
    if next.FinishNow? {
      StopSignalStops(cfg, s.acc, e);
      StoppedAbsorbsAll(cfg, a, rest);
      MessageOfCore(cfg, a, StepAll(cfg, a, rest));
    }
  }

  /** The streaming driver, wherever it stops, holds the same reply in its
      accumulator as the buffering driver at the end of all events. */
  lemma {:induction false} StreamingKeepsMessage(cfg: Config, s: Sse, events: seq<Event>)
    requires NoErrors(events)
    ensures var (s', next) := HandledAll(cfg, s, events);
            var all := StepAll(cfg, s.acc, events);
            !next.Abort? &&
            (next.Continue? ==> s'.acc == all) &&
            (next.FinishNow? ==> ClosedWith(cfg, s', MessageOf(cfg, all)))
    decreases |events|
  {
    if events != [] {
      var e, rest := events[0], events[1..];
      assert events == [e] + rest && e in events;
      StepAllFrom(cfg, s.acc, e, rest);
      EventKeepsMessage(cfg, s, e, rest);
      var (s1, next) := Handled(cfg, s, e);
      if next.Continue? {
        StreamingKeepsMessage(cfg, s1, rest);
      }
    }
  }

  /** What a client reads from a finished stream is the finalised message. */
  lemma FinishedIsMessage(cfg: Config, a: Acc, w: Writer)
    requires Transcript.Complete(cfg, Finished(cfg, Sse(a, w)))
    ensures Replies(cfg, Transcript.Reading(Finished(cfg, Sse(a, w)).w), MessageOf(cfg, a))
  {
    Transcript.FinalizeReports(cfg, a);
  }

  ghost predicate Replies(cfg: Config, c: Client, m: Message)
  {
    c.phase == Done && c.text == m.text && c.thinking == m.thinking &&
    c.ending == [MessageDelta(m.reason, m.sequence)] &&
    (cfg.dropTool == "" ==> m.calls == Dedup(cfg.canonicalJson, c.calls))
  }

  lemma StreamedCloses(cfg: Config, s: Sse, events: seq<Event>)
    requires NoErrors(events)
    ensures ClosedWith(cfg, Streamed(cfg, s, events).0, MessageOf(cfg, StepAll(cfg, s.acc, events)))
    ensures !Streamed(cfg, s, events).1.Abort?
  {
    StreamingKeepsMessage(cfg, s, events);
    var (s1, next) := HandledAll(cfg, s, events);
    if next.Continue? {
      assert Streamed(cfg, s, events).0 == Finished(cfg, Sse(s1.acc, s1.w));
    }
  }

  lemma CompleteIsReply(cfg: Config, s: Sse, m: Message)
    requires ClosedWith(cfg, s, m) && Transcript.Complete(cfg, s)
    ensures Replies(cfg, Transcript.Reading(s.w), m)
  {
    var a, w :| s == Finished(cfg, Sse(a, w)) && MessageOf(cfg, a) == m;
    FinishedIsMessage(cfg, a, w);
  }

  /** For every event sequence without upstream errors, reading the stream gives
      the same text, thinking and stop reason as the buffered reply, whose calls
      are the streamed ones deduplicated: the same exactly when no two share an id
      or a name and input. */
  lemma DriversAgree(cfg: Config, events: seq<Event>)
    requires NoErrors(events)
    ensures var s := Streamed(cfg, Sse(FRESH, NewWriter([])), events).0;
            var c, m := Transcript.Reading(s.w), MessageOf(cfg, StepAll(cfg, FRESH, events));
            Replies(cfg, c, m) &&
            (cfg.dropTool == "" ==> (c.calls == m.calls <==> AllDifferent(cfg.canonicalJson, c.calls)))
  {
    var s0 := Sse(FRESH, NewWriter([]));
    DedupKeeps(cfg.canonicalJson, Transcript.Reading(Streamed(cfg, s0, events).0.w).calls);
    StreamedCloses(cfg, s0, events);
    Transcript.TranscriptWellFormed(cfg, events);
    CompleteIsReply(cfg, Streamed(cfg, s0, events).0, MessageOf(cfg, StepAll(cfg, FRESH, events)));
  }
}
