/** Amazon event-stream frames: the printer, the frame reader and the header
    walker. The checksum is an arbitrary function of the bytes.
 */
module EventStream {

  type byte = x: int | 0 <= x < 256
  type u16 = x: int | 0 <= x < 0x1_0000
  type u32 = x: int | 0 <= x < 0x1_0000_0000

  type Checksum = seq<byte> -> u32

  const MAX_FRAME: u32 := 4 * 1024 * 1024

  // ---------------------------------------------------------- big endian

  function Put16(n: u16): seq<byte>
  {
    [n / 256, n % 256]
  }

  function Get16(b: seq<byte>): u16
    requires |b| == 2
  {
    256 * b[0] as int + b[1]
  }

  function Put32(n: u32): seq<byte>
  {
    Put16(n / 0x1_0000) + Put16(n % 0x1_0000)
  }

  function Get32(b: seq<byte>): u32
    requires |b| == 4
  {
    0x1_0000 * Get16(b[..2]) + Get16(b[2..])
  }

  lemma GetPut32(n: u32)
    ensures |Put32(n)| == 4 && Get32(Put32(n)) == n
  {
    assert Put32(n)[..2] == Put16(n / 0x1_0000) && Put32(n)[2..] == Put16(n % 0x1_0000);
  }

  lemma PutGet32(b: seq<byte>)
    requires |b| == 4
    ensures Put32(Get32(b)) == b
  {
    var high, low := Get16(b[..2]), Get16(b[2..]);
    assert Get32(b) / 0x1_0000 == high && Get32(b) % 0x1_0000 == low;
    assert Put16(high) == b[..2] && Put16(low) == b[2..];
    assert b == b[..2] + b[2..];
  }

  // ------------------------------------------------------------- printer

  function Wrap32(n: int): u32
  {
    if 0 <= n < 0x1_0000_0000 then n else n % 0x1_0000_0000
  }

  function Lengths(headers: seq<byte>, payload: seq<byte>): (r: seq<byte>)
    ensures |r| == 8
  {
    var h := Wrap32(|headers|);
    Put32(Wrap32(12 + h + Wrap32(|payload|) + 4)) + Put32(h)
  }

  function Prelude(crc: Checksum, lengths: seq<byte>): seq<byte>
  {
    lengths + Put32(crc(lengths))
  }

  function Covered(crc: Checksum, headers: seq<byte>, payload: seq<byte>): seq<byte>
  {
    Prelude(crc, Lengths(headers, payload)) + (headers + payload)
  }

  function Assembled(crc: Checksum, headers: seq<byte>, payload: seq<byte>): (r: seq<byte>)
    ensures |r| == 16 + |headers| + |payload|
  {
    Covered(crc, headers, payload) + Put32(crc(Covered(crc, headers, payload)))
  }

  method AssembleFrame(crc: Checksum, headers: seq<byte>, payload: seq<byte>) returns (frame: seq<byte>)
    ensures frame == Assembled(crc, headers, payload)
  {
    var headersLen := Wrap32(|headers|);
    var totalLen := Wrap32(12 + headersLen + Wrap32(|payload|) + 4);
    frame := Put32(totalLen) + Put32(headersLen);
    var preludeCrc := crc(frame);
    frame := frame + Put32(preludeCrc);
    frame := frame + headers;
    frame := frame + payload;
    assert frame == Covered(crc, headers, payload);
    var messageCrc := crc(frame);
    frame := frame + Put32(messageCrc);
  }

  // -------------------------------------------------------------- reader

  datatype Message = Message(headers: seq<byte>, payload: seq<byte>)

  /** A message that fits the frame limit. */
  predicate Fits(m: Message)
  {
    16 + |m.headers| + |m.payload| <= MAX_FRAME
  }

  predicate AllFit(ms: seq<Message>)
  {
    forall m | m in ms :: Fits(m)
  }

  function Print(crc: Checksum, m: Message): (r: seq<byte>)
    ensures |r| == 16 + |m.headers| + |m.payload|
  {
    Assembled(crc, m.headers, m.payload)
  }

  /** The bytes start with the frame of `m`. */
  predicate StartsWith(crc: Checksum, s: seq<byte>, m: Message)
  {
    Fits(m) && |Print(crc, m)| <= |s| && s[..|Print(crc, m)|] == Print(crc, m)
  }

  ghost predicate HasFrame(crc: Checksum, s: seq<byte>)
  {
    exists m :: StartsWith(crc, s, m)
  }

  lemma Slice(a: seq<byte>, b: seq<byte>, c: seq<byte>)
    ensures (a + b + c)[|a|..|a| + |b|] == b && (a + b + c)[..|a|] == a
  {
  }

  /** What the prelude of a frame holds. */
  lemma PreludeFields(crc: Checksum, s: seq<byte>, m: Message)
    requires StartsWith(crc, s, m)
    ensures Get32(s[..4]) == 16 + |m.headers| + |m.payload| && Get32(s[4..8]) == |m.headers|
    ensures Get32(s[8..12]) == crc(s[..8])
  {
    var n, h, l := |Print(crc, m)|, |m.headers|, Lengths(m.headers, m.payload);
    PlainLengths(m);
    assert s[..12] == l + Put32(crc(l)) by {
      PreludeFirst(crc, m);
      assert s[..12] == s[..n][..12];
    }
    CutWords(s, Put32(n), Put32(h), Put32(crc(l)));
    GetPut32(n);
    GetPut32(h);
    GetPut32(crc(l));
  }

  lemma PlainLengths(m: Message)
    requires Fits(m)
    ensures Lengths(m.headers, m.payload) == Put32(16 + |m.headers| + |m.payload|) + Put32(|m.headers|)
  {
    assert Wrap32(|m.headers|) == |m.headers| && Wrap32(|m.payload|) == |m.payload|;
  }

  lemma PreludeFirst(crc: Checksum, m: Message)
    ensures Print(crc, m)[..12] == Prelude(crc, Lengths(m.headers, m.payload))
  {
    var c := Covered(crc, m.headers, m.payload);
    assert Print(crc, m)[..12] == c[..12];
  }

  /** The three words of a prelude. */
  lemma CutWords(s: seq<byte>, a: seq<byte>, b: seq<byte>, c: seq<byte>)
    requires |a| == |b| == |c| == 4 && |s| >= 12 && s[..12] == (a + b) + c
    ensures s[..4] == a && s[4..8] == b && s[8..12] == c && s[..8] == a + b
  {
    Slice(a, b, c);
    Slice(a + b, c, []);
    assert s[..12] == (a + b) + c + [];
    assert s[..4] == s[..12][..4] && s[4..8] == s[..12][4..8] && s[8..12] == s[..12][8..12] && s[..8] == s[..12][..8];
  }

  lemma JoinWords(s: seq<byte>)
    requires |s| >= 12
    ensures s[..8] == s[..4] + s[4..8] && s[..12] == s[..8] + s[8..12]
  {
  }

  /** What the body of a frame of `n` bytes holds. */
  lemma BodyFields(crc: Checksum, s: seq<byte>, m: Message, n: nat)
    requires StartsWith(crc, s, m) && n == |Print(crc, m)|
    ensures s[12..n - 4] == m.headers + m.payload && Get32(s[n - 4..n]) == crc(s[..n - 4])
  {
    var c, p := Covered(crc, m.headers, m.payload), Prelude(crc, Lengths(m.headers, m.payload));
    var k := Put32(crc(c));
    GetPut32(crc(c));
    assert s[..n] == c + k + [];
    Slice(c, k, []);
    assert s[..n] == p + (m.headers + m.payload) + k;
    Slice(p, m.headers + m.payload, k);
    assert s[..n - 4] == s[..n][..n - 4] && s[n - 4..n] == s[..n][n - 4..n] && s[12..n - 4] == s[..n][12..n - 4];
  }

  /** Fields that agree make a frame. */
  lemma FieldsMakeFrame(crc: Checksum, s: seq<byte>, n: u32, h: u32)
    requires 16 <= n <= MAX_FRAME && n <= |s| && h <= n - 16
    requires Get32(s[..4]) == n && Get32(s[4..8]) == h && Get32(s[8..12]) == crc(s[..8])
    requires Get32(s[n - 4..n]) == crc(s[..n - 4])
    ensures StartsWith(crc, s, Message(s[12..12 + h], s[12 + h..n - 4]))
  {
    var m := Message(s[12..12 + h], s[12 + h..n - 4]);
    assert Prelude(crc, Lengths(m.headers, m.payload)) == s[..12] by {
      FieldsMakePrelude(crc, s, m);
    }
    assert m.headers + m.payload == s[12..n - 4];
    assert s[..12] + s[12..n - 4] == s[..n - 4];
    PutGet32(s[n - 4..n]);
    assert s[..n - 4] + s[n - 4..n] == s[..n];
  }

  lemma FieldsMakePrelude(crc: Checksum, s: seq<byte>, m: Message)
    requires |s| >= 12 && Fits(m)
    requires Get32(s[..4]) == 16 + |m.headers| + |m.payload| && Get32(s[4..8]) == |m.headers|
    requires Get32(s[8..12]) == crc(s[..8])
    ensures Prelude(crc, Lengths(m.headers, m.payload)) == s[..12]
  {
    PutGet32(s[..4]);
    PutGet32(s[4..8]);
    PutGet32(s[8..12]);
    PlainLengths(m);
    JoinWords(s);
  }

  /** At most one frame stands at the front of a byte string. */
  lemma OneFrame(crc: Checksum, s: seq<byte>, m: Message, m': Message)
    requires StartsWith(crc, s, m) && StartsWith(crc, s, m')
    ensures m == m'
  {
    PreludeFields(crc, s, m);
    PreludeFields(crc, s, m');
    var n := |Print(crc, m)|;
    BodyFields(crc, s, m, n);
    BodyFields(crc, s, m', n);
    var body := s[12..n - 4];
    assert m.headers == body[..|m.headers|] && m.payload == body[|m.headers|..];
    assert m'.headers == body[..|m'.headers|] && m'.payload == body[|m'.headers|..];
  }

  /** A frame's bytes seen from the whole stream. */
  lemma CutBody(s: seq<byte>, prelude: seq<byte>, remaining: seq<byte>, rest: seq<byte>, h: nat)
    requires s == prelude + (remaining + rest) && |prelude| == 12 && |remaining| >= 4 && h <= |remaining| - 4
    ensures var n := 12 + |remaining|;
            remaining[|remaining| - 4..] == s[n - 4..n] && prelude + remaining[..|remaining| - 4] == s[..n - 4] &&
            remaining[..h] == s[12..12 + h] && remaining[h..|remaining| - 4] == s[12 + h..n - 4] && s == s[..n] + rest
  {
    var n := 12 + |remaining|;
    assert remaining == s[12..n] && rest == s[n..];
  }

  datatype Outcome =
    | Frame(m: Message)
    | Eof
    | TruncatedPrelude(read: nat)
    | PreludeMismatch
    | TooSmall
    | TooLarge
    | HeadersTooLong
    | ShortBody
    | MessageMismatch

  /** What reading one frame from `s` yields, case by case. */
  ghost predicate Explains(crc: Checksum, s: seq<byte>, r: Outcome)
  {
    if |s| == 0 then r == Eof
    else if |s| < 12 then r == TruncatedPrelude(|s|)
    else if Get32(s[8..12]) != crc(s[..8]) then r == PreludeMismatch
    else
      var n, h := Get32(s[..4]), Get32(s[4..8]);
      match r
      case Frame(m) => StartsWith(crc, s, m)
      case TooSmall => n < 16
      case TooLarge => n > MAX_FRAME
      case HeadersTooLong => 16 <= n <= MAX_FRAME && h + 16 > n
      case ShortBody => 16 <= n <= MAX_FRAME && h + 16 <= n && |s| < n
      case MessageMismatch => 16 <= n <= MAX_FRAME && h + 16 <= n <= |s| && Get32(s[n - 4..n]) != crc(s[..n - 4])
      case _ => false
  }

  /** A checked prelude with lengths in order. */
  ghost predicate Announces(crc: Checksum, s: seq<byte>, bodyLen: u32, headersLen: u32)
  {
    |s| >= 12 && Get32(s[8..12]) == crc(s[..8]) && Get32(s[..4]) == bodyLen + 12 && Get32(s[4..8]) == headersLen &&
    4 <= bodyLen <= MAX_FRAME - 12 && headersLen <= bodyLen - 4
  }

  /** A frame is read exactly when one stands at the front. */
  lemma FrameIffPrinted(crc: Checksum, s: seq<byte>, r: Outcome)
    requires Explains(crc, s, r)
    ensures r.Frame? <==> HasFrame(crc, s)
    ensures r.Eof? <==> s == []
    ensures forall m | StartsWith(crc, s, m) :: r == Frame(m)
  {
    forall m | StartsWith(crc, s, m) ensures r == Frame(m) {
      PreludeFields(crc, s, m);
      BodyFields(crc, s, m, |Print(crc, m)|);
      if r.Frame? {
        OneFrame(crc, s, m, r.m);
      }
    }
  }

  /** The bytes are some frames, then what made reading end. */
  ghost predicate ReadsAs(crc: Checksum, s: seq<byte>, ms: seq<Message>, tail: seq<byte>, end: Outcome)
  {
    AllFit(ms) && s == PrintAll(crc, ms) + tail && Explains(crc, tail, end) && !end.Frame?
  }

  /** A buffered reader over the bytes still to come. */
  class Reader {
    var rest: seq<byte>

    constructor (bytes: seq<byte>)
      ensures rest == bytes
    {
      rest := bytes;
    }

    /** Up to `n` bytes; fewer only at the end of the stream. */
    method ReadFull(n: nat) returns (got: seq<byte>)
      modifies this
      ensures old(rest) == got + rest && (|got| == n || (|got| < n && rest == []))
    {
      var k := if n < |rest| then n else |rest|;
      got, rest := rest[..k], rest[k..];
    }

    method ReadFrame(crc: Checksum) returns (r: Outcome)
      modifies this
      ensures Explains(crc, old(rest), r)
      ensures r.Frame? ==> old(rest) == Print(crc, r.m) + rest
    {
      ghost var s := rest;
      var prelude := ReadFull(12);
      if |prelude| < 12 {
        assert s == prelude + [];
        return if |prelude| == 0 then Eof else TruncatedPrelude(|prelude|);
      }
      assert prelude == s[..12];
      assert prelude[8..12] == s[8..12] && prelude[..8] == s[..8] && prelude[..4] == s[..4] && prelude[4..8] == s[4..8];
      var preludeCrc := Get32(prelude[8..12]);
      if crc(prelude[..8]) != preludeCrc {
        return PreludeMismatch;
      }
      var totalLen := Get32(prelude[..4]);
      var headersLen := Get32(prelude[4..8]);
      if totalLen < 16 {
        return TooSmall;
      }
      if totalLen > MAX_FRAME {
        return TooLarge;
      }
      // The subset type makes the absence of unsigned underflow a proof obligation.
      var bodyLen: u32 := totalLen - 12;
      var room: u32 := bodyLen - 4;
      if headersLen > room {
        return HeadersTooLong;
      }
      r := ReadBody(crc, s, prelude, bodyLen, headersLen);
    }

    /** Reads what follows a prelude whose lengths are in order. */
    method ReadBody(crc: Checksum, ghost s: seq<byte>, prelude: seq<byte>, bodyLen: u32, headersLen: u32) returns (r: Outcome)
      requires |prelude| == 12 && s == prelude + rest && Announces(crc, s, bodyLen, headersLen)
      modifies this
      ensures Explains(crc, s, r)
      ensures r.Frame? ==> s == Print(crc, r.m) + rest
    {
      var remaining := ReadFull(bodyLen);
      assert s == prelude + (remaining + rest);
      if |remaining| < bodyLen {
        return ShortBody;
      }
      CutBody(s, prelude, remaining, rest, headersLen);
      var messageCrc := Get32(remaining[|remaining| - 4..]);
      if crc(prelude + remaining[..|remaining| - 4]) != messageCrc {
        return MessageMismatch;
      }
      FieldsMakeFrame(crc, s, bodyLen + 12, headersLen);
      r := Frame(Message(remaining[..headersLen], remaining[headersLen..|remaining| - 4]));
    }

    /** Every frame up to the end of the stream or the first fault. */
    method ReadFrames(crc: Checksum) returns (ms: seq<Message>, end: Outcome)
      modifies this
      ensures exists tail :: ReadsAs(crc, old(rest), ms, tail, end)
    {
      ms := [];
      while true
        invariant AllFit(ms)
        invariant old(rest) == PrintAll(crc, ms) + rest
        decreases |rest|
      {
        ghost var tail := rest;
        end := ReadFrame(crc);
        if !end.Frame? {
          assert ReadsAs(crc, old(rest), ms, tail, end);
          return;
        }
        OneMore(crc, old(rest), ms, tail, rest, end.m);
        ms := ms + [end.m];
      }
    }
  }

  // --------------------------------------------------------- frame streams

  function PrintAll(crc: Checksum, ms: seq<Message>): seq<byte>
  {
    if ms == [] then [] else Print(crc, ms[0]) + PrintAll(crc, ms[1..])
  }

  lemma {:induction false} PrintAllSnoc(crc: Checksum, ms: seq<Message>, m: Message)
    ensures PrintAll(crc, ms + [m]) == PrintAll(crc, ms) + Print(crc, m)
  {
    if ms == [] {
      assert [m][1..] == [];
      assert PrintAll(crc, [m]) == Print(crc, m) + [];
      assert ms + [m] == [m];
    } else {
      assert (ms + [m])[1..] == ms[1..] + [m];
      PrintAllSnoc(crc, ms[1..], m);
    }
  }

  lemma OneMore(crc: Checksum, s: seq<byte>, ms: seq<Message>, tail: seq<byte>, tail': seq<byte>, m: Message)
    requires AllFit(ms) && Fits(m) && s == PrintAll(crc, ms) + tail && tail == Print(crc, m) + tail'
    ensures AllFit(ms + [m]) && s == PrintAll(crc, ms + [m]) + tail'
  {
    PrintAllSnoc(crc, ms, m);
    assert PrintAll(crc, ms) + (Print(crc, m) + tail') == (PrintAll(crc, ms) + Print(crc, m)) + tail';
  }

  /** Whatever reading explains a concatenation of frames followed by nothing
      returns those frames and a clean end of stream. */
  lemma {:induction false} StreamRoundTrip(crc: Checksum, sent: seq<Message>, ms: seq<Message>, tail: seq<byte>, end: Outcome)
    requires AllFit(sent)
    requires ReadsAs(crc, PrintAll(crc, sent), ms, tail, end)
    ensures ms == sent && end == Eof
    decreases |ms|
  {
    var s := PrintAll(crc, sent);
    if ms == [] {
      assert s == tail;
      FrameIffPrinted(crc, s, end);
      if sent != [] {
        assert StartsWith(crc, s, sent[0]);
      }
    } else {
      assert s == Print(crc, ms[0]) + (PrintAll(crc, ms[1..]) + tail);
      assert StartsWith(crc, s, ms[0]);
      assert sent != [];
      assert StartsWith(crc, s, sent[0]);
      OneFrame(crc, s, ms[0], sent[0]);
      assert PrintAll(crc, sent[1..]) == s[|Print(crc, sent[0])|..];
      assert PrintAll(crc, ms[1..]) + tail == s[|Print(crc, ms[0])|..];
      StreamRoundTrip(crc, sent[1..], ms[1..], tail, end);
    }
  }

  /** Sending and receiving. */
  method SendAndReceive(crc: Checksum, sent: seq<Message>) returns (ms: seq<Message>, end: Outcome)
    requires AllFit(sent)
    ensures ms == sent && end == Eof
  {
    var wire := [];
    for i := 0 to |sent|
      invariant wire == PrintAll(crc, sent[..i])
    {
      var frame := AssembleFrame(crc, sent[i].headers, sent[i].payload);
      PrintAllSnoc(crc, sent[..i], sent[i]);
      assert sent[..i + 1] == sent[..i] + [sent[i]];
      wire := wire + frame;
    }
    assert sent[..|sent|] == sent;
    var reader := new Reader(wire);
    ms, end := reader.ReadFrames(crc);
    ghost var tail :| ReadsAs(crc, wire, ms, tail, end);
    StreamRoundTrip(crc, sent, ms, tail, end);
  }
}
