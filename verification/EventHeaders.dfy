/** The headers of an event-stream frame: the printer of the event-type header
    and the walker that finds the message and event type.
 */
module EventHeaders {
  import opened EventStream

  datatype Header = Header(name: seq<byte>, kind: byte, value: seq<byte>)

  const STRING: byte := 7

  /** Kinds with a two-byte length before the value. */
  predicate Variable(kind: byte)
  {
    kind == 6 || kind == STRING
  }

  function FixedSize(kind: byte): nat
    requires kind <= 9 && !Variable(kind)
  {
    if kind == 2 then 1 else if kind == 3 then 2 else if kind == 4 then 4
    else if kind == 5 || kind == 8 then 8 else if kind == 9 then 16 else 0
  }

  predicate WellFormed(h: Header)
  {
    |h.name| < 256 && h.kind <= 9 && if Variable(h.kind) then |h.value| < 0x1_0000 else |h.value| == FixedSize(h.kind)
  }

  function PrintValue(h: Header): seq<byte>
    requires WellFormed(h)
  {
    if Variable(h.kind) then Put16(|h.value|) + h.value else h.value
  }

  function PrintHeader(h: Header): (r: seq<byte>)
    requires WellFormed(h)
    ensures |r| > |h.name| + 1
  {
    [|h.name|] + (h.name + ([h.kind] + PrintValue(h)))
  }

  predicate AllWell(hs: seq<Header>)
  {
    forall h | h in hs :: WellFormed(h)
  }

  function PrintHeaders(hs: seq<Header>): seq<byte>
    requires AllWell(hs)
  {
    if hs == [] then [] else PrintHeaders(hs[..|hs| - 1]) + PrintHeader(hs[|hs| - 1])
  }

  ghost predicate HeaderAt(s: seq<byte>, h: Header, tail: seq<byte>)
  {
    WellFormed(h) && s == PrintHeader(h) + tail
  }

  ghost predicate HasHeader(s: seq<byte>)
  {
    exists h: Header, tail: seq<byte> :: HeaderAt(s, h, tail)
  }

  /** The fields of a header at the front of `s`. */
  lemma HeaderFields(s: seq<byte>, h: Header, tail: seq<byte>)
    requires HeaderAt(s, h, tail)
    ensures |s| >= 2 + |h.name| && s[0] == |h.name| && s[1..1 + |h.name|] == h.name && s[1 + |h.name|] == h.kind
    ensures s[2 + |h.name|..] == PrintValue(h) + tail
  {
    var n := |h.name|;
    assert s[1..] == h.name + ([h.kind] + (PrintValue(h) + tail));
    assert s[1..][n..] == [h.kind] + (PrintValue(h) + tail);
    assert s[1 + n..] == s[1..][n..];
  }

  /** The value at the front of `v`, after a name and a kind. */
  lemma ValueFields(v: seq<byte>, h: Header, tail: seq<byte>)
    requires WellFormed(h) && v == PrintValue(h) + tail
    ensures if Variable(h.kind) then |v| >= 2 + |h.value| && Get16(v[..2]) == |h.value| && v[2..2 + |h.value|] == h.value && v[2 + |h.value|..] == tail
            else |v| >= |h.value| && v[..|h.value|] == h.value && v[|h.value|..] == tail
  {
    if Variable(h.kind) {
      assert v == Put16(|h.value|) + (h.value + tail);
      assert v[..2] == Put16(|h.value|) && v[2..] == h.value + tail;
      assert v[2..2 + |h.value|] == v[2..][..|h.value|] && v[2 + |h.value|..] == v[2..][|h.value|..];
    }
  }

  lemma OneHeader(s: seq<byte>, h: Header, t: seq<byte>, h': Header, t': seq<byte>)
    requires HeaderAt(s, h, t) && HeaderAt(s, h', t')
    ensures h == h' && t == t'
  {
    HeaderFields(s, h, t);
    HeaderFields(s, h', t');
    var v := s[2 + |h.name|..];
    ValueFields(v, h, t);
    ValueFields(v, h', t');
  }

  // --------------------------------------------------------------- walker

  datatype Step = Step(header: Header, tail: seq<byte>) | Stuck

  /** One turn of the walker: the header at the front, or the reason to stop. */
  method Next(s: seq<byte>) returns (r: Step)
    ensures r.Stuck? <==> !HasHeader(s)
    ensures r.Step? ==> HeaderAt(s, r.header, r.tail)
  {
    if HasHeader(s) {
      HeaderShape(s);
    }
    if |s| == 0 {
      return Stuck;
    }
    var n := s[0];
    if 1 + n > |s| {
      return Stuck;
    }
    var name := s[1..1 + n];
    if 1 + n >= |s| {
      return Stuck;
    }
    var kind := s[1 + n];
    if kind > 9 {
      return Stuck;
    }
    var value, tail, ok := NextValue(s[2 + n..], kind);
    if !ok {
      return Stuck;
    }
    r := Step(Header(name, kind, value), tail);
    assert s == [n] + (name + ([kind] + s[2 + n..]));
    MakeHeader(s, r.header, tail);
  }

  lemma HeaderShape(s: seq<byte>)
    requires HasHeader(s)
    ensures |s| > 0 && 1 + s[0] < |s| && s[1 + s[0]] <= 9 && HasValue(s[2 + s[0]..], s[1 + s[0]])
  {
    var h, t :| HeaderAt(s, h, t);
    HeaderFields(s, h, t);
  }

  lemma MakeHeader(s: seq<byte>, h: Header, tail: seq<byte>)
    requires WellFormed(h) && s == [|h.name|] + (h.name + ([h.kind] + (PrintValue(h) + tail)))
    ensures HeaderAt(s, h, tail) && HasHeader(s)
  {
    assert s == PrintHeader(h) + tail;
    assert HeaderAt(s, h, tail);
  }

  /** A value of the kind stands at the front of `v`. */
  ghost predicate HasValue(v: seq<byte>, kind: byte)
  {
    exists h, t :: WellFormed(h) && h.kind == kind && v == PrintValue(h) + t
  }

  method NextValue(v: seq<byte>, kind: byte) returns (value: seq<byte>, tail: seq<byte>, ok: bool)
    requires kind <= 9
    ensures HasValue(v, kind) ==> ok
    ensures ok ==> WellFormed(Header([], kind, value)) && v == PrintValue(Header([], kind, value)) + tail
  {
    if HasValue(v, kind) {
      var h, t :| WellFormed(h) && h.kind == kind && v == PrintValue(h) + t;
      ValueFields(v, h, t);
    }
    var i, size := 0, 0;
    if Variable(kind) {
      if 2 > |v| {
        return [], [], false;
      }
      size := Get16(v[..2]);
      i := 2;
    } else {
      size := FixedSize(kind);
    }
    if i + size > |v| {
      return [], [], false;
    }
    value, tail, ok := v[i..i + size], v[i + size..], true;
    if Variable(kind) {
      SizedValue(v, value, tail);
    } else {
      assert v == value + tail;
    }
  }

  lemma SizedValue(v: seq<byte>, value: seq<byte>, tail: seq<byte>)
    requires |v| >= 2 && |value| == Get16(v[..2]) && v[2..] == value + tail
    ensures v == Put16(|value|) + value + tail
  {
    assert Put16(|value|) == v[..2];
    assert v == v[..2] + (value + tail);
  }

  function Ascii(s: string): seq<byte>
  {
    seq(|s|, i requires 0 <= i < |s| => s[i] as int % 256)
  }

  predicate IsMessageType(h: Header)
  {
    h.kind == STRING && h.name == Ascii(":message-type")
  }

  predicate IsEventType(h: Header)
  {
    h.kind == STRING && (h.name == Ascii(":event-type") || h.name == Ascii(":exception-type"))
  }

  /** The value of the last header of a sort, empty if there is none. */
  function Last(hs: seq<Header>, sort: Header -> bool): seq<byte>
  {
    if hs == [] then []
    else if sort(hs[|hs| - 1]) then hs[|hs| - 1].value
    else Last(hs[..|hs| - 1], sort)
  }

  /** The bytes are some headers, then nothing that starts with a header. */
  ghost predicate WalksAs(s: seq<byte>, hs: seq<Header>, tail: seq<byte>)
  {
    AllWell(hs) && s == PrintHeaders(hs) + tail && !HasHeader(tail)
  }

  method ExtractFrameHeaders(s: seq<byte>) returns (msgType: seq<byte>, eventType: seq<byte>)
    ensures exists hs, tail :: WalksAs(s, hs, tail) && msgType == Last(hs, IsMessageType) && eventType == Last(hs, IsEventType)
  {
    msgType, eventType := [], [];
    var rest := s;
    ghost var hs := [];
    while true
      invariant AllWell(hs) && s == PrintHeaders(hs) + rest
      invariant msgType == Last(hs, IsMessageType) && eventType == Last(hs, IsEventType)
      decreases |rest|
    {
      var step := Next(rest);
      if step.Stuck? {
        assert WalksAs(s, hs, rest);
        return;
      }
      var h := step.header;
      if IsMessageType(h) {
        msgType := h.value;
      } else if IsEventType(h) {
        eventType := h.value;
      }
      Walked(s, hs, rest, h, step.tail);
      rest, hs := step.tail, hs + [h];
    }
  }

  lemma Walked(s: seq<byte>, hs: seq<Header>, rest: seq<byte>, h: Header, tail: seq<byte>)
    requires AllWell(hs) && s == PrintHeaders(hs) + rest && HeaderAt(rest, h, tail)
    ensures AllWell(hs + [h]) && s == PrintHeaders(hs + [h]) + tail
    ensures forall sort: Header -> bool :: Last(hs + [h], sort) == if sort(h) then h.value else Last(hs, sort)
  {
    assert (hs + [h])[..|hs + [h]| - 1] == hs;
    assert PrintHeaders(hs) + (PrintHeader(h) + tail) == (PrintHeaders(hs) + PrintHeader(h)) + tail;
  }

  // ------------------------------------------------------------ round trip

  lemma {:induction false} PrintHeadersCons(hs: seq<Header>)
    requires hs != [] && AllWell(hs)
    ensures PrintHeaders(hs) == PrintHeader(hs[0]) + PrintHeaders(hs[1..])
  {
    if |hs| == 1 {
      assert hs[..0] == [] && hs[1..] == [];
    } else {
      var init, last := hs[..|hs| - 1], hs[|hs| - 1];
      PrintHeadersCons(init);
      assert hs[1..][..|hs| - 2] == init[1..] && hs[1..][|hs| - 2] == last;
      Regroup(PrintHeader(hs[0]), PrintHeaders(init[1..]), PrintHeader(last));
    }
  }

  lemma Regroup(a: seq<byte>, b: seq<byte>, c: seq<byte>)
    ensures (a + b) + c == a + (b + c)
  {
  }

  lemma FirstHeader(s: seq<byte>, hs: seq<Header>, t: seq<byte>)
    requires AllWell(hs) && s == PrintHeaders(hs) + t && hs != []
    ensures HeaderAt(s, hs[0], PrintHeaders(hs[1..]) + t)
  {
    PrintHeadersCons(hs);
    Regroup(PrintHeader(hs[0]), PrintHeaders(hs[1..]), t);
  }

  /** The walker can read a byte string in only one way. */
  lemma {:induction false} OneWalk(s: seq<byte>, hs: seq<Header>, t: seq<byte>, hs': seq<Header>, t': seq<byte>)
    requires WalksAs(s, hs, t) && WalksAs(s, hs', t')
    ensures hs == hs' && t == t'
    decreases |hs|
  {
    assert hs == [] ==> s == t;
    assert hs' == [] ==> s == t';
    if hs != [] {
      FirstHeader(s, hs, t);
    }
    if hs' != [] {
      FirstHeader(s, hs', t');
    }
    if hs != [] && hs' != [] {
      OneHeader(s, hs[0], PrintHeaders(hs[1..]) + t, hs'[0], PrintHeaders(hs'[1..]) + t');
      OneWalk(PrintHeaders(hs[1..]) + t, hs[1..], t, hs'[1..], t');
    }
  }

  /** The header of a frame built for one event; the length is cut to two bytes. */
  function EventTypeHeader(eventType: seq<byte>): seq<byte>
  {
    var name := Ascii(":event-type");
    [|name|] + (name + ([STRING] + ([|eventType| / 256 % 256, |eventType| % 256] + eventType)))
  }

  lemma {:induction false} LastIsShort(hs: seq<Header>, sort: Header -> bool)
    requires AllWell(hs) && forall h | sort(h) :: h.kind == STRING
    ensures |Last(hs, sort)| < 0x1_0000
  {
    if hs != [] {
      assert WellFormed(hs[|hs| - 1]);
      LastIsShort(hs[..|hs| - 1], sort);
    }
  }

  lemma EventTypeHeaderWalks(eventType: seq<byte>)
    requires |eventType| < 0x1_0000
    ensures WalksAs(EventTypeHeader(eventType), [Header(Ascii(":event-type"), STRING, eventType)], [])
  {
    var h := Header(Ascii(":event-type"), STRING, eventType);
    assert PrintHeaders([h]) == [] + PrintHeader(h);
    assert |eventType| / 256 < 256;
    assert EventTypeHeader(eventType) == PrintHeader(h) + [];
    assert !HasHeader([]);
  }

  /** The event type is recovered exactly when its length fits two bytes. */
  method EventTypeRoundTrip(eventType: seq<byte>) returns (found: seq<byte>)
    ensures found == eventType <==> |eventType| < 0x1_0000
  {
    var headers := EventTypeHeader(eventType);
    var msgType;
    msgType, found := ExtractFrameHeaders(headers);
    ghost var hs, tail :| WalksAs(headers, hs, tail) && found == Last(hs, IsEventType);
    LastIsShort(hs, IsEventType);
    if |eventType| < 0x1_0000 {
      EventTypeHeaderWalks(eventType);
      OneWalk(headers, hs, tail, [Header(Ascii(":event-type"), STRING, eventType)], []);
    }
  }
}
