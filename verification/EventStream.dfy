/** The AWS event-stream framing (vnd.amazon.eventstream): the encoder of
    server/internal/adapter/bedrock_eventstream.go and the de-framer of
    server/internal/relay/stream.go. Checksums are a parameter: the encoder writes them, the decoder
    never looks at them. */
module EventStream {
  import opened Prelude

  type Byte = x: int | 0 <= x < 256

  type Bytes = seq<Byte>

  const TWO16: int := 0x1_0000

  const TWO32: int := 0x1_0000_0000

  /** The bytes of an ASCII string constant. */
  function Ascii(s: string): (b: Bytes)
    ensures |b| == |s|
  {
    seq(|s|, i requires 0 <= i < |s| => (s[i] as int) % 256)
  }

  const EVENT_TYPE: Bytes := Ascii(":event-type")
  const CONTENT_TYPE: Bytes := Ascii(":content-type")
  const MESSAGE_TYPE: Bytes := Ascii(":message-type")

  /** Header value type 7: a string with a two-byte length. */
  const STRING_KIND: Byte := 7

  // ------------------------------------------------------------------ big-endian integers

  function U16(b: Bytes): (n: nat)
    requires |b| == 2
    ensures n < TWO16
  {
    b[0] as int * 0x100 + b[1] as int
  }

  function PutU16(n: nat): (b: Bytes)
    ensures |b| == 2 && U16(b) == n % TWO16
  {
    [n / 0x100 % 0x100, n % 0x100]
  }

  function U32(b: Bytes): (n: nat)
    requires |b| == 4
    ensures n < TWO32
  {
    U16(b[..2]) * TWO16 + U16(b[2..])
  }

  function PutU32(n: nat): (b: Bytes)
    ensures |b| == 4 && U32(b) == n % TWO32
  {
    var high, low := PutU16(n / TWO16), PutU16(n);
    assert (high + low)[..2] == high && (high + low)[2..] == low;
    assert U16(high) == n / TWO16 % TWO16 && U16(low) == n % TWO16;
    high + low
  }

  /** binary.BigEndian.PutUint32 on a slice of a fixed array. */
  method WriteU32(a: array<Byte>, at: nat, n: nat)
    requires at + 4 <= a.Length
    modifies a
    ensures a[..] == old(a[..at]) + PutU32(n) + old(a[at + 4..])
  {
    assert n / 0x100_0000 == n / TWO16 / 0x100;
    a[at] := n / 0x100_0000 % 0x100;
    a[at + 1] := n / 0x1_0000 % 0x100;
    a[at + 2] := n / 0x100 % 0x100;
    a[at + 3] := n % 0x100;
    assert a[at..at + 4] == PutU32(n);
  }

  method WriteU16(a: array<Byte>, n: nat)
    requires a.Length == 2
    modifies a
    ensures a[..] == PutU16(n)
  {
    a[0] := n / 0x100 % 0x100;
    a[1] := n % 0x100;
  }

  // ------------------------------------------------------------------ headers

  /** One header: name, value type and the raw bytes of its value. */
  datatype Header = Header(name: Bytes, kind: Byte, value: Bytes)

  /** The size of a value of a fixed-size kind. */
  function FixedSize(kind: Byte): Option<nat> {
    if kind == 0 || kind == 1 then Some(0)
    else if kind == 2 then Some(1)
    else if kind == 3 then Some(2)
    else if kind == 4 then Some(4)
    else if kind == 5 || kind == 8 then Some(8)
    else if kind == 9 then Some(16)
    else None
  }

  predicate IsSized(kind: Byte) { kind == 6 || kind == 7 }

  /** A header the wire format can carry. */
  predicate WellFormed(h: Header) {
    && |h.name| < 256
    && if IsSized(h.kind) then |h.value| < TWO16 else FixedSize(h.kind) == Some(|h.value|)
  }

  /** The ten types of value that the format knows. */
  datatype HeaderValue =
    | True
    | False
    | Int8(n: Byte)
    | Int16(bits16: nat)
    | Int32(bits32: nat)
    | Int64(high: nat, low: nat)
    | Blob(bytes: Bytes)
    | Chars(text: Bytes)
    | Timestamp(early: nat, late: nat)
    | Uuid(a: nat, b: nat, c: nat, d: nat)

  function Typed(name: Bytes, v: HeaderValue): Header {
    match v
    case True => Header(name, 0, [])
    case False => Header(name, 1, [])
    case Int8(n) => Header(name, 2, [n])
    case Int16(n) => Header(name, 3, PutU16(n))
    case Int32(n) => Header(name, 4, PutU32(n))
    case Int64(high, low) => Header(name, 5, PutU32(high) + PutU32(low))
    case Blob(bytes) => Header(name, 6, bytes)
    case Chars(text) => Header(name, 7, text)
    case Timestamp(high, low) => Header(name, 8, PutU32(high) + PutU32(low))
    case Uuid(a, b, c, d) => Header(name, 9, PutU32(a) + PutU32(b) + PutU32(c) + PutU32(d))
  }

  /** Every one of them is carried, a blob or string if its length fits into two bytes. */
  lemma TypedIsWellFormed(name: Bytes, v: HeaderValue)
    requires |name| < 256
    ensures WellFormed(Typed(name, v)) <==>
            (v.Blob? ==> |v.bytes| < 0x1_0000) && (v.Chars? ==> |v.text| < 0x1_0000)
  {
    hide PutU16, PutU32;
  }

  function EncodeHeader(h: Header): Bytes {
    [|h.name| % 256] + h.name + [h.kind] + (if IsSized(h.kind) then PutU16(|h.value|) else []) + h.value
  }

  function EncodeHeaders(hs: seq<Header>): Bytes {
    if hs == [] then [] else EncodeHeader(hs[0]) + EncodeHeaders(hs[1..])
  }

  predicate IsEventType(h: Header) { h.kind == STRING_KIND && h.name == EVENT_TYPE }

  /** Reference: the value of the first string header named :event-type, or nothing. */
  function EventTypeOf(hs: seq<Header>): Bytes {
    if hs == [] then [] else if IsEventType(hs[0]) then hs[0].value else EventTypeOf(hs[1..])
  }

  function Drop(b: Bytes, n: nat): (r: Bytes)
    ensures |r| <= |b|
  {
    if n <= |b| then b[n..] else []
  }

  /** What the source's scan returns for arbitrary header bytes. */
  function ScanHeaders(h: Bytes): Bytes
    decreases |h|, 1
  {
    if h == [] then []
    else
      var n := h[0];
      if 1 + n >= |h| then []
      else ScanValue(h[1..1 + n], h[1 + n], h[2 + n..])
  }

  function ScanValue(name: Bytes, kind: Byte, rest: Bytes): Bytes
    decreases |rest|, 2
  {
    if IsSized(kind) then
      if |rest| < 2 || 2 + U16(rest[..2]) > |rest| then []
      else
        var len := U16(rest[..2]);
        if kind == STRING_KIND && name == EVENT_TYPE then rest[2..2 + len] else ScanHeaders(rest[2 + len..])
    else
      match FixedSize(kind)
      case None => []
      case Some(size) => ScanHeaders(Drop(rest, size))
  }

  /** What the scan returns from an index on; the index may have stepped past the end. */
  ghost function ScanAt(h: Bytes, i: nat): Bytes { ScanHeaders(Drop(h, i)) }

  /** The header scan of the source. Its index stays inside the slice on every input. */
  method EventTypeFromHeaders(h: Bytes) returns (r: Bytes)
    ensures r == ScanHeaders(h)
  {
    hide ScanHeaders, ScanValue, ScanAt, U16;
    var i := 0;
    ScanEnds(h);
    while i < |h|
      invariant 0 <= i
      invariant ScanHeaders(h) == ScanAt(h, i)
      decreases |h| - i
    {
      NameAt(h, i);
      var nameLen := h[i] as int;
      i := i + 1;
      if i + nameLen > |h| {
        return [];
      }
      var name := h[i..i + nameLen];
      i := i + nameLen;
      if i >= |h| {
        return [];
      }
      var kind := h[i];
      i := i + 1;
      ValueAt(h, i, name, kind);
      if kind == 0 || kind == 1 {
      } else if kind == 2 {
        i := i + 1;
      } else if kind == 3 {
        i := i + 2;
      } else if kind == 4 {
        i := i + 4;
      } else if kind == 5 {
        i := i + 8;
      } else if kind == 6 || kind == 7 {
        if i + 2 > |h| {
          return [];
        }
        var vlen := U16(h[i..i + 2]);
        i := i + 2;
        if i + vlen > |h| {
          return [];
        }
        if kind == 7 && name == EVENT_TYPE {
          return h[i..i + vlen];
        }
        i := i + vlen;
      } else if kind == 8 {
        i := i + 8;
      } else if kind == 9 {
        i := i + 16;
      } else {
        return [];
      }
    }
    return [];
  }

  lemma ScanEnds(h: Bytes)
    ensures ScanAt(h, 0) == ScanHeaders(h)
    ensures forall i :: i >= |h| ==> ScanAt(h, i) == []
  {
    assert h[0..] == h;
    forall i | i >= |h| ensures ScanAt(h, i) == [] {
      assert Drop(h, i) == [];
    }
  }

  /** One header's name and kind, read at an index of the whole slice. */
  lemma NameAt(h: Bytes, i: nat)
    requires i < |h|
    ensures var n := h[i] as int;
            ScanAt(h, i)
            == if i + 1 + n >= |h| then [] else ScanValue(h[i + 1..i + 1 + n], h[i + 1 + n], h[i + 2 + n..])
  {
    hide ScanValue;
    var here, n := h[i..], h[i] as int;
    if i + 1 + n < |h| {
      assert here[1..1 + n] == h[i + 1..i + 1 + n] && here[2 + n..] == h[i + 2 + n..];
    }
  }

  /** One header's value, read at an index of the whole slice. */
  lemma ValueAt(h: Bytes, i: nat, name: Bytes, kind: Byte)
    requires i <= |h|
    ensures !IsSized(kind) ==>
              var size := FixedSize(kind);
              ScanValue(name, kind, h[i..]) == if size.Some? then ScanAt(h, i + size.value) else []
    ensures IsSized(kind) && i + 2 > |h| ==> ScanValue(name, kind, h[i..]) == []
    ensures IsSized(kind) && i + 2 <= |h| ==>
              var n := U16(h[i..i + 2]);
              ScanValue(name, kind, h[i..])
              == if i + 2 + n > |h| then []
                 else if kind == STRING_KIND && name == EVENT_TYPE then h[i + 2..i + 2 + n]
                 else ScanAt(h, i + 2 + n)
  {
    hide ScanHeaders, U16;
    var rest := h[i..];
    if !IsSized(kind) {
      match FixedSize(kind)
      case None =>
      case Some(n) => assert Drop(rest, n) == Drop(h, i + n);
    } else if i + 2 <= |h| {
      assert rest[..2] == h[i..i + 2];
      var n := U16(rest[..2]);
      if i + 2 + n <= |h| {
        assert rest[2..2 + n] == h[i + 2..i + 2 + n] && rest[2 + n..] == h[i + 2 + n..];
      }
    }
  }

  /** The scan recovers the event type from any well-formed header list, whatever other headers, of
      whatever types, stand before or after it. */
  lemma {:induction false} HeaderRoundTrip(hs: seq<Header>)
    requires forall h | h in hs :: WellFormed(h)
    ensures ScanHeaders(EncodeHeaders(hs)) == EventTypeOf(hs)
  {
    if hs != [] {
      assert hs[0] in hs;
      HeaderRoundTrip(hs[1..]);
      ScanOne(hs[0], EncodeHeaders(hs[1..]));
    }
  }

  lemma ScanOne(h: Header, tail: Bytes)
    requires WellFormed(h)
    ensures ScanHeaders(EncodeHeader(h) + tail) == if IsEventType(h) then h.value else ScanHeaders(tail)
  {
    hide ScanHeaders;
    var sized := if IsSized(h.kind) then PutU16(|h.value|) else [];
    var whole := EncodeHeader(h) + tail;
    var n := |h.name|;
    var rest := sized + h.value + tail;
    assert whole == [n % 256] + h.name + [h.kind] + rest;
    ScanName(whole, h.name, h.kind, rest);
    if IsSized(h.kind) {
      assert rest[..2] == sized && rest[2..2 + |h.value|] == h.value && rest[2 + |h.value|..] == tail;
    } else {
      assert Drop(rest, |h.value|) == tail;
    }
  }

  lemma ScanName(whole: Bytes, name: Bytes, kind: Byte, rest: Bytes)
    requires |name| < 256 && whole == [|name|] + name + [kind] + rest
    ensures ScanHeaders(whole) == ScanValue(name, kind, rest)
  {
    hide ScanValue;
    assert whole[0] == |name| && whole[1..1 + |name|] == name && whole[1 + |name|] == kind;
    assert whole[2 + |name|..] == rest;
  }

  // ------------------------------------------------------------------ frames

  datatype Frame = Frame(eventType: Bytes, payload: Bytes)

  function StandardHeaders(eventType: Bytes): seq<Header> {
    [Header(EVENT_TYPE, STRING_KIND, eventType),
     Header(CONTENT_TYPE, STRING_KIND, Ascii("application/json")),
     Header(MESSAGE_TYPE, STRING_KIND, Ascii("event"))]
  }

  type Checksum = Bytes -> nat

  function FrameLength(f: Frame): nat {
    16 + |EncodeHeaders(StandardHeaders(f.eventType))| + |f.payload|
  }

  /** The lengths a frame declares fit the fields that carry them. */
  predicate Fits(f: Frame) {
    |f.eventType| < TWO16 && FrameLength(f) < TWO32
  }

  function PreludeOf(totalLen: nat, headersLen: nat): (b: Bytes)
    ensures |b| == 8
  {
    PutU32(totalLen) + PutU32(headersLen)
  }

  function Checked(b: Bytes, crc: Checksum): (r: Bytes)
    ensures |r| == |b| + 4
  {
    b + PutU32(crc(b))
  }

  function EncodeFrame(f: Frame, crc: Checksum): (b: Bytes)
    ensures |b| == FrameLength(f)
  {
    var headers := EncodeHeaders(StandardHeaders(f.eventType));
    Checked(Checked(PreludeOf(FrameLength(f), |headers|), crc) + headers + f.payload, crc)
  }

  function EncodeAll(fs: seq<Frame>, crc: Checksum): Bytes {
    if fs == [] then [] else EncodeFrame(fs[0], crc) + EncodeAll(fs[1..], crc)
  }

  method AppendStringHeader(out: Bytes, name: Bytes, value: Bytes) returns (r: Bytes)
    ensures r == out + EncodeHeader(Header(name, STRING_KIND, value))
  {
    r := out + [|name| % 256];
    r := r + name;
    r := r + [STRING_KIND];
    var vl := new Byte[2](_ => 0);
    WriteU16(vl, |value|);
    r := r + vl[..];
    r := r + value;
  }

  method EncodeEventHeaders(eventType: Bytes) returns (out: Bytes)
    ensures out == EncodeHeaders(StandardHeaders(eventType))
  {
    out := AppendStringHeader([], EVENT_TYPE, eventType);
    out := AppendStringHeader(out, CONTENT_TYPE, Ascii("application/json"));
    out := AppendStringHeader(out, MESSAGE_TYPE, Ascii("event"));
    ThreeHeaders(eventType);
  }

  lemma ThreeHeaders(eventType: Bytes)
    ensures EncodeHeaders(StandardHeaders(eventType))
            == [] + EncodeHeader(Header(EVENT_TYPE, STRING_KIND, eventType))
               + EncodeHeader(Header(CONTENT_TYPE, STRING_KIND, Ascii("application/json")))
               + EncodeHeader(Header(MESSAGE_TYPE, STRING_KIND, Ascii("event")))
  {
    hide EncodeHeader;
    var hs := StandardHeaders(eventType);
    assert hs[1..][0] == hs[1] && hs[1..][1..] == hs[2..] && hs[2..][0] == hs[2] && hs[2..][1..] == [];
    assert EncodeHeaders(hs[2..]) == EncodeHeader(hs[2]) + EncodeHeaders([]);
    assert EncodeHeaders(hs[1..]) == EncodeHeader(hs[1]) + EncodeHeaders(hs[2..]);
  }

  /** The headers of every frame, byte by byte. */
  lemma HeaderBytes(eventType: Bytes)
    ensures EncodeHeaders(StandardHeaders(eventType))
            == [11] + Ascii(":event-type") + [7] + PutU16(|eventType|) + eventType
               + ([13] + Ascii(":content-type") + [7] + [0, 16] + Ascii("application/json"))
               + ([13] + Ascii(":message-type") + [7] + [0, 5] + Ascii("event"))
  {
    hide EncodeHeader, Ascii, PutU16, EncodeHeaders;
    ThreeHeaders(eventType);
    StringHeader(EVENT_TYPE, eventType);
    StringHeader(CONTENT_TYPE, Ascii("application/json"));
    StringHeader(MESSAGE_TYPE, Ascii("event"));
    SmallLengths();
  }

  lemma StringHeader(name: Bytes, value: Bytes)
    requires |name| < 256
    ensures EncodeHeader(Header(name, STRING_KIND, value)) == [|name|] + name + [7] + PutU16(|value|) + value
  {
  }

  lemma SmallLengths()
    ensures PutU16(16) == [0, 16] && PutU16(5) == [0, 5]
  {
  }

  /** A frame on the wire: its length, that of its headers, the checksum of those eight bytes, headers,
      payload, and the checksum of everything before it. */
  lemma FrameLayout(f: Frame, crc: Checksum)
    ensures var b, headers := EncodeFrame(f, crc), EncodeHeaders(StandardHeaders(f.eventType));
            && |b| == 16 + |headers| + |f.payload|
            && U32(b[..4]) == |b| % TWO32 && U32(b[4..8]) == |headers| % TWO32
            && U32(b[8..12]) == crc(b[..8]) % TWO32
            && b[12..12 + |headers|] == headers && b[12 + |headers|..|b| - 4] == f.payload
            && U32(b[|b| - 4..]) == crc(b[..|b| - 4]) % TWO32
  {
    hide EncodeHeaders, StandardHeaders, PutU32, U32;
    var b, headers := EncodeFrame(f, crc), EncodeHeaders(StandardHeaders(f.eventType));
    var prelude := PreludeOf(FrameLength(f), |headers|);
    assert b[..8] == prelude && prelude[..4] == PutU32(|b|) && prelude[4..] == PutU32(|headers|);
    assert b[..4] == prelude[..4] && b[4..8] == prelude[4..];
    assert b[8..12] == PutU32(crc(prelude));
    assert b[..|b| - 4] == Checked(prelude, crc) + headers + f.payload;
    assert b[|b| - 4..] == PutU32(crc(b[..|b| - 4]));
  }

  /** The most significant byte comes first. */
  lemma BigEndian(n: nat)
    requires n < TWO32
    ensures PutU32(n) == [n / 0x100_0000, n / 0x1_0000 % 0x100, n / 0x100 % 0x100, n % 0x100]
  {
    assert n / TWO16 / 0x100 == n / 0x100_0000;
  }

  method EncodePrelude(totalLen: nat, headersLen: nat) returns (b: Bytes)
    ensures b == PreludeOf(totalLen, headersLen)
  {
    hide PutU32;
    var prelude := new Byte[8](_ => 0);
    WriteU32(prelude, 0, totalLen);
    WriteU32(prelude, 4, headersLen);
    b := prelude[..];
  }

  method AppendChecksum(buf: Bytes, crc: Checksum) returns (b: Bytes)
    ensures b == Checked(buf, crc)
  {
    hide PutU32;
    var sum := new Byte[4](_ => 0);
    WriteU32(sum, 0, crc(buf));
    b := buf + sum[..];
  }

  /** The encoder of the source. */
  method EncodeBedrockFrame(eventType: Bytes, payload: Bytes, crc: Checksum) returns (buf: Bytes)
    ensures buf == EncodeFrame(Frame(eventType, payload), crc)
  {
    hide EncodeHeaders, StandardHeaders, PreludeOf, Checked;
    var headers := EncodeEventHeaders(eventType);
    var totalLen := 4 + 4 + 4 + |headers| + |payload| + 4;
    buf := EncodePrelude(totalLen, |headers|);
    buf := AppendChecksum(buf, crc);
    buf := buf + headers;
    buf := buf + payload;
    buf := AppendChecksum(buf, crc);
  }

  // ------------------------------------------------------------------ the de-framer

  /** How reading ended. A stream cut inside or exactly after a prelude counts as clean. */
  datatype End = Clean | Malformed | BoundsExceeded | Truncated

  datatype Decoded = Decoded(events: seq<Frame>, end: End)

  /** An event is forwarded unless it has neither a type nor a payload. */
  predicate Forwarded(f: Frame) { f.payload != [] || f.eventType != [] }

  function Emit(f: Frame): seq<Frame> { if Forwarded(f) then [f] else [] }

  function EmitAll(fs: seq<Frame>): seq<Frame> {
    if fs == [] then [] else Emit(fs[0]) + EmitAll(fs[1..])
  }

  /** The first frame of the bytes, or how reading ends there. */
  datatype Head = Stop(end: End) | Got(frame: Frame, len: nat)

  function ReadHead(bs: Bytes): (h: Head)
    ensures h.Got? ==> 16 <= h.len <= |bs|
  {
    if |bs| < 12 then Stop(Clean)
    else
      var totalLen, headersLen := U32(bs[..4]), U32(bs[4..8]);
      if totalLen < 16 || headersLen > totalLen then Stop(Malformed)
      else if |bs| < totalLen then Stop(if |bs| == 12 then Clean else Truncated)
      else if headersLen + 4 > totalLen - 12 then Stop(BoundsExceeded)
      else Got(Frame(ScanHeaders(bs[12..12 + headersLen]), bs[12 + headersLen..totalLen - 4]), totalLen)
  }

  function Decode(bs: Bytes): Decoded
    decreases |bs|
  {
    match ReadHead(bs)
    case Stop(end) => Decoded([], end)
    case Got(f, len) => After(Emit(f), Decode(bs[len..]))
  }

  /** Some events, and then whatever the rest decodes to. */
  function After(out: seq<Frame>, rest: Decoded): Decoded {
    Decoded(out + rest.events, rest.end)
  }

  /** Whatever a prelude declares and whatever follows it. Lengths that leave no room for the sixteen
      bytes around headers and payload end the reading; so does a frame that is not all there, cleanly
      if nothing of it is. Otherwise headers and payload are taken from their places, whatever the
      checksums, and forwarded unless there is neither type nor payload. */
  lemma RawFrame(total: nat, headersLen: nat, sum: Bytes, rest: Bytes)
    requires total < TWO32 && headersLen < TWO32 && |sum| == 4
    ensures var d := Decode(PutU32(total) + PutU32(headersLen) + sum + rest);
            if total < 16 || headersLen > total then d == Decoded([], Malformed)
            else if |rest| < total - 12 then d == Decoded([], if rest == [] then Clean else Truncated)
            else if headersLen > total - 16 then d == Decoded([], BoundsExceeded)
            else
              var eventType, payload := ScanHeaders(rest[..headersLen]), rest[headersLen..total - 16];
              var after := Decode(rest[total - 12..]);
              && d.end == after.end
              && d.events == (if eventType == [] && payload == [] then after.events
                              else [Frame(eventType, payload)] + after.events)
  {
    hide U32, PutU32, ScanHeaders, ReadHead, Decode;
    HeadOfRaw(total, headersLen, sum, rest);
    var bs := PutU32(total) + PutU32(headersLen) + sum + rest;
    DecodeStep(bs);
    assert total >= 16 && |rest| >= total - 12 ==> bs[total..] == rest[total - 12..];
  }

  lemma HeadOfRaw(total: nat, headersLen: nat, sum: Bytes, rest: Bytes)
    requires total < TWO32 && headersLen < TWO32 && |sum| == 4
    ensures ReadHead(PutU32(total) + PutU32(headersLen) + sum + rest)
            == if total < 16 || headersLen > total then Stop(Malformed)
               else if |rest| < total - 12 then Stop(if rest == [] then Clean else Truncated)
               else if headersLen > total - 16 then Stop(BoundsExceeded)
               else Got(Frame(ScanHeaders(rest[..headersLen]), rest[headersLen..total - 16]), total)
  {
    hide U32, PutU32, ScanHeaders;
    var bs := PutU32(total) + PutU32(headersLen) + sum + rest;
    assert bs[..4] == PutU32(total) && bs[4..8] == PutU32(headersLen);
    if 16 <= total && headersLen + 16 <= total && |rest| >= total - 12 {
      assert bs[12..12 + headersLen] == rest[..headersLen];
      assert bs[12 + headersLen..total - 4] == rest[headersLen..total - 16];
    }
  }

  /** Fewer than twelve bytes are no prelude: reading ends cleanly. */
  lemma NoPrelude(bs: Bytes)
    requires |bs| < 12
    ensures Decode(bs) == Decoded([], Clean)
  {
  }

  lemma AfterAfter(a: seq<Frame>, b: seq<Frame>, rest: Decoded)
    ensures After(a, After(b, rest)) == After(a + b, rest)
    ensures After([], rest) == rest
    ensures After(a, Decoded([], rest.end)) == Decoded(a, rest.end)
  {
    assert a + (b + rest.events) == (a + b) + rest.events;
    assert [] + rest.events == rest.events && a + [] == a;
  }

  /** The read loop of the source over the whole body. No index leaves its slice on any input. */
  method ReadEventStream(body: Bytes) returns (d: Decoded)
    ensures d == Decode(body)
  {
    hide ReadHead, Decode, After, U32;
    var pos := 0;
    var out: seq<Frame> := [];
    assert body[0..] == body;
    AfterAfter([], [], Decode(body));
    while true
      invariant 0 <= pos <= |body|
      invariant Decode(body) == After(out, Decode(body[pos..]))
      decreases |body| - pos
    {
      HeadAt(body, pos);
      DecodeStep(body[pos..]);
      AfterAfter(out, [], Decode(body[pos..]));
      if |body| - pos < 12 {
        return Decoded(out, Clean);
      }
      var prelude := body[pos..pos + 12];
      var totalLen := U32(prelude[0..4]);
      var headersLen := U32(prelude[4..8]);
      if totalLen < 16 || headersLen > totalLen {
        return Decoded(out, Malformed);
      }
      ghost var start := pos;
      pos := pos + 12;
      if |body| - pos < totalLen - 12 {
        return Decoded(out, if pos == |body| then Clean else Truncated);
      }
      var rest := body[pos..pos + (totalLen - 12)];
      pos := pos + (totalLen - 12);
      if headersLen + 4 > |rest| {
        return Decoded(out, BoundsExceeded);
      }
      var eventType := EventTypeFromHeaders(rest[..headersLen]);
      var payload := rest[headersLen..|rest| - 4];
      assert body[start..][totalLen..] == body[pos..];
      ghost var before := out;
      if |payload| > 0 || eventType != [] {
        out := out + [Frame(eventType, payload)];
      }
      assert out == before + Emit(Frame(eventType, payload));
      AfterAfter(before, Emit(Frame(eventType, payload)), Decode(body[pos..]));
    }
  }

  lemma DecodeStep(bs: Bytes)
    ensures ReadHead(bs).Stop? ==> Decode(bs) == Decoded([], ReadHead(bs).end)
    ensures ReadHead(bs).Got? ==> Decode(bs) == After(Emit(ReadHead(bs).frame), Decode(bs[ReadHead(bs).len..]))
  {
    hide ReadHead;
  }

  /** The head of the unread bytes, in the positions the read loop uses. */
  lemma HeadAt(body: Bytes, pos: nat)
    requires pos <= |body|
    ensures |body| - pos < 12 ==> ReadHead(body[pos..]) == Stop(Clean)
    ensures |body| - pos >= 12 ==>
              var prelude := body[pos..pos + 12];
              var totalLen, headersLen := U32(prelude[0..4]), U32(prelude[4..8]);
              && (totalLen < 16 || headersLen > totalLen ==> ReadHead(body[pos..]) == Stop(Malformed))
              && (16 <= totalLen && headersLen <= totalLen && |body| - pos < totalLen ==>
                    ReadHead(body[pos..]) == Stop(if pos + 12 == |body| then Clean else Truncated))
              && (16 <= totalLen <= |body| - pos && headersLen <= totalLen ==>
                    var rest := body[pos + 12..pos + totalLen];
                    ReadHead(body[pos..]) ==
                    if headersLen + 4 > |rest| then Stop(BoundsExceeded)
                    else Got(Frame(ScanHeaders(rest[..headersLen]), rest[headersLen..|rest| - 4]), totalLen))
  {
    hide ScanHeaders, U32;
    if |body| - pos >= 12 {
      var here, prelude := body[pos..|body|], body[pos..pos + 12];
      assert here == body[pos..];
      SliceOfSlice(body, pos, pos + 12, 0, 4);
      SliceOfSlice(body, pos, |body|, 0, 4);
      SliceOfSlice(body, pos, pos + 12, 4, 8);
      SliceOfSlice(body, pos, |body|, 4, 8);
      var totalLen, headersLen := U32(here[0..4]), U32(here[4..8]);
      if 16 <= totalLen <= |body| - pos && headersLen + 16 <= totalLen {
        SliceOfSlice(body, pos + 12, pos + totalLen, 0, headersLen);
        SliceOfSlice(body, pos, |body|, 12, 12 + headersLen);
        SliceOfSlice(body, pos + 12, pos + totalLen, headersLen, totalLen - 16);
        SliceOfSlice(body, pos, |body|, 12 + headersLen, totalLen - 4);
      }
    }
  }

  // ------------------------------------------------------------------ round trips

  /** The head of an encoded frame, whatever follows it. */
  lemma HeadOfFrame(f: Frame, tail: Bytes, crc: Checksum)
    requires Fits(f)
    ensures ReadHead(EncodeFrame(f, crc) + tail) == Got(f, FrameLength(f))
  {
    hide ScanHeaders, EncodeHeaders, StandardHeaders, EncodeFrame, FrameLength, U32, PutU32;
    var headers := EncodeHeaders(StandardHeaders(f.eventType));
    var bs := EncodeFrame(f, crc) + tail;
    FrameParts(f, tail, crc);
    TypeOfStandard(f.eventType);
    assert U32(bs[..4]) == FrameLength(f) && U32(bs[4..8]) == |headers|;
  }

  lemma TypeOfStandard(eventType: Bytes)
    requires |eventType| < TWO16
    ensures ScanHeaders(EncodeHeaders(StandardHeaders(eventType))) == eventType
  {
    hide ScanHeaders, EncodeHeaders;
    var hs := StandardHeaders(eventType);
    HeaderRoundTrip(hs);
    assert EventTypeOf(hs) == hs[0].value;
  }

  /** Where the parts of an encoded frame lie. */
  lemma FrameParts(f: Frame, tail: Bytes, crc: Checksum)
    ensures var headers := EncodeHeaders(StandardHeaders(f.eventType));
            var bs := EncodeFrame(f, crc) + tail;
            && |bs| == FrameLength(f) + |tail| && FrameLength(f) == 16 + |headers| + |f.payload|
            && bs[..4] == PutU32(FrameLength(f)) && bs[4..8] == PutU32(|headers|)
            && bs[12..12 + |headers|] == headers
            && bs[12 + |headers|..FrameLength(f) - 4] == f.payload
            && bs[FrameLength(f)..] == tail
  {
    hide EncodeHeaders, StandardHeaders, PutU32;
  }

  lemma DecodeOne(f: Frame, tail: Bytes, crc: Checksum)
    requires Fits(f)
    ensures Decode(EncodeFrame(f, crc) + tail) == After(Emit(f), Decode(tail))
  {
    hide EncodeFrame, ReadHead;
    HeadOfFrame(f, tail, crc);
    assert (EncodeFrame(f, crc) + tail)[FrameLength(f)..] == tail;
  }

  lemma EncodeAllStep(fs: seq<Frame>, tail: Bytes, crc: Checksum)
    requires fs != []
    ensures EncodeAll(fs, crc) + tail == EncodeFrame(fs[0], crc) + (EncodeAll(fs[1..], crc) + tail)
  {
    hide EncodeFrame;
    Associative(EncodeFrame(fs[0], crc), EncodeAll(fs[1..], crc), tail);
  }

  /** Decoding inverts encoding on any list of frames that fit, followed by anything. */
  lemma {:induction false} DecodeInvertsEncode(fs: seq<Frame>, tail: Bytes, crc: Checksum)
    requires forall f | f in fs :: Fits(f)
    ensures Decode(EncodeAll(fs, crc) + tail) == After(EmitAll(fs), Decode(tail))
  {
    hide Decode, EncodeFrame, Fits, After, Emit;
    if fs == [] {
      assert EncodeAll(fs, crc) + tail == tail;
      AfterAfter([], [], Decode(tail));
    } else {
      assert fs[0] in fs;
      DecodeInvertsEncode(fs[1..], tail, crc);
      EncodeAllStep(fs, tail, crc);
      DecodeOne(fs[0], EncodeAll(fs[1..], crc) + tail, crc);
      AfterAfter(Emit(fs[0]), EmitAll(fs[1..]), Decode(tail));
    }
  }

  /** The frames wholly contained in the first k bytes. */
  function Contained(fs: seq<Frame>, k: nat): (m: nat)
    ensures m <= |fs|
  {
    if fs == [] || k < FrameLength(fs[0]) then 0 else 1 + Contained(fs[1..], k - FrameLength(fs[0]))
  }

  /** The bytes left over after them. */
  function LeftOver(fs: seq<Frame>, k: nat): nat {
    if fs == [] || k < FrameLength(fs[0]) then k else LeftOver(fs[1..], k - FrameLength(fs[0]))
  }

  lemma CutFrame(f: Frame, k: nat, crc: Checksum)
    requires Fits(f) && k < FrameLength(f)
    ensures Decode(EncodeFrame(f, crc)[..k]) == Decoded([], if k <= 12 then Clean else Truncated)
  {
    hide ScanHeaders, EncodeHeaders, StandardHeaders, EncodeFrame, FrameLength, U32, PutU32;
    var bs := EncodeFrame(f, crc)[..k];
    if k >= 12 {
      FrameParts(f, [], crc);
      assert EncodeFrame(f, crc) + [] == EncodeFrame(f, crc);
      assert bs[..4] == EncodeFrame(f, crc)[..4] && bs[4..8] == EncodeFrame(f, crc)[4..8];
      assert U32(bs[..4]) == FrameLength(f);
    }
  }

  /** Cut anywhere, an encoded stream yields exactly the events of the frames wholly contained, and
      the cut is noticed exactly when it falls more than 12 bytes into a frame. */
  lemma {:induction false} PrefixIsExact(fs: seq<Frame>, k: nat, crc: Checksum)
    requires (forall f | f in fs :: Fits(f)) && k <= |EncodeAll(fs, crc)|
    ensures Decode(EncodeAll(fs, crc)[..k])
            == Decoded(EmitAll(fs[..Contained(fs, k)]), if LeftOver(fs, k) <= 12 then Clean else Truncated)
  {
    hide Decode, EncodeFrame, Fits, FrameLength;
    if fs == [] {
      DecodeEmpty();
    } else {
      assert fs[0] in fs;
      var first, rest := EncodeFrame(fs[0], crc), EncodeAll(fs[1..], crc);
      var n := FrameLength(fs[0]);
      if k < n {
        assert (first + rest)[..k] == first[..k];
        CutFrame(fs[0], k, crc);
      } else {
        assert (first + rest)[..k] == first + rest[..k - n];
        PrefixIsExact(fs[1..], k - n, crc);
        DecodeOne(fs[0], rest[..k - n], crc);
        var m := Contained(fs[1..], k - n);
        assert fs[..1 + m][0] == fs[0] && fs[..1 + m][1..] == fs[1..][..m];
      }
    }
  }

  lemma DecodeEmpty()
    ensures Decode([]) == Decoded([], Clean)
  {
  }

  /** On arbitrary bytes: more input never retracts an event, and what ended in an error stays so. */
  lemma {:induction false} MoreInputOnlyAdds(a: Bytes, b: Bytes)
    ensures Decode(a).events <= Decode(a + b).events
    ensures Decode(a).end == Malformed || Decode(a).end == BoundsExceeded ==> Decode(a + b) == Decode(a)
    decreases |a|
  {
    hide ReadHead;
    HeadOfLonger(a, b);
    match ReadHead(a)
    case Stop(_) =>
    case Got(f, len) =>
      assert (a + b)[len..] == a[len..] + b;
      MoreInputOnlyAdds(a[len..], b);
  }

  lemma HeadOfLonger(a: Bytes, b: Bytes)
    ensures ReadHead(a).Got? || ReadHead(a).end == Malformed || ReadHead(a).end == BoundsExceeded ==>
              ReadHead(a + b) == ReadHead(a)
  {
    hide ScanHeaders, U32;
    if |a| >= 12 {
      assert (a + b)[..4] == a[..4] && (a + b)[4..8] == a[4..8];
      var totalLen, headersLen := U32(a[..4]), U32(a[4..8]);
      if 16 <= totalLen <= |a| && headersLen + 4 <= totalLen - 12 {
        assert (a + b)[12..12 + headersLen] == a[12..12 + headersLen];
        assert (a + b)[12 + headersLen..totalLen - 4] == a[12 + headersLen..totalLen - 4];
      }
    }
  }
}
