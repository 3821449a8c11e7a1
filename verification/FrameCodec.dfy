/** Frames on the wire: a nine byte header and a payload. */
module FrameCodec {
  import opened Common

  type U16 = x: nat | x < 0x1_0000
  type U32 = x: nat | x < 0x1_0000_0000

  const MAX_PAYLOAD := 0xff_ffff
  const MAX_SETTINGS := 6 * 1024
  const EINTERNAL: U32 := 1

  /** Errors as WriteReset tells them apart; anything else becomes an internal error. */
  datatype ResetError = Bare(code: U32) | Coded(code: U32, message: seq<Byte>) | Other(message: seq<Byte>)

  datatype Setting = Setting(id: U16, value: U32)

  datatype Frame =
    | Ping(flags: Byte, data: seq<Byte>)
    | Data(id: U32, flags: Byte, data: seq<Byte>)
    | Reset(id: U32, flags: Byte, error: ResetError)
    | Window(id: U32, flags: Byte, increment: U32)
    | Settings(flags: Byte, settings: seq<Setting>)
    | Unknown(kind: Byte, flags: Byte, id: U32, data: seq<Byte>)

  datatype Encoded = Bytes(bytes: seq<Byte>) | TooLong
  datatype Decoded = Got(frame: Frame, rest: seq<Byte>) | Eof | UnexpectedEof | Invalid

  // ----- numbers, most significant byte first

  function Be2(n: U16): seq<Byte> { [n / 0x100, n % 0x100] }

  function Be3(n: nat): seq<Byte>
    requires n <= MAX_PAYLOAD
  {
    Be2(n / 0x100) + [n % 0x100]
  }

  function Be4(n: U32): seq<Byte> { Be3(n / 0x100) + [n % 0x100] }

  function FromBe2(b: seq<Byte>): U16
    requires |b| == 2
  {
    b[0] as nat * 0x100 + b[1] as nat
  }

  function FromBe3(b: seq<Byte>): (n: nat)
    requires |b| == 3
    ensures n <= MAX_PAYLOAD
  {
    FromBe2(b[..2]) as nat * 0x100 + b[2] as nat
  }

  function FromBe4(b: seq<Byte>): U32
    requires |b| == 4
  {
    FromBe3(b[..3]) * 0x100 + b[3] as nat
  }

  lemma Be2Inverse(n: U16, b: seq<Byte>)
    requires |b| == 2
    ensures FromBe2(Be2(n)) == n && Be2(FromBe2(b)) == b
  {
  }

  lemma LastByte(high: nat, low: Byte)
    ensures (high * 0x100 + low as nat) / 0x100 == high && (high * 0x100 + low as nat) % 0x100 == low
  {
  }

  lemma Be3Inverse(n: nat, b: seq<Byte>)
    requires n <= MAX_PAYLOAD && |b| == 3
    ensures FromBe3(Be3(n)) == n && Be3(FromBe3(b)) == b
  {
    Be2Inverse(n / 0x100, b[..2]);
    LastByte(FromBe2(b[..2]), b[2]);
    assert Be3(n)[..2] == Be2(n / 0x100);
  }

  lemma Be4Inverse(n: U32, b: seq<Byte>)
    requires |b| == 4
    ensures FromBe4(Be4(n)) == n && Be4(FromBe4(b)) == b
  {
    Be3Inverse(n / 0x100, b[..3]);
    LastByte(FromBe3(b[..3]), b[3]);
    assert Be4(n)[..3] == Be3(n / 0x100);
  }

  // ----- headers

  datatype Header = Header(id: U32, length: nat, flags: Byte, kind: Byte)

  function EncodeHeader(h: Header): (b: seq<Byte>)
    requires h.length <= MAX_PAYLOAD
    ensures |b| == 9
  {
    Be4(h.id) + Be3(h.length) + [h.flags, h.kind]
  }

  function DecodeHeader(b: seq<Byte>): (h: Header)
    requires |b| == 9
    ensures h.length <= MAX_PAYLOAD
  {
    Header(FromBe4(b[0..4]), FromBe3(b[4..7]), b[7], b[8])
  }

  lemma HeaderInverse(h: Header, b: seq<Byte>)
    requires h.length <= MAX_PAYLOAD && |b| == 9
    ensures DecodeHeader(EncodeHeader(h)) == h && EncodeHeader(DecodeHeader(b)) == b
  {
    var e := EncodeHeader(h);
    assert e[0..4] == Be4(h.id) && e[4..7] == Be3(h.length);
    Be4Inverse(h.id, b[0..4]);
    Be3Inverse(h.length, b[4..7]);
    assert b == b[0..4] + b[4..7] + [b[7], b[8]];
  }

  // ----- payloads

  function EncodeSettings(ss: seq<Setting>): (b: seq<Byte>)
    ensures |b| == 6 * |ss|
  {
    if ss == [] then [] else Be2(ss[0].id) + Be4(ss[0].value) + EncodeSettings(ss[1..])
  }

  function DecodeSettings(b: seq<Byte>): (ss: seq<Setting>)
    requires |b| % 6 == 0
    ensures 6 * |ss| == |b|
  {
    if b == [] then [] else [Setting(FromBe2(b[0..2]), FromBe4(b[2..6]))] + DecodeSettings(b[6..])
  }

  /** parseSettingsFrame's loop over the payload. */
  method ParseSettings(b: seq<Byte>) returns (ss: seq<Setting>)
    requires |b| % 6 == 0
    ensures ss == DecodeSettings(b)
  {
    ss := [];
    var left := b;
    while |left| > 0
      invariant |left| % 6 == 0 && DecodeSettings(b) == ss + DecodeSettings(left)
    {
      ss := ss + [Setting(FromBe2(left[0..2]), FromBe4(left[2..6]))];
      left := left[6..];
    }
  }

  lemma {:induction false} SettingsInverse(ss: seq<Setting>, b: seq<Byte>)
    requires |b| % 6 == 0
    ensures DecodeSettings(EncodeSettings(ss)) == ss && EncodeSettings(DecodeSettings(b)) == b
    decreases |ss| + |b|
  {
    if ss != [] {
      var e := EncodeSettings(ss);
      assert e[0..2] == Be2(ss[0].id) && e[2..6] == Be4(ss[0].value) && e[6..] == EncodeSettings(ss[1..]);
      Be2Inverse(ss[0].id, [0, 0]);
      Be4Inverse(ss[0].value, [0, 0, 0, 0]);
      SettingsInverse(ss[1..], []);
    }
    if b != [] {
      var d := DecodeSettings(b);
      assert d[0] == Setting(FromBe2(b[0..2]), FromBe4(b[2..6])) && d[1..] == DecodeSettings(b[6..]);
      Be2Inverse(0, b[0..2]);
      Be4Inverse(0, b[2..6]);
      SettingsInverse([], b[6..]);
      assert b == b[0..2] + b[2..6] + b[6..];
    }
  }

  predicate IsAck(flags: Byte) { flags % 2 == 1 }

  function ErrorBytes(e: ResetError): seq<Byte> {
    match e
    case Bare(code) => Be4(code)
    case Coded(code, message) => Be4(code) + message
    case Other(message) => Be4(EINTERNAL) + message
  }

  function Payload(f: Frame): seq<Byte> {
    match f
    case Ping(_, data) => data
    case Data(_, _, data) => data
    case Reset(_, _, e) => ErrorBytes(e)
    case Window(_, _, n) => Be4(n)
    case Settings(flags, ss) => if IsAck(flags) then [] else EncodeSettings(ss)
    case Unknown(_, _, _, data) => data
  }

  function HeaderOf(f: Frame): Header {
    var n := |Payload(f)|;
    match f
    case Ping(flags, _) => Header(0, n, flags, 0)
    case Data(id, flags, _) => Header(id, n, flags, 1)
    case Reset(id, flags, _) => Header(id, n, flags, 2)
    case Window(id, flags, _) => Header(id, n, flags, 3)
    case Settings(flags, _) => Header(0, n, if IsAck(flags) then 1 else 0, 4)
    case Unknown(kind, flags, id, _) => Header(id, n, flags, kind)
  }

  function Encode(f: Frame): Encoded {
    if |Payload(f)| > (if f.Settings? then MAX_SETTINGS else MAX_PAYLOAD) then TooLong
    else Bytes(EncodeHeader(HeaderOf(f)) + Payload(f))
  }

  function Parse(h: Header, p: seq<Byte>): Option<Frame> {
    if h.kind == 0 then
      if h.id != 0 || |p| != 8 then None else Some(Ping(h.flags, p))
    else if h.kind == 1 then
      if h.id >= 0x8000_0000 then None else Some(Data(h.id, h.flags, p))
    else if h.kind == 2 then
      if h.id >= 0x8000_0000 || |p| < 4 then None
      else
        var code := FromBe4(p[0..4]);
        Some(Reset(h.id, h.flags, if |p| > 4 then Coded(code, p[4..]) else Bare(code)))
    else if h.kind == 3 then
      if h.id >= 0x8000_0000 || |p| != 4 then None else Some(Window(h.id, h.flags, FromBe4(p)))
    else if h.kind == 4 then
      if h.id != 0 then None
      else if IsAck(h.flags) then (if |p| != 0 then None else Some(Settings(h.flags, [])))
      else if |p| > MAX_SETTINGS || |p| % 6 != 0 then None
      else Some(Settings(h.flags, DecodeSettings(p)))
    else Some(Unknown(h.kind, h.flags, h.id, p))
  }

  /** ReadFrame on a stream that holds these bytes and then ends. */
  function Decode(b: seq<Byte>): Decoded {
    if b == [] then Eof
    else if |b| < 9 then UnexpectedEof
    else
      var h := DecodeHeader(b[..9]);
      if |b| < 9 + h.length then UnexpectedEof
      else
        var f := Parse(h, b[9..9 + h.length]);
        if f.None? then Invalid else Got(f.value, b[9 + h.length..])
  }

  // ----- round trips

  /** What Go's types and the stream ids in use guarantee of a frame. */
  predicate Typed(f: Frame) {
    match f
    case Ping(_, data) => |data| == 8
    case Data(id, _, _) => id < 0x8000_0000
    case Reset(id, _, _) => id < 0x8000_0000
    case Window(id, _, _) => id < 0x8000_0000
    case Settings(_, _) => true
    case Unknown(kind, _, _, _) => kind > 4
  }

  /** What arrives: an error keeps its code and message, but not its kind; of the
      flags of SETTINGS only ACK is sent, and an ACK carries nothing. */
  function Arrives(f: Frame): Frame {
    match f
    case Reset(id, flags, e) =>
      var code := if e.Other? then EINTERNAL else e.code;
      Reset(id, flags, if e.Bare? || e.message == [] then Bare(code) else Coded(code, e.message))
    case Settings(flags, ss) => if IsAck(flags) then Settings(1, []) else Settings(0, ss)
    case _ => f
  }

  lemma ParseReset(f: Frame)
    requires f.Reset? && Typed(f) && Encode(f).Bytes?
    ensures Parse(HeaderOf(f), Payload(f)) == Some(Arrives(f))
  {
    var e := f.error;
    var code := if e.Other? then EINTERNAL else e.code;
    Be4Inverse(code, [0, 0, 0, 0]);
    assert Payload(f)[0..4] == Be4(code);
    if !e.Bare? { assert Payload(f)[4..] == e.message; }
  }

  lemma ParsePayload(f: Frame)
    requires Typed(f) && Encode(f).Bytes?
    ensures Parse(HeaderOf(f), Payload(f)) == Some(Arrives(f))
  {
    match f
    case Reset(_, _, _) => ParseReset(f);
    case Window(id, flags, n) => Be4Inverse(n, [0, 0, 0, 0]);
    case Settings(_, _) => ParseSetting(f);
    case _ =>
  }

  lemma ParseSetting(f: Frame)
    requires f.Settings? && Typed(f) && Encode(f).Bytes?
    ensures Parse(HeaderOf(f), Payload(f)) == Some(Arrives(f))
  {
    SettingsInverse(f.settings, []);
  }

  /** A frame followed by anything is read back, and nothing of what follows. */
  lemma RoundTrip(f: Frame, rest: seq<Byte>)
    requires Typed(f) && Encode(f).Bytes?
    ensures Decode(Encode(f).bytes + rest) == Got(Arrives(f), rest)
  {
    var h, p := HeaderOf(f), Payload(f);
    var b := EncodeHeader(h) + p + rest;
    assert b[..9] == EncodeHeader(h) && b[9..9 + |p|] == p && b[9 + |p|..] == rest;
    HeaderInverse(h, EncodeHeader(h));
    ParsePayload(f);
  }

  function EncodeAll(fs: seq<Frame>): seq<Byte> {
    if fs == [] then [] else (if Encode(fs[0]).Bytes? then Encode(fs[0]).bytes else []) + EncodeAll(fs[1..])
  }

  datatype Stream = Frames(frames: seq<Frame>, end: Decoded)

  /** Reading frames until the stream ends or breaks. */
  function DecodeAll(b: seq<Byte>): Stream
    decreases |b|
  {
    var d := Decode(b);
    if d.Got? && |d.rest| < |b| then
      var s := DecodeAll(d.rest);
      Frames([d.frame] + s.frames, s.end)
    else Frames([], d)
  }

  function ArriveAll(fs: seq<Frame>): (r: seq<Frame>)
    ensures |r| == |fs| && forall i :: 0 <= i < |fs| ==> r[i] == Arrives(fs[i])
  {
    seq(|fs|, i requires 0 <= i < |fs| => Arrives(fs[i]))
  }

  lemma ArriveNext(fs: seq<Frame>)
    requires fs != []
    ensures ArriveAll(fs) == [Arrives(fs[0])] + ArriveAll(fs[1..])
  {
  }

  lemma DecodeNext(f: Frame, rest: seq<Byte>)
    requires Typed(f) && Encode(f).Bytes?
    ensures DecodeAll(Encode(f).bytes + rest) == Frames([Arrives(f)] + DecodeAll(rest).frames, DecodeAll(rest).end)
  {
    RoundTrip(f, rest);
    assert |Encode(f).bytes| > 0;
  }

  /** Any concatenation of frames that can be written is read back frame by
      frame as they arrive, with a clean end; exact frames as they are. */
  lemma {:induction false} StreamRoundTrip(fs: seq<Frame>)
    requires forall i :: 0 <= i < |fs| ==> Typed(fs[i]) && Encode(fs[i]).Bytes?
    ensures DecodeAll(EncodeAll(fs)) == Frames(ArriveAll(fs), Eof)
    ensures (forall i :: 0 <= i < |fs| ==> Arrives(fs[i]) == fs[i]) ==> ArriveAll(fs) == fs
  {
    if fs != [] {
      DecodeNext(fs[0], EncodeAll(fs[1..]));
      StreamRoundTrip(fs[1..]);
      ArriveNext(fs);
    }
  }

  /** The other way: a frame read from the wire is written as the same bytes,
      except that SETTINGS flags other than ACK are dropped. */
  lemma ReEncode(b: seq<Byte>)
    requires Decode(b).Got?
    ensures var f := Decode(b).frame;
            && Typed(f) && Encode(f).Bytes?
            && (Encode(f).bytes + Decode(b).rest == b <==> (f.Settings? ==> f.flags <= 1))
  {
    var h := DecodeHeader(b[..9]);
    var p := b[9..9 + h.length];
    var f := Decode(b).frame;
    PayloadBack(h, p);
    HeaderInverse(h, b[..9]);
    assert b == b[..9] + p + Decode(b).rest;
    if f.Settings? && f.flags > 1 {
      assert b[7] == f.flags;
      FlagsDropped(f, Decode(b).rest);
    }
  }

  lemma FlagsDropped(f: Frame, rest: seq<Byte>)
    requires f.Settings? && Encode(f).Bytes?
    ensures |Encode(f).bytes + rest| > 7 && (Encode(f).bytes + rest)[7] <= 1
  {
    assert EncodeHeader(HeaderOf(f))[7] <= 1;
    assert (Encode(f).bytes + rest)[7] == EncodeHeader(HeaderOf(f))[7];
  }

  lemma PayloadBack(h: Header, p: seq<Byte>)
    requires |p| == h.length <= MAX_PAYLOAD && Parse(h, p).Some?
    ensures var f := Parse(h, p).value;
            && Typed(f) && Payload(f) == p && Encode(f).Bytes?
            && (f.Settings? ==> f.flags == h.flags)
            && HeaderOf(f) == (if f.Settings? then h.(flags := h.flags % 2) else h)
  {
    if h.kind == 2 {
      Be4Inverse(0, p[0..4]);
      assert p == p[0..4] + p[4..];
    } else if h.kind == 3 {
      Be4Inverse(0, p);
    } else if h.kind == 4 && !IsAck(h.flags) {
      SettingsInverse([], p);
    }
  }
}
