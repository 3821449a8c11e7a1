/** The frame formats byte by byte: where each field of a frame is, most
    significant byte first, and exactly which bytes are a frame. */
module FrameLayout {
  import opened Common
  import opened FrameCodec

  // ----- numbers at a position

  function At2(b: seq<Byte>, i: nat): nat
    requires i + 2 <= |b|
  {
    b[i] as nat * 0x100 + b[i + 1] as nat
  }

  function At3(b: seq<Byte>, i: nat): nat
    requires i + 3 <= |b|
  {
    b[i] as nat * 0x1_0000 + b[i + 1] as nat * 0x100 + b[i + 2] as nat
  }

  function At4(b: seq<Byte>, i: nat): nat
    requires i + 4 <= |b|
  {
    b[i] as nat * 0x100_0000 + b[i + 1] as nat * 0x1_0000 + b[i + 2] as nat * 0x100 + b[i + 3] as nat
  }

  lemma Two(n: U16, b: seq<Byte>)
    requires |b| == 2
    ensures |Be2(n)| == 2 && At2(Be2(n), 0) == n && FromBe2(b) == At2(b, 0)
  {
  }

  lemma Three(n: nat, b: seq<Byte>)
    requires n <= 0xff_ffff && |b| == 3
    ensures |Be3(n)| == 3 && At3(Be3(n), 0) == n && FromBe3(b) == At3(b, 0)
  {
  }

  lemma Four(n: U32, b: seq<Byte>)
    requires |b| == 4
    ensures |Be4(n)| == 4 && At4(Be4(n), 0) == n && FromBe4(b) == At4(b, 0)
  {
    Three(n / 0x100, b[..3]);
  }

  // ----- frames as they are written

  /** Bytes 0 to 3 are the stream, 4 to 6 the length of what follows the header, 7
      the flags and 8 the type. */
  ghost predicate HasHeader(b: seq<Byte>, id: nat, flags: nat, kind: nat) {
    && |b| >= 9 && At4(b, 0) == id && At3(b, 4) == |b| - 9 && b[7] as nat == flags && b[8] as nat == kind
  }

  /** Six bytes for each setting: its id and its value. */
  ghost predicate HasSettings(b: seq<Byte>, from: nat, ss: seq<Setting>) {
    && |b| == from + 6 * |ss|
    && forall i :: 0 <= i < |ss| ==> At2(b, from + 6 * i) == ss[i].id && At4(b, from + 6 * i + 2) == ss[i].value
  }

  lemma {:induction false} SettingsLayout(ss: seq<Setting>, p: seq<Byte>)
    requires p == EncodeSettings(ss)
    ensures HasSettings(p, 0, ss)
  {
    if ss != [] {
      var rest := EncodeSettings(ss[1..]);
      SettingsLayout(ss[1..], rest);
      Two(ss[0].id, [0, 0]);
      Four(ss[0].value, [0, 0, 0, 0]);
      assert p == Be2(ss[0].id) + Be4(ss[0].value) + rest;
      forall i | 0 <= i < |ss| ensures At2(p, 6 * i) == ss[i].id && At4(p, 6 * i + 2) == ss[i].value {
        if i > 0 { assert At2(rest, 6 * (i - 1)) == ss[1..][i - 1].id && At4(rest, 6 * (i - 1) + 2) == ss[1..][i - 1].value; }
      }
    }
  }

  lemma HeaderLayout(h: Header, p: seq<Byte>)
    requires |p| == h.length <= 0xff_ffff
    ensures HasHeader(EncodeHeader(h) + p, h.id, h.flags as nat, h.kind as nat) && (EncodeHeader(h) + p)[9..] == p
  {
    var b := EncodeHeader(h) + p;
    Four(h.id, [0, 0, 0, 0]);
    Three(h.length, [0, 0, 0]);
    assert b[..4] == Be4(h.id) && b[4..7] == Be3(h.length);
  }

  /** What the bytes of a frame are. */
  ghost predicate Laid(f: Frame, b: seq<Byte>) {
    match f
    case Ping(flags, data) => HasHeader(b, 0, flags as nat, 0) && b[9..] == data
    case Data(id, flags, data) => HasHeader(b, id, flags as nat, 1) && b[9..] == data
    case Reset(id, flags, e) =>
      && HasHeader(b, id, flags as nat, 2) && |b| >= 13
      && At4(b, 9) == (if e.Other? then 1 else e.code)
      && b[13..] == (if e.Bare? then [] else e.message)
    case Window(id, flags, n) => HasHeader(b, id, flags as nat, 3) && |b| == 13 && At4(b, 9) == n
    case Settings(flags, ss) =>
      && HasHeader(b, 0, flags as nat % 2, 4)
      && (if flags as nat % 2 == 1 then |b| == 9 else HasSettings(b, 9, ss))
    case Unknown(kind, flags, id, data) => HasHeader(b, id, flags as nat, kind as nat) && b[9..] == data
  }

  function Size(f: Frame): nat {
    match f
    case Ping(_, data) => |data|
    case Data(_, _, data) => |data|
    case Reset(_, _, e) => if e.Bare? then 4 else 4 + |e.message|
    case Window(_, _, _) => 4
    case Settings(flags, ss) => if flags as nat % 2 == 1 then 0 else 6 * |ss|
    case Unknown(_, _, _, data) => |data|
  }

  /** A frame that is not too long is written as these bytes. */
  lemma Written(f: Frame)
    ensures Encode(f).Bytes? <==> Size(f) <= if f.Settings? then 6144 else 0xff_ffff
    ensures Encode(f).Bytes? ==> Laid(f, Encode(f).bytes)
  {
    PayloadSize(f);
    if Encode(f).Bytes? {
      HeaderLayout(HeaderOf(f), Payload(f));
      match f
      case Reset(_, _, e) => ResetLayout(f);
      case Window(_, _, n) => WindowLayout(f);
      case Settings(_, _) => SettingsFrame(f);
      case _ =>
    }
  }

  lemma PayloadSize(f: Frame)
    ensures |Payload(f)| == Size(f)
  {
    if f.Window? { Four(f.increment, [0, 0, 0, 0]); }
    if f.Reset? { Four(if f.error.Other? then 1 else f.error.code, [0, 0, 0, 0]); }
  }

  lemma ResetLayout(f: Frame)
    requires f.Reset? && Encode(f).Bytes?
    ensures Laid(f, Encode(f).bytes)
  {
    var e, b, p := f.error, Encode(f).bytes, Payload(f);
    var code: U32 := if e.Other? then 1 else e.code;
    HeaderLayout(HeaderOf(f), p);
    Four(code, [0, 0, 0, 0]);
    assert b[9..13] == p[..4] == Be4(code) && b[13..] == p[4..];
  }

  lemma WindowLayout(f: Frame)
    requires f.Window? && Encode(f).Bytes?
    ensures Laid(f, Encode(f).bytes)
  {
    HeaderLayout(HeaderOf(f), Payload(f));
    Four(f.increment, [0, 0, 0, 0]);
    assert Encode(f).bytes[9..] == Be4(f.increment);
  }

  lemma SettingsFrame(f: Frame)
    requires f.Settings? && Encode(f).Bytes?
    ensures Laid(f, Encode(f).bytes)
  {
    var b, p := Encode(f).bytes, Payload(f);
    HeaderLayout(HeaderOf(f), p);
    if !IsAck(f.flags) {
      SettingsLayout(f.settings, p);
      SettingsShift(b, p, f.settings);
    }
  }

  lemma SettingsShift(b: seq<Byte>, p: seq<Byte>, ss: seq<Setting>)
    requires |b| >= 9 && b[9..] == p && HasSettings(p, 0, ss)
    ensures HasSettings(b, 9, ss)
  {
    forall i | 0 <= i < |ss| ensures At2(b, 9 + 6 * i) == ss[i].id && At4(b, 9 + 6 * i + 2) == ss[i].value {
      assert At2(p, 6 * i) == ss[i].id && At4(p, 6 * i + 2) == ss[i].value;
    }
  }

  // ----- frames as they are read

  /** The header and the bytes it announces are there. */
  predicate Complete(b: seq<Byte>) { |b| >= 9 && |b| >= 9 + At3(b, 4) }

  /** The first frame of `b` has a type of its own and breaks its rules. */
  predicate Malformed(b: seq<Byte>)
    requires Complete(b)
  {
    var id, n, flags, kind := At4(b, 0), At3(b, 4), b[7] as nat, b[8] as nat;
    || (kind == 0 && (id != 0 || n != 8))
    || (kind == 1 && id >= 0x8000_0000)
    || (kind == 2 && (id >= 0x8000_0000 || n < 4))
    || (kind == 3 && (id >= 0x8000_0000 || n != 4))
    || (kind == 4 && (id != 0 || (flags % 2 == 1 && n != 0) || (flags % 2 == 0 && (n > 6144 || n % 6 != 0))))
  }

  /** The frame that the bytes of `b` are, field by field. */
  ghost predicate Means(b: seq<Byte>, f: Frame) {
    |b| >= 9 &&
    var id, flags, kind := At4(b, 0), b[7], b[8] as nat;
    if kind == 0 then f == Ping(flags, b[9..])
    else if kind == 1 then f.Data? && f.id == id && f.flags == flags && f.data == b[9..]
    else if kind == 2 then
      && f.Reset? && f.id == id && f.flags == flags && |b| >= 13
      && (if |b| == 13 then f.error.Bare? else f.error.Coded? && f.error.message == b[13..])
      && f.error.code == At4(b, 9)
    else if kind == 3 then f.Window? && f.id == id && f.flags == flags && |b| == 13 && f.increment == At4(b, 9)
    else if kind == 4 then
      f.Settings? && f.flags == flags && (if flags as nat % 2 == 1 then |b| == 9 && f.settings == [] else HasSettings(b, 9, f.settings))
    else f.Unknown? && f.kind as nat == kind && f.id == id && f.flags == flags && f.data == b[9..]
  }

  lemma {:induction false} SettingsRead(b: seq<Byte>)
    requires |b| % 6 == 0
    ensures HasSettings(b, 0, DecodeSettings(b))
  {
    if b != [] {
      var ss := DecodeSettings(b);
      SettingsRead(b[6..]);
      Two(0, b[0..2]);
      Four(0, b[2..6]);
      assert ss[0] == Setting(FromBe2(b[0..2]), FromBe4(b[2..6])) && ss[1..] == DecodeSettings(b[6..]);
      forall i | 0 <= i < |ss| ensures At2(b, 6 * i) == ss[i].id && At4(b, 6 * i + 2) == ss[i].value {
        if i > 0 {
          assert At2(b[6..], 6 * (i - 1)) == ss[1..][i - 1].id && At4(b[6..], 6 * (i - 1) + 2) == ss[1..][i - 1].value;
        }
      }
    }
  }

  lemma HeaderRead(b: seq<Byte>)
    requires |b| >= 9
    ensures DecodeHeader(b[..9]) == Header(At4(b, 0), At3(b, 4), b[7], b[8])
  {
    Four(0, b[..9][0..4]);
    Three(0, b[..9][4..7]);
  }

  lemma ParseRead(b: seq<Byte>)
    requires Complete(b) && |b| == 9 + At3(b, 4)
    ensures var f := Parse(DecodeHeader(b[..9]), b[9..]);
            if Malformed(b) then f.None? else f.Some? && Means(b, f.value)
  {
    HeaderRead(b);
    var kind, p := b[8] as nat, b[9..];
    if kind == 2 && |p| >= 4 {
      Four(0, p[0..4]);
      assert b[13..] == p[4..];
    } else if kind == 3 && |p| == 4 {
      Four(0, p);
    } else if kind == 4 && b[7] as nat % 2 == 0 && |p| % 6 == 0 {
      SettingsRead(p);
      SettingsShift(b, p, DecodeSettings(p));
    }
  }

  /** Reading: nothing at all is the end, too few bytes are a broken end, and of
      the rest exactly the malformed frames are refused; any other is read as its
      bytes say, and nothing of what follows. */
  lemma WhatIsRead(b: seq<Byte>)
    ensures Decode(b) == Eof <==> b == []
    ensures Decode(b) == UnexpectedEof <==> b != [] && !Complete(b)
    ensures Decode(b) == Invalid <==> Complete(b) && Malformed(b)
    ensures Complete(b) && !Malformed(b) ==>
      var n := 9 + At3(b, 4); Decode(b).Got? && Means(b[..n], Decode(b).frame) && Decode(b).rest == b[n..]
  {
    if |b| >= 9 {
      HeaderRead(b);
      if Complete(b) {
        var n := 9 + At3(b, 4);
        var one := b[..n];
        HeaderRead(one);
        ParseRead(one);
        assert one[9..] == b[9..n] && one[..9] == b[..9];
      }
    }
  }
}
