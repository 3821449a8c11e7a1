/** buffer: a growing ring of bytes, refining a plain byte sequence. */
module RingBuffer {
  import opened Common
  import opened Powers

  /** The live bytes, read around the end of the storage. */
  function Ring<T>(s: seq<T>, off: nat, size: nat): (r: seq<T>)
    requires off <= |s| && size <= |s|
    ensures |r| == size
  {
    seq(size, i requires 0 <= i < size => if off + i < |s| then s[off + i] else s[off + i - |s|])
  }

  predicate Live(cap: nat, off: nat, size: nat, k: nat) {
    if off + size <= cap then off <= k < off + size else off <= k < cap || k < off + size - cap
  }

  /** The live bytes of `s` are in the same places of `t`. */
  ghost predicate Kept<T>(s: seq<T>, t: seq<T>, off: nat, size: nat) {
    |t| == |s| && forall k: nat :: KeptAt(s, t, off, size, k)
  }

  ghost predicate KeptAt<T>(s: seq<T>, t: seq<T>, off: nat, size: nat, k: nat) {
    k < |s| && k < |t| && Live(|s|, off, size, k) ==> t[k] == s[k]
  }

  /** Go's copy of `src` over `s` from position `at`. */
  function Overlay<T>(s: seq<T>, at: nat, src: seq<T>): (r: seq<T>)
    requires at + |src| <= |s|
    ensures |r| == |s|
  {
    seq(|s|, i requires 0 <= i < |s| => if at <= i < at + |src| then src[i - at] else s[i])
  }

  lemma RingAt<T>(s: seq<T>, off: nat, size: nat, i: nat)
    requires off <= |s| && size <= |s| && i < size
    ensures Ring(s, off, size)[i] == if off + i < |s| then s[off + i] else s[off + i - |s|]
  {
  }

  /** Only the live bytes matter. */
  lemma RingFrame<T>(s: seq<T>, t: seq<T>, off: nat, size: nat)
    requires |s| == |t| && off <= |s| && size <= |s|
    requires Kept(s, t, off, size)
    ensures Ring(s, off, size) == Ring(t, off, size)
  {
    forall i | 0 <= i < size ensures Ring(s, off, size)[i] == Ring(t, off, size)[i] {
      assert KeptAt(s, t, off, size, if off + i < |s| then off + i else off + i - |s|);
      RingAt(s, off, size, i);
      RingAt(t, off, size, i);
    }
  }

  function Advanced(cap: nat, off: nat, n: nat): nat { if off + n < cap then off + n else off + n - cap }

  /** Taking bytes from the front moves the offset. */
  lemma RingDrop<T>(s: seq<T>, off: nat, size: nat, n: nat)
    requires off <= |s| && size <= |s| && n <= size
    ensures Advanced(|s|, off, n) <= |s| && Ring(s, Advanced(|s|, off, n), size - n) == Ring(s, off, size)[n..]
  {
  }

  lemma RingDropStraight<T>(s: seq<T>, off: nat, size: nat, n: nat)
    requires off + size <= |s| && n <= size
    ensures Ring(s, off + n, size - n) == Ring(s, off, size)[n..]
  {
  }

  /** Bytes written after the live ones extend them. */
  lemma RingExtend<T>(s: seq<T>, off: nat, size: nat, src: seq<T>, t: seq<T>)
    requires |s| == |t| && off <= |s| && size + |src| <= |s|
    requires Kept(s, t, off, size)
    requires forall i :: 0 <= i < |src| ==>
      t[if off + size + i < |s| then off + size + i else off + size + i - |s|] == src[i]
    ensures Ring(t, off, size + |src|) == Ring(s, off, size) + src
  {
    RingFrame(s, t, off, size);
    var whole := Ring(t, off, size + |src|);
    assert whole[..size] == Ring(t, off, size);
    forall i | 0 <= i < |src| ensures whole[size + i] == src[i] {
      RingAt(t, off, size + |src|, size + i);
    }
    assert whole == whole[..size] + whole[size..];
  }

  /** The first n live bytes in two parts. */
  lemma FrontInParts<T>(s: seq<T>, off: nat, size: nat, n: nat, first: nat, d: seq<T>)
    requires off <= |s| && size <= |s| && n <= size && n <= |d|
    requires first == if n < |s| - off then n else |s| - off
    ensures off + first <= |s| && n - first <= |s|
    ensures var r := Overlay(Overlay(d, 0, s[off..off + first]), first, s[..n - first]);
            r[..n] == Ring(s, off, size)[..n] && r[n..] == d[n..]
  {
    var r := Overlay(Overlay(d, 0, s[off..off + first]), first, s[..n - first]);
    forall i | 0 <= i < n ensures r[i] == Ring(s, off, size)[i] { RingAt(s, off, size, i); }
  }

  /** The position behind the live bytes. */
  function Behind(cap: nat, off: nat, size: nat): int { if off + size >= cap then off + size - cap else off + size }

  /** Where new bytes go: behind the live ones, around the end if need be. */
  function Placed<T>(s: seq<T>, off: nat, size: nat, src: seq<T>): (t: seq<T>)
    requires off <= |s| && size + |src| <= |s|
    ensures |t| == |s|
  {
    var at := Behind(|s|, off, size);
    seq(|s|, k requires 0 <= k < |s| =>
      if at <= k < at + |src| then src[k - at] else if k + |s| < at + |src| then src[k + |s| - at] else s[k])
  }

  lemma PlacedKeeps<T>(s: seq<T>, off: nat, size: nat, src: seq<T>)
    requires off <= |s| && size + |src| <= |s|
    ensures Kept(s, Placed(s, off, size, src), off, size)
  {
    var t := Placed(s, off, size, src);
    forall k: nat ensures KeptAt(s, t, off, size, k) { }
  }

  lemma OverlayOne<T>(s: seq<T>, at: nat, src: seq<T>, i: nat)
    requires at + |src| <= |s| && i < |s|
    ensures Overlay(s, at, src)[i] == if at <= i < at + |src| then src[i - at] else s[i]
  {
  }

  lemma PlacedNew<T>(s: seq<T>, off: nat, size: nat, src: seq<T>, i: nat)
    requires off <= |s| && size + |src| <= |s| && i < |src|
    ensures Placed(s, off, size, src)[if off + size + i < |s| then off + size + i else off + size + i - |s|] == src[i]
  {
  }

  /** New bytes extend the contents and leave every live byte where it was. */
  lemma PlacedExtends<T>(s: seq<T>, off: nat, size: nat, src: seq<T>)
    requires off <= |s| && size + |src| <= |s|
    ensures Ring(Placed(s, off, size, src), off, size + |src|) == Ring(s, off, size) + src
    ensures Kept(s, Placed(s, off, size, src), off, size)
  {
    PlacedKeeps(s, off, size, src);
    forall i | 0 <= i < |src|
      ensures Placed(s, off, size, src)[if off + size + i < |s| then off + size + i else off + size + i - |s|] == src[i]
    {
      PlacedNew(s, off, size, src, i);
    }
    RingExtend(s, off, size, src, Placed(s, off, size, src));
  }

  /** The copies that put them there: one, or two around the end. */
  lemma PlacedOnce<T>(s: seq<T>, off: nat, size: nat, src: seq<T>, at: nat)
    requires off <= |s| && size + |src| <= |s| && at == Behind(|s|, off, size) && at + |src| <= |s|
    ensures Placed(s, off, size, src) == Overlay(s, at, src)
  {
  }

  lemma PlacedTwice<T>(s: seq<T>, off: nat, size: nat, src: seq<T>, at: nat)
    requires off <= |s| && size + |src| <= |s| && at == Behind(|s|, off, size) && at < |s| < at + |src|
    ensures Placed(s, off, size, src) == Overlay(Overlay(s, at, src[..|s| - at]), 0, src[|s| - at..])
  {
    var first := Overlay(s, at, src[..|s| - at]);
    forall k | 0 <= k < |s|
      ensures Placed(s, off, size, src)[k] == Overlay(first, 0, src[|s| - at..])[k]
    {
      OverlayOne(s, at, src[..|s| - at], k);
      OverlayOne(first, 0, src[|s| - at..], k);
    }
  }

  // ----- moving the data in place

  /** The two copies of peek: the first part to where the wrapped part ends, then
      the wrapped part after it, as far as the gap before `off` allows. */
  function Moved(s: seq<Byte>, off: nat, size: nat): (r: seq<Byte>)
    requires off < |s| && size <= |s| < off + size && size <= off
    ensures |r| == |s|
  {
    var end, n := off + size - |s|, |s| - off;
    var first := Overlay(s, end, s[off..]);
    var room := if off - (end + n) < end then off - (end + n) else end;
    Overlay(first, end + n, first[..room])
  }

  lemma MovedAt(s: seq<Byte>, off: nat, size: nat, k: nat)
    requires off < |s| && size <= |s| < off + size && size <= off && k < |s|
    ensures var end := off + size - |s|;
            Moved(s, off, size)[k] ==
            if end <= k < size then s[off + k - end]
            else if size <= k < off && k < size + end then s[k - size]
            else s[k]
  {
    var end := off + size - |s|;
    var first := Overlay(s, end, s[off..]);
    var room := if off - size < end then off - size else end;
    assert Moved(s, off, size) == Overlay(first, size, first[..room]);
    OverlayOne(first, size, first[..room], k);
    OverlayOne(s, end, s[off..], k);
    if size <= k < size + room { OverlayOne(s, end, s[off..], k - size); }
  }

  /** With room for twice the data, the moved bytes are contiguous and the same. */
  lemma MoveKeeps(s: seq<Byte>, off: nat, size: nat)
    requires off < |s| && size <= |s| < off + size && 2 * size <= |s|
    ensures size <= off && off + 2 * size <= 2 * |s|
    ensures var end := off + size - |s|; Moved(s, off, size)[end..end + size] == Ring(s, off, size)
  {
    var end, n := off + size - |s|, |s| - off;
    var r := Moved(s, off, size);
    forall i | 0 <= i < size ensures r[end..end + size][i] == Ring(s, off, size)[i] {
      MovedAt(s, off, size, end + i);
      RingAt(s, off, size, i);
    }
  }

  /** Without it, either a slice is out of bounds (the gap before `off`, or the
      result), or some contents are lost. */
  lemma MoveLoses(cap: nat, off: nat, size: nat) returns (s: seq<Byte>)
    requires off < cap && size <= cap < off + size && 2 * size > cap
    requires size <= off && off + 2 * size <= 2 * cap
    ensures |s| == cap && var end := off + size - cap; Moved(s, off, size)[end..end + size] != Ring(s, off, size)
  {
    var end := off + size - cap;
    s := seq(cap, i => if i == end - 1 then 1 else 0);
    MovedAt(s, off, size, end + size - 1);
    assert Moved(s, off, size)[end..end + size][size - 1] == s[end + size - 1];
    RingAt(s, off, size, size - 1);
  }

  // ----- the buffer

  method Copy<T>(dst: array<T>, at: nat, src: seq<T>)
    requires at + |src| <= dst.Length
    modifies dst
    ensures dst[..] == Overlay(old(dst[..]), at, src)
  {
    forall i | 0 <= i < |src| { dst[at + i] := src[i]; }
  }

  lemma SplitAt<T>(a: array<T>, s: seq<T>, n: nat)
    requires n <= a.Length && s == a[..]
    ensures a[..n] == s[..n] && a[n..] == s[n..]
  {
  }

  method Capacity(n: nat) returns (r: nat)
    requires 0 < n <= Pow2(62)
    ensures IsPow2(r) && n <= r
  {
    r := MinPow2(n);
  }

  class Buffer {
    var buf: array<Byte>
    var off: nat
    var size: nat

    /** The capacity is none or a power of two. */
    ghost predicate Valid() reads this {
      if buf.Length == 0 then off == 0 && size == 0 else off < buf.Length && size <= buf.Length && IsPow2(buf.Length)
    }

    ghost function Contents(): (r: seq<Byte>)
      requires Valid()
      reads this, buf
      ensures |r| == size
    {
      Ring(buf[..], off, size)
    }

    constructor ()
      ensures Valid() && Contents() == [] && fresh(buf)
    {
      buf, off, size := new Byte[0], 0, 0;
    }

    method Clear()
      modifies this
      ensures Valid() && Contents() == [] && fresh(buf)
    {
      buf, off, size := new Byte[0], 0, 0;
    }

    /** Copies the first n live bytes out, in one part or two. */
    method CopyOut(dst: array<Byte>, n: nat)
      requires Valid() && dst != buf && n <= size && n <= dst.Length
      modifies dst
      ensures dst[..n] == old(Contents())[..n] && dst[n..] == old(dst[n..])
    {
      var first := Min(n, buf.Length - off);
      ghost var d := dst[..];
      SplitAt(dst, d, n);
      FrontInParts(buf[..], off, size, n, first, d);
      CopyParts(dst, buf[..], first, n - first);
      SplitAt(dst, dst[..], n);
    }

    method CopyParts(dst: array<Byte>, s: seq<Byte>, first: nat, more: nat)
      requires off + first <= |s| && more <= |s| && first + more <= dst.Length
      modifies dst
      ensures dst[..] == Overlay(Overlay(old(dst[..]), 0, s[off..off + first]), first, s[..more])
    {
      Copy(dst, 0, s[off..off + first]);
      Copy(dst, first, s[..more]);
    }

    /** Moves up to dst.Length bytes out. */
    method Read(dst: array<Byte>) returns (n: nat)
      requires Valid() && dst != buf
      modifies this`off, this`size, dst
      ensures Valid() && n == Min(dst.Length, old(size))
      ensures Contents() == old(Contents())[n..]
      ensures dst[..n] == old(Contents())[..n] && dst[n..] == old(dst[n..])
    {
      if off + size <= buf.Length { n := ReadStraight(dst); } else { n := ReadAround(dst); }
      if size == 0 { off := 0; }
    }

    /** The data does not wrap. The offset may come to the end of the storage. */
    method ReadStraight(dst: array<Byte>) returns (n: nat)
      requires Valid() && dst != buf && off + size <= buf.Length
      modifies this`off, this`size, dst
      ensures n == Min(dst.Length, old(size)) && size == old(size) - n && off + size <= buf.Length
      ensures size > 0 ==> off < buf.Length
      ensures Ring(buf[..], off, size) == old(Contents())[n..]
      ensures dst[..n] == old(Contents())[..n] && dst[n..] == old(dst[n..])
    {
      n := Min(dst.Length, size);
      RingDropStraight(buf[..], off, size, n);
      CopyOut(dst, n);
      off, size := off + n, size - n;
    }

    /** The data wraps: up to the end of the storage, and on from its start if
        the end was reached. */
    method ReadAround(dst: array<Byte>) returns (n: nat)
      requires Valid() && dst != buf && off + size > buf.Length
      modifies this`off, this`size, dst
      ensures n == Min(dst.Length, old(size)) && size == old(size) - n && off < buf.Length
      ensures Ring(buf[..], off, size) == old(Contents())[n..]
      ensures dst[..n] == old(Contents())[..n] && dst[n..] == old(dst[n..])
    {
      var first := Min(dst.Length, buf.Length - off);
      var more := if off + first == buf.Length then Min(dst.Length - first, size - first) else 0;
      n := first + more;
      CopyOut(dst, n);
      DropAround(n, if off + first == buf.Length then more else off + first);
    }

    method DropAround(n: nat, start: nat)
      requires Valid() && n <= size && buf.Length > 0 && start == Advanced(buf.Length, off, n)
      modifies this`off, this`size
      ensures size == old(size) - n && off < buf.Length && Ring(buf[..], off, size) == old(Contents())[n..]
    {
      RingDrop(buf[..], off, size, n);
      off, size := start, size - n;
    }

    /** The caller makes sure that there is a byte. */
    method ReadByte() returns (c: Byte)
      requires Valid() && size > 0
      modifies this`off, this`size
      ensures Valid() && old(Contents()) == [c] + Contents()
    {
      RingDrop(buf[..], off, size, 1);
      RingAt(buf[..], off, size, 0);
      c := buf[off];
      if size == 1 {
        off, size := 0, 0;
      } else {
        off, size := off + 1, size - 1;
        if off == buf.Length { off := 0; }
      }
    }

    /** Throws away up to n bytes. */
    method Discard(n: nat) returns (r: nat)
      requires Valid()
      modifies this`off, this`size
      ensures Valid() && r == Min(n, old(size)) && Contents() == old(Contents())[r..]
    {
      RingDrop(buf[..], off, size, Min(n, size));
      if n > size {
        r := size;
        off, size := 0, 0;
        return;
      }
      off := off + n;
      if off >= buf.Length { off := off - buf.Length; }
      size := size - n;
      r := n;
    }

    /** Into larger storage, which becomes the buffer. */
    method Grow(capacity: nat, src: seq<Byte>)
      requires Valid() && IsPow2(capacity) && size + |src| <= capacity && 0 < |src|
      modifies this
      ensures Valid() && fresh(buf) && Contents() == old(Contents()) + src
    {
      var dst := new Byte[capacity];
      CopyOut(dst, size);
      ghost var all := Contents();
      assert dst[..size] == all;
      Copy(dst, size, src);
      assert dst[..size + |src|] == all + src;
      buf, off, size := dst, 0, size + |src|;
    }

    method Place(src: seq<Byte>)
      requires off <= buf.Length && size + |src| <= buf.Length
      modifies buf
      ensures buf[..] == Placed(old(buf[..]), off, size, src)
    {
      var end := off + size;
      var at := if end >= buf.Length then end - buf.Length else end;
      if buf.Length < at + |src| {
        PlacedTwice(buf[..], off, size, src, at);
        PlaceAround(src, at);
      } else {
        PlacedOnce(buf[..], off, size, src, at);
        Copy(buf, at, src);
      }
    }

    method PlaceAround(src: seq<Byte>, end: nat)
      requires end < buf.Length < end + |src| && |src| <= buf.Length
      modifies buf
      ensures buf[..] == Overlay(Overlay(old(buf[..]), end, src[..buf.Length - end]), 0, src[buf.Length - end..])
    {
      var z := buf.Length - end;
      Copy(buf, end, src[..z]);
      Copy(buf, 0, src[z..]);
    }

    method PlaceByte(c: Byte)
      requires Valid() && size < buf.Length
      modifies buf
      ensures buf[..] == Placed(old(buf[..]), off, size, [c])
    {
      var end := off + size;
      if end >= buf.Length { buf[end - buf.Length] := c; } else { buf[end] := c; }
    }

    /** Appends, and never touches a byte that is live in the storage at hand. */
    method Write(src: seq<Byte>)
      requires Valid() && size + |src| <= Pow2(62)
      modifies this, buf
      ensures Valid() && Contents() == old(Contents()) + src
      ensures buf == old(buf) || fresh(buf)
      ensures buf == old(buf) <==> old(size) + |src| <= old(buf.Length)
      ensures size == old(size) + |src| && (buf == old(buf) ==> off == old(off))
      ensures Kept(old(buf[..]), old(buf)[..], old(off), old(size))
    {
      if size + |src| > buf.Length {
        var capacity := Capacity(size + |src|);
        Grow(capacity, src);
      } else {
        Append(src);
      }
    }

    method Append(src: seq<Byte>)
      requires Valid() && size + |src| <= buf.Length
      modifies this`size, buf
      ensures Valid() && Contents() == old(Contents()) + src && size == old(size) + |src|
      ensures Kept(old(buf[..]), buf[..], off, old(size))
    {
      PlacedExtends(buf[..], off, size, src);
      Place(src);
      size := size + |src|;
    }

    method WriteByte(c: Byte)
      requires Valid() && size < Pow2(62)
      modifies this, buf
      ensures Valid() && Contents() == old(Contents()) + [c]
      ensures buf == old(buf) || fresh(buf)
      ensures Kept(old(buf[..]), old(buf)[..], old(off), old(size))
    {
      if size == buf.Length {
        var capacity := Capacity(size + 1);
        Grow(capacity, [c]);
      } else {
        AppendByte(c);
      }
    }

    method AppendByte(c: Byte)
      requires Valid() && size < buf.Length
      modifies this`size, buf
      ensures Valid() && Contents() == old(Contents()) + [c]
      ensures Kept(old(buf[..]), buf[..], off, old(size))
    {
      PlacedExtends(buf[..], off, size, [c]);
      PlaceByte(c);
      size := size + 1;
    }

    /** Makes the data contiguous: it stays, moves in place, or gets twice the room. */
    method Peek() returns (r: seq<Byte>)
      requires Valid()
      modifies this, buf
      ensures Valid() && r == Contents() == old(Contents()) && size == old(size)
      ensures off + size <= buf.Length && r == buf[off..off + size]
      ensures buf == old(buf) || fresh(buf)
      ensures old(off) + old(size) <= old(buf).Length ==> buf == old(buf) && off == old(off) && buf[..] == old(buf[..])
    {
      if off + size > buf.Length {
        if size * 2 > buf.Length { Double(); } else { MoveDown(); }
      }
      r := buf[off..off + size];
    }

    method MoveDown()
      requires Valid() && buf.Length < off + size && 2 * size <= buf.Length
      modifies this`off, buf
      ensures Valid() && Contents() == old(Contents()) && off + size <= buf.Length
    {
      var end := off + size - buf.Length;
      MoveKeeps(buf[..], off, size);
      Move(end);
      off := end;
    }

    method Double()
      requires Valid() && size > 0
      modifies this
      ensures Valid() && fresh(buf) && size == old(size) && off == 0 && Contents() == old(Contents())
      ensures buf.Length == 2 * old(buf.Length)
    {
      var dst := new Byte[buf.Length * 2];
      CopyOut(dst, size);
      DoublePow2(buf.Length);
      buf, off := dst, 0;
    }

    method Move(end: nat)
      requires Valid() && buf.Length < off + size && end == off + size - buf.Length && 2 * size <= buf.Length
      modifies buf
      ensures size <= off && buf[..] == Moved(old(buf[..]), off, size)
    {
      var n := buf.Length - off;
      Copy(buf, end, buf[off..]);
      Copy(buf, end + n, buf[..end]);
    }
  }

  lemma DoublePow2(n: nat)
    requires IsPow2(n)
    ensures IsPow2(2 * n)
  {
    var k: nat :| n == Pow2(k);
    assert Pow2(k + 1) == 2 * n;
  }
}
