/** rawStreamQueue: the scheduler's ring of streams, refining a sequence. */
module StreamQueue {
  import opened Powers
  import opened RingBuffer

  datatype Slot = Nil | Stream(id: nat)

  /** Slots that hold no queued stream hold none at all. */
  ghost predicate Clean(s: seq<Slot>, off: nat, size: nat) {
    forall k :: 0 <= k < |s| && !Live(|s|, off, size, k) ==> s[k] == Nil
  }

  lemma PushedRing(s: seq<Slot>, off: nat, size: nat, x: Slot)
    requires off < |s| && size < |s|
    ensures var pos := Advanced(|s|, off, size);
            && pos < |s| && Ring(s[pos := x], off, size + 1) == Ring(s, off, size) + [x]
            && (Clean(s, off, size) ==> Clean(s[pos := x], off, size + 1))
  {
    var pos := Advanced(|s|, off, size);
    RingExtend(s, off, size, [x], s[pos := x]);
  }

  lemma TakenRing(s: seq<Slot>, off: nat, size: nat)
    requires off < |s| && 0 < size <= |s|
    ensures var t, o := s[off := Nil], if size == 1 then 0 else Advanced(|s|, off, 1);
            && o < |s| && Ring(s, off, size) == [s[off]] + Ring(t, o, size - 1)
            && (Clean(s, off, size) ==> Clean(t, o, size - 1))
  {
    var t, o := s[off := Nil], if size == 1 then 0 else Advanced(|s|, off, 1);
    RingDrop(s, off, size, 1);
    RingAt(s, off, size, 0);
    if size > 1 { RingFrame(s, t, o, size - 1); }
  }

  lemma GrownRing(s: seq<Slot>, off: nat, d: seq<Slot>)
    requires off <= |s| < |d| && forall k :: 0 <= k < |d| ==> d[k] == Nil
    ensures var r := Overlay(Overlay(d, 0, s[off..]), |s| - off, s[..off]);
            Ring(r, 0, |s|) == Ring(s, off, |s|) && Clean(r, 0, |s|)
  {
    var r := Overlay(Overlay(d, 0, s[off..]), |s| - off, s[..off]);
    FrontInParts(s, off, |s|, |s|, |s| - off, d);
    assert s[off..off + (|s| - off)] == s[off..];
    assert r[..|s|] == Ring(s, off, |s|)[..|s|] == Ring(s, off, |s|);
    forall k | |s| <= k < |r| ensures r[k] == Nil { assert r[k] == r[|s|..][k - |s|] == d[|s|..][k - |s|]; }
  }

  /** Larger storage with the queue in order from its start. */
  method Unroll(s: seq<Slot>, off: nat, capacity: nat) returns (dst: array<Slot>)
    requires off <= |s| < capacity
    ensures fresh(dst) && dst.Length == capacity
    ensures Ring(dst[..], 0, |s|) == Ring(s, off, |s|) && Clean(dst[..], 0, |s|)
  {
    dst := new Slot[capacity](_ => Nil);
    GrownRing(s, off, dst[..]);
    Copy(dst, 0, s[off..]);
    Copy(dst, |s| - off, s[..off]);
  }

  class Queue {
    var buf: array<Slot>
    var off: nat
    var size: nat

    ghost predicate Valid() reads this, buf {
      && (if buf.Length == 0 then off == 0 && size == 0 else off < buf.Length && size <= buf.Length)
      && Clean(buf[..], off, size)
    }

    ghost function Contents(): (r: seq<Slot>)
      requires Valid()
      reads this, buf
      ensures |r| == size
    {
      Ring(buf[..], off, size)
    }

    constructor ()
      ensures Valid() && Contents() == [] && fresh(buf)
    {
      buf := new Slot[0];
      off, size := 0, 0;
    }

    /** Full storage gets replaced, the queue in order from its start. */
    method Grow()
      requires Valid() && size == buf.Length && size + 1 <= Pow2(62)
      modifies this
      ensures Valid() && fresh(buf) && off == 0 && size == old(size) < buf.Length && Contents() == old(Contents())
    {
      var capacity := Capacity(buf.Length + 1);
      var dst := Unroll(buf[..], off, capacity);
      buf, off := dst, 0;
    }

    method Push(x: Slot)
      requires Valid() && size < Pow2(62)
      modifies this, buf
      ensures Valid() && Contents() == old(Contents()) + [x]
      ensures buf == old(buf) || fresh(buf)
    {
      if size == buf.Length { Grow(); }
      Append(x);
    }

    method Append(x: Slot)
      requires Valid() && size < buf.Length
      modifies this`size, buf
      ensures Valid() && Contents() == old(Contents()) + [x]
    {
      PushedRing(buf[..], off, size, x);
      var pos := off + size;
      if pos >= buf.Length { pos := pos - buf.Length; }
      ghost var t := buf[..][pos := x];
      buf[pos] := x;
      assert buf[..] == t;
      size := size + 1;
    }

    method Take() returns (x: Slot)
      requires Valid()
      modifies this, buf
      ensures Valid() && buf == old(buf)
      ensures old(Contents()) == [] ==> x == Nil && Contents() == []
      ensures old(Contents()) != [] ==> old(Contents()) == [x] + Contents()
    {
      if size == 0 { return Nil; }
      ghost var o := if size == 1 then 0 else Advanced(buf.Length, off, 1);
      TakenRing(buf[..], off, size);
      x := Remove();
      assert Clean(buf[..], o, size - 1) && old(Contents()) == [x] + Ring(buf[..], o, size - 1);
      off, size := off + 1, size - 1;
      if off == buf.Length || size == 0 { off := 0; }
      assert off == o;
    }

    method Remove() returns (x: Slot)
      requires off < buf.Length
      modifies buf
      ensures x == old(buf[off]) && buf[..] == old(buf[..])[off := Nil]
    {
      x := buf[off];
      buf[off] := Nil;
    }
  }
}
