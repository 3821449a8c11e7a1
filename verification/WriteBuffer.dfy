/** The write buffer of a stream while a DATA frame is being written: the frame's
    payload is a slice of the ring buffer's own storage, the lock is dropped, and
    the application goes on writing. */
module WriteBuffer {
  import opened Common
  import opened Powers
  import opened RingBuffer

  class WriteBuffer {
    const ring: Buffer
    var wired: nat
    // the slice in the hands of the connection's writer, and what it held at first
    ghost var slice: array<Byte>
    ghost var at: nat
    ghost var sent: seq<Byte>

    /** The slice still holds what was put on the wire. */
    ghost predicate Intact()
      reads this, slice
    {
      at + |sent| <= slice.Length && forall k: nat :: IntactAt(k)
    }

    ghost predicate IntactAt(k: nat)
      reads this, slice
    {
      k < |sent| && at + k < slice.Length ==> slice[at + k] == sent[k]
    }

    /** Wired bytes are the front of the contents. */
    ghost predicate Valid()
      reads this, ring, ring.buf, slice
    {
      && ring.Valid() && Intact()
      && wired <= ring.size && wired <= |sent| && ring.Contents()[..wired] == sent[..wired]
      && Aligned()
    }

    ghost function Contents(): seq<Byte>
      requires Valid()
      reads this, ring, ring.buf, slice
    {
      ring.Contents()
    }

    constructor ()
      ensures Valid() && Contents() == [] && wired == 0 && sent == [] && fresh(ring) && fresh(ring.buf)
    {
      ring := new Buffer();
      wired, at, sent := 0, 0, [];
      slice := new Byte[0];
    }

    /** prepareDataLocked: the first n bytes go on the wire, in place. */
    method Prepare(n: nat) returns (data: seq<Byte>)
      requires Valid() && sent == [] && 0 < n <= ring.size
      modifies this, ring, ring.buf
      ensures Valid() && Contents() == old(Contents()) && wired == n
      ensures data == sent == old(Contents())[..n]
      ensures ring.buf == old(ring.buf) || fresh(ring.buf)
    {
      var all := ring.Peek();
      data := all[..n];
      wired, slice, at, sent := n, ring.buf, ring.off, data;
    }

    /** The application writes meanwhile: the slice stays as it was sent. */
    method Write(src: seq<Byte>)
      requires Valid() && ring.size + |src| <= Pow2(62)
      modifies ring, ring.buf
      ensures Valid() && Contents() == old(Contents()) + src && Intact()
      ensures ring.buf == old(ring.buf) || fresh(ring.buf)
    {
      FrontKept(ring.Contents(), src, wired);
      Append(src);
    }

    /** In the ring's own storage the slice starts where the contents start. */
    ghost predicate Aligned()
      reads this, ring
    {
      slice == ring.buf && sent != [] ==> at == ring.off && |sent| <= ring.size
    }

    method Append(src: seq<Byte>)
      requires ring.Valid() && Intact() && Aligned() && ring.size + |src| <= Pow2(62)
      modifies ring, ring.buf
      ensures ring.Valid() && Intact() && Aligned() && ring.Contents() == old(ring.Contents()) + src
      ensures ring.buf == old(ring.buf) || fresh(ring.buf)
    {
      ghost var was, size := ring.buf[..], ring.size;
      ring.Write(src);
      forall k: nat ensures IntactAt(k) {
        assert old(IntactAt(k));
        if slice == old(ring.buf) && k < |sent| { assert KeptAt(was, slice[..], at, size, at + k); }
      }
    }

    /** The peer resets the stream meanwhile: the buffer goes, the slice stays. */
    method Clear()
      requires Valid()
      modifies this`wired, ring
      ensures Valid() && Contents() == [] && wired == 0 && Intact() && fresh(ring.buf)
    {
      ring.Clear();
      wired := 0;
      forall k: nat ensures IntactAt(k) { assert old(IntactAt(k)); }
    }

    /** The frame has been written as it was prepared; its bytes leave the buffer. */
    method Complete() returns (ghost written: seq<Byte>)
      requires Valid()
      modifies this, ring
      ensures Valid() && Contents() == old(Contents())[old(wired)..] && wired == 0 && sent == []
      ensures written == old(sent) && ring.buf == old(ring.buf)
    {
      written := slice[at..at + |sent|];
      assert written == sent by {
        forall k | 0 <= k < |sent| ensures written[k] == sent[k] { assert IntactAt(k); }
      }
      var n := ring.Discard(wired);
      wired, at, sent := 0, 0, [];
    }
  }

  lemma FrontKept(all: seq<Byte>, src: seq<Byte>, n: nat)
    requires n <= |all|
    ensures (all + src)[..n] == all[..n]
  {
  }
}
