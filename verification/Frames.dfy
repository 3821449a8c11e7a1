/** The frames one stream exchanges with its peer, and histories of such frames.

    PING, SETTINGS and the frames of other streams do not appear here: the
    connection model (Connection.dfy) shows that every stream of a connection
    sees exactly its own sub-sequence of the shared wire. */
module Frames {
  import opened Common

  /** An error value as the stream code sees it.

      `Eof` is io.EOF, `Code` a bare ErrorCode, and `Custom` any other error:
      `id` is its identity (Go compares such errors by pointer), `code` and
      `text` are what WriteReset puts on the wire for it. */
  datatype Error = Eof | Code(code: int) | Custom(id: int, code: int, text: string)

  const ECLOSED: Error := Code(100)
  const ECONNCLOSED: Error := Code(200)
  const ECONNSHUTDOWN: Error := Code(201)

  /** io.EOF itself never crosses the wire. */
  type WireError = e: Error | e != Eof witness Code(0)

  /** What the peer decodes after WriteReset encoded `e` (an empty message
      leaves only the code; io.EOF is sent as an internal error). */
  function Decoded(e: Error): WireError {
    match e
    case Eof => Custom(0, 1, "EOF")
    case Code(_) => e
    case Custom(_, code, text) => if text == "" then Code(code) else e
  }

  datatype Frame =
    | Data(open: bool, ack: bool, eof: bool, payload: seq<Byte>)
    | Window(increment: nat)
    | Reset(read: bool, write: bool, err: WireError)

  predicate IsOpen(f: Frame) { f.Data? && f.open }

  /** The frame closes the sender's write side. */
  predicate IsEnd(f: Frame) { (f.Data? && f.eof) || (f.Reset? && f.write) }

  predicate IsResetRead(f: Frame) { f.Reset? && f.read }

  function PayloadOf(f: Frame): seq<Byte> { if f.Data? then f.payload else [] }

  function IncrementOf(f: Frame): nat { if f.Window? then f.increment else 0 }

  // ----- histories

  predicate HasEnd(h: seq<Frame>) {
    h != [] && (HasEnd(h[..|h| - 1]) || IsEnd(h[|h| - 1]))
  }

  predicate HasResetRead(h: seq<Frame>) {
    h != [] && (HasResetRead(h[..|h| - 1]) || IsResetRead(h[|h| - 1]))
  }

  /** All data bytes of a history, in order. */
  function Payload(h: seq<Frame>): seq<Byte> {
    if h == [] then [] else Payload(h[..|h| - 1]) + PayloadOf(h[|h| - 1])
  }

  /** The sum of all window increments of a history. */
  function Increments(h: seq<Frame>): nat {
    if h == [] then 0 else Increments(h[..|h| - 1]) + IncrementOf(h[|h| - 1])
  }

  /** Frame `f` may be emitted after history `h`. */
  predicate MayFollow(opener: bool, h: seq<Frame>, f: Frame) {
    Allowed(opener && h == [], HasEnd(h), HasResetRead(h), f)
  }

  predicate Allowed(mustOpen: bool, ended: bool, reset: bool, f: Frame) {
    && (IsOpen(f) <==> mustOpen)
    && (ended ==> !f.Data? && !IsEnd(f))
    && (reset ==> !IsResetRead(f))
    && (f.Window? ==> f.increment > 0)
  }

  /** Every frame of the history was allowed when it was emitted. */
  predicate Lawful(opener: bool, h: seq<Frame>) {
    h == [] || (Lawful(opener, h[..|h| - 1]) && MayFollow(opener, h[..|h| - 1], h[|h| - 1]))
  }

  lemma Append(h: seq<Frame>, f: Frame)
    ensures Payload(h + [f]) == Payload(h) + PayloadOf(f)
    ensures Increments(h + [f]) == Increments(h) + IncrementOf(f)
    ensures HasEnd(h + [f]) <==> HasEnd(h) || IsEnd(f)
    ensures HasResetRead(h + [f]) <==> HasResetRead(h) || IsResetRead(f)
    ensures forall opener :: Lawful(opener, h + [f]) <==> Lawful(opener, h) && MayFollow(opener, h, f)
  {
    var g := h + [f];
    assert g[..|g| - 1] == h && g[|g| - 1] == f;
  }

  lemma {:induction false} PrefixLawful(opener: bool, g: seq<Frame>, h: seq<Frame>)
    requires g <= h && Lawful(opener, h)
    ensures Lawful(opener, g)
    decreases |h|
  {
    if |g| < |h| {
      PrefixLawful(opener, g, h[..|h| - 1]);
    } else {
      assert g == h;
    }
  }

  lemma {:induction false} PrefixFlags(g: seq<Frame>, h: seq<Frame>)
    requires g <= h
    ensures HasEnd(g) ==> HasEnd(h)
    ensures HasResetRead(g) ==> HasResetRead(h)
    decreases |h|
  {
    if |g| < |h| {
      PrefixFlags(g, h[..|h| - 1]);
    } else {
      assert g == h;
    }
  }

  /** A receiver has seen no more than its peer has sent. */
  lemma {:induction false} PrefixTotals(g: seq<Frame>, h: seq<Frame>)
    requires g <= h
    ensures Payload(g) <= Payload(h)
    ensures Increments(g) <= Increments(h)
    decreases |h| - |g|
  {
    if |g| < |h| {
      var g' := g + [h[|g|]];
      Append(g, h[|g|]);
      PrefixTotals(g', h);
    } else {
      assert g == h;
    }
  }

  // ----- logs: histories with running totals

  /** The frames one endpoint has emitted on a stream (or its peer has
      processed), with the totals that the invariants speak about. */
  datatype Log = Log(
    opener: bool, frames: seq<Frame>, bytes: seq<Byte>, credit: nat, ended: bool, reset: bool, lawful: bool)

  function EmptyLog(opener: bool): Log { Log(opener, [], [], 0, false, false, true) }

  predicate MayAdd(l: Log, f: Frame) { Allowed(l.opener && l.frames == [], l.ended, l.reset, f) }

  function Add(l: Log, f: Frame): Log {
    l.(frames := l.frames + [f],
       bytes := l.bytes + PayloadOf(f),
       credit := l.credit + IncrementOf(f),
       ended := l.ended || IsEnd(f),
       reset := l.reset || IsResetRead(f),
       lawful := l.lawful && MayAdd(l, f))
  }

  /** The totals are those of the frames. */
  ghost predicate Sound(l: Log) {
    && l.bytes == Payload(l.frames)
    && l.credit == Increments(l.frames)
    && l.ended == HasEnd(l.frames)
    && l.reset == HasResetRead(l.frames)
    && l.lawful == Lawful(l.opener, l.frames)
  }

  lemma AddSound(l: Log, f: Frame)
    requires Sound(l)
    ensures Sound(Add(l, f))
  {
    Append(l.frames, f);
  }

  /** `g` is what its reader has processed so far of `h`. */
  ghost predicate Behind(g: Log, h: Log) { g.opener == h.opener && g.frames <= h.frames }

  lemma BehindTotals(g: Log, h: Log)
    requires Sound(g) && Sound(h) && Behind(g, h)
    ensures g.bytes <= h.bytes && g.credit <= h.credit
    ensures h.lawful ==> g.lawful
    ensures g.ended ==> h.ended
    ensures g.reset ==> h.reset
    ensures g.frames == h.frames ==> g == h
  {
    PrefixTotals(g.frames, h.frames);
    if h.lawful {
      PrefixLawful(g.opener, g.frames, h.frames);
    }
    PrefixFlags(g.frames, h.frames);
  }

  /** The next frame of the wire: lawful for its reader, within the totals of its writer. */
  lemma BehindNext(g: Log, h: Log)
    requires Sound(g) && Sound(h) && Behind(g, h) && |g.frames| < |h.frames|
    ensures Behind(Add(g, h.frames[|g.frames|]), h)
    ensures h.lawful ==> MayAdd(g, h.frames[|g.frames|])
    ensures |g.bytes| + |PayloadOf(h.frames[|g.frames|])| <= |h.bytes|
  {
    var f := h.frames[|g.frames|];
    AddSound(g, f);
    assert g.frames + [f] == h.frames[..|g.frames| + 1];
    BehindTotals(Add(g, f), h);
  }

  /** Nothing is missing once the end has been seen. */
  lemma {:induction false} EndedBytes(g: Log, h: Log)
    requires Sound(g) && Sound(h) && Behind(g, h) && h.lawful && g.ended
    ensures g.bytes == h.bytes
    decreases |h.frames| - |g.frames|
  {
    if |g.frames| < |h.frames| {
      var f := h.frames[|g.frames|];
      BehindNext(g, h);
      AddSound(g, f);
      EndedBytes(Add(g, f), h);
      assert g.bytes + [] == g.bytes;
    } else {
      assert g.frames == h.frames;
    }
  }

  lemma PayloadLast(h: seq<Frame>, g: seq<Frame>, f: Frame)
    requires h == g + [f]
    ensures Payload(h) == Payload(g) + PayloadOf(f)
  {
    assert h[..|h| - 1] == g;
  }

  lemma {:induction false} PayloadConcat(g: seq<Frame>, h: seq<Frame>)
    ensures Payload(g + h) == Payload(g) + Payload(h)
  {
    if h == [] {
      assert g + h == g;
    } else {
      var m, f := h[..|h| - 1], h[|h| - 1];
      PayloadConcat(g, m);
      PayloadLast(g + h, g + m, f);
      assert Payload(g) + Payload(m) + PayloadOf(f) == Payload(g) + (Payload(m) + PayloadOf(f));
    }
  }

  lemma {:induction false} IncrementsConcat(g: seq<Frame>, h: seq<Frame>)
    ensures Increments(g + h) == Increments(g) + Increments(h)
  {
    if h == [] {
      assert g + h == g;
    } else {
      IncrementsConcat(g, h[..|h| - 1]);
      assert (g + h)[..|g + h| - 1] == g + h[..|h| - 1];
    }
  }

  lemma SuffixTotals(h: seq<Frame>, k: nat)
    requires k <= |h|
    ensures Payload(h) == Payload(h[..k]) + Payload(h[k..])
    ensures Increments(h) == Increments(h[..k]) + Increments(h[k..])
  {
    assert h == h[..k] + h[k..];
    PayloadConcat(h[..k], h[k..]);
    IncrementsConcat(h[..k], h[k..]);
  }

  // ----- what the history predicates say about positions

  lemma {:induction false} HasEndAt(h: seq<Frame>)
    ensures HasEnd(h) <==> exists i :: 0 <= i < |h| && IsEnd(h[i])
  {
    if h != [] {
      var g := h[..|h| - 1];
      HasEndAt(g);
      assert forall i :: 0 <= i < |g| ==> g[i] == h[i];
      if HasEnd(g) {
        var i :| 0 <= i < |g| && IsEnd(g[i]);
        assert IsEnd(h[i]);
      }
    }
  }

  lemma {:induction false} HasResetReadAt(h: seq<Frame>)
    ensures HasResetRead(h) <==> exists i :: 0 <= i < |h| && IsResetRead(h[i])
  {
    if h != [] {
      var g := h[..|h| - 1];
      HasResetReadAt(g);
      assert forall i :: 0 <= i < |g| ==> g[i] == h[i];
      if HasResetRead(g) {
        var i :| 0 <= i < |g| && IsResetRead(g[i]);
        assert IsResetRead(h[i]);
      }
    }
  }

  /** The frame sequences that the protocol allows one endpoint to emit on one
      stream, said by position: the opener's first frame is the only OPEN,
      no DATA and no second end follows the end of the write side, the read
      side is reset at most once, and no WINDOW frame is empty. */
  ghost predicate ObeysProtocol(opener: bool, h: seq<Frame>) {
    && (forall i :: 0 <= i < |h| ==> (IsOpen(h[i]) <==> opener && i == 0))
    && (forall i, j :: 0 <= i < j < |h| && IsEnd(h[i]) ==> !h[j].Data? && !IsEnd(h[j]))
    && (forall i, j :: 0 <= i < j < |h| && IsResetRead(h[i]) ==> !IsResetRead(h[j]))
    && (forall i :: 0 <= i < |h| && h[i].Window? ==> h[i].increment > 0)
  }

  lemma {:induction false} LawfulMeansObeys(opener: bool, h: seq<Frame>)
    ensures Lawful(opener, h) <==> ObeysProtocol(opener, h)
  {
    if h != [] {
      var g, f := h[..|h| - 1], h[|h| - 1];
      LawfulMeansObeys(opener, g);
      HasEndAt(g);
      HasResetReadAt(g);
      assert forall i :: 0 <= i < |g| ==> g[i] == h[i];
    }
  }
}
