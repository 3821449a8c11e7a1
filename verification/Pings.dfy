/** Pings of one side of a connection and their echoes from the other.

    Ping frames carry eight bytes of data and nothing else; the `token` of a
    ping stands for the call that sent it, and no step looks at it. */
module Pings {
  import opened Common

  datatype Ping = Ping(data: nat, token: nat)

  /** A frame to the peer: a ping, or anything else. */
  datatype Frame = Other | Request(ping: Ping)

  datatype Run = Run(token: nat, ok: bool)

  datatype State = State(
    callbacks: map<nat, seq<nat>>,  // by data, oldest first
    failed: bool, closing: bool,    // pings.fail has run; outgoing.fail has run
    next: nat,                      // number of calls accepted so far
    unsent: seq<Ping>,              // accepted while closing: never scheduled
    queue: seq<Ping>, batch: seq<Ping>,   // scheduled, and taken by the writer
    out: seq<Frame>, done: nat,           // all frames sent, and how many the peer has processed
    acks: seq<Ping>, ackBatch: seq<Ping>, // the peer's replies: scheduled, and taken
    back: seq<Ping>,                      // replies under way
    ran: seq<Run>)

  datatype Event =
    | AddPing(data: nat) | CloseOutgoing | SendOther | TakeQueue | WritePing
    | Process | TakeAcks | WriteAck | HandleAck
    | Fail(tail: seq<nat>)  // the order in which the remaining callbacks run

  function Listed(callbacks: map<nat, seq<nat>>, data: nat): seq<nat> {
    if data in callbacks then callbacks[data] else []
  }

  /** The callbacks that fail runs, each once, in some order. */
  ghost predicate RunsAll(callbacks: map<nat, seq<nat>>, tail: seq<nat>) {
    Distinct(tail) && forall t :: t in tail <==> exists d :: d in callbacks && t in callbacks[d]
  }

  ghost predicate Enabled(s: State, e: Event) {
    match e
    case AddPing(_) => !s.failed
    case CloseOutgoing => true
    case SendOther => true
    case TakeQueue => s.batch == []
    case WritePing => s.batch != []
    case Process => s.done < |s.out|
    case TakeAcks => s.ackBatch == []
    case WriteAck => s.ackBatch != []
    case HandleAck => s.back != []
    case Fail(tail) => !s.failed && RunsAll(s.callbacks, tail)
  }

  function WithoutFirst(callbacks: map<nat, seq<nat>>, data: nat): map<nat, seq<nat>>
    requires data in callbacks && callbacks[data] != []
  {
    if |callbacks[data]| > 1 then callbacks[data := callbacks[data][1..]] else callbacks - {data}
  }

  function Failures(tail: seq<nat>): seq<Run> { seq(|tail|, i requires 0 <= i < |tail| => Run(tail[i], false)) }

  function Step(s: State, e: Event): State
    requires Enabled(s, e)
  {
    match e
    case AddPing(d) =>
      var p := [Ping(d, s.next)];
      s.(callbacks := s.callbacks[d := Listed(s.callbacks, d) + [s.next]], next := s.next + 1,
         queue := if s.closing then s.queue else s.queue + p, unsent := if s.closing then s.unsent + p else s.unsent)
    case CloseOutgoing => s.(closing := true)
    case SendOther => s.(out := s.out + [Other])
    case TakeQueue => s.(batch := s.queue, queue := [])
    case WritePing => s.(out := s.out + [Request(s.batch[0])], batch := s.batch[1..])
    case Process =>
      s.(done := s.done + 1, acks := s.acks + (if s.out[s.done].Request? then [s.out[s.done].ping] else []))
    case TakeAcks => s.(ackBatch := s.acks, acks := [])
    case WriteAck => s.(back := s.back + [s.ackBatch[0]], ackBatch := s.ackBatch[1..])
    case HandleAck =>
      var d := s.back[0].data;
      if |Listed(s.callbacks, d)| > 0 then
        s.(back := s.back[1..], callbacks := WithoutFirst(s.callbacks, d), ran := s.ran + [Run(s.callbacks[d][0], true)])
      else s.(back := s.back[1..])
    case Fail(tail) =>
      s.(failed := true, callbacks := map[], queue := [], unsent := [], ran := s.ran + Failures(tail))
  }

  // ----- where the pings are

  function Requests(frames: seq<Frame>): seq<Ping> {
    if frames == [] then []
    else (if frames[0].Request? then [frames[0].ping] else []) + Requests(frames[1..])
  }

  /** All unanswered pings, oldest first; those that will never be sent come last. */
  function Pipeline(s: State): seq<Ping>
    requires s.done <= |s.out|
  {
    s.back + (s.ackBatch + (s.acks + (Requests(s.out[s.done..]) + (s.batch + (s.queue + s.unsent)))))
  }

  /** The tokens of the pings with the given data, in order. */
  function Of(ps: seq<Ping>, data: nat): seq<nat> {
    if ps == [] then [] else (if ps[0].data == data then [ps[0].token] else []) + Of(ps[1..], data)
  }

  /** Every accepted call has run its callback or is in the pipeline, in order. */
  ghost predicate Accounted(ran: seq<Run>, ps: seq<Ping>, next: nat) {
    && |ran| + |ps| == next
    && (forall i :: 0 <= i < |ran| ==> ran[i] == Run(i, true))
    && (forall i :: 0 <= i < |ps| ==> ps[i].token == |ran| + i)
  }

  /** The callbacks kept for some data are those of its pings, in order. */
  ghost predicate Matched(callbacks: map<nat, seq<nat>>, ps: seq<Ping>) {
    && (forall d :: Of(ps, d) == Listed(callbacks, d))
    && (forall d :: d in callbacks ==> callbacks[d] != [])
  }

  /** Only pings the peer has processed are echoed. */
  ghost predicate Echoed(s: State, ps: seq<Ping>) {
    forall i :: 0 <= i < |ps| ==> ProcessedPing(s.out, s.done, ps[i])
  }

  ghost predicate ProcessedPing(out: seq<Frame>, done: nat, p: Ping) {
    exists k :: 0 <= k < done && k < |out| && out[k] == Request(p)
  }

  ghost predicate Live(s: State) {
    && s.done <= |s.out| && (!s.closing ==> s.unsent == [])
    && Accounted(s.ran, Pipeline(s), s.next)
    && Matched(s.callbacks, Pipeline(s))
    && Echoed(s, s.back + s.ackBatch + s.acks)
  }

  ghost predicate OnceEach(ran: seq<Run>, next: nat) {
    && |ran| == next
    && (forall i, j :: 0 <= i < j < |ran| ==> ran[i].token != ran[j].token)
    && (forall i :: 0 <= i < |ran| ==> ran[i].token < next)
  }

  ghost predicate Inv(s: State) {
    if s.failed then s.done <= |s.out| && s.callbacks == map[] && OnceEach(s.ran, s.next) else Live(s)
  }

  // ----- sequences

  lemma {:induction false} OfAppend(ps: seq<Ping>, qs: seq<Ping>, d: nat)
    ensures Of(ps + qs, d) == Of(ps, d) + Of(qs, d)
  {
    if ps == [] {
      assert ps + qs == qs;
    } else {
      assert (ps + qs)[0] == ps[0] && (ps + qs)[1..] == ps[1..] + qs;
      OfAppend(ps[1..], qs, d);
    }
  }

  lemma {:induction false} RequestsAppend(fs: seq<Frame>, gs: seq<Frame>)
    ensures Requests(fs + gs) == Requests(fs) + Requests(gs)
  {
    if fs == [] {
      assert fs + gs == gs;
    } else {
      assert (fs + gs)[0] == fs[0] && (fs + gs)[1..] == fs[1..] + gs;
      RequestsAppend(fs[1..], gs);
    }
  }

  lemma {:induction false} OfMember(ps: seq<Ping>, d: nat, t: nat)
    ensures t in Of(ps, d) <==> Ping(d, t) in ps
  {
    if ps != [] {
      OfMember(ps[1..], d, t);
      assert ps == [ps[0]] + ps[1..];
    }
  }

  /** Moving pings from one place to the next does not change the pipeline. */
  predicate Moves(e: Event) { e.CloseOutgoing? || e.SendOther? || e.TakeQueue? || e.WritePing? || e.Process? || e.TakeAcks? || e.WriteAck? }

  lemma SendMoves(s: State, f: Frame, batch: seq<Ping>)
    requires s.done <= |s.out|
    requires if f.Request? then s.batch == [f.ping] + batch else batch == s.batch
    ensures Pipeline(s.(out := s.out + [f], batch := batch)) == Pipeline(s)
  {
    var r := Requests(s.out[s.done..]);
    assert (s.out + [f])[s.done..] == s.out[s.done..] + [f];
    RequestsAppend(s.out[s.done..], [f]);
    assert Requests([f]) == if f.Request? then [f.ping] else [];
    assert Requests((s.out + [f])[s.done..]) + (batch + (s.queue + s.unsent)) == r + (s.batch + (s.queue + s.unsent));
  }

  lemma ProcessMoves(s: State)
    requires s.done < |s.out|
    ensures Pipeline(Step(s, Process)) == Pipeline(s)
  {
    var f := s.out[s.done];
    var one := if f.Request? then [f.ping] else [];
    assert s.out[s.done..][0] == f && s.out[s.done..][1..] == s.out[s.done + 1..];
    var r := Requests(s.out[s.done + 1..]);
    assert Requests(s.out[s.done..]) == one + r;
    assert (s.acks + one) + (r + (s.batch + (s.queue + s.unsent))) == s.acks + ((one + r) + (s.batch + (s.queue + s.unsent)));
  }

  lemma AckMoves(s: State)
    requires s.done <= |s.out| && s.ackBatch != []
    ensures Pipeline(Step(s, WriteAck)) == Pipeline(s)
  {
    var rest := s.acks + (Requests(s.out[s.done..]) + (s.batch + (s.queue + s.unsent)));
    assert (s.back + [s.ackBatch[0]]) + (s.ackBatch[1..] + rest) == s.back + (s.ackBatch + rest);
  }

  lemma MovesKeep(s: State, e: Event)
    requires s.done <= |s.out| && Enabled(s, e) && Moves(e)
    ensures Step(s, e).done <= |Step(s, e).out| && Pipeline(Step(s, e)) == Pipeline(s)
  {
    match e
    case SendOther => SendMoves(s, Other, s.batch);
    case WritePing => SendMoves(s, Request(s.batch[0]), s.batch[1..]);
    case Process => ProcessMoves(s);
    case WriteAck => AckMoves(s);
    case _ =>
  }

  // ----- every step keeps the account

  lemma MovesEcho(s: State, e: Event)
    requires s.done <= |s.out| && Enabled(s, e) && Moves(e) && Echoed(s, s.back + s.ackBatch + s.acks)
    ensures Echoed(Step(s, e), Step(s, e).back + Step(s, e).ackBatch + Step(s, e).acks)
  {
    var s' := Step(s, e);
    var was, now := s.back + s.ackBatch + s.acks, s'.back + s'.ackBatch + s'.acks;
    assert now == was || (e.Process? && s.out[s.done].Request? && now == was + [s.out[s.done].ping]);
    forall i | 0 <= i < |now| ensures ProcessedPing(s'.out, s'.done, now[i]) {
      if i < |was| {
        assert ProcessedPing(s.out, s.done, was[i]);
        var k :| 0 <= k < s.done && k < |s.out| && s.out[k] == Request(was[i]);
        assert s'.out[k] == Request(now[i]);
      } else {
        assert s'.out[s.done] == Request(now[i]);
      }
    }
  }

  lemma AddMatched(callbacks: map<nat, seq<nat>>, ps: seq<Ping>, d: nat, t: nat)
    requires Matched(callbacks, ps)
    ensures Matched(callbacks[d := Listed(callbacks, d) + [t]], ps + [Ping(d, t)])
  {
    forall x ensures Of(ps + [Ping(d, t)], x) == Listed(callbacks[d := Listed(callbacks, d) + [t]], x) {
      OfAppend(ps, [Ping(d, t)], x);
      assert Of([Ping(d, t)], x) == if x == d then [t] else [];
      assert Of(ps, x) == Listed(callbacks, x);
    }
  }

  lemma AddPipeline(s: State, d: nat)
    requires s.done <= |s.out| && !s.failed && (!s.closing ==> s.unsent == [])
    ensures Pipeline(Step(s, AddPing(d))) == Pipeline(s) + [Ping(d, s.next)]
  {
    var s' := Step(s, AddPing(d));
    assert s'.queue + s'.unsent == s.queue + s.unsent + [Ping(d, s.next)];
  }

  lemma AddKeeps(s: State, d: nat)
    requires Live(s) && !s.failed
    ensures Live(Step(s, AddPing(d)))
  {
    AddPipeline(s, d);
    AddMatched(s.callbacks, Pipeline(s), d, s.next);
  }

  /** The reply runs the callback of the very ping it answers, and the peer has
      processed that ping and so every frame sent before it. */
  lemma AckAnswers(s: State)
    requires Live(s) && !s.failed && s.back != []
    ensures var p := s.back[0];
            && |Listed(s.callbacks, p.data)| > 0 && s.callbacks[p.data][0] == p.token == |s.ran|
            && ProcessedPing(s.out, s.done, p)
  {
    var p := s.back[0];
    assert Pipeline(s)[0] == p;
    assert Of(Pipeline(s), p.data)[0] == p.token;
    assert Of(Pipeline(s), p.data) == Listed(s.callbacks, p.data);
    assert (s.back + s.ackBatch + s.acks)[0] == p;
  }

  lemma AckKeeps(s: State)
    requires Live(s) && !s.failed && s.back != []
    ensures Live(Step(s, HandleAck))
  {
    var s' := Step(s, HandleAck);
    var p := s.back[0];
    AckAnswers(s);
    assert Pipeline(s') == Pipeline(s)[1..];
    forall x ensures Of(Pipeline(s'), x) == Listed(s'.callbacks, x) {
      assert Of(Pipeline(s), x) == Listed(s.callbacks, x);
      assert Of(Pipeline(s), x) == (if x == p.data then [p.token] else []) + Of(Pipeline(s'), x);
    }
    forall i | 0 <= i < |s'.back + s'.ackBatch + s'.acks|
      ensures ProcessedPing(s'.out, s'.done, (s'.back + s'.ackBatch + s'.acks)[i])
    {
      assert (s'.back + s'.ackBatch + s'.acks)[i] == (s.back + s.ackBatch + s.acks)[i + 1];
    }
  }

  /** What is left are the callbacks of the pings not answered. */
  lemma LeftOver(ran: seq<Run>, callbacks: map<nat, seq<nat>>, ps: seq<Ping>, next: nat, tail: seq<nat>, t: nat)
    requires Accounted(ran, ps, next) && Matched(callbacks, ps) && RunsAll(callbacks, tail)
    ensures t in tail <==> |ran| <= t < next
  {
    if t in tail {
      var d :| d in callbacks && t in callbacks[d];
      assert Of(ps, d) == Listed(callbacks, d);
      OfMember(ps, d, t);
    }
    if |ran| <= t < next {
      var p := ps[t - |ran|];
      OfMember(ps, p.data, t);
      assert Of(ps, p.data) == Listed(callbacks, p.data);
    }
  }

  /** Failing runs what is left, so that in all each callback has run once. */
  lemma FailKeeps(s: State, tail: seq<nat>)
    requires Live(s) && Enabled(s, Fail(tail))
    ensures Inv(Step(s, Fail(tail)))
  {
    forall t ensures t in tail <==> |s.ran| <= t < s.next {
      if t in tail || t >= 0 { LeftOver(s.ran, s.callbacks, Pipeline(s), s.next, tail, t); }
    }
    DistinctCount(tail, |s.ran|, s.next);
    RanAll(s.ran, tail, s.next);
  }

  lemma RanAll(ran: seq<Run>, tail: seq<nat>, next: nat)
    requires |ran| <= next && (forall i :: 0 <= i < |ran| ==> ran[i] == Run(i, true))
    requires |tail| == next - |ran| && Distinct(tail) && forall t :: t in tail <==> |ran| <= t < next
    ensures OnceEach(ran + Failures(tail), next)
  {
    var all := ran + Failures(tail);
    forall i | 0 <= i < |all| ensures all[i].token == if i < |ran| then i else tail[i - |ran|] { }
    forall i | |ran| <= i < |all| ensures |ran| <= all[i].token < next { assert tail[i - |ran|] in tail; }
  }

  lemma {:induction false} DistinctCount(tail: seq<nat>, lo: nat, hi: nat)
    requires lo <= hi && Distinct(tail) && forall t :: t in tail <==> lo <= t < hi
    ensures |tail| == hi - lo
    decreases hi - lo
  {
    if lo == hi {
      assert forall i :: 0 <= i < |tail| ==> tail[i] in tail;
    } else {
      var top: nat := hi - 1;
      assert top in tail;
      var i :| 0 <= i < |tail| && tail[i] == top;
      var rest := tail[..i] + tail[i + 1..];
      assert tail == tail[..i] + [top] + tail[i + 1..];
      forall t: nat | t in rest ensures t in tail && t != top {
        var k :| 0 <= k < |rest| && rest[k] == t;
        assert t == tail[if k < i then k else k + 1];
      }
      forall t: nat | lo <= t < hi - 1 ensures t in rest { assert t in tail; }
      DistinctCount(rest, lo, hi - 1);
    }
  }

  lemma StepKeeps(s: State, e: Event)
    requires Inv(s) && Enabled(s, e)
    ensures Inv(Step(s, e))
  {
    if !s.failed {
      match e
      case AddPing(d) => AddKeeps(s, d);
      case HandleAck => AckKeeps(s);
      case Fail(tail) => FailKeeps(s, tail);
      case _ =>
        MovesKeep(s, e);
        MovesEcho(s, e);
    }
  }

  // ----- whole runs

  ghost predicate IsRun(states: seq<State>, events: seq<Event>) {
    && |states| == |events| + 1
    && states[0] == State(map[], false, false, 0, [], [], [], [], 0, [], [], [], [])
    && forall i :: 0 <= i < |events| ==> Enabled(states[i], events[i]) && states[i + 1] == Step(states[i], events[i])
  }

  lemma {:induction false} RunKeeps(states: seq<State>, events: seq<Event>, i: nat)
    requires IsRun(states, events) && i < |states|
    ensures Inv(states[i])
  {
    if i > 0 {
      RunKeeps(states, events, i - 1);
      StepKeeps(states[i - 1], events[i - 1]);
    }
  }

  /** No callback runs twice; none runs that was not accepted; and once the
      connection has failed, every accepted one has run. */
  lemma RunsOnce(states: seq<State>, events: seq<Event>, i: nat)
    requires IsRun(states, events) && i < |states|
    ensures forall j, k :: 0 <= j < k < |states[i].ran| ==> states[i].ran[j].token != states[i].ran[k].token
    ensures forall j :: 0 <= j < |states[i].ran| ==> states[i].ran[j].token < states[i].next
    ensures states[i].failed ==> |states[i].ran| == states[i].next
  {
    RunKeeps(states, events, i);
  }

  /** A callback that runs with success in a step is that of the ping being
      answered, and all frames sent before that ping have been processed. */
  lemma Causality(states: seq<State>, events: seq<Event>, i: nat)
    requires IsRun(states, events) && i < |events|
    requires |states[i + 1].ran| > |states[i].ran| && states[i + 1].ran[|states[i].ran|].ok
    ensures states[i].back != [] && states[i + 1].ran == states[i].ran + [Run(states[i].back[0].token, true)]
    ensures ProcessedPing(states[i].out, states[i].done, states[i].back[0])
  {
    RunKeeps(states, events, i);
    var s := states[i];
    if events[i].HandleAck? && !s.failed { AckAnswers(s); }
  }

  // ----- the table of callbacks

  /** Every callback is kept once. */
  ghost predicate Separate(callbacks: map<nat, seq<nat>>) {
    && (forall d :: d in callbacks ==> Distinct(callbacks[d]))
    && (forall d, x, t :: d in callbacks && x in callbacks && t in callbacks[d] && t in callbacks[x] ==> d == x)
  }

  class RawPings {
    var failed: bool
    var closing: bool  // the outgoing side has failed, and schedules no more pings
    var callbacks: map<nat, seq<nat>>
    var queue: seq<nat>

    constructor ()
      ensures !failed && !closing && callbacks == map[] && queue == []
    {
      failed, closing, callbacks, queue := false, false, map[], [];
    }

    method AddPing(data: nat, callback: nat) returns (ok: bool)
      modifies this`callbacks, this`queue
      ensures ok == !failed
      ensures callbacks == if ok then old(callbacks)[data := Listed(old(callbacks), data) + [callback]] else old(callbacks)
      ensures queue == if ok && !closing then old(queue) + [data] else old(queue)
    {
      ok := !failed;
      if ok {
        callbacks := callbacks[data := Listed(callbacks, data) + [callback]];
        if !closing { queue := queue + [data]; }
      }
    }

    /** Runs the oldest callback for the data, if there is any. */
    method HandleAck(data: nat) returns (run: bool, callback: nat)
      modifies this`callbacks
      ensures run <==> Listed(old(callbacks), data) != []
      ensures run ==> callback == old(callbacks)[data][0] && callbacks == WithoutFirst(old(callbacks), data)
      ensures !run ==> callbacks == old(callbacks)
    {
      var list := Listed(callbacks, data);
      run, callback := false, 0;
      if |list| > 0 {
        run, callback := true, list[0];
        callbacks := if |list| > 1 then callbacks[data := list[1..]] else callbacks - {data};
      }
    }

    /** Runs all that are left, and forgets the pings not yet taken by the writer. */
    method Fail() returns (tail: seq<nat>)
      requires Separate(callbacks)
      modifies this`failed, this`callbacks, this`queue
      ensures failed && callbacks == map[] && queue == []
      ensures RunsAll(old(callbacks), tail)
    {
      failed, queue := true, [];
      var pings := callbacks;
      callbacks := map[];
      tail := [];
      var todo := pings.Keys;
      while todo != {}
        invariant failed && callbacks == map[] && queue == [] && todo <= pings.Keys && Distinct(tail)
        invariant forall t :: t in tail <==> exists d :: d in pings && d !in todo && t in pings[d]
      {
        var d :| d in todo;
        AppendDistinct(tail, pings[d]);
        tail := tail + pings[d];
        todo := todo - {d};
      }
    }
  }

  lemma AppendDistinct(a: seq<nat>, b: seq<nat>)
    requires Distinct(a) && Distinct(b) && forall t :: !(t in a && t in b)
    ensures Distinct(a + b)
  {
    forall i, j | 0 <= i < j < |a + b| ensures (a + b)[i] != (a + b)[j] {
      if i < |a| <= j { assert (a + b)[i] in a && (a + b)[j] in b; }
    }
  }
}
