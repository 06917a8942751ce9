/** A connection as a channel of messages: the send queue with its one outstanding write, the
    byte stream, and the reassembly of messages at the other end. */
module Channel {
  import opened Common
  import opened Codec

  /** `posted` are buffers whose RealSend has not run yet, `sendBuf` is the send queue, and
      `progress` tells how much of its first buffer the outstanding write has put on the wire.
      `recvBuf` is the buffer of the receiver.  The rest is history: the buffers sent, how
      many of them are written completely, and the messages dispatched. */
  datatype State = State(posted: seq<Bytes>, sendBuf: seq<Bytes>, writing: bool, progress: Option<nat>,
                         wire: Bytes, recvBuf: Bytes, sent: seq<Bytes>, written: nat, dispatched: seq<Bytes>)

  const Start: State := State([], [], false, None, [], [], [], 0, [])

  /** The write is started by Socket::Send, which ignores an empty buffer. */
  function StartWrite(b: Bytes): Option<nat> { if b == [] then None else Some(0) }

  /** `RealSend`. */
  function RealSent(s: State, b: Bytes): State {
    if s.writing then s.(sendBuf := s.sendBuf + [b])
    else s.(sendBuf := s.sendBuf + [b], writing := true, progress := StartWrite(b))
  }

  /** `OnWrite` without error. */
  function Wrote(s: State): State
    requires s.sendBuf != []
  {
    var rest := s.sendBuf[1..];
    if rest == [] then s.(sendBuf := rest, writing := false, progress := None)
    else s.(sendBuf := rest, writing := true, progress := StartWrite(rest[0]))
  }

  datatype Step =
    | Send(b: Bytes)
    | RealSend
    | Transmit(n: nat)
    | OnWrite
    | Receive(n: nat)

  predicate Enabled(s: State, step: Step) {
    match step
    case Send(_) => true
    case RealSend => s.posted != []
    case Transmit(n) => s.progress.Some? && s.sendBuf != [] && s.progress.value + n <= |s.sendBuf[0]|
    case OnWrite => s.progress.Some? && s.sendBuf != [] && s.progress.value == |s.sendBuf[0]|
    case Receive(n) => 0 < n <= |s.wire| && |s.recvBuf| + n <= INT32_MAX
  }

  function Next(s: State, step: Step): State
    requires Enabled(s, step)
  {
    match step
    case Send(b) => s.(posted := s.posted + [b], sent := s.sent + [b])
    case RealSend => RealSent(s.(posted := s.posted[1..]), s.posted[0])
    case Transmit(n) =>
      var k := s.progress.value;
      s.(wire := s.wire + s.sendBuf[0][k..k + n], progress := Some(k + n))
    case OnWrite => Wrote(s.(written := s.written + 1))
    case Receive(n) =>
      var (ms, rest) := Parse(s.recvBuf + s.wire[..n]);
      s.(wire := s.wire[n..], recvBuf := rest, dispatched := s.dispatched + ms)
  }

  /** Steps from a state. */
  ghost predicate Path(s: State, steps: seq<Step>, states: seq<State>) {
    && |states| == |steps| + 1 && states[0] == s
    && forall i :: 0 <= i < |steps| ==> Enabled(states[i], steps[i]) && states[i + 1] == Next(states[i], steps[i])
  }

  ghost predicate Runs(steps: seq<Step>, states: seq<State>) { Path(Start, steps, states) }

  // ----- the bytes of buffers -----

  function Flat(bs: seq<Bytes>): Bytes
    decreases |bs|
  {
    if bs == [] then [] else bs[0] + Flat(bs[1..])
  }

  lemma {:induction false} FlatAppend(a: seq<Bytes>, b: seq<Bytes>)
    ensures Flat(a + b) == Flat(a) + Flat(b)
    decreases |a|
  {
    if a == [] {
      assert a + b == b;
    } else {
      assert (a + b)[1..] == a[1..] + b;
      FlatAppend(a[1..], b);
      assert a[0] + (Flat(a[1..]) + Flat(b)) == a[0] + Flat(a[1..]) + Flat(b);
    }
  }

  /** One more buffer is written. */
  lemma FlatMore(sent: seq<Bytes>, w: nat)
    requires w < |sent|
    ensures Flat(sent[..w + 1]) == Flat(sent[..w]) + sent[w]
  {
    assert sent[..w + 1] == sent[..w] + [sent[w]];
    FlatAppend(sent[..w], [sent[w]]);
    assert Flat([sent[w]]) == sent[w] + [] == sent[w] by { assert Flat([]) == []; }
  }

  // ----- what holds in every run -----

  /** `writing` holds exactly while the queue is not empty; the first buffer is being written
      exactly if it has bytes. */
  ghost predicate QueueInv(s: State) {
    && (s.writing <==> s.sendBuf != [])
    && (s.progress.Some? <==> s.sendBuf != [] && s.sendBuf[0] != [])
    && (s.progress.Some? ==> s.progress.value <= |s.sendBuf[0]|)
  }

  ghost predicate SentInv(s: State) {
    && s.written <= |s.sent| && s.sendBuf + s.posted == s.sent[s.written..]
    && forall i :: 0 <= i < s.written ==> s.sent[i] != []
  }

  /** What the sender has put on the wire so far. */
  function Put(s: State): Bytes
    requires s.written <= |s.sent|
  {
    Flat(s.sent[..s.written]) + if s.progress.Some? && s.sendBuf != [] && s.progress.value <= |s.sendBuf[0]| then s.sendBuf[0][..s.progress.value] else []
  }

  ghost predicate WireInv(s: State)
    requires s.written <= |s.sent|
  {
    && Sized(s.dispatched) && Put(s) == Stream(s.dispatched) + s.recvBuf + s.wire
    && (!HaveComplete(s.recvBuf) || ToInt32(s.recvBuf) < 0)
  }

  ghost predicate Inv(s: State) { QueueInv(s) && SentInv(s) && WireInv(s) }

  lemma SendInv(s: State, b: Bytes)
    requires Inv(s)
    ensures Inv(Next(s, Send(b)))
  {
    hide Stream, Flat, HaveComplete, ToInt32;
    var t := Next(s, Send(b));
    assert t.sent[..s.written] == s.sent[..s.written];
    assert t.sent[s.written..] == s.sent[s.written..] + [b];
    assert t.sendBuf + t.posted == (s.sendBuf + s.posted) + [b];
  }

  lemma RealSendInv(s: State)
    requires Inv(s) && Enabled(s, RealSend)
    ensures Inv(Next(s, RealSend))
  {
    hide Stream, Flat, HaveComplete, ToInt32;
    var t, b := Next(s, RealSend), s.posted[0];
    assert t.sendBuf + t.posted == s.sendBuf + s.posted;
    if s.sendBuf == [] {
      assert t.sendBuf == [b] && b[..0] == [];
    } else {
      assert t.sendBuf[0] == s.sendBuf[0];
    }
  }

  lemma TransmitInv(s: State, n: nat)
    requires Inv(s) && Enabled(s, Transmit(n))
    ensures Inv(Next(s, Transmit(n)))
  {
    hide Stream, Flat, HaveComplete, ToInt32;
    var t, k, b := Next(s, Transmit(n)), s.progress.value, s.sendBuf[0];
    assert b[..k + n] == b[..k] + b[k..k + n];
    assert Put(t) == Put(s) + b[k..k + n];
    assert Stream(s.dispatched) + s.recvBuf + s.wire + b[k..k + n] == Stream(s.dispatched) + s.recvBuf + t.wire;
  }

  lemma OnWriteInv(s: State)
    requires Inv(s) && Enabled(s, OnWrite)
    ensures Inv(Next(s, OnWrite))
  {
    hide Stream, Flat, HaveComplete, ToInt32;
    var t, b, w := Next(s, OnWrite), s.sendBuf[0], s.written;
    assert (s.sendBuf + s.posted)[0] == b;
    assert s.sent[w..][0] == s.sent[w] && b == s.sent[w];
    assert b[..|b|] == b;
    FlatMore(s.sent, w);
    assert s.sent[w..][1..] == s.sent[w + 1..];
    assert t.sendBuf + t.posted == (s.sendBuf + s.posted)[1..];
    if t.sendBuf != [] {
      assert t.sendBuf[0][..0] == [];
    }
  }

  lemma ReceiveInv(s: State, n: nat)
    requires Inv(s) && Enabled(s, Receive(n))
    ensures Inv(Next(s, Receive(n)))
  {
    hide Stream, Parse, Flat, HaveComplete, ToInt32;
    var t := Next(s, Receive(n));
    var buf := s.recvBuf + s.wire[..n];
    ParseStream(buf);
    var (ms, rest) := Parse(buf);
    StreamAppend(s.dispatched, ms);
    assert s.wire == s.wire[..n] + s.wire[n..];
    var d, m := Stream(s.dispatched), Stream(ms);
    assert d + s.recvBuf + s.wire == d + (m + rest) + s.wire[n..] == (d + m) + rest + s.wire[n..];
  }

  /** Every step keeps the invariant, whatever is sent. */
  lemma StepInv(s: State, step: Step)
    requires Inv(s) && Enabled(s, step)
    ensures Inv(Next(s, step))
  {
    match step
    case Send(b) => SendInv(s, b);
    case RealSend => RealSendInv(s);
    case Transmit(n) => TransmitInv(s, n);
    case OnWrite => OnWriteInv(s);
    case Receive(n) => ReceiveInv(s, n);
  }

  lemma {:induction false} PathInv(s: State, steps: seq<Step>, states: seq<State>, n: nat)
    requires Inv(s) && Path(s, steps, states) && n <= |steps|
    ensures Inv(states[n]) && s.sent <= states[n].sent && s.written <= states[n].written
  {
    if n > 0 {
      PathInv(s, steps, states, n - 1);
      assert Enabled(states[n - 1], steps[n - 1]);
      StepInv(states[n - 1], steps[n - 1]);
    }
  }

  lemma RunsInv(steps: seq<Step>, states: seq<State>, n: nat)
    requires Runs(steps, states) && n <= |steps|
    ensures Inv(states[n])
  {
    assert Inv(Start);
    PathInv(Start, steps, states, n);
  }

  // ----- messages arrive in order -----

  /** Everything the receiver has, and the bytes to come, are the bytes of what was sent. */
  lemma Remaining(s: State) returns (more: Bytes)
    requires Inv(s)
    ensures Stream(s.dispatched) + s.recvBuf + more == Flat(s.sent)
    ensures s.posted == [] && s.sendBuf == [] && s.wire == [] ==> more == []
  {
    hide HaveComplete, ToInt32, Stream;
    var w := s.written;
    var todo := s.sent[w..];
    assert s.sent == s.sent[..w] + todo;
    FlatAppend(s.sent[..w], todo);
    if s.progress.None? {
      more := s.wire + Flat(todo);
      if s.posted == [] && s.sendBuf == [] {
        assert todo == [];
      }
      assert Put(s) == Flat(s.sent[..w]);
    } else {
      var b, k := s.sendBuf[0], s.progress.value;
      assert (s.sendBuf + s.posted)[0] == b == todo[0];
      var tail := Flat(todo[1..]);
      more := s.wire + (b[k..] + tail);
      Rejoin(Flat(s.sent[..w]), b, k, tail);
    }
    Regroup(Stream(s.dispatched), s.recvBuf, s.wire, Put(s), more);
  }

  lemma Rejoin(a: Bytes, b: Bytes, k: nat, c: Bytes)
    requires k <= |b|
    ensures a + b[..k] + (b[k..] + c) == a + (b + c)
  {
    assert b == b[..k] + b[k..];
  }

  lemma Regroup(d: Bytes, r: Bytes, w: Bytes, put: Bytes, more: Bytes)
    requires put == d + r + w && w <= more
    ensures d + r + more == put + more[|w|..]
  {
  }

  /** A buffer as Encode makes it. */
  ghost predicate IsFrame(b: Bytes) { HEADER <= |b| <= INT32_MAX && b == Frame(b[HEADER..]) }

  ghost predicate AllFrames(bs: seq<Bytes>) { forall i :: 0 <= i < |bs| ==> IsFrame(bs[i]) }

  /** The messages in some frames. */
  function Messages(bs: seq<Bytes>): (ps: seq<Bytes>)
    requires forall i :: 0 <= i < |bs| ==> HEADER <= |bs[i]| <= INT32_MAX
    ensures |ps| == |bs| && Sized(ps)
  {
    seq(|bs|, i requires 0 <= i < |bs| => bs[i][HEADER..])
  }

  lemma {:induction false} FlatStream(bs: seq<Bytes>)
    requires AllFrames(bs)
    ensures Stream(Messages(bs)) == Flat(bs)
    decreases |bs|
  {
    hide Frame;
    if bs != [] {
      assert Messages(bs)[1..] == Messages(bs[1..]);
      FlatStream(bs[1..]);
    }
  }

  /** Only frames are sent. */
  ghost predicate SendsFrames(steps: seq<Step>) {
    forall i :: 0 <= i < |steps| && steps[i].Send? ==> IsFrame(steps[i].b)
  }

  lemma {:induction false} FramesSent(steps: seq<Step>, states: seq<State>, n: nat)
    requires Runs(steps, states) && SendsFrames(steps) && n <= |steps|
    ensures AllFrames(states[n].sent)
  {
    hide IsFrame, Parse;
    if n > 0 {
      FramesSent(steps, states, n - 1);
      assert Enabled(states[n - 1], steps[n - 1]) && states[n] == Next(states[n - 1], steps[n - 1]);
    }
  }

  /** In every run, for every way of cutting the stream into chunks, the messages dispatched
      are the first messages sent, in order and intact; one write is outstanding exactly while
      the queue is not empty. */
  lemma FifoChannel(steps: seq<Step>, states: seq<State>, n: nat)
    requires Runs(steps, states) && SendsFrames(steps) && n <= |steps|
    ensures AllFrames(states[n].sent) && states[n].dispatched <= Messages(states[n].sent)
    ensures states[n].writing <==> states[n].sendBuf != []
    ensures states[n].progress.Some? <==> states[n].sendBuf != []
  {
    RunsInv(steps, states, n);
    FramesSent(steps, states, n);
    var s := states[n];
    var more := Remaining(s);
    FlatStream(s.sent);
    StreamPrefix(s.dispatched, s.recvBuf, Messages(s.sent), more);
    if s.sendBuf != [] {
      assert (s.sendBuf + s.posted)[0] == s.sent[s.written..][0] == s.sent[s.written];
      assert IsFrame(s.sent[s.written]);
    }
  }

  /** Nothing is held back: once all bytes have arrived, all messages have been dispatched. */
  lemma AllDelivered(steps: seq<Step>, states: seq<State>, n: nat)
    requires Runs(steps, states) && SendsFrames(steps) && n <= |steps|
    requires states[n].posted == [] && states[n].sendBuf == [] && states[n].wire == []
    ensures AllFrames(states[n].sent) && states[n].dispatched == Messages(states[n].sent)
  {
    RunsInv(steps, states, n);
    FramesSent(steps, states, n);
    var s := states[n];
    var more := Remaining(s);
    FlatStream(s.sent);
    var ps := Messages(s.sent);
    StreamPrefix(s.dispatched, s.recvBuf, ps, more);
    var left := ps[|s.dispatched|..];
    assert s.recvBuf == Stream(left) + [];
    if left != [] {
      FirstFrame(left, [], s.recvBuf);
      assert false;
    }
    assert ps == ps[..|s.dispatched|] + left;
  }

  // ----- empty buffers -----

  /** The connection believes that a write is outstanding, but there is none. */
  predicate Stuck(s: State) { s.writing && s.progress.None? }

  /** A run is stuck exactly when the first buffer that is not written yet has reached the
      queue and is empty, alone or behind others. */
  lemma StuckExactly(steps: seq<Step>, states: seq<State>, n: nat)
    requires Runs(steps, states) && n <= |steps|
    ensures var s := states[n];
      s.written + |s.posted| <= |s.sent| && (Stuck(s) <==> s.written + |s.posted| < |s.sent| && s.sent[s.written] == [])
  {
    RunsInv(steps, states, n);
    var s := states[n];
    assert |s.sendBuf| + |s.posted| == |s.sent| - s.written;
    if s.sendBuf != [] {
      assert (s.sendBuf + s.posted)[0] == s.sent[s.written..][0];
    }
  }

  /** From then on no buffer is ever written, and no byte put on the wire, whatever is sent. */
  lemma {:induction false} StuckForever(s: State, steps: seq<Step>, states: seq<State>, n: nat)
    requires Inv(s) && Stuck(s) && Path(s, steps, states) && n <= |steps|
    ensures Inv(states[n]) && Stuck(states[n]) && states[n].written == s.written && Put(states[n]) == Put(s)
  {
    hide Parse, Flat, Stream, HaveComplete, ToInt32;
    if n > 0 {
      StuckForever(s, steps, states, n - 1);
      var a := states[n - 1];
      assert Enabled(a, steps[n - 1]) && states[n] == Next(a, steps[n - 1]);
      StepInv(a, steps[n - 1]);
      assert states[n].sent[..s.written] == a.sent[..s.written];
    }
  }

  /** Steps after which nothing is left to write. */
  ghost predicate Empties(s: State, steps: seq<Step>, states: seq<State>) {
    Path(s, steps, states) && states[|steps|].posted == [] && states[|steps|].sendBuf == []
  }

  ghost predicate CanDrain(s: State) {
    exists steps: seq<Step>, states: seq<State> :: Empties(s, steps, states)
  }

  /** Everything sent can still be written exactly if no buffer sent is empty. */
  lemma DrainsExactly(steps: seq<Step>, states: seq<State>, n: nat)
    requires Runs(steps, states) && n <= |steps|
    ensures CanDrain(states[n]) <==> forall i :: 0 <= i < |states[n].sent| ==> states[n].sent[i] != []
  {
    hide Empties, Inv;
    RunsInv(steps, states, n);
    var s := states[n];
    if CanDrain(s) {
      var more, after :| Empties(s, more, after);
      Drained(s, more, after);
    }
    if forall i :: 0 <= i < |s.sent| ==> s.sent[i] != [] {
      var more, after := Drain(s);
    }
  }

  lemma Drained(s: State, steps: seq<Step>, states: seq<State>)
    requires Inv(s) && Empties(s, steps, states)
    ensures forall i :: 0 <= i < |s.sent| ==> s.sent[i] != []
  {
    PathInv(s, steps, states, |steps|);
    var t := states[|steps|];
    assert t.sent[t.written..] == [];
    assert s.sent == t.sent[..|s.sent|];
  }

  /** The steps that write everything: the queue is filled, and then served. */
  lemma {:induction false} Drain(s: State) returns (steps: seq<Step>, states: seq<State>)
    requires Inv(s) && forall i :: 0 <= i < |s.sent| ==> s.sent[i] != []
    ensures Empties(s, steps, states)
    decreases 2 * |s.posted| + |s.sendBuf|
  {
    hide Parse, Flat, Stream, HaveComplete, ToInt32, Path;
    if s.posted != [] {
      StepInv(s, RealSend);
      steps, states := Drain(Next(s, RealSend));
      steps, states := Before(s, RealSend, steps, states);
    } else if s.sendBuf != [] {
      assert (s.sendBuf + s.posted)[0] == s.sent[s.written..][0] == s.sent[s.written];
      var write := Transmit(|s.sendBuf[0]| - s.progress.value);
      StepInv(s, write);
      var t := Next(s, write);
      StepInv(t, OnWrite);
      steps, states := Drain(Next(t, OnWrite));
      steps, states := Before(t, OnWrite, steps, states);
      steps, states := Before(s, write, steps, states);
    } else {
      steps, states := [], [s];
      assert Path(s, [], [s]) by { Nowhere(s); }
    }
  }

  lemma Nowhere(s: State)
    ensures Path(s, [], [s])
  {
  }

  lemma Before(s: State, step: Step, steps: seq<Step>, states: seq<State>) returns (steps1: seq<Step>, states1: seq<State>)
    requires Enabled(s, step) && Path(Next(s, step), steps, states)
    ensures Path(s, steps1, states1) && |steps1| == |steps| + 1 && states1[|steps1|] == states[|steps|]
  {
    steps1, states1 := [step] + steps, [s] + states;
    forall i | 0 <= i < |steps1|
      ensures Enabled(states1[i], steps1[i]) && states1[i + 1] == Next(states1[i], steps1[i])
    {
      if i > 0 {
        assert states1[i] == states[i - 1] && steps1[i] == steps[i - 1];
      }
    }
  }

  /** A run that sticks: an empty buffer, and one behind it that is never written. */
  lemma EmptyBufferSticks() returns (states: seq<State>)
    ensures var steps := [Send([]), RealSend, Send([7]), RealSend];
      Runs(steps, states) && Stuck(states[4]) && states[4].sent == [[], [7]] && states[4].written == 0
  {
    var steps := [Send([]), RealSend, Send([7]), RealSend];
    var s1 := Next(Start, Send([]));
    var s2 := Next(s1, RealSend);
    var s3 := Next(s2, Send([7]));
    assert s3.posted == [[7]] && s3.sent == [[], [7]];
    states := [Start, s1, s2, s3, Next(s3, RealSend)];
  }

  // ----- the connection as an object -----

  class Connection {
    var sendBuf: seq<Bytes>
    var writing: bool
    /** The write that the socket is busy with. */
    var progress: Option<nat>
    var recvBuf: Bytes

    constructor ()
      ensures sendBuf == [] && !writing && progress == None && recvBuf == []
    {
      sendBuf, writing, progress, recvBuf := [], false, None, [];
    }

    /** The sending half of a state. */
    ghost predicate Sends(s: State)
      reads this
    {
      s.sendBuf == sendBuf && s.writing == writing && s.progress == progress
    }

    method AsyncWrite(b: Bytes)
      modifies `progress
      ensures progress == if b == [] then old(progress) else Some(0)
    {
      if b == [] {
        return;
      }
      progress := Some(0);
    }

    /** `RealSend`. */
    method RealSendBuffer(b: Bytes, ghost s: State)
      requires Sends(s) && (!writing ==> progress == None)
      modifies `sendBuf, `writing, `progress
      ensures Sends(RealSent(s, b))
    {
      sendBuf := sendBuf + [b];
      if writing {
        return;
      }
      writing := true;
      AsyncWrite(b);
    }

    /** `OnWrite`, when the write has ended without error. */
    method OnWritten(ghost s: State)
      requires Sends(s) && sendBuf != []
      modifies `sendBuf, `writing, `progress
      ensures Sends(Wrote(s))
    {
      writing, progress := false, None;
      sendBuf := sendBuf[1..];
      if sendBuf != [] {
        writing := true;
        AsyncWrite(sendBuf[0]);
      }
    }

    /** `OnRead`: the chunk goes behind what is left from before. */
    method OnReadChunk(chunk: Bytes) returns (ms: seq<Bytes>)
      modifies `recvBuf
      ensures (ms, recvBuf) == Parse(old(recvBuf) + chunk)
    {
      recvBuf := recvBuf + chunk;
      var total;
      ms, total := OnRead(recvBuf);
      if total != 0 {
        recvBuf := recvBuf[total..];
      }
    }
  }
}
