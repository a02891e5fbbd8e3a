/** The per-connection I/O pump of the pool role: a reader loop that forwards
    frames from the transport into the inbound queue, a writer loop that
    drains the outbound queue into the transport, and the shutdown filter
    both loops apply to broadcast shutdown messages.

    The two loops race against each other and against the upper layer that
    consumes the inbound queue and feeds the outbound queue. That race is
    replaced here by an explicit sequence of events, each one a turn of one
    party: the reader's select fires on a shutdown notice or on a frame read,
    the writer's select fires on a shutdown notice or on the outbound queue,
    the upper layer receives, sends or closes. The state machine
    (PumpState, Transition, RunEvents) is the specification; the class Pump
    performs the same steps in place and is proved against it. */
module IoPump {
  import opened Base

  /** The role of the connection a pump serves (the source's StatusType). */
  datatype StatusType = Downstream(id: nat) | TemplateReceiver

  datatype ShutdownMessage = ShutdownAll | DownstreamShutdownAll | DownstreamShutdown(downId: nat)

  /** An already-decrypted Stratum V2 frame. */
  datatype Sv2Frame = Sv2Frame(messageType: U8, payload: seq<U8>)

  /** What the transport yields: a handshake frame (illegal after setup) or an Sv2 frame. */
  datatype Frame = HandShake | Sv2(frame: Sv2Frame)

  datatype ReaderEvent =
    | ReaderNotified(notice: Option<ShutdownMessage>)  // None: the broadcast receive failed
    | FrameRead(read: Option<Frame>)                    // None: the transport read failed

  datatype WriterEvent =
    | WriterNotified(notice: Option<ShutdownMessage>)  // None: the broadcast receive failed
    | OutboundReady(writeOk: bool)                      // writeOk: outcome of writing a dequeued frame

  /** Actions of the business logic on the other ends of the two queues. */
  datatype UpperEvent =
    | ConsumerRecv                 // take the next inbound frame, if any
    | ConsumerClose                // close or drop the inbound receiver
    | ProducerSend(frame: Sv2Frame)
    | ProducerClose                // close or drop every outbound sender

  datatype Event = ReaderTurn(r: ReaderEvent) | WriterTurn(w: WriterEvent) | Upper(u: UpperEvent)

  /** Both queues with their closed flags, whether each loop still runs, and
      four logs: frames the reader forwarded, frames the consumer received,
      frames the producer queued, frames the writer wrote to the transport. */
  datatype PumpState = PumpState(
    status: StatusType,
    inbound: seq<Sv2Frame>, inboundClosed: bool,
    outbound: seq<Sv2Frame>, outboundClosed: bool,
    readerRunning: bool, writerRunning: bool,
    forwarded: seq<Sv2Frame>, delivered: seq<Sv2Frame>,
    produced: seq<Sv2Frame>, written: seq<Sv2Frame>)

  function Initial(status: StatusType): PumpState {
    PumpState(status, [], false, [], false, true, true, [], [], [], [])
  }

  /** Whether a loop of a pump with role `status` acts on `m`: ShutdownAll
      always, DownstreamShutdown(d) only for the pump of Downstream(d), and
      never DownstreamShutdownAll. The exemption of the template receiver
      is implied by the identity test. */
  function ShutdownApplies(status: StatusType, m: ShutdownMessage): (stops: bool)
    ensures stops <==> m == ShutdownAll || (m.DownstreamShutdown? && status == Downstream(m.downId))
    ensures status == TemplateReceiver ==> (stops <==> m == ShutdownAll)
  {
    match m
    case ShutdownAll => true
    case DownstreamShutdown(downId) =>
      (status.Downstream? && status.id == downId) && status != TemplateReceiver
    case DownstreamShutdownAll => false
  }

  /** What each loop does when it leaves its loop: close both queues. */
  function ReaderExit(s: PumpState): PumpState {
    s.(inboundClosed := true, outboundClosed := true, readerRunning := false)
  }

  function WriterExit(s: PumpState): PumpState {
    s.(outboundClosed := true, inboundClosed := true, writerRunning := false)
  }

  /** One turn of the reader loop. The reader touches only the inbound queue,
      the forwarded log and the closed and running flags; it forwards at most
      one frame per turn, and a stopped reader does nothing. */
  function ReaderTransition(s: PumpState, e: ReaderEvent): (t: PumpState)
    ensures !s.readerRunning ==> t == s
    ensures t.status == s.status && t.writerRunning == s.writerRunning
    ensures t.outbound == s.outbound && t.delivered == s.delivered
    ensures t.produced == s.produced && t.written == s.written
    ensures s.forwarded <= t.forwarded && |t.forwarded| <= |s.forwarded| + 1
  {
    if !s.readerRunning then s
    else
      match e
      case ReaderNotified(Some(m)) => if ShutdownApplies(s.status, m) then ReaderExit(s) else s
      case ReaderNotified(None) => s
      case FrameRead(None) => ReaderExit(s)
      case FrameRead(Some(HandShake)) => ReaderExit(s)
      case FrameRead(Some(Sv2(f))) =>
        if s.inboundClosed then ReaderExit(s)  // the send fails
        else s.(inbound := s.inbound + [f], forwarded := s.forwarded + [f])
  }

  /** One turn of the writer loop. The writer touches only the outbound queue,
      the written log and the closed and running flags; it dequeues at most
      one frame per turn, writes at most that one, and a stopped writer does
      nothing. */
  function WriterTransition(s: PumpState, e: WriterEvent): (t: PumpState)
    ensures !s.writerRunning ==> t == s
    ensures t.status == s.status && t.readerRunning == s.readerRunning
    ensures t.inbound == s.inbound && t.forwarded == s.forwarded
    ensures t.delivered == s.delivered && t.produced == s.produced
    ensures t.outbound == s.outbound || (s.outbound != [] && t.outbound == s.outbound[1..])
    ensures t.written == s.written || (s.outbound != [] && t.written == s.written + [s.outbound[0]])
  {
    if !s.writerRunning then s
    else
      match e
      case WriterNotified(Some(m)) => if ShutdownApplies(s.status, m) then WriterExit(s) else s
      case WriterNotified(None) => s
      case OutboundReady(writeOk) =>
        if s.outbound != [] then
          if writeOk then s.(outbound := s.outbound[1..], written := s.written + [s.outbound[0]])
          else WriterExit(s.(outbound := s.outbound[1..]))
        else if s.outboundClosed then WriterExit(s)  // the receive fails
        else s                                        // the receive is still pending
  }

  function UpperTransition(s: PumpState, e: UpperEvent): PumpState {
    match e
    case ConsumerRecv =>
      if s.inbound != [] then s.(inbound := s.inbound[1..], delivered := s.delivered + [s.inbound[0]]) else s
    case ConsumerClose => s.(inboundClosed := true)
    case ProducerSend(f) =>
      if s.outboundClosed then s else s.(outbound := s.outbound + [f], produced := s.produced + [f])
    case ProducerClose => s.(outboundClosed := true)
  }

  function Transition(s: PumpState, e: Event): PumpState {
    match e
    case ReaderTurn(r) => ReaderTransition(s, r)
    case WriterTurn(w) => WriterTransition(s, w)
    case Upper(u) => UpperTransition(s, u)
  }

  function RunEvents(s: PumpState, es: seq<Event>): PumpState
    decreases |es|
  {
    if es == [] then s else RunEvents(Transition(s, es[0]), es[1..])
  }

  /** The Sv2 frame the transport delivers to the reader in event `e`, if any. */
  function ReadFrame(e: Event): seq<Sv2Frame> {
    match e
    case ReaderTurn(FrameRead(Some(Sv2(f)))) => [f]
    case _ => []
  }

  /** The Sv2 frames the transport delivered to the reader in `es`, in order. */
  function ReadFrames(es: seq<Event>): seq<Sv2Frame>
    decreases |es|
  {
    if es == [] then [] else ReadFrame(es[0]) + ReadFrames(es[1..])
  }

  /** The invariant of a pump: a stopped loop has closed both queues; the
      inbound queue holds what was forwarded and not yet received; the
      writer has written a prefix of what was produced, and the outbound
      queue holds the newest produced frames. */
  ghost predicate Inv(s: PumpState) {
    && (!s.readerRunning ==> s.inboundClosed && s.outboundClosed)
    && (!s.writerRunning ==> s.inboundClosed && s.outboundClosed)
    && s.forwarded == s.delivered + s.inbound
    && |s.written| + |s.outbound| <= |s.produced|
    && s.written == s.produced[..|s.written|]
    && s.outbound == s.produced[|s.produced| - |s.outbound|..]
    && (s.writerRunning ==> |s.written| + |s.outbound| == |s.produced|)
  }

  lemma InitialInv(status: StatusType)
    ensures Inv(Initial(status))
  {
  }

  lemma ReaderStepKeepsInv(s: PumpState, e: ReaderEvent)
    requires Inv(s)
    ensures Inv(ReaderTransition(s, e))
  {
    if s.readerRunning && e.FrameRead? && e.read.Some? && e.read.value.Sv2? && !s.inboundClosed {
      var f := e.read.value.frame;
      assert ReaderTransition(s, e) == s.(inbound := s.inbound + [f], forwarded := s.forwarded + [f]);
      assert s.delivered + (s.inbound + [f]) == s.forwarded + [f];
    }
  }

  /** The writer dequeues the oldest queued frame, which is the next unwritten produced one. */
  lemma WriterDequeueKeepsInv(s: PumpState, writeOk: bool)
    requires Inv(s) && s.writerRunning && s.outbound != []
    ensures Inv(WriterTransition(s, OutboundReady(writeOk)))
  {
    var n := |s.written|;
    assert s.produced == s.written + s.outbound by {
      assert s.produced == s.produced[..n] + s.produced[n..];
    }
    var w := if writeOk then s.written + [s.outbound[0]] else s.written;
    var t := WriterTransition(s, OutboundReady(writeOk));
    assert t.outbound == s.outbound[1..] && t.written == w && t.produced == s.produced;
    assert s.produced[..|w|] == w;
    assert s.produced[|s.produced| - |s.outbound[1..]|..] == s.outbound[1..];
  }

  lemma WriterStepKeepsInv(s: PumpState, e: WriterEvent)
    requires Inv(s)
    ensures Inv(WriterTransition(s, e))
  {
    if s.writerRunning && e.OutboundReady? && s.outbound != [] {
      WriterDequeueKeepsInv(s, e.writeOk);
    }
  }

  lemma UpperStepKeepsInv(s: PumpState, e: UpperEvent)
    requires Inv(s)
    ensures Inv(UpperTransition(s, e))
  {
    var t := UpperTransition(s, e);
    match e
    case ConsumerRecv =>
      if s.inbound != [] {
        assert t.delivered + t.inbound == s.delivered + s.inbound by {
          assert [s.inbound[0]] + s.inbound[1..] == s.inbound;
        }
      }
    case ConsumerClose =>
    case ProducerSend(f) =>
      if !s.outboundClosed {
        assert t.produced[..|t.written|] == s.produced[..|s.written|];
        assert t.produced[|t.produced| - |t.outbound|..] == s.produced[|s.produced| - |s.outbound|..] + [f];
      }
    case ProducerClose =>
  }

  lemma StepKeepsInv(s: PumpState, e: Event)
    requires Inv(s)
    ensures Inv(Transition(s, e))
  {
    match e
    case ReaderTurn(r) => ReaderStepKeepsInv(s, r);
    case WriterTurn(w) => WriterStepKeepsInv(s, w);
    case Upper(u) => UpperStepKeepsInv(s, u);
  }

  /** Every state reached from an invariant state keeps the invariant. */
  lemma {:induction false} RunKeepsInv(s: PumpState, es: seq<Event>)
    requires Inv(s)
    ensures Inv(RunEvents(s, es))
    decreases |es|
  {
    if es != [] {
      StepKeepsInv(s, es[0]);
      RunKeepsInv(Transition(s, es[0]), es[1..]);
    }
  }

  lemma {:induction false} RunAppend(s: PumpState, a: seq<Event>, b: seq<Event>)
    ensures RunEvents(s, a + b) == RunEvents(RunEvents(s, a), b)
    decreases |a|
  {
    if a != [] {
      assert (a + b)[0] == a[0];
      assert (a + b)[1..] == a[1..] + b;
      RunAppend(Transition(s, a[0]), a[1..], b);
    } else {
      assert a + b == b;
    }
  }

  lemma {:induction false} ReadFramesAppend(a: seq<Event>, b: seq<Event>)
    ensures ReadFrames(a + b) == ReadFrames(a) + ReadFrames(b)
    decreases |a|
  {
    if a != [] {
      assert (a + b)[0] == a[0];
      assert (a + b)[1..] == a[1..] + b;
      ReadFramesAppend(a[1..], b);
    } else {
      assert a + b == b;
    }
  }

  /** A reader that has left its loop never runs again and forwards nothing more. */
  lemma {:induction false} StoppedReaderStaysStopped(s: PumpState, es: seq<Event>)
    requires !s.readerRunning
    ensures !RunEvents(s, es).readerRunning
    ensures RunEvents(s, es).forwarded == s.forwarded
    decreases |es|
  {
    if es != [] {
      StoppedReaderStaysStopped(Transition(s, es[0]), es[1..]);
    }
  }

  /** A writer that has left its loop never runs again and writes nothing more. */
  lemma {:induction false} StoppedWriterStaysStopped(s: PumpState, es: seq<Event>)
    requires !s.writerRunning
    ensures !RunEvents(s, es).writerRunning
    ensures RunEvents(s, es).written == s.written
    decreases |es|
  {
    if es != [] {
      StoppedWriterStaysStopped(Transition(s, es[0]), es[1..]);
    }
  }

  /** Which single events make a running reader leave its loop: an applicable
      shutdown notice, a failed read, a handshake frame, or an Sv2 frame that
      cannot be forwarded because the inbound queue is closed. On leaving it
      forwards nothing and has closed both queues; otherwise it forwards
      exactly the Sv2 frame it read, if any. */
  lemma ReaderExitConditions(s: PumpState, e: ReaderEvent)
    requires s.readerRunning
    ensures var t := ReaderTransition(s, e);
      && (!t.readerRunning <==>
            || (e.ReaderNotified? && e.notice.Some? && ShutdownApplies(s.status, e.notice.value))
            || e == FrameRead(None)
            || e == FrameRead(Some(HandShake))
            || (e.FrameRead? && e.read.Some? && e.read.value.Sv2? && s.inboundClosed))
      && (!t.readerRunning ==> t.forwarded == s.forwarded && t.inboundClosed && t.outboundClosed)
      && (t.readerRunning ==>
            t.forwarded == s.forwarded + ReadFrame(ReaderTurn(e)) && t.inboundClosed == s.inboundClosed)
  {
    match e
    case ReaderNotified(n) =>
    case FrameRead(r) =>
      match r
      case None =>
      case Some(f) =>
  }

  /** Which single events make a running writer leave its loop: an applicable
      shutdown notice, a failed write of the frame it dequeued, or a receive
      on a closed, empty outbound queue. On leaving it writes nothing and has
      closed both queues; otherwise it writes exactly the frame it dequeued,
      if any. */
  lemma WriterExitConditions(s: PumpState, e: WriterEvent)
    requires s.writerRunning
    ensures var t := WriterTransition(s, e);
      && (!t.writerRunning <==>
            || (e.WriterNotified? && e.notice.Some? && ShutdownApplies(s.status, e.notice.value))
            || (e == OutboundReady(false) && s.outbound != [])
            || (e.OutboundReady? && s.outbound == [] && s.outboundClosed))
      && (!t.writerRunning ==> t.written == s.written && t.inboundClosed && t.outboundClosed)
      && (t.writerRunning ==>
            && t.inboundClosed == s.inboundClosed && t.outboundClosed == s.outboundClosed
            && t.written == s.written + (if e.OutboundReady? && s.outbound != [] then [s.outbound[0]] else []))
  {
    match e
    case WriterNotified(n) =>
    case OutboundReady(ok) =>
  }

  /** One event forwards the frame it reads while the reader keeps running,
      and nothing otherwise. */
  lemma StepForwardsReadFrame(s: PumpState, e: Event)
    ensures var t := Transition(s, e);
      t.forwarded == s.forwarded + (if t.readerRunning then ReadFrame(e) else [])
  {
  }

  /** The reader forwards the Sv2 frames it reads in read order, skipping
      none while it runs and forwarding nothing once it has stopped. */
  lemma {:induction false} ForwardedInReadOrder(s: PumpState, es: seq<Event>)
    ensures RunEvents(s, es).forwarded <= s.forwarded + ReadFrames(es)
    ensures RunEvents(s, es).readerRunning ==> RunEvents(s, es).forwarded == s.forwarded + ReadFrames(es)
    decreases |es|
  {
    if es != [] {
      var t := Transition(s, es[0]);
      StepForwardsReadFrame(s, es[0]);
      ForwardedInReadOrder(t, es[1..]);
      if t.readerRunning {
        assert s.forwarded + ReadFrames(es) == t.forwarded + ReadFrames(es[1..]);
      } else {
        StoppedReaderStaysStopped(t, es[1..]);
      }
    }
  }

  /** A handshake frame read mid-stream stops the reader: everything forwarded
      was forwarded before it, and nothing read after it is forwarded. */
  lemma HandshakeStopsForwarding(s: PumpState, before: seq<Event>, after: seq<Event>)
    requires RunEvents(s, before).readerRunning
    ensures var all := before + [ReaderTurn(FrameRead(Some(HandShake)))] + after;
      && !RunEvents(s, all).readerRunning
      && RunEvents(s, all).forwarded == RunEvents(s, before).forwarded
  {
    var h := ReaderTurn(FrameRead(Some(HandShake)));
    RunAppend(s, before + [h], after);
    RunAppend(s, before, [h]);
    StoppedReaderStaysStopped(RunEvents(s, before + [h]), after);
  }

  /** Running `es` is running its first i events, then event i, then the rest. */
  lemma RunSplitAt(s: PumpState, es: seq<Event>, i: nat)
    requires i < |es|
    ensures RunEvents(s, es) == RunEvents(Transition(RunEvents(s, es[..i]), es[i]), es[i + 1..])
  {
    assert es == es[..i] + es[i..];
    RunAppend(s, es[..i], es[i..]);
    assert es[i..][0] == es[i] && es[i..][1..] == es[i + 1..];
  }

  lemma ReaderStopsForGood(s: PumpState, es: seq<Event>, i: nat)
    requires i < |es| && es[i] == ReaderTurn(ReaderNotified(Some(ShutdownAll)))
    ensures !RunEvents(s, es).readerRunning
    ensures RunEvents(s, es).forwarded == RunEvents(s, es[..i]).forwarded
  {
    RunSplitAt(s, es, i);
    StoppedReaderStaysStopped(Transition(RunEvents(s, es[..i]), es[i]), es[i + 1..]);
  }

  lemma WriterStopsForGood(s: PumpState, es: seq<Event>, j: nat)
    requires j < |es| && es[j] == WriterTurn(WriterNotified(Some(ShutdownAll)))
    ensures !RunEvents(s, es).writerRunning
    ensures RunEvents(s, es).written == RunEvents(s, es[..j]).written
  {
    RunSplitAt(s, es, j);
    StoppedWriterStaysStopped(Transition(RunEvents(s, es[..j]), es[j]), es[j + 1..]);
  }

  /** Once both loops have seen ShutdownAll, both have stopped, both queues are
      closed, and neither forwarded nor wrote anything from that notice on. */
  lemma ShutdownAllStopsBothLoops(s: PumpState, es: seq<Event>, i: nat, j: nat)
    requires Inv(s)
    requires i < |es| && es[i] == ReaderTurn(ReaderNotified(Some(ShutdownAll)))
    requires j < |es| && es[j] == WriterTurn(WriterNotified(Some(ShutdownAll)))
    ensures var t := RunEvents(s, es);
      && !t.readerRunning && !t.writerRunning && t.inboundClosed && t.outboundClosed
      && t.forwarded == RunEvents(s, es[..i]).forwarded
      && t.written == RunEvents(s, es[..j]).written
  {
    ReaderStopsForGood(s, es, i);
    WriterStopsForGood(s, es, j);
    RunKeepsInv(s, es);
  }

  /** DownstreamShutdown(d), seen by both loops, stops exactly the pump of
      Downstream(d); any other pump, the template receiver included, is left
      exactly as it was. DownstreamShutdownAll and failed receives are
      ignored by every pump. */
  lemma DownstreamShutdownScope(s: PumpState, d: nat)
    requires s.readerRunning && s.writerRunning
    ensures var notice := [ReaderTurn(ReaderNotified(Some(DownstreamShutdown(d)))),
                           WriterTurn(WriterNotified(Some(DownstreamShutdown(d))))];
      var t := RunEvents(s, notice);
      && (!t.readerRunning && !t.writerRunning <==> s.status == Downstream(d))
      && (s.status != Downstream(d) ==> t == s)
    ensures forall m :: (m == DownstreamShutdownAll || (m.DownstreamShutdown? && s.status != Downstream(m.downId))) ==>
      Transition(s, ReaderTurn(ReaderNotified(Some(m)))) == s &&
      Transition(s, WriterTurn(WriterNotified(Some(m)))) == s
    ensures Transition(s, ReaderTurn(ReaderNotified(None))) == s
    ensures Transition(s, WriterTurn(WriterNotified(None))) == s
  {
    var notice := [ReaderTurn(ReaderNotified(Some(DownstreamShutdown(d)))),
                   WriterTurn(WriterNotified(Some(DownstreamShutdown(d))))];
    var s1 := Transition(s, notice[0]);
    assert RunEvents(s, notice) == RunEvents(s1, notice[1..]);
    assert notice[1..][0] == notice[1] && notice[1..][1..] == [];
    assert RunEvents(s1, notice[1..]) == RunEvents(Transition(s1, notice[1]), []);
  }

  /** n turns of the writer's queue arm, each write succeeding. */
  function Polls(n: nat): (es: seq<Event>)
    ensures |es| == n
    ensures forall k :: 0 <= k < n ==> es[k] == WriterTurn(OutboundReady(true))
  {
    if n == 0 then [] else [WriterTurn(OutboundReady(true))] + Polls(n - 1)
  }

  /** After the reader has stopped, the writer writes what is still queued and
      then stops on its next turn: the reader's exit closed the outbound
      queue, so no new frame arrives and the empty queue reports closure. */
  lemma {:induction false} WriterFinishesAfterReaderExit(s: PumpState)
    requires Inv(s) && !s.readerRunning
    ensures var t := RunEvents(s, Polls(|s.outbound| + 1));
      && !t.writerRunning
      && (s.writerRunning ==> t.written == s.written + s.outbound)
    decreases |s.outbound|
  {
    var p := WriterTurn(OutboundReady(true));
    var es := Polls(|s.outbound| + 1);
    assert es[0] == p;
    var t := Transition(s, p);
    if !s.writerRunning {
      StoppedWriterStaysStopped(s, es);
    } else if s.outbound == [] {
      assert es[1..] == [];
    } else {
      StepKeepsInv(s, p);
      assert es[1..] == Polls(|t.outbound| + 1);
      WriterFinishesAfterReaderExit(t);
    }
  }

  /** After the writer has stopped, the reader's next Sv2 frame cannot be
      forwarded (the writer's exit closed the inbound queue), so the reader
      stops on it. */
  lemma ReaderStopsAfterWriterExit(s: PumpState, f: Sv2Frame)
    requires Inv(s) && !s.writerRunning
    ensures var t := Transition(s, ReaderTurn(FrameRead(Some(Sv2(f)))));
      !t.readerRunning && t.forwarded == s.forwarded
  {
  }

  /** From a fresh pump, the consumer receives a prefix of the frames the
      transport delivered, in the same order, and the transport is written a
      prefix of what the producer queued, in the same order. */
  lemma FramesKeepTheirOrder(status: StatusType, es: seq<Event>)
    ensures RunEvents(Initial(status), es).delivered <= ReadFrames(es)
    ensures RunEvents(Initial(status), es).written <= RunEvents(Initial(status), es).produced
  {
    var t := RunEvents(Initial(status), es);
    RunKeepsInv(Initial(status), es);
    ForwardedInReadOrder(Initial(status), es);
    assert t.delivered <= t.forwarded;
  }

  /** One connection's pump, updated in place. */
  class Pump {
    const status: StatusType
    var inbound: seq<Sv2Frame>
    var inboundClosed: bool
    var outbound: seq<Sv2Frame>
    var outboundClosed: bool
    var readerRunning: bool
    var writerRunning: bool
    var forwarded: seq<Sv2Frame>
    var delivered: seq<Sv2Frame>
    var produced: seq<Sv2Frame>
    var written: seq<Sv2Frame>

    function State(): PumpState
      reads this
    {
      PumpState(status, inbound, inboundClosed, outbound, outboundClosed,
                readerRunning, writerRunning, forwarded, delivered, produced, written)
    }

    ghost predicate Valid()
      reads this
    {
      Inv(State())
    }

    constructor (status: StatusType)
      ensures State() == Initial(status) && Valid()
    {
      this.status := status;
      inbound, inboundClosed := [], false;
      outbound, outboundClosed := [], false;
      readerRunning, writerRunning := true, true;
      forwarded, delivered, produced, written := [], [], [], [];
      InitialInv(status);
    }

    /** One turn of the reader loop. */
    method ReaderStep(e: ReaderEvent)
      modifies this
      ensures State() == ReaderTransition(old(State()), e)
    {
      if !readerRunning {
        return;
      }
      var exit := false;
      match e {
        case ReaderNotified(Some(ShutdownAll)) =>
          inboundClosed := true;
          exit := true;
        case ReaderNotified(Some(DownstreamShutdown(downId))) =>
          if status.Downstream? && status.id == downId {
            if status != TemplateReceiver {
              inboundClosed := true;
              exit := true;
            }
          }
        case ReaderNotified(_) =>
        case FrameRead(Some(HandShake)) =>
          exit := true;
        case FrameRead(Some(Sv2(frame))) =>
          if inboundClosed {
            exit := true;
          } else {
            inbound := inbound + [frame];
            forwarded := forwarded + [frame];
          }
        case FrameRead(None) =>
          inboundClosed := true;
          exit := true;
      }
      if exit {
        inboundClosed := true;
        outboundClosed := true;
        readerRunning := false;
      }
    }

    /** One turn of the writer loop. */
    method WriterStep(e: WriterEvent)
      modifies this
      ensures State() == WriterTransition(old(State()), e)
    {
      if !writerRunning {
        return;
      }
      var exit := false;
      match e {
        case WriterNotified(Some(ShutdownAll)) =>
          outboundClosed := true;
          exit := true;
        case WriterNotified(Some(DownstreamShutdown(downId))) =>
          if status.Downstream? && status.id == downId {
            if status != TemplateReceiver {
              outboundClosed := true;
              exit := true;
            }
          }
        case WriterNotified(_) =>
        case OutboundReady(writeOk) =>
          if outbound != [] {
            var frame := outbound[0];
            outbound := outbound[1..];
            if writeOk {
              written := written + [frame];
            } else {
              outboundClosed := true;
              exit := true;
            }
          } else if outboundClosed {
            exit := true;
          }
      }
      if exit {
        outboundClosed := true;
        inboundClosed := true;
        writerRunning := false;
      }
    }

    /** The consumer takes the next inbound frame, if one is queued. */
    method ConsumerRecv() returns (f: Option<Sv2Frame>)
      modifies this
      ensures State() == UpperTransition(old(State()), UpperEvent.ConsumerRecv)
      ensures f == if old(inbound) == [] then None else Some(old(inbound)[0])
    {
      if inbound == [] {
        f := None;
      } else {
        f := Some(inbound[0]);
        inbound := inbound[1..];
        delivered := delivered + [f.value];
      }
    }

    method ConsumerClose()
      modifies this
      ensures State() == UpperTransition(old(State()), UpperEvent.ConsumerClose)
    {
      inboundClosed := true;
    }

    /** The producer queues a frame; this fails once the queue is closed. */
    method ProducerSend(f: Sv2Frame) returns (ok: bool)
      modifies this
      ensures State() == UpperTransition(old(State()), UpperEvent.ProducerSend(f))
      ensures ok == !old(outboundClosed)
    {
      ok := !outboundClosed;
      if ok {
        outbound := outbound + [f];
        produced := produced + [f];
      }
    }

    method ProducerClose()
      modifies this
      ensures State() == UpperTransition(old(State()), UpperEvent.ProducerClose)
    {
      outboundClosed := true;
    }

    method Handle(e: Event)
      requires Valid()
      modifies this
      ensures Valid()
      ensures State() == Transition(old(State()), e)
    {
      StepKeepsInv(State(), e);
      match e {
        case ReaderTurn(r) => ReaderStep(r);
        case WriterTurn(w) => WriterStep(w);
        case Upper(ConsumerRecv) => var _ := ConsumerRecv();
        case Upper(ConsumerClose) => ConsumerClose();
        case Upper(ProducerSend(f)) => var _ := ProducerSend(f);
        case Upper(ProducerClose) => ProducerClose();
      }
    }

    /** Runs the pump over an interleaving of the parties' turns. */
    method Run(events: seq<Event>)
      requires Valid()
      modifies this
      ensures Valid()
      ensures State() == RunEvents(old(State()), events)
    {
      var i := 0;
      while i < |events|
        invariant 0 <= i <= |events|
        invariant Valid()
        invariant State() == RunEvents(old(State()), events[..i])
      {
        RunAppend(old(State()), events[..i], [events[i]]);
        assert events[..i + 1] == events[..i] + [events[i]];
        Handle(events[i]);
        i := i + 1;
      }
      assert events[..i] == events;
    }
  }
}
