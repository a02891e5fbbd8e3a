/** The file persistence backend: callers push commands onto a bounded
    channel without ever blocking or failing, and a background worker takes
    them in order and appends one line per written event to a log file.

    The channel, the worker's progress and the file are modelled together:
    the channel as a sequence of queued commands with a closed flag, the
    file as the sequence of its lines. A flush has no effect on the lines.
    The pure functions (TrySend, WorkerTurn, Settle) are the specification;
    the class FileBackend performs the same steps in place. */
module FilePersistence {
  import opened Base
  import opened ShareEvents

  datatype FileCommand = Write(text: string) | Flush | Shutdown

  /** The channel's queued commands, whether it is closed, the file's lines,
      and whether the worker is still in its loop. */
  datatype Backend = Backend(queue: seq<FileCommand>, closed: bool, lines: seq<string>, workerRunning: bool)

  /** try_send: the command joins the queue unless the channel is closed or
      already holds `capacity` commands, in which case it is dropped. */
  function TrySend(b: Backend, capacity: nat, cmd: FileCommand): (r: Backend)
    ensures r.closed == b.closed && r.lines == b.lines && r.workerRunning == b.workerRunning
    ensures b.queue <= r.queue && |r.queue| <= |b.queue| + 1
    ensures |r.queue| > |b.queue| <==> !b.closed && |b.queue| < capacity
    ensures |r.queue| > |b.queue| ==> r.queue[|b.queue|] == cmd
    ensures |b.queue| <= capacity ==> |r.queue| <= capacity
  {
    if b.closed || |b.queue| >= capacity then b else b.(queue := b.queue + [cmd])
  }

  /** The worker's drain after a Shutdown: it takes queued commands until the
      next Shutdown or an empty queue, writing each Write as a line. Yields
      the commands left in the queue and the file's lines. */
  function Drain(queue: seq<FileCommand>, lines: seq<string>): (r: (seq<FileCommand>, seq<string>))
    ensures |r.0| <= |queue|
    ensures lines <= r.1
    decreases |queue|
  {
    if queue == [] then (queue, lines)
    else
      match queue[0]
      case Write(text) => Drain(queue[1..], lines + [text])
      case Flush => Drain(queue[1..], lines)
      case Shutdown => (queue[1..], lines)
  }

  /** One iteration of the worker's loop. With an empty open channel the
      blocking receive waits, and nothing changes. When the worker leaves
      its loop it drops the channel's only receiver, which closes it. */
  function WorkerTurn(b: Backend): (r: Backend)
    ensures |r.queue| <= |b.queue|
    ensures b.lines <= r.lines
    ensures b.workerRunning && (b.queue != [] || b.closed) ==> |r.queue| < |b.queue| || !r.workerRunning
  {
    if !b.workerRunning then b
    else if b.queue == [] then
      if b.closed then b.(workerRunning := false) else b
    else
      match b.queue[0]
      case Write(text) => b.(queue := b.queue[1..], lines := b.lines + [text])
      case Flush => b.(queue := b.queue[1..])
      case Shutdown =>
        var (rest, lines) := Drain(b.queue[1..], b.lines);
        b.(queue := rest, lines := lines, workerRunning := false, closed := true)
  }

  /** The worker runs until it blocks on an empty open channel or stops. */
  function Settle(b: Backend): (r: Backend)
    ensures !r.workerRunning || (r.queue == [] && !r.closed)
    ensures b.lines <= r.lines
    decreases |b.queue|, b.workerRunning
  {
    if !b.workerRunning || (b.queue == [] && !b.closed) then b else Settle(WorkerTurn(b))
  }

  /** The texts of the Write commands in `cmds`, in order. */
  function WriteTexts(cmds: seq<FileCommand>): seq<string>
    decreases |cmds|
  {
    if cmds == [] then []
    else (match cmds[0] case Write(text) => [text] case _ => []) + WriteTexts(cmds[1..])
  }

  /** The commands before the first Shutdown (all of them if there is none). */
  function UntilShutdown(cmds: seq<FileCommand>): seq<FileCommand>
    decreases |cmds|
  {
    if cmds == [] || cmds[0] == Shutdown then [] else [cmds[0]] + UntilShutdown(cmds[1..])
  }

  /** The commands after the first Shutdown (none if there is none). */
  function AfterShutdown(cmds: seq<FileCommand>): seq<FileCommand>
    decreases |cmds|
  {
    if cmds == [] then [] else if cmds[0] == Shutdown then cmds[1..] else AfterShutdown(cmds[1..])
  }

  /** The first Shutdown splits a command sequence into what precedes it and
      what follows it. */
  lemma {:induction false} SplitAtShutdown(cmds: seq<FileCommand>)
    ensures Shutdown !in UntilShutdown(cmds)
    ensures Shutdown in cmds ==> cmds == UntilShutdown(cmds) + [Shutdown] + AfterShutdown(cmds)
    ensures Shutdown !in cmds ==> cmds == UntilShutdown(cmds) && AfterShutdown(cmds) == []
    decreases |cmds|
  {
    if cmds != [] && cmds[0] != Shutdown {
      SplitAtShutdown(cmds[1..]);
      assert cmds == [cmds[0]] + cmds[1..];
    }
  }

  /** The drain writes the Writes that precede the next Shutdown, consumes
      that Shutdown, and leaves everything after it queued. */
  lemma {:induction false} DrainWritesUntilShutdown(queue: seq<FileCommand>, lines: seq<string>)
    ensures Drain(queue, lines) == (AfterShutdown(queue), lines + WriteTexts(UntilShutdown(queue)))
    decreases |queue|
  {
    if queue == [] {
      assert lines + WriteTexts([]) == lines;
    } else {
      var u := UntilShutdown(queue[1..]);
      assert ([queue[0]] + u)[0] == queue[0] && ([queue[0]] + u)[1..] == u;
      match queue[0]
      case Shutdown =>
        assert lines + WriteTexts([]) == lines;
      case Write(text) =>
        DrainWritesUntilShutdown(queue[1..], lines + [text]);
        assert UntilShutdown(queue) == [queue[0]] + u;
        assert WriteTexts([queue[0]] + u) == [text] + WriteTexts(u);
        assert lines + [text] + WriteTexts(u) == lines + ([text] + WriteTexts(u));
      case Flush =>
        DrainWritesUntilShutdown(queue[1..], lines);
        assert UntilShutdown(queue) == [queue[0]] + u;
        assert WriteTexts([queue[0]] + u) == [] + WriteTexts(u) == WriteTexts(u);
    }
  }

  lemma {:induction false} WriteTextsAppend(a: seq<FileCommand>, b: seq<FileCommand>)
    ensures WriteTexts(a + b) == WriteTexts(a) + WriteTexts(b)
    decreases |a|
  {
    if a == [] {
      assert a + b == b;
    } else {
      assert (a + b)[0] == a[0] && (a + b)[1..] == a[1..] + b;
      WriteTextsAppend(a[1..], b);
    }
  }

  /** What a running worker leaves behind once it blocks or stops, stated
      without running it. If a Shutdown is queued, it writes the Writes
      before it, then drains up to the next Shutdown, and stops with the rest
      still queued and never written. Otherwise it writes every queued Write
      and, if the channel is closed, stops; if it is open, it waits. */
  function SettledOutcome(b: Backend): Backend {
    var q := b.queue;
    var a := AfterShutdown(q);
    if Shutdown in q then
      b.(queue := AfterShutdown(a), lines := b.lines + WriteTexts(UntilShutdown(q)) + WriteTexts(UntilShutdown(a)),
         workerRunning := false, closed := true)
    else
      b.(queue := [], lines := b.lines + WriteTexts(q), workerRunning := !b.closed)
  }

  /** A Write or Flush at the head of the queue does not change the outcome. */
  lemma SettledOutcomeStep(b: Backend)
    requires b.workerRunning && b.queue != [] && b.queue[0] != Shutdown
    ensures SettledOutcome(WorkerTurn(b)) == SettledOutcome(b)
  {
    var q := b.queue;
    var t := WorkerTurn(b);
    assert t.queue == q[1..];
    assert [q[0]][1..] == [];
    assert t.lines == b.lines + WriteTexts([q[0]]);
    assert t.workerRunning && t.closed == b.closed;
    assert q == [q[0]] + q[1..];
    assert Shutdown in q <==> Shutdown in q[1..];
    assert AfterShutdown(q) == AfterShutdown(q[1..]);
    assert UntilShutdown(q) == [q[0]] + UntilShutdown(q[1..]);
    WriteTextsAppend([q[0]], UntilShutdown(q[1..]));
    WriteTextsAppend([q[0]], q[1..]);
  }

  lemma SettledOutcomeAtShutdown(b: Backend)
    requires b.workerRunning && b.queue != [] && b.queue[0] == Shutdown
    ensures SettledOutcome(b) == WorkerTurn(b)
  {
    DrainWritesUntilShutdown(b.queue[1..], b.lines);
    assert Shutdown in b.queue;
    assert UntilShutdown(b.queue) == [] && AfterShutdown(b.queue) == b.queue[1..];
  }

  /** Running the worker until it blocks or stops reaches SettledOutcome. */
  lemma {:induction false} SettleOutcome(b: Backend)
    requires b.workerRunning
    ensures Settle(b) == SettledOutcome(b)
    decreases |b.queue|
  {
    var q := b.queue;
    if q == [] {
      assert Shutdown !in q;
      if b.closed {
        assert Settle(b) == Settle(b.(workerRunning := false));
      }
      assert b.lines + WriteTexts(q) == b.lines;
    } else if q[0] == Shutdown {
      SettledOutcomeAtShutdown(b);
    } else {
      SettleOutcome(WorkerTurn(b));
      SettledOutcomeStep(b);
    }
  }

  /** Sending `cmds` in order, each by try_send. */
  function SendAll(b: Backend, capacity: nat, cmds: seq<FileCommand>): Backend
    decreases |cmds|
  {
    if cmds == [] then b else SendAll(TrySend(b, capacity, cmds[0]), capacity, cmds[1..])
  }

  /** Commands that fit into an open channel are all queued, in order. */
  lemma {:induction false} SendAllFits(b: Backend, capacity: nat, cmds: seq<FileCommand>)
    requires !b.closed && |b.queue| + |cmds| <= capacity
    ensures SendAll(b, capacity, cmds) == b.(queue := b.queue + cmds)
    decreases |cmds|
  {
    if cmds == [] {
      assert b.queue + cmds == b.queue;
    } else {
      SendAllFits(TrySend(b, capacity, cmds[0]), capacity, cmds[1..]);
      assert b.queue + [cmds[0]] + cmds[1..] == b.queue + cmds;
    }
  }

  function WritesOf(texts: seq<string>): (cmds: seq<FileCommand>)
    ensures |cmds| == |texts|
    ensures Shutdown !in cmds
    ensures WriteTexts(cmds) == texts
    decreases |texts|
  {
    if texts == [] then [] else [Write(texts[0])] + WritesOf(texts[1..])
  }

  /** Events persisted into an idle backend with room for them, followed by a
      flush, all end up in the file, one line each and in order, and the
      worker then waits for more. */
  lemma PersistedEventsBecomeLines(b: Backend, capacity: nat, texts: seq<string>)
    requires b.workerRunning && !b.closed && b.queue == []
    requires |texts| + 1 <= capacity
    ensures Settle(SendAll(b, capacity, WritesOf(texts) + [Flush])) == b.(lines := b.lines + texts)
  {
    var cmds := WritesOf(texts) + [Flush];
    SendAllFits(b, capacity, cmds);
    assert b.queue + cmds == cmds;
    SettleOutcome(b.(queue := cmds));
    WriteTextsAppend(WritesOf(texts), [Flush]);
    assert WriteTexts([Flush]) == [] by {
      assert [Flush][1..] == [];
    }
    assert Shutdown !in cmds;
  }

  /** Events persisted before a shutdown end up in the file, and the worker
      has stopped; later commands are dropped since the channel is closed. */
  lemma WritesBeforeShutdownReachFile(b: Backend, capacity: nat, texts: seq<string>, later: seq<FileCommand>)
    requires b.workerRunning && !b.closed && b.queue == []
    requires |texts| + 1 <= capacity
    ensures var s := Settle(SendAll(b, capacity, WritesOf(texts) + [Shutdown]));
      && s == b.(lines := b.lines + texts, workerRunning := false, closed := true)
      && Settle(SendAll(s, capacity, later)) == s
  {
    var cmds := WritesOf(texts) + [Shutdown];
    SendAllFits(b, capacity, cmds);
    assert b.queue + cmds == cmds;
    SettleOutcome(b.(queue := cmds));
    SplitAtShutdown(cmds);
    assert UntilShutdown(cmds) == WritesOf(texts) && AfterShutdown(cmds) == [] by {
      assert cmds == WritesOf(texts) + [Shutdown] + [];
      UntilShutdownOfPrefix(WritesOf(texts), []);
    }
    var s := Settle(SendAll(b, capacity, cmds));
    SendAllToClosed(s, capacity, later);
  }

  lemma {:induction false} UntilShutdownOfPrefix(a: seq<FileCommand>, rest: seq<FileCommand>)
    requires Shutdown !in a
    ensures UntilShutdown(a + [Shutdown] + rest) == a
    ensures AfterShutdown(a + [Shutdown] + rest) == rest
    decreases |a|
  {
    var c := a + [Shutdown] + rest;
    if a == [] {
      assert c[0] == Shutdown && c[1..] == rest;
    } else {
      assert c[0] == a[0] && c[1..] == a[1..] + [Shutdown] + rest;
      UntilShutdownOfPrefix(a[1..], rest);
      assert a == [a[0]] + a[1..];
    }
  }

  lemma {:induction false} SendAllToClosed(b: Backend, capacity: nat, cmds: seq<FileCommand>)
    requires b.closed
    ensures SendAll(b, capacity, cmds) == b
    decreases |cmds|
  {
    if cmds != [] {
      SendAllToClosed(b, capacity, cmds[1..]);
    }
  }

  /** Everything that happens to a backend after it was created: a send, one
      iteration of the worker's loop, the worker running until it blocks or
      stops, or every sender being dropped. Single turns let a schedule place
      sends between two iterations of the worker. */
  datatype Op = Send(cmd: FileCommand) | WorkerTurns | WorkerRuns | SendersDropped

  function Step(b: Backend, capacity: nat, op: Op): Backend {
    match op
    case Send(cmd) => TrySend(b, capacity, cmd)
    case WorkerTurns => WorkerTurn(b)
    case WorkerRuns => Settle(b)
    case SendersDropped => b.(closed := true)
  }

  function RunOps(b: Backend, capacity: nat, ops: seq<Op>): Backend
    decreases |ops|
  {
    if ops == [] then b else RunOps(Step(b, capacity, ops[0]), capacity, ops[1..])
  }

  /** The channel never holds more than its capacity, and a stopped worker
      has closed the channel. */
  ghost predicate Inv(b: Backend, capacity: nat) {
    && |b.queue| <= capacity
    && (!b.workerRunning ==> b.closed)
  }

  lemma {:induction false} SettleKeepsInv(b: Backend, capacity: nat)
    requires Inv(b, capacity)
    ensures Inv(Settle(b), capacity)
    decreases |b.queue|, b.workerRunning
  {
    if b.workerRunning && (b.queue != [] || b.closed) {
      SettleKeepsInv(WorkerTurn(b), capacity);
    }
  }

  lemma {:induction false} RunOpsKeepsInv(b: Backend, capacity: nat, ops: seq<Op>)
    requires Inv(b, capacity)
    ensures Inv(RunOps(b, capacity, ops), capacity)
    decreases |ops|
  {
    if ops != [] {
      if ops[0] == WorkerRuns {
        SettleKeepsInv(b, capacity);
      }
      RunOpsKeepsInv(Step(b, capacity, ops[0]), capacity, ops[1..]);
    }
  }

  /** A send placed between two iterations of the worker takes the slot the
      first one freed: with capacity 2, the worker writes "a", "c" is
      accepted, "d" is dropped on the full channel, and the worker then writes
      "b" and "c" and blocks on the empty, open channel. */
  lemma SendBetweenTurns()
    ensures RunOps(Backend([Write("a"), Write("b")], false, [], true), 2,
                   [WorkerTurns, Send(Write("c")), Send(Write("d")), WorkerRuns])
            == Backend([], false, ["a", "b", "c"], true)
  {
    var b0 := Backend([Write("a"), Write("b")], false, [], true);
    var b1 := WorkerTurn(b0);
    assert b1 == Backend([Write("b")], false, ["a"], true);
    var b2 := TrySend(b1, 2, Write("c"));
    assert b2 == Backend([Write("b"), Write("c")], false, ["a"], true);
    var b3 := TrySend(b2, 2, Write("d"));
    assert b3 == b2;
    var b4 := WorkerTurn(b3);
    assert b4 == Backend([Write("c")], false, ["a", "b"], true);
    var b5 := WorkerTurn(b4);
    assert b5 == Backend([], false, ["a", "b", "c"], true);
    assert Settle(b3) == Settle(b4) == Settle(b5) == b5;
    var ops := [WorkerTurns, Send(Write("c")), Send(Write("d")), WorkerRuns];
    assert RunOps(b0, 2, ops) == RunOps(b1, 2, ops[1..]);
    assert RunOps(b1, 2, ops[1..]) == RunOps(b2, 2, ops[2..]);
    assert RunOps(b2, 2, ops[2..]) == RunOps(b3, 2, ops[3..]);
    assert RunOps(b3, 2, ops[3..]) == RunOps(b5, 2, []);
  }

  /** Once the worker has stopped, nothing changes any more: every send is
      dropped and no command is processed or written. */
  lemma {:induction false} StoppedWorkerIsFinal(b: Backend, capacity: nat, ops: seq<Op>)
    requires Inv(b, capacity) && !b.workerRunning
    ensures RunOps(b, capacity, ops) == b
    decreases |ops|
  {
    if ops != [] {
      assert Step(b, capacity, ops[0]) == b;
      StoppedWorkerIsFinal(b, capacity, ops[1..]);
    }
  }

  /** The file backend: the sending side, the channel, the worker and the file. */
  class FileBackend {
    const capacity: nat
    /** The Debug rendering of an event, which becomes its line. */
    const format: PersistenceEvent -> string
    var queue: seq<FileCommand>
    var closed: bool
    var lines: seq<string>
    var workerRunning: bool

    function State(): Backend
      reads this
    {
      Backend(queue, closed, lines, workerRunning)
    }

    ghost predicate Valid()
      reads this
    {
      Inv(State(), capacity)
    }

    /** A fresh channel of capacity `channelSize` and a started worker over a
        file that already holds `existing`. If the worker cannot open the
        file it ends at once and drops the receiver, closing the channel. */
    constructor Init(channelSize: nat, format: PersistenceEvent -> string, existing: seq<string>, workerOpens: bool)
      requires channelSize > 0
      ensures capacity == channelSize && this.format == format
      ensures State() == Backend([], !workerOpens, existing, workerOpens)
      ensures Valid()
    {
      capacity := channelSize;
      this.format := format;
      queue := [];
      closed := !workerOpens;
      lines := existing;
      workerRunning := workerOpens;
    }

    /** The number of commands waiting in the channel. */
    method PendingEvents() returns (n: nat)
      requires Valid()
      ensures n == |queue| && n <= capacity
    {
      n := |queue|;
    }

    method PersistEvent(event: PersistenceEvent)
      requires Valid()
      modifies this`queue
      ensures Valid()
      ensures State() == TrySend(old(State()), capacity, Write(format(event)))
    {
      var formatted := format(event);
      TrySendCommand(Write(formatted));
    }

    method Flush()
      requires Valid()
      modifies this`queue
      ensures Valid()
      ensures State() == TrySend(old(State()), capacity, FileCommand.Flush)
    {
      TrySendCommand(FileCommand.Flush);
    }

    method Shutdown()
      requires Valid()
      modifies this`queue
      ensures Valid()
      ensures State() == TrySend(old(State()), capacity, FileCommand.Shutdown)
    {
      TrySendCommand(FileCommand.Shutdown);
    }

    method TrySendCommand(cmd: FileCommand)
      requires Valid()
      modifies this`queue
      ensures Valid()
      ensures State() == TrySend(old(State()), capacity, cmd)
    {
      if !closed && |queue| < capacity {
        queue := queue + [cmd];
      }
    }

    /** Every sending handle is dropped: the channel closes. */
    method DropSenders()
      requires Valid()
      modifies this`closed
      ensures Valid()
      ensures State() == old(State()).(closed := true)
    {
      closed := true;
    }

    /** One iteration of the worker's loop. */
    method RunWorkerTurn()
      requires Valid()
      modifies this
      ensures Valid()
      ensures State() == WorkerTurn(old(State()))
    {
      if !workerRunning {
        return;
      }
      if queue == [] {
        if closed {
          workerRunning := false;
        }
        return;
      }
      var cmd := queue[0];
      queue := queue[1..];
      match cmd {
        case Write(text) =>
          lines := lines + [text];
        case Flush =>
        case Shutdown =>
          ghost var target := Drain(queue, lines);
          while queue != []
            invariant Drain(queue, lines) == target
            decreases |queue|
          {
            var next := queue[0];
            queue := queue[1..];
            match next {
              case Write(text) =>
                lines := lines + [text];
              case Flush =>
              case Shutdown =>
                break;
            }
          }
          assert (queue, lines) == target;
          workerRunning := false;
          closed := true;
      }
    }

    /** The worker's loop, run until it blocks on an empty open channel or stops. */
    method WorkerLoop()
      requires Valid()
      modifies this
      ensures Valid()
      ensures State() == Settle(old(State()))
    {
      while workerRunning && (queue != [] || closed)
        invariant Valid()
        invariant Settle(State()) == Settle(old(State()))
        decreases |queue|, workerRunning
      {
        RunWorkerTurn();
      }
    }
  }

  /** FileBackend::new: fails when the parent directory cannot be created or
      the file cannot be opened; otherwise a fresh backend over the file. */
  method New(fileOpens: bool, workerOpens: bool, existing: seq<string>, channelSize: nat, format: PersistenceEvent -> string)
    returns (r: Result<FileBackend, string>)
    requires channelSize > 0
    ensures r.Ok? <==> fileOpens
    ensures r.Ok? ==> fresh(r.value) && r.value.Valid() && r.value.capacity == channelSize
    ensures r.Ok? ==> r.value.State() == Backend([], !workerOpens, existing, workerOpens)
  {
    if !fileOpens {
      return Err("cannot create or open the file");
    }
    var b := new FileBackend.Init(channelSize, format, existing, workerOpens);
    return Ok(b);
  }
}
