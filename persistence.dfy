/** The persistence abstraction shared by the application roles: a handler
    interface with three operations, and SharePersistence, which either
    delegates each operation to a wrapped handler or does nothing.

    A handler's effects are not visible in its signature (every operation
    returns nothing), so they are modelled as transformations of a world W
    the handler acts on. A handler implementation for handler values of
    type T is the record of its three transformations; an implementation
    that does not provide flush or shutdown gets the interface's default,
    which does nothing. */
module Persistence {
  import opened Base
  import opened ShareEvents

  datatype HandlerImpl<!T, !W> = HandlerImpl(
    persistEvent: (T, W, ShareEvent) -> W,
    flush: Option<(T, W) -> W>,     // None: the interface's default
    shutdown: Option<(T, W) -> W>)  // None: the interface's default

  /** One call of the handler interface. */
  datatype HandlerOp = PersistOp(event: ShareEvent) | FlushOp | ShutdownOp

  function Flush<T, W>(impl: HandlerImpl<T, W>, h: T, w: W): W {
    match impl.flush
    case Some(f) => f(h, w)
    case None => w
  }

  function Shutdown<T, W>(impl: HandlerImpl<T, W>, h: T, w: W): W {
    match impl.shutdown
    case Some(f) => f(h, w)
    case None => w
  }

  function Apply<T, W>(impl: HandlerImpl<T, W>, h: T, w: W, op: HandlerOp): W {
    match op
    case PersistOp(e) => impl.persistEvent(h, w, e)
    case FlushOp => Flush(impl, h, w)
    case ShutdownOp => Shutdown(impl, h, w)
  }

  /** The world after the handler performs `ops` in order. */
  function ApplyAll<T, W>(impl: HandlerImpl<T, W>, h: T, w: W, ops: seq<HandlerOp>): W
    decreases |ops|
  {
    if ops == [] then w else ApplyAll(impl, h, Apply(impl, h, w, ops[0]), ops[1..])
  }

  /** Performing a + b is performing a, then b. */
  lemma {:induction false} ApplyAllAppend<T, W>(impl: HandlerImpl<T, W>, h: T, w: W, a: seq<HandlerOp>, b: seq<HandlerOp>)
    ensures ApplyAll(impl, h, w, a + b) == ApplyAll(impl, h, ApplyAll(impl, h, w, a), b)
    decreases |a|
  {
    if a == [] {
      assert a + b == b;
    } else {
      assert (a + b)[0] == a[0] && (a + b)[1..] == a[1..] + b;
      ApplyAllAppend(impl, h, Apply(impl, h, w, a[0]), a[1..], b);
    }
  }

  /** The interface's default flush and shutdown leave the world as it was. */
  lemma DefaultFlushAndShutdownDoNothing<T, W>(impl: HandlerImpl<T, W>, h: T, w: W)
    requires impl.flush.None? && impl.shutdown.None?
    ensures Apply(impl, h, w, FlushOp) == w
    ensures Apply(impl, h, w, ShutdownOp) == w
  {
  }

  /** Persistence either enabled with a handler, or disabled. */
  datatype SharePersistence<T> = Enabled(handler: T) | Disabled

  function New<T>(handler: Option<T>): (p: SharePersistence<T>)
    ensures p.Enabled? <==> handler.Some?
    ensures p.Enabled? ==> p.handler == handler.value
  {
    match handler
    case Some(h) => Enabled(h)
    case None => Disabled
  }

  /** The handler a SharePersistence wraps, if any: the inverse of New. */
  function HandlerOf<T>(p: SharePersistence<T>): Option<T> {
    match p
    case Enabled(h) => Some(h)
    case Disabled => None
  }

  lemma NewRoundTrip<T>(handler: Option<T>, p: SharePersistence<T>)
    ensures HandlerOf(New(handler)) == handler
    ensures New(HandlerOf(p)) == p
  {
  }

  /** Persistence is disabled unless a handler is supplied. */
  function Default<T>(): (p: SharePersistence<T>)
    ensures p == New(None)
  {
    Disabled
  }

  /** SharePersistence is itself a handler that overrides flush and shutdown:
      each operation goes to the wrapped handler when enabled and does
      nothing when disabled (EnabledDelegates, DisabledDoesNothing). */
  function PersistenceImpl<T, W>(impl: HandlerImpl<T, W>): (r: HandlerImpl<SharePersistence<T>, W>)
    ensures r.flush.Some? && r.shutdown.Some?
  {
    HandlerImpl(
      (p: SharePersistence<T>, w: W, e: ShareEvent) =>
        match p
        case Enabled(h) => impl.persistEvent(h, w, e)
        case Disabled => w,
      Some((p: SharePersistence<T>, w: W) =>
        match p
        case Enabled(h) => Flush(impl, h, w)
        case Disabled => w),
      Some((p: SharePersistence<T>, w: W) =>
        match p
        case Enabled(h) => Shutdown(impl, h, w)
        case Disabled => w))
  }

  /** Each operation on Enabled(h) is the same operation on h, with the same event. */
  lemma EnabledDelegates<T, W>(impl: HandlerImpl<T, W>, h: T, w: W, op: HandlerOp)
    ensures Apply(PersistenceImpl(impl), Enabled(h), w, op) == Apply(impl, h, w, op)
  {
  }

  /** Any sequence of operations on Disabled persistence leaves the world unchanged. */
  lemma {:induction false} DisabledDoesNothing<T, W>(impl: HandlerImpl<T, W>, w: W, ops: seq<HandlerOp>)
    ensures ApplyAll(PersistenceImpl(impl), Disabled, w, ops) == w
    decreases |ops|
  {
    if ops != [] {
      assert Apply(PersistenceImpl(impl), Disabled, w, ops[0]) == w;
      DisabledDoesNothing(impl, w, ops[1..]);
    }
  }

  /** Any sequence of operations on Enabled(h) is that sequence on h. */
  lemma {:induction false} EnabledRunsOnHandler<T, W>(impl: HandlerImpl<T, W>, h: T, w: W, ops: seq<HandlerOp>)
    ensures ApplyAll(PersistenceImpl(impl), Enabled(h), w, ops) == ApplyAll(impl, h, w, ops)
    decreases |ops|
  {
    if ops != [] {
      EnabledDelegates(impl, h, w, ops[0]);
      EnabledRunsOnHandler(impl, h, Apply(impl, h, w, ops[0]), ops[1..]);
    }
  }

  /** A handler call as recorded by a call log. */
  datatype Call<T> = Call(handler: T, op: HandlerOp)

  /** A handler that only records, in order, every call it receives. */
  function CallLog<T>(): HandlerImpl<T, seq<Call<T>>> {
    HandlerImpl(
      (h: T, log: seq<Call<T>>, e: ShareEvent) => log + [Call(h, PersistOp(e))],
      Some((h: T, log: seq<Call<T>>) => log + [Call(h, FlushOp)]),
      Some((h: T, log: seq<Call<T>>) => log + [Call(h, ShutdownOp)]))
  }

  /** Through Enabled(h), a sequence of operations reaches h exactly once per
      operation, in order and unchanged; through Disabled, it reaches nothing. */
  lemma {:induction false} EnabledCallsHandlerOncePerOp<T>(h: T, log: seq<Call<T>>, ops: seq<HandlerOp>)
    ensures ApplyAll(PersistenceImpl(CallLog()), Enabled(h), log, ops) ==
            log + seq(|ops|, i requires 0 <= i < |ops| => Call(h, ops[i]))
    ensures ApplyAll(PersistenceImpl(CallLog()), Disabled, log, ops) == log
    decreases |ops|
  {
    DisabledDoesNothing(CallLog(), log, ops);
    if ops == [] {
      assert seq(|ops|, i requires 0 <= i < |ops| => Call(h, ops[i])) == [];
    } else {
      var log1 := Apply(PersistenceImpl(CallLog()), Enabled(h), log, ops[0]);
      assert log1 == log + [Call(h, ops[0])];
      EnabledCallsHandlerOncePerOp(h, log1, ops[1..]);
      var rest := ops[1..];
      assert log + seq(|ops|, i requires 0 <= i < |ops| => Call(h, ops[i])) ==
             log1 + seq(|rest|, i requires 0 <= i < |rest| => Call(h, rest[i]));
    }
  }
}
