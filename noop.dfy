/** The handler used when persistence is compiled out: every operation is empty. */
module NoOp {
  import opened Base
  import opened ShareEvents
  import opened Persistence

  /** A unit handler: it has no state. */
  datatype NoOpHandler = NoOpHandler

  /** The constant constructor. */
  function New(): (h: NoOpHandler)
    ensures h == Default()
  {
    NoOpHandler
  }

  /** The derived default. */
  function Default(): NoOpHandler {
    NoOpHandler
  }

  /** The handler implementation: persist_event, flush and shutdown all return
      the world they were given. */
  function NoOpImpl<W(!new)>(): (r: HandlerImpl<NoOpHandler, W>)
    ensures r.flush.Some? && r.shutdown.Some?
    ensures forall h: NoOpHandler, w: W, e: ShareEvent :: r.persistEvent(h, w, e) == w
    ensures forall h: NoOpHandler, w: W :: r.flush.value(h, w) == w && r.shutdown.value(h, w) == w
  {
    HandlerImpl(
      (h: NoOpHandler, w: W, e: ShareEvent) => w,
      Some((h: NoOpHandler, w: W) => w),
      Some((h: NoOpHandler, w: W) => w))
  }

  /** No single operation has an effect, for any event. */
  lemma OperationsHaveNoEffect<W(!new)>(h: NoOpHandler, w: W, op: HandlerOp)
    ensures Apply(NoOpImpl(), h, w, op) == w
  {
  }

  /** Any sequence of operations, repeated any number of times, leaves the world as it was. */
  lemma {:induction false} SequencesHaveNoEffect<W(!new)>(h: NoOpHandler, w: W, ops: seq<HandlerOp>)
    ensures ApplyAll(NoOpImpl(), h, w, ops) == w
    ensures ApplyAll(NoOpImpl(), h, w, ops + ops) == ApplyAll(NoOpImpl(), h, w, ops)
    decreases |ops|
  {
    if ops != [] {
      OperationsHaveNoEffect(h, w, ops[0]);
      SequencesHaveNoEffect(h, w, ops[1..]);
    }
    ApplyAllAppend(NoOpImpl(), h, w, ops, ops);
  }

  /** Persistence enabled with the no-op handler is indistinguishable from
      disabled persistence. */
  lemma EnabledNoOpIsDisabled<W(!new)>(w: W, ops: seq<HandlerOp>)
    ensures ApplyAll(PersistenceImpl(NoOpImpl()), Enabled(New()), w, ops) ==
            ApplyAll(PersistenceImpl(NoOpImpl<W>()), Disabled, w, ops)
  {
    EnabledRunsOnHandler(NoOpImpl(), New(), w, ops);
    SequencesHaveNoEffect(New(), w, ops);
    DisabledDoesNothing(NoOpImpl<W>(), w, ops);
  }
}
