# sv2-apps pool core, modelled in Dafny

This project models the sequential decision logic of the Stratum V2 pool
role and of the shared persistence layer:

- **Message classifier** (`classifier.dfy`, module `MessageClassifier`):
  - the four membership predicates over a one-byte Stratum V2 message type:
    Common, Mining, Job Declaration and Template Distribution;
  - `protocol_message_type`, which picks the first category that matches.

  The codes are the message-type values of section 8 ("Message Types") of the
  Stratum V2 specification. They are declared as named constants. The source
  writes the reserved mining code 0x1e as a bare literal; here it is the
  constant `MESSAGE_TYPE_RESERVED`.
- **Pool utilities** (`pool_utils.dfy`, module `PoolUtils`):
  - the two `SetupConnection` builders, following section 3.2.1 of the Stratum
    V2 specification with the mining flags of section 5.3.1;
  - `VardiffKey::from`.
- **Connection I/O pump** (`io_pump.dfy`, module `IoPump`), the reader and
  writer loops of `spawn_io_tasks`:
  - The race between a shutdown notice and transport or queue activity
    becomes an explicit event sequence. It interleaves reader turns, writer
    turns and the actions of the business logic on the far ends of the two
    queues.
  - The pure state machine `Transition`/`RunEvents` specifies the class
    `Pump`. Its methods update the queues, the closed flags and the
    running flags in place.
- **Persistence abstraction** (`persistence.dfy`, module `Persistence`;
  `noop.rs` in `noop.dfy`, module `NoOp`):
  - A handler is the record of its three operations. Each operation is a
    transformation of the world the handler acts on.
  - `SharePersistence` either delegates each operation to its handler or does
    nothing.
  - A handler that only records its calls makes "delegates exactly once" and
    "has no effect" provable.
- **File backend** (`file_backend.dfy`, module `FilePersistence`):
  - a bounded command channel that drops a command when it is full or closed;
  - the worker thread's loop, including the drain after `Shutdown`;
  - the file, modelled as its sequence of lines.

  The class `FileBackend` is proved against the pure functions `TrySend`,
  `WorkerTurn` and `Settle`. `Settle` is in turn proved equal to a
  declarative outcome, `SettledOutcome`.
- **Configuration** (`config.dfy`, module `Config`):
  - the conversion of the `[persistence]` section into a persistence setup,
    with its defaults;
  - `PoolConfig` with its constructor and setters.

`base.dfy` holds `Option`/`Result`, the Rust integer widths as subset types,
and socket addresses. `share_event.dfy` holds the share record.

The model follows the code where a doc comment says otherwise. The doc
comment of `PoolConfig::new` (pool-apps/pool/src/lib/config.rs:130-132)
says it panics on an empty coinbase reward script. The code makes no such
check, so `Config.PoolConfig.constructor` accepts any script.

## Model

| member | source | states |
|---|---|---|
| MessageClassifier.IsCommonMessage | roles/pool/src/lib/utils.rs:252-261 | the common codes (setup connection and its replies, channel endpoint changed, reconnect) are all below 0x10, a bound of this model's choosing that keeps the category apart from the others |
| MessageClassifier.IsMiningMessage | roles/pool/src/lib/utils.rs:263-290 | the mining codes, including the reserved 0x1e, all lie from 0x10 to below 0x50, a bound of this model's choosing |
| MessageClassifier.IsJobDeclarationMessage | roles/pool/src/lib/utils.rs:292-304 | the job declaration codes all lie from 0x50 to below 0x70, a bound of this model's choosing |
| MessageClassifier.IsTemplateDistributionMessage | roles/pool/src/lib/utils.rs:306-317 | the template distribution codes all lie from 0x70 to below 0x80, a bound of this model's choosing |
| MessageClassifier.ProtocolMessageType | roles/pool/src/lib/utils.rs:328-340 | the classifier is total; it returns Common, Mining, JobDeclaration or TemplateDistribution exactly when that category's predicate holds, and Unknown exactly when none of the four holds |
| MessageClassifier.CategoriesDisjoint | roles/pool/src/lib/utils.rs:252-317 | no message type belongs to two categories, so the order of the if-chain never decides the result |
| MessageClassifier.ReservedCodeIsMining | roles/pool/src/lib/utils.rs:280-281 | the reserved code 0x1e is a mining message and is classified as Mining |
| PoolUtils.Utf8Length | roles/pool/src/lib/utils.rs:75 | the length in bytes of a string's UTF-8 encoding, which the conversion into STR0_255 bounds: between one and four bytes per character |
| PoolUtils.AsciiUtf8Length | roles/pool/src/lib/utils.rs:75 | an ASCII string, such as "0.0.0.0" or an IP address's text, encodes to one byte per character |
| PoolUtils.ToStr0255 | roles/pool/src/lib/utils.rs:75-79 | the conversion into STR0_255 succeeds exactly when the string's UTF-8 encoding has at most 255 bytes, keeps the string, and otherwise reports the byte length |
| PoolUtils.GetSetupConnectionMessage | roles/pool/src/lib/utils.rs:71-93 | always Ok: mining protocol with the given versions; flags exactly 0b110, that is work selection and version rolling set and every other bit, standard jobs included, clear; host "0.0.0.0", port 50, empty vendor and device strings |
| PoolUtils.GetSetupConnectionMessageTp | roles/pool/src/lib/utils.rs:96-114 | template-distribution protocol, versions 2..2, no flags; host and port are the Template Provider's address; empty vendor and device strings |
| PoolUtils.VardiffKeyFrom | roles/pool/src/lib/utils.rs:348-355 | the key holds exactly the (downstream id, channel id) pair it is built from |
| PoolUtils.VardiffKeyFromInjective | roles/pool/src/lib/utils.rs:342-355 | two pairs give the same key if and only if they are equal |
| IoPump.ShutdownApplies | roles/pool/src/lib/utils.rs:142-154 | a loop acts on ShutdownAll and on DownstreamShutdown(d) for its own Downstream(d); DownstreamShutdownAll is ignored; a TemplateReceiver pump stops only on ShutdownAll |
| IoPump.ReaderTransition | roles/pool/src/lib/utils.rs:140-189 | one turn of the reader loop changes only the inbound queue, the forwarded log and the closed and running flags; it forwards at most one frame, appended to what was forwarded before; a stopped reader does nothing |
| IoPump.WriterTransition | roles/pool/src/lib/utils.rs:204-244 | one turn of the writer loop changes only the outbound queue, the written log and the closed and running flags; it dequeues at most the oldest frame and writes at most that one; a stopped writer does nothing |
| IoPump.ReaderExitConditions | roles/pool/src/lib/utils.rs:140-188 | a running reader stops exactly on an applicable shutdown, a handshake frame, a read error, or a failed forward into a closed inbound queue; an Sv2 frame is otherwise forwarded; every stop closes both queues |
| IoPump.WriterExitConditions | roles/pool/src/lib/utils.rs:204-243 | a running writer stops exactly on an applicable shutdown, a failed write of the frame it dequeued, or a receive on a closed, empty outbound queue; on stopping it writes nothing and has closed both queues; otherwise it writes exactly the frame it dequeued, if any |
| IoPump.StepKeepsInv | roles/pool/src/lib/utils.rs:136-248 | every turn of either loop or of the business logic keeps the pump invariant: a stopped loop has left both queues closed, and the queues hold the forwarded-but-undelivered and produced-but-unwritten frames in order |
| IoPump.RunKeepsInv | roles/pool/src/lib/utils.rs:185-188 | the invariant, including "every exit closes both queues", holds after any interleaving |
| IoPump.StoppedReaderStaysStopped | roles/pool/src/lib/utils.rs:140-189 | a reader that left its loop never runs again and forwards nothing more |
| IoPump.StoppedWriterStaysStopped | roles/pool/src/lib/utils.rs:204-244 | a writer that left its loop never runs again and writes nothing more |
| IoPump.StepForwardsReadFrame | roles/pool/src/lib/utils.rs:166-173 | one event forwards the Sv2 frame it reads if the reader keeps running, and forwards nothing else |
| IoPump.ForwardedInReadOrder | roles/pool/src/lib/utils.rs:157-182 | the forwarded frames are always a prefix of the Sv2 frames read, in read order; while the reader runs, they are all of them |
| IoPump.HandshakeStopsForwarding | roles/pool/src/lib/utils.rs:161-165 | a handshake frame read mid-stream stops the reader; it is not forwarded, frames read before it stay forwarded, and nothing after it is forwarded |
| IoPump.ReaderStopsForGood | roles/pool/src/lib/utils.rs:142-146 | once the reader sees ShutdownAll, it has stopped for good and has forwarded nothing after it |
| IoPump.WriterStopsForGood | roles/pool/src/lib/utils.rs:206-210 | once the writer sees ShutdownAll, it has stopped for good and has written nothing after it |
| IoPump.ShutdownAllStopsBothLoops | roles/pool/src/lib/utils.rs:142-146 | whatever the status, once both loops have seen ShutdownAll, both have stopped, both queues are closed and nothing more is forwarded or written (writer side: utils.rs:206-210) |
| IoPump.DownstreamShutdownScope | roles/pool/src/lib/utils.rs:147-154 | DownstreamShutdown(d) seen by both loops stops both exactly when the status is Downstream(d); DownstreamShutdownAll, a DownstreamShutdown for another id, and a failed receive leave the pump unchanged (writer side: utils.rs:211-218) |
| IoPump.WriterFinishesAfterReaderExit | roles/pool/src/lib/utils.rs:221-236 | after the reader has stopped, the writer writes what is still queued and then stops on the closed, empty queue |
| IoPump.ReaderStopsAfterWriterExit | roles/pool/src/lib/utils.rs:166-180 | after the writer has stopped, the reader's next Sv2 frame cannot be forwarded, so the reader stops without forwarding it |
| IoPump.FramesKeepTheirOrder | roles/pool/src/lib/utils.rs:119-248 | from a fresh pump, the consumer receives a prefix of the frames read, in order, and the transport receives a prefix of the frames produced, in order |
| IoPump.Pump.constructor | roles/pool/src/lib/utils.rs:119-134 | a fresh pump has open, empty queues and both loops running |
| IoPump.Pump.ReaderStep | roles/pool/src/lib/utils.rs:140-189 | one turn of the reader loop updates the pump in place exactly as ReaderTransition specifies |
| IoPump.Pump.WriterStep | roles/pool/src/lib/utils.rs:204-244 | one turn of the writer loop updates the pump in place exactly as WriterTransition specifies |
| IoPump.Pump.Run | roles/pool/src/lib/utils.rs:136-248 | running both loops over an interleaving of events reaches RunEvents of the old state and keeps the invariant |
| Config.ParseEntity | pool-apps/pool/src/lib/config.rs:90-97 | a name selects an entity exactly when it is "shares" |
| Config.ParseEntities | pool-apps/pool/src/lib/config.rs:87-98 | entity parsing only drops names: it never yields more entities than names |
| Config.ParseEntitiesAppend | pool-apps/pool/src/lib/config.rs:87-98 | entity parsing preserves order: the parse of a concatenation is the concatenation of the parses |
| Config.ParseEntitiesCountsShares | pool-apps/pool/src/lib/config.rs:87-98 | parsing never fails; it yields one Share per "shares" in the list and nothing else, and Share is enabled exactly when "shares" is listed |
| Config.UnknownEntitiesAreIgnored | pool-apps/pool/src/lib/config.rs:87-98 | adding an entity name other than "shares" does not change the conversion's result |
| Config.DefaultChannelSize | pool-apps/pool/src/lib/config.rs:71-73 | the default channel size is a positive capacity, so a file section relying on it can open its channel |
| Config.DefaultEntities | pool-apps/pool/src/lib/config.rs:76-78 | the default entity list enables exactly the share entity |
| Config.DefaultsGiveShareLogging | pool-apps/pool/src/lib/config.rs:71-78 | a file section relying on the defaults converts to a file backend with channel size 10000 and the share entity enabled |
| Config.IntoPersistence | pool-apps/pool/src/lib/config.rs:82-125 | Ok exactly for backend "file" with a file section whose backend opens, holding that path, that channel size and the parsed entities; any other backend gives "Unknown backend type: " followed by its name; a missing section gives the section-required error; a failed open gives the I/O error |
| Config.MissingFileSectionMessage | pool-apps/pool/src/lib/config.rs:103-106 | backend "file" without a file section fails with a message containing "[persistence.file] section required" |
| Config.PoolConfig.constructor | pool-apps/pool/src/lib/config.rs:134-160 | every field is copied from its sub-configuration, and the log file starts unset |
| Config.PoolConfig.LogDir | pool-apps/pool/src/lib/config.rs:229-231 | the log directory is the stored log file setting, which the constructor leaves unset and SetLogDir updates |
| Config.PoolConfig.SetLogDir | pool-apps/pool/src/lib/config.rs:223-231 | Some(d) makes LogDir() return d; None leaves it unchanged; no other field changes |
| Config.PoolConfig.SetTpAddress | pool-apps/pool/src/lib/config.rs:218-220 | sets the Template Provider address and changes no other field |
| Config.PoolConfig.SetCoinbaseRewardScript | pool-apps/pool/src/lib/config.rs:208-210 | sets the coinbase reward script and changes no other field |
| FilePersistence.TrySend | stratum-apps/src/persistence/file.rs:138-153 | try_send only ever appends: it adds the command at the back exactly when the channel is open and below capacity, and otherwise drops it; it never pushes a channel past its capacity and changes nothing but the queue |
| FilePersistence.Drain | stratum-apps/src/persistence/file.rs:98-108 | the drain only consumes queued commands and only appends lines to the file |
| FilePersistence.Settle | stratum-apps/src/persistence/file.rs:80-123 | the worker's loop ends either stopped or blocked on an empty, open channel, and it only appends lines to the file |
| FilePersistence.WorkerTurn | stratum-apps/src/persistence/file.rs:83-119 | one iteration of the worker never grows the queue and only appends lines; a running worker with work or a closed channel either consumes a command or stops |
| FilePersistence.SplitAtShutdown | stratum-apps/src/persistence/file.rs:96-108 | the first Shutdown splits the queued commands into those before it and those after it |
| FilePersistence.DrainWritesUntilShutdown | stratum-apps/src/persistence/file.rs:96-109 | the drain after Shutdown writes, in order, one line per Write before the next Shutdown, consumes that Shutdown, and leaves the commands after it queued |
| FilePersistence.SettledOutcomeStep | stratum-apps/src/persistence/file.rs:85-95 | a Write or Flush at the head of the queue is handled without changing where the worker ends up |
| FilePersistence.SettledOutcomeAtShutdown | stratum-apps/src/persistence/file.rs:96-112 | a Shutdown at the head of the queue ends the worker in one turn: it drains and stops |
| FilePersistence.SettleOutcome | stratum-apps/src/persistence/file.rs:80-123 | the worker run until it blocks or stops reaches SettledOutcome: the Writes before the first Shutdown become lines in FIFO order; after a Shutdown, or once the channel is closed, the worker stops; only the commands after the second Shutdown stay unwritten |
| FilePersistence.SendAllFits | stratum-apps/src/persistence/file.rs:132-153 | commands sent to an open channel with room for them are all queued, in order |
| FilePersistence.SendAllToClosed | stratum-apps/src/persistence/file.rs:132-153 | commands sent to a closed channel are all dropped and nothing changes |
| FilePersistence.PersistedEventsBecomeLines | stratum-apps/src/persistence/file.rs:85-90 | n events persisted and then flushed become exactly n new lines, in order |
| FilePersistence.WritesBeforeShutdownReachFile | stratum-apps/src/persistence/file.rs:96-112 | events persisted before a shutdown all end up in the file, and the worker then stops |
| FilePersistence.SettleKeepsInv | stratum-apps/src/persistence/file.rs:111-118 | the worker's run keeps the invariant: the queue is within capacity, and a stopped worker's channel is closed |
| FilePersistence.RunOpsKeepsInv | stratum-apps/src/persistence/file.rs:66 | under any schedule of sends, single iterations of the worker, worker runs until it blocks or stops, and sender drops, the channel never holds more than its capacity and a stopped worker's channel is closed |
| FilePersistence.SendBetweenTurns | stratum-apps/src/persistence/file.rs:83-90 | a send made between two iterations of the worker takes the slot the first one freed: with capacity 2 and two queued Writes, a third Write sent after one iteration is accepted and written, a fourth is dropped on the full channel, and the worker ends blocked on the empty, open channel |
| FilePersistence.StoppedWorkerIsFinal | stratum-apps/src/persistence/file.rs:111-118 | once the worker has stopped, no operation changes anything: sends are dropped and no lines are written |
| FilePersistence.FileBackend.Init | stratum-apps/src/persistence/file.rs:54-77 | a fresh backend has an empty channel of capacity channel_size over the existing file; if its worker cannot open the file, the channel is closed |
| FilePersistence.New | stratum-apps/src/persistence/file.rs:54-77 | fails exactly when the directory cannot be created or the file cannot be opened; otherwise it returns a fresh backend with an empty channel of the given capacity |
| FilePersistence.FileBackend.PendingEvents | stratum-apps/src/persistence/file.rs:126-128 | the number of queued commands, which never exceeds the capacity |
| FilePersistence.FileBackend.PersistEvent | stratum-apps/src/persistence/file.rs:132-141 | queues Write(format(event)) unless the channel is full or closed, in which case nothing changes |
| FilePersistence.FileBackend.Flush | stratum-apps/src/persistence/file.rs:143-147 | queues Flush unless the channel is full or closed, in which case nothing changes |
| FilePersistence.FileBackend.Shutdown | stratum-apps/src/persistence/file.rs:149-153 | queues Shutdown unless the channel is full or closed, in which case nothing changes |
| FilePersistence.FileBackend.RunWorkerTurn | stratum-apps/src/persistence/file.rs:83-119 | one iteration of the worker's loop, including the in-place drain, updates the backend exactly as WorkerTurn specifies |
| FilePersistence.FileBackend.WorkerLoop | stratum-apps/src/persistence/file.rs:80-123 | the worker's loop, run until it blocks or stops, updates the backend exactly as Settle specifies |
| Persistence.New | stratum-apps/src/persistence/mod.rs:75-80 | new(Some(h)) is Enabled(h) and new(None) is Disabled |
| Persistence.NewRoundTrip | stratum-apps/src/persistence/mod.rs:75-80 | new and the extraction of the wrapped handler are inverse to each other |
| Persistence.Default | stratum-apps/src/persistence/mod.rs:84-87 | the default is the same as new(None), that is Disabled |
| Persistence.DefaultFlushAndShutdownDoNothing | stratum-apps/src/persistence/mod.rs:28-37 | a handler relying on the interface's default flush and shutdown gets calls that have no effect |
| Persistence.PersistenceImpl | stratum-apps/src/persistence/mod.rs:90-117 | SharePersistence overrides flush and shutdown rather than taking the interface defaults; what each of its operations does is stated by EnabledDelegates, DisabledDoesNothing and EnabledCallsHandlerOncePerOp |
| Persistence.EnabledDelegates | stratum-apps/src/persistence/mod.rs:90-117 | each operation on Enabled(h) has exactly the effect of the same operation, with the same event, on h |
| Persistence.DisabledDoesNothing | stratum-apps/src/persistence/mod.rs:90-117 | any sequence of operations on Disabled leaves the world unchanged |
| Persistence.EnabledRunsOnHandler | stratum-apps/src/persistence/mod.rs:90-117 | any sequence of operations on Enabled(h) has the effect of that sequence on h |
| Persistence.EnabledCallsHandlerOncePerOp | stratum-apps/src/persistence/mod.rs:91-116 | through Enabled(h), each operation reaches h exactly once, in order and with the same event; through Disabled, none reaches any handler |
| NoOp.New | stratum-apps/src/persistence/noop.rs:23-30 | new() equals default() |
| NoOp.Default | stratum-apps/src/persistence/noop.rs:23-24 | the derived default of the unit handler, which NoOp.New's contract equates with new() |
| NoOp.NoOpImpl | stratum-apps/src/persistence/noop.rs:33-48 | the no-op handler overrides flush and shutdown, and persist_event for every event, flush and shutdown each return the world they were given |
| NoOp.OperationsHaveNoEffect | stratum-apps/src/persistence/noop.rs:33-48 | persist_event for any event, flush and shutdown each leave the world unchanged |
| NoOp.SequencesHaveNoEffect | stratum-apps/src/persistence/noop.rs:33-48 | any sequence of operations leaves the world unchanged, and so does the sequence repeated |
| NoOp.EnabledNoOpIsDisabled | stratum-apps/src/persistence/noop.rs:33-48 | persistence enabled with the no-op handler has the same effect as disabled persistence |

## Left out

- Concurrency. The `tokio::select!` race, task spawning through the task manager, and the reader and writer running in parallel are not modelled. The event sequence given to `IoPump.RunEvents` / `IoPump.Pump.Run` fixes one interleaving, and every lemma holds for all of them.
- FilePersistence.WorkerTurn, FilePersistence.Settle and FilePersistence.FileBackend.RunWorkerTurn: one worker turn, including the `try_recv` drain after a Shutdown, is atomic with respect to senders. A `try_send` that takes a slot freed during the drain, and that the real worker would then drain and write, is not represented: in the model such a send is dropped, either because the channel is still full before the turn or because it is closed after it.
- Broadcast-channel lag and closure. A failed receive on the shutdown channel is the event `ReaderNotified(None)` / `WriterNotified(None)`, which the loops ignore as the source does. The loss of a notice under lag is not modelled.
- Queue capacities in the pump. The pump's queues are modelled as unbounded, so a reader blocked on a full inbound queue is not represented. A send fails only once the queue is closed.
- The Noise transport. `read_frame` and `write_frame`, and frame encoding, are the events `FrameRead(...)` and `OutboundReady(writeOk)`.
- Tracing, spans, `#[track_caller]` and log output.
- Other `StatusType` variants. Only `Downstream(id)` and `TemplateReceiver` are declared: the type is not part of this model's sources, and the other variants behave like `TemplateReceiver` in the guards modelled.
- File-system I/O in the file backend. `create_dir_all`, opening the file and spawning the thread become the parameters `fileOpens` and `workerOpens` of `FilePersistence.New`. Errors of `writeln!` and `flush` are not modelled. The file is its sequence of lines, and `Flush` does not change it.
- The Debug formatting of events. It is the uninterpreted function `format` of `FilePersistence.FileBackend`.
- Floating-point fields. `shares_per_minute` (a constructor argument and its getter), and the `nominal_hash_rate` and `share_work` fields of the share event, are not modelled. The timestamp is an opaque number.
- Foreign library types. Keys and `CoinbaseRewardScript` are kept as opaque byte wrappers. `get_txout`, `TxOut`/`Amount` and the plain field getters of `PoolConfig` are not modelled.
- pool-apps/jd-server/src/main.rs is not part of this model. It only parses the command line, sets up logging and starts the runtime.
- Unseen constructors. `Backend`, `EntityType`, the persistence setup built by `with_backend` and the error type of config.rs are not among the modelled sources. They are modelled as plain datatypes built from their arguments. Opening the file backend from `into_persistence` is the parameter `backendOpens`.
- Integer widths. `usize` (channel size, pending count, downstream id) is modelled as an unbounded natural number.
- Config.IntoPersistence: requires a positive channel size for the file backend, because the channel constructor used by the backend panics on capacity 0. That panic path is not modelled.
- FilePersistence.New: requires `channelSize > 0` for the same reason.
- FilePersistence.FileBackend.Init: requires `channelSize > 0` for the same reason.
- PoolUtils.GetSetupConnectionMessageTp: requires the address text's UTF-8 encoding to fit in 255 bytes, where the source unwraps the conversion and would panic. A textual IP address is ASCII and always far shorter.
- PoolUtils.Utf8Length: the encoding is counted from the Unicode scalar values of a string; the bytes themselves are not produced, and a string is never checked for being valid text.
