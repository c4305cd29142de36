# EtlLib pipeline wiring, broadcast and CSV sink — a Dafny model

EtlLib runs an ETL process as a graph of nodes. Output-bearing nodes push records into an
**input/output adapter**, which broadcasts every record to one queue per attached consumer.
The **process orchestrator** (`EtlProcess`) builds the graph. It does three things:

- it registers every node once and binds it to the process context;
- it creates at most one adapter per output node, lazily, and makes it that node's emitter;
- it records the `"<output id>:<input id>"` key of every pair it has wired, so that wiring the
  same pair again does nothing.

Wiring a single-input node binds its only input. Wiring a dual-input node binds input 1, then
input 2. A third wiring is an error.

The **CSV writer** sink node has two versions in the repository. Each writes a header made of
the first row's keys, when its header flag is on. Then it writes one record of values per row.
It reports a row count and emits one result, then ends its stream. The count adds one for the
header whenever the flag is on, even for empty input, where no header is written. The newer
version also hands each row back to the context's object pool once the row is written.

The model keeps the source's imperative shape:

- the adapter, the orchestrator, nodes and records are classes whose methods update their
  fields under `modifies` clauses;
- each method is proved against a specification function of the old state: `WithConsumer`,
  `Appended`, `Completed`, `RegisterAll`, `WrittenRecords`, `Columns`, `ReportedRowCount`;
- lemmas about those functions state what the source promises across several calls.

Module layout:

- `Wrappers`: `Option`, `Result`, `Outcome`.
- `Guids`: a Guid as 32 hex digits, its default textual form, and the attachment key.
- `Adapters`: the adapter, nodes, records, queues.
- `Process`: the orchestrator.
- `CsvRecords`: what the writer writes, on values.
- `CsvFiles`: the `EtlLib.Nodes.CsvFiles` writer.
- `SrcCsvFiles`: the `src/EtlLib.Nodes.CsvFiles` writer, with the object pool.
- `Scenarios`: small graphs, wired and fed records, whose outcomes follow from the contracts alone.

Errors the source raises as exceptions are modelled as values:

- `AttachConsumer`'s `InvalidOperationException` becomes `Failure(InputAlreadyAssigned(id))` or
  `Failure(BothInputsAssigned(id))`;
- the dictionary indexer's missing-key exception in `GetConsumingEnumerable` becomes
  `Failure(UnknownConsumer(id))`.

`AttachInputToOutput` passes the error on as `Fail(...)`. The model keeps the state the source
leaves when the exception escapes: both nodes are registered, the adapter exists and is the
output's emitter, and the pair is not recorded.

## Model

| member | source | states |
|---|---|---|
| Guids.Hex | EtlLib/Pipeline/EtlProcess.cs:57 | the hex text of a digit sequence has one lower-case hex character per digit, in order |
| Guids.FormatLayout | EtlLib/Pipeline/EtlProcess.cs:57 | a Guid's default text form has 36 characters: digit i at Position(i), hyphens at 8, 13, 18 and 23 |
| Guids.FormatInjective | EtlLib/Pipeline/EtlProcess.cs:57 | two Guids have the same text form if and only if they are equal |
| Guids.AttachmentKeyInjective | EtlLib/Pipeline/EtlProcess.cs:57-59 | two attachment keys `output:input` are equal if and only if they name the same (output, input) pair, so the list of keys acts as a set of pairs |
| Adapters.InputOutputAdapter.constructor | EtlLib/Pipeline/InputOutputAdapter.cs:32-38 | a new adapter has its output node, no queues, no inputs and an emitted count of 0 |
| Adapters.InputOutputAdapter.GetConsumingEnumerable | EtlLib/Pipeline/InputOutputAdapter.cs:46-54 | succeeds if and only if the node has a queue; the result then refers to this adapter's queue for that node; otherwise it is the unknown-consumer error |
| Adapters.InputOutputAdapter.AttachConsumer | EtlLib/Pipeline/InputOutputAdapter.cs:56-68 | input already bound: error, adapter unchanged; queue already present: false, adapter unchanged; otherwise true, exactly one new empty open queue under the node's id, the node added to the inputs, the count unchanged |
| Adapters.InputOutputAdapter.AttachConsumer2 | EtlLib/Pipeline/InputOutputAdapter.cs:70-81 | the dual-input attach: the error only when both inputs are bound; otherwise the same false/true outcomes and effects as the single-input attach |
| Adapters.InputOutputAdapter.Emit | EtlLib/Pipeline/InputOutputAdapter.cs:83-96 | the record is frozen, the count rises by exactly 1, the consumer ids are unchanged, and every queue has the record appended at its end (`Appended`); the inputs are unchanged |
| Adapters.InputOutputAdapter.SignalEnd | EtlLib/Pipeline/InputOutputAdapter.cs:98-104 | every queue is marked completed with its contents unchanged (`Completed`); ids, inputs and count unchanged |
| Adapters.EmitAllAppends | EtlLib/Pipeline/InputOutputAdapter.cs:91-92 | emitting a sequence of records keeps the consumer ids and appends the whole sequence, in order, to every queue |
| Adapters.EveryConsumerSeesTheStream | EtlLib/Pipeline/InputOutputAdapter.cs:91-92 | consumers attached before any emission each hold exactly the emitted records in emission order, and any two hold the same sequence, whatever order the queues are visited in |
| Adapters.EndFollowsTheStream | EtlLib/Pipeline/InputOutputAdapter.cs:83-104 | emitting records and then signalling the end leaves every queue holding its old contents followed by the records, completed |
| Process.RegisterAllMembers | EtlLib/Pipeline/EtlProcess.cs:40-53 | registering keeps the old registry as a prefix; a node is registered afterwards if and only if it was registered before or was one of those registered |
| Process.RegisterAllNoDuplicates | EtlLib/Pipeline/EtlProcess.cs:42-46 | registration never puts a node in the registry twice |
| Process.RegisterAllPresent | EtlLib/Pipeline/EtlProcess.cs:42-43 | registering only nodes already present changes nothing |
| Process.RegisterAllIdempotent | EtlLib/Pipeline/EtlProcess.cs:49-53 | registering the same nodes a second time changes nothing |
| Process.EtlProcess.constructor | EtlLib/Pipeline/EtlProcess.cs:25-38 | a new process keeps its context and has empty node, adapter and attachment-key lists |
| Process.EtlProcess.RegisterNode | EtlLib/Pipeline/EtlProcess.cs:40-47 | a node already registered: nothing changes, its context included; otherwise it is appended and its context is set to the process context |
| Process.EtlProcess.RegisterNodes | EtlLib/Pipeline/EtlProcess.cs:49-53 | the node list becomes `RegisterAll(old nodes, ns)`; nodes newly registered get the process context; the others keep theirs |
| Process.EtlProcess.FindAdapter | EtlLib/Pipeline/EtlProcess.cs:67 | returns the registered adapter whose output is the node, or null if and only if there is none |
| Process.EtlProcess.GetOrCreateAdapter | EtlLib/Pipeline/EtlProcess.cs:67-76 | returns the output's adapter; it was already registered if and only if one existed, and then adapters and emitter are unchanged; otherwise a new empty adapter is appended and made the output's emitter; at most one adapter per output is kept |
| Process.EtlProcess.RegisterAndGetAdapter | EtlLib/Pipeline/EtlProcess.cs:65-76 | registers the input then the output, with their contexts, and gets or creates the output's adapter with the effects above |
| Process.EtlProcess.BindInput | EtlLib/Pipeline/EtlProcess.cs:78-99 | single-input node: bound input is an error; otherwise input 1 is bound to the node's queue. Dual-input node: both bound is an error; otherwise the first unbound input is bound. On success the adapter's queues become `WithConsumer(old, id)` and the node joins its inputs unless it already had a queue; on error the adapter is unchanged |
| Process.EtlProcess.AttachInputToOutput | EtlLib/Pipeline/EtlProcess.cs:55-102 | a pair already recorded is a no-op. Otherwise both nodes are registered, the output gets its one adapter (created and made its emitter if new), other adapters are unchanged, and the input's slots, the adapter's queues and its inputs change as `BindInput` states; the pair's key is appended only on success. Nothing else changes: the frame allows only the input's slots, both nodes' contexts, the output's emitter, the process's lists and the adapters, so the output's own input slots and the input's emitter are kept, and chains can be wired one link at a time |
| CsvRecords.Keys | EtlLib.Nodes.CsvFiles/CsvWriterNode.cs:72-76 | the keys of a row, one per field, in field order |
| CsvRecords.Values | EtlLib.Nodes.CsvFiles/CsvWriterNode.cs:81-84 | the values of a row, one per field, in field order |
| CsvRecords.ValueRecords | EtlLib.Nodes.CsvFiles/CsvWriterNode.cs:68-85 | one value record per row, in input order |
| CsvRecords.WriteHeaderFields | EtlLib.Nodes.CsvFiles/CsvWriterNode.cs:72-76 | the header loop writes exactly the row's keys, which are also the columns |
| CsvRecords.WriteValueFields | EtlLib.Nodes.CsvFiles/CsvWriterNode.cs:81-84 | the value loop writes exactly the row's values |
| CsvRecords.WriteNextRow | EtlLib.Nodes.CsvFiles/CsvWriterNode.cs:69-85 | one turn of the row loop extends the records and columns written for a prefix of the input to those for the next longer prefix, and clears `first` when the header is on |
| CsvRecords.WriteRows | EtlLib.Nodes.CsvFiles/CsvWriterNode.cs:61-88 | the row loop writes exactly `WrittenRecords(rows, includeHeader)`, gathers `Columns(rows, includeHeader)` and counts one per row |
| CsvRecords.WrittenRecordsSnoc | EtlLib.Nodes.CsvFiles/CsvWriterNode.cs:68-85 | one more row adds its value record, preceded by the header record exactly when it is the first row and the header is on |
| CsvRecords.HeaderIsFirstRowKeys | EtlLib.Nodes.CsvFiles/CsvWriterNode.cs:70-79 | header on and some input: one more record than rows, the first being the first row's keys, which equal the columns; record i+1 is row i's values |
| CsvRecords.NoHeaderWhenOff | EtlLib.Nodes.CsvFiles/CsvWriterNode.cs:62-70 | header off: only value records are written and the columns are empty |
| CsvRecords.OneRecordPerRow | EtlLib.Nodes.CsvFiles/CsvWriterNode.cs:68-85 | every row yields exactly one record, its values, right after at most one header record, in input order |
| CsvRecords.ReportedRowCountVersusRecords | EtlLib.Nodes.CsvFiles/CsvWriterNode.cs:87-94 | the reported count equals the records written, except for empty input with the header on, where it reports 1 and nothing is written |
| CsvFiles.CsvWriterNode.constructor | EtlLib.Nodes.CsvFiles/CsvWriterNode.cs:31-38 | a new writer keeps its path, writes a header by default and has counted nothing |
| CsvFiles.CsvWriterNode.WithSpecifiedFilePath | EtlLib.Nodes.CsvFiles/CsvWriterNode.cs:40-44 | sets the path and nothing else |
| CsvFiles.CsvWriterNode.IncludeHeader | EtlLib.Nodes.CsvFiles/CsvWriterNode.cs:52-56 | sets the header flag, true when no argument is given, and nothing else |
| CsvFiles.CsvWriterNode.Execute | EtlLib.Nodes.CsvFiles/CsvWriterNode.cs:58-100 | writes exactly `WrittenRecords`; the count rises by `ReportedRowCount`; exactly one fresh frozen result carries the path, new count, columns and header flag; the output queues become `Completed(Appended(old, result))`, so one result and then the end |
| SrcCsvFiles.ObjectPool.Return | src/EtlLib.Nodes.CsvFiles/CsvWriterNode.cs:66 | a returned row is appended to the pool's returns |
| SrcCsvFiles.CsvWriterNode.constructor | src/EtlLib.Nodes.CsvFiles/CsvWriterNode.cs:17-23 | a new writer keeps its path, writes a header by default and has counted nothing |
| SrcCsvFiles.CsvWriterNode.IncludeHeader | src/EtlLib.Nodes.CsvFiles/CsvWriterNode.cs:25-29 | sets the header flag, true when no argument is given, and nothing else |
| SrcCsvFiles.CsvWriterNode.WriteRowsReturning | src/EtlLib.Nodes.CsvFiles/CsvWriterNode.cs:47-68 | the row loop writes exactly `WrittenRecords`, gathers `Columns`, counts one per row, and the rows handed back to the pool are exactly the input rows, in order |
| SrcCsvFiles.CsvWriterNode.OnExecute | src/EtlLib.Nodes.CsvFiles/CsvWriterNode.cs:37-80 | as the other version's `Execute`, and additionally the pool's returns grow by exactly the input |
| Scenarios.WireFirst | EtlLib/Pipeline/EtlProcess.cs:55-102 | the first wiring of a new process creates one adapter with one empty queue, the input's, makes it the output's emitter, binds the input's first slot to it and records the pair |
| Scenarios.WireAnotherConsumer | EtlLib/Pipeline/EtlProcess.cs:67-99 | wiring another single-input node to an output that has an adapter reuses that adapter and adds the node's empty queue beside the existing one |
| Scenarios.WireTwoConsumers | EtlLib/Pipeline/EtlProcess.cs:55-102 | wiring A to B and then to C leaves A with one adapter holding exactly two empty queues, B's and C's, each node bound to its own |
| Scenarios.BroadcastQueues | EtlLib/Pipeline/InputOutputAdapter.cs:83-104 | two empty queues, after three emissions and the end, each hold those three records in order and are completed |
| Scenarios.BroadcastToTwoConsumers | EtlLib/Pipeline/InputOutputAdapter.cs:83-104 | an adapter with B's and C's empty queues that emits three records and signals the end leaves both queues holding exactly those records, in order, completed |
| Scenarios.WireAndBroadcast | EtlLib/Pipeline/InputOutputAdapter.cs:91-103 | after wiring two consumers and broadcasting, both consumers see the same three records, in order, and the end |
| Scenarios.WireSecondInput | EtlLib/Pipeline/EtlProcess.cs:78-91 | wiring a second output to a dual-input node whose first input is bound creates that output's adapter and binds the second input to it |
| Scenarios.WireDualInput | EtlLib/Pipeline/EtlProcess.cs:78-91 | wiring outputs A and then E to a dual-input node D binds input 1 to A's adapter and input 2 to E's, and records both pairs |
| Scenarios.WireChain | EtlLib/Pipeline/EtlProcess.cs:55-102 | wiring A -> B and then B -> C gives each link its own adapter, each the emitter of its output and holding one empty queue; B's input stays bound to A's adapter after B's output is wired |
| Scenarios.DualInputSlots | EtlLib/Pipeline/EtlProcess.cs:55-102 | a third output wired to D fails with the both-inputs-assigned error; wiring A to D again passes; afterwards the key list holds exactly the two recorded pairs, so neither call recorded anything |

## Left out

- `EtlProcess.Execute` (running every node as a task, waiting, stopwatches, disposing the adapters, garbage collection): concurrency and runtime services with no state the model tracks. The adapter shown defines no `Dispose`.
- Blocking and thread safety of the concurrent queue, dictionary and bag: queues are plain sequences with a completed flag. Consumers taking or blocking on items are not modelled, so a queue only grows.
- Adapters.InputOutputAdapter.Emit: requires that no queue is completed. In the source, adding to a completed queue throws part-way through the broadcast, in an unspecified dictionary order.
- Logging, including the message every 5000 emitted items: it has no effect on state.
- The adapter's `WithLogger` and the orchestrator's settings and name: configuration with no effect on wiring.
- The record type is one type parameter per process. The source's `as InputOutputAdapter<T>` cast is therefore always the identity here. The case where an output already has an adapter of another record type, the cast yields null and a second adapter is created, is not modelled.
- `SingleOrDefault` throwing when two adapters share an output: `EtlProcess.Valid` states that this never happens, and every operation preserves it.
- Node setters (`SetInput`, `SetInput2`, `SetEmitter`, `SetContext`) are modelled as plain field assignments. The abstract node classes that define them are not part of this model.
- `Freeze`, any mutation after freezing, the object pool's implementation and the process context: a `frozen` flag, a sequence of returned rows, and a number standing for the context.
- `AttachConsumer`'s boolean result is ignored by `AttachInputToOutput`, as in the source. A consumer that already has a queue is still bound to it.
- CsvHelper, file I/O and encoding (field escaping, `File.OpenWrite`, `Flush`, `WithEncoding`): the model gives the records written, as a sequence of string records. Quoting and the byte encoding are not captured, and neither is the file: `File.OpenWrite` does not truncate, so an existing longer file keeps its tail after those records.
- The writers' `Execute`/`OnExecute` take the rows and the output adapter as parameters instead of reading the node's own bound input and emitter, so a writer is not a `Node` of a wired graph and its execution is not linked to the wiring.
- The adapter's emitted-item counter `_emittedItems` is a `long`; the model makes it an unbounded `nat`.
- `WithFilePathFromStateKey` and the constructor's `stateKey` argument: they read the context's state dictionary, which is not part of this model. A null file path is not modelled.
- CsvFiles.CsvWriterNode.Execute: the row count is an unbounded integer, so the 32-bit wrap-around of `_writtenRowCount` after 2^31 - 1 rows is not modelled. The same holds for SrcCsvFiles.CsvWriterNode.OnExecute.
- The newer writer's result class `NodeOutputWithFilePath` is not part of this model. Its result is taken to carry the fields of `CsvWriterNodeResult`, which it constructs.
- The Amazon S3 writer and the abstract process wrapper: a network client and a thin builder wrapper outside the wiring core.
