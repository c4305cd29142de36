/**
 * Whole-graph behaviour derived from the contracts of the orchestrator and
 * the adapter alone: clients that build small graphs and check what every
 * consumer's queue holds.
 */
module Scenarios {
  import opened Wrappers
  import opened Guids
  import opened Adapters
  import opened Process

  /**
   * The first wiring of a new process: the output gets a new adapter holding
   * one empty queue, the input's, and the input's first slot is bound to it.
   */
  method WireFirst<T>(process: EtlProcess<T>, output: Node<T>, input: Node<T>) returns (adapter: InputOutputAdapter<T>)
    requires process.Valid() && process.nodes == [] && process.ioAdapters == [] && process.attachmentDeduplicationList == []
    requires output.hasOutput && 1 <= input.inputSlots && input.input == None && input.input2 == None
    modifies process, output, input
    ensures fresh(adapter) && adapter.output == output && output.emitter == adapter
    ensures process.Valid() && process.ioAdapters == [adapter]
    ensures process.attachmentDeduplicationList == [AttachmentKey(output.id, input.id)]
    ensures adapter.queueMap == map[input.id := Queue([], false)]
    ensures input.input == Some(QueueRef(adapter, input.id)) && input.input2 == None
  {
    var r, a := process.AttachInputToOutput(output, input);
    adapter := output.emitter;
  }

  /** Wiring a second single-input consumer to an output that has an adapter: the adapter gains its queue. */
  method WireAnotherConsumer<T>(process: EtlProcess<T>, output: Node<T>, input: Node<T>, adapter: InputOutputAdapter<T>, firstId: Guid)
    requires process.Valid() && process.ioAdapters == [adapter] && adapter.output == output
    requires output.hasOutput && input.inputSlots == 1 && input.input == None
    requires AttachmentKey(output.id, input.id) !in process.attachmentDeduplicationList
    requires adapter.queueMap == map[firstId := Queue([], false)] && input.id != firstId
    modifies process, output, input, adapter
    ensures process.ioAdapters == [adapter]
    ensures adapter.queueMap == map[firstId := Queue([], false), input.id := Queue([], false)]
    ensures input.input == Some(QueueRef(adapter, input.id))
  {
    var r, a := process.AttachInputToOutput(output, input);
    assert a == adapter;
  }

  /** Wires node A's output to single-input nodes B and C: A's adapter then has one empty queue for each. */
  method WireTwoConsumers<T>(idA: Guid, idB: Guid, idC: Guid) returns (nodeA: Node<T>, nodeB: Node<T>, nodeC: Node<T>, adapter: InputOutputAdapter<T>)
    requires idB != idC
    ensures fresh(adapter) && nodeB.id == idB && nodeC.id == idC
    ensures adapter.queueMap == map[idB := Queue([], false), idC := Queue([], false)]
    ensures nodeB.input == Some(QueueRef(adapter, idB)) && nodeC.input == Some(QueueRef(adapter, idC))
  {
    nodeA := new Node<T>(idA, true, 0);
    nodeB := new Node<T>(idB, false, 1);
    nodeC := new Node<T>(idC, false, 1);
    var process := new EtlProcess<T>(0);
    adapter := WireFirst(process, nodeA, nodeB);
    AttachmentKeyInjective(idA, idC, idA, idB);
    WireAnotherConsumer(process, nodeA, nodeC, adapter, idB);
  }

  /** Two empty queues, after three emissions and the end, hold the three records and are completed. */
  lemma BroadcastQueues<T>(empty: map<Guid, Queue<T>>, idB: Guid, idC: Guid, x: Item<T>, y: Item<T>, z: Item<T>)
    requires idB != idC && empty == map[idB := Queue([], false), idC := Queue([], false)]
    ensures Completed(Appended(Appended(Appended(empty, x), y), z)) == map[idB := Queue([x, y, z], true), idC := Queue([x, y, z], true)]
  {
    var result := Completed(Appended(Appended(Appended(empty, x), y), z));
    assert result.Keys == {idB, idC};
    assert [] + [x] + [y] + [z] == [x, y, z];
    assert result[idB] == Queue([x, y, z], true);
    assert result[idC] == Queue([x, y, z], true);
  }

  /**
   * An adapter with the two empty queues of B and C, as wiring leaves it,
   * emits records carrying a, b, c and then signals its end: B's and C's
   * queues each hold exactly those records, in that order, and are completed.
   */
  method BroadcastToTwoConsumers<T>(adapter: InputOutputAdapter<T>, idB: Guid, idC: Guid, a: T, b: T, c: T) returns (emitted: seq<Item<T>>)
    requires idB != idC && adapter.queueMap == map[idB := Queue([], false), idC := Queue([], false)]
    modifies adapter
    ensures |emitted| == 3 && emitted[0].payload == a && emitted[1].payload == b && emitted[2].payload == c
    ensures adapter.queueMap == map[idB := Queue(emitted, true), idC := Queue(emitted, true)]
  {
    var itemA := new Item(a);
    var itemB := new Item(b);
    var itemC := new Item(c);
    ghost var attached := adapter.queueMap;
    adapter.Emit(itemA);
    ghost var q1 := adapter.queueMap;
    adapter.Emit(itemB);
    ghost var q2 := adapter.queueMap;
    adapter.Emit(itemC);
    ghost var q3 := adapter.queueMap;
    adapter.SignalEnd();
    assert adapter.queueMap == Completed(q3) && q3 == Appended(q2, itemC) && q2 == Appended(q1, itemB) && q1 == Appended(attached, itemA);
    emitted := [itemA, itemB, itemC];
    BroadcastQueues(attached, idB, idC, itemA, itemB, itemC);
  }

  /** Wiring two consumers to one output and then broadcasting: both see the whole stream, and its end. */
  method WireAndBroadcast<T>(idA: Guid, idB: Guid, idC: Guid, a: T, b: T, c: T) returns (qb: Queue<T>, qc: Queue<T>)
    requires idB != idC
    ensures qb == qc && qb.completed && |qb.items| == 3
    ensures qb.items[0].payload == a && qb.items[1].payload == b && qb.items[2].payload == c
  {
    var nodeA, nodeB, nodeC, adapter := WireTwoConsumers<T>(idA, idB, idC);
    var emitted := BroadcastToTwoConsumers(adapter, idB, idC, a, b, c);
    qb, qc := adapter.queueMap[idB], adapter.queueMap[idC];
  }

  /**
   * A reader A, a transform B and a writer C wired as A -> B -> C: B keeps
   * the input bound to A's adapter when its own output is wired to C, and
   * each link has its own adapter.
   */
  method WireChain<T>(idA: Guid, idB: Guid, idC: Guid) returns (nodeA: Node<T>, nodeB: Node<T>, nodeC: Node<T>, ghost adapterA: InputOutputAdapter<T>, ghost adapterB: InputOutputAdapter<T>)
    requires idA != idB
    ensures fresh(adapterA) && fresh(adapterB) && adapterA != adapterB
    ensures adapterA.output == nodeA && adapterB.output == nodeB
    ensures nodeA.emitter == adapterA && nodeB.emitter == adapterB
    ensures nodeB.input == Some(QueueRef(adapterA, idB)) && nodeC.input == Some(QueueRef(adapterB, idC))
    ensures adapterA.queueMap == map[idB := Queue([], false)] && adapterB.queueMap == map[idC := Queue([], false)]
  {
    nodeA := new Node<T>(idA, true, 0);
    nodeB := new Node<T>(idB, true, 1);
    nodeC := new Node<T>(idC, false, 1);
    var process := new EtlProcess<T>(0);
    adapterA := WireFirst(process, nodeA, nodeB);
    label wired:
    AttachmentKeyInjective(idB, idC, idA, idB);
    ghost var r;
    r, adapterB := process.AttachInputToOutput(nodeB, nodeC);
    assert adapterB != adapterA;
    assert adapterA in old@wired(process.ioAdapters);
  }

  /**
   * Wiring a second output to a dual-input node whose first slot is bound:
   * the output gets a new adapter, and the node's second slot is bound to it.
   */
  method WireSecondInput<T>(process: EtlProcess<T>, output: Node<T>, input: Node<T>, first: InputOutputAdapter<T>) returns (adapter: InputOutputAdapter<T>)
    requires process.Valid() && process.ioAdapters == [first] && first.output != output
    requires output.hasOutput && input.inputSlots == 2 && input.input.Some? && input.input2 == None
    requires AttachmentKey(output.id, input.id) !in process.attachmentDeduplicationList
    modifies process, output, input, first
    ensures fresh(adapter) && adapter.output == output
    ensures process.Valid() && process.ioAdapters == [first, adapter]
    ensures process.attachmentDeduplicationList == old(process.attachmentDeduplicationList) + [AttachmentKey(output.id, input.id)]
    ensures input.input == old(input.input) && input.input2 == Some(QueueRef(adapter, input.id))
  {
    var r, a := process.AttachInputToOutput(output, input);
    adapter := output.emitter;
  }

  /** Wires outputs A and then E to a dual-input node D: slot 1 is bound to A's queue, slot 2 to E's. */
  method WireDualInput<T>(idA: Guid, idE: Guid, idD: Guid) returns (process: EtlProcess<T>, nodeA: Node<T>, nodeD: Node<T>, ghost adapterA: InputOutputAdapter<T>, ghost adapterE: InputOutputAdapter<T>)
    requires idA != idE
    ensures fresh(process) && fresh(nodeA) && fresh(nodeD) && fresh(adapterA) && fresh(adapterE)
    ensures process.Valid() && process.ioAdapters == [adapterA, adapterE]
    ensures nodeA.hasOutput && nodeA.id == idA && nodeD.inputSlots == 2 && nodeD.id == idD
    ensures process.attachmentDeduplicationList == [AttachmentKey(idA, idD), AttachmentKey(idE, idD)]
    ensures nodeD.input == Some(QueueRef(adapterA, idD)) && nodeD.input2 == Some(QueueRef(adapterE, idD))
    ensures adapterA != adapterE
  {
    nodeA := new Node<T>(idA, true, 0);
    var nodeE := new Node<T>(idE, true, 0);
    nodeD := new Node<T>(idD, false, 2);
    process := new EtlProcess<T>(0);
    var a1 := WireFirst(process, nodeA, nodeD);
    AttachmentKeyInjective(idE, idD, idA, idD);
    var a2 := WireSecondInput(process, nodeE, nodeD, a1);
    adapterA, adapterE := a1, a2;
  }

  /**
   * A third output F wired to the dual-input node D fails because both slots
   * are bound, and does not record the pair; wiring A to D again is a no-op.
   */
  method DualInputSlots<T>(idA: Guid, idE: Guid, idF: Guid, idD: Guid) returns (process: EtlProcess<T>, third: Outcome<ConfigError>, again: Outcome<ConfigError>)
    requires idA != idE && idF != idA && idF != idE
    ensures third == Fail(BothInputsAssigned(idD))
    ensures again == Pass
    ensures process.attachmentDeduplicationList == [AttachmentKey(idA, idD), AttachmentKey(idE, idD)]
  {
    var nodeA, nodeD;
    ghost var adapterA, adapterE;
    process, nodeA, nodeD, adapterA, adapterE := WireDualInput<T>(idA, idE, idD);
    var nodeF := new Node<T>(idF, true, 0);
    AttachmentKeyInjective(idF, idD, idA, idD);
    AttachmentKeyInjective(idF, idD, idE, idD);
    ghost var adapterF;
    third, adapterF := process.AttachInputToOutput(nodeF, nodeD);

    ghost var none;
    again, none := process.AttachInputToOutput(nodeA, nodeD);
  }
}
