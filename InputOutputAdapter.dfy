/**
 * The broadcast channel behind one output-bearing node.
 *
 * An adapter keeps one queue per attached consumer, keyed by the consumer's
 * id. Emitting a record freezes it and appends the same reference to every
 * queue; signalling the end marks every queue completed. The queues are
 * modelled by their buffered contents and their completed flag; blocking
 * reads and thread safety are left out.
 */
module Adapters {
  import opened Wrappers
  import opened Guids

  /** The configuration errors raised while wiring the graph. */
  datatype ConfigError =
    | InputAlreadyAssigned(node: Guid)   // a single-input node whose input is already bound
    | BothInputsAssigned(node: Guid)     // a dual-input node whose two inputs are already bound
    | UnknownConsumer(node: Guid)        // a queue asked for a node that was never attached

  /** The process-wide context; only its identity matters here. */
  type ProcessContext = nat

  /** A record flowing through the pipeline: mutable until it is frozen on emission. */
  class Item<T> {
    const payload: T
    var frozen: bool

    constructor (payload: T)
      ensures this.payload == payload && !frozen
    {
      this.payload := payload;
      frozen := false;
    }
  }

  /** The consuming sequence that an adapter hands out for the queue of one consumer. */
  datatype QueueRef<T> = QueueRef(adapter: InputOutputAdapter<T>, consumer: Guid)

  /** How many inputs a node has: none for a source, one, or two for a dual-input node. */
  type InputSlots = n: nat | n <= 2

  /** A node of the graph: its identity, its ports and the context it is bound to. */
  class Node<T> {
    const id: Guid
    const hasOutput: bool
    const inputSlots: InputSlots
    var context: Option<ProcessContext>
    var input: Option<QueueRef<T>>
    var input2: Option<QueueRef<T>>
    var emitter: InputOutputAdapter?<T>

    constructor (id: Guid, hasOutput: bool, inputSlots: InputSlots)
      ensures this.id == id && this.hasOutput == hasOutput && this.inputSlots == inputSlots
      ensures context == None && input == None && input2 == None && emitter == null
    {
      this.id := id;
      this.hasOutput := hasOutput;
      this.inputSlots := inputSlots;
      context := None;
      input := None;
      input2 := None;
      emitter := null;
    }
  }

  /** What one consumer's queue holds: the records not yet taken, and whether adding has ended. */
  datatype Queue<T> = Queue(items: seq<Item<T>>, completed: bool)

  /** The queues after attaching consumer `id`: a new empty queue, unless it has one already. */
  function WithConsumer<T>(qs: map<Guid, Queue<T>>, id: Guid): map<Guid, Queue<T>>
  {
    if id in qs then qs else qs[id := Queue([], false)]
  }

  /** Every queue of `qs` with `x` appended. */
  function Appended<T>(qs: map<Guid, Queue<T>>, x: Item<T>): map<Guid, Queue<T>>
  {
    map k | k in qs :: Queue(qs[k].items + [x], qs[k].completed)
  }

  /** Every queue of `qs` marked completed. */
  function Completed<T>(qs: map<Guid, Queue<T>>): map<Guid, Queue<T>>
  {
    map k | k in qs :: Queue(qs[k].items, true)
  }

  /** The queues after emitting `xs`, one record at a time, in order. */
  function EmitAll<T>(qs: map<Guid, Queue<T>>, xs: seq<Item<T>>): map<Guid, Queue<T>>
    decreases |xs|
  {
    if xs == [] then qs else EmitAll(Appended(qs, xs[0]), xs[1..])
  }

  /** Emitting `xs` keeps the consumers and appends all of `xs`, in order, to every queue. */
  lemma {:induction false} EmitAllAppends<T>(qs: map<Guid, Queue<T>>, xs: seq<Item<T>>)
    ensures EmitAll(qs, xs).Keys == qs.Keys
    ensures forall k :: k in qs ==> EmitAll(qs, xs)[k] == Queue(qs[k].items + xs, qs[k].completed)
    decreases |xs|
  {
    if xs != [] {
      var next := Appended(qs, xs[0]);
      EmitAllAppends(next, xs[1..]);
      forall k | k in qs
        ensures EmitAll(qs, xs)[k] == Queue(qs[k].items + xs, qs[k].completed)
      {
        assert next[k].items + xs[1..] == qs[k].items + xs;
      }
    }
  }

  /**
   * Consumers attached to an adapter before anything was emitted all see
   * exactly the emitted records, in emission order, whatever order the
   * queues are visited in.
   */
  lemma EveryConsumerSeesTheStream<T>(qs: map<Guid, Queue<T>>, xs: seq<Item<T>>, j: Guid, k: Guid)
    requires forall c :: c in qs ==> qs[c].items == []
    requires j in qs && k in qs
    ensures j in EmitAll(qs, xs) && k in EmitAll(qs, xs)
    ensures EmitAll(qs, xs)[j].items == xs
    ensures EmitAll(qs, xs)[j].items == EmitAll(qs, xs)[k].items
  {
    EmitAllAppends(qs, xs);
  }

  /**
   * After emitting `xs` and signalling the end, every queue holds what it held
   * before followed by `xs`, and is completed: the end never truncates the stream.
   */
  lemma EndFollowsTheStream<T>(qs: map<Guid, Queue<T>>, xs: seq<Item<T>>)
    ensures Completed(EmitAll(qs, xs)).Keys == qs.Keys
    ensures forall k :: k in qs ==> Completed(EmitAll(qs, xs))[k] == Queue(qs[k].items + xs, true)
  {
    EmitAllAppends(qs, xs);
  }

  /** The fan-out channel of one output node. */
  class InputOutputAdapter<T> {
    const output: Node<T>
    var queueMap: map<Guid, Queue<T>>
    var inputs: multiset<Node<T>>
    var emittedItems: nat

    constructor (output: Node<T>)
      ensures this.output == output
      ensures queueMap == map[] && inputs == multiset{} && emittedItems == 0
    {
      this.output := output;
      queueMap := map[];
      inputs := multiset{};
      emittedItems := 0;
    }

    /**
     * The consuming sequence of the queue kept for node `nodeId`; it exists
     * only once that node has been attached.
     */
    function GetConsumingEnumerable(nodeId: Guid): (r: Result<QueueRef<T>, ConfigError>)
      reads this
      ensures r.Success? <==> nodeId in queueMap
      ensures r.Success? ==> r.value.adapter == this && r.value.consumer == nodeId
      ensures r.Failure? ==> r.error == UnknownConsumer(nodeId)
    {
      if nodeId in queueMap then Success(QueueRef(this, nodeId)) else Failure(UnknownConsumer(nodeId))
    }

    /** Attaches a single-input consumer: fails if its input is bound, returns false if it already has a queue. */
    method AttachConsumer(input: Node<T>) returns (r: Result<bool, ConfigError>)
      requires 1 <= input.inputSlots
      modifies this
      ensures emittedItems == old(emittedItems)
      ensures input.input.Some? ==> r == Failure(InputAlreadyAssigned(input.id)) && unchanged(this)
      ensures input.input.None? && input.id in old(queueMap) ==> r == Success(false) && unchanged(this)
      ensures input.input.None? && input.id !in old(queueMap) ==>
        && r == Success(true)
        && queueMap == old(queueMap)[input.id := Queue([], false)]
        && inputs == old(inputs) + multiset{input}
    {
      if input.input.Some? {
        return Failure(InputAlreadyAssigned(input.id));
      }
      if input.id in queueMap {
        return Success(false);
      }
      queueMap := queueMap[input.id := Queue([], false)];
      inputs := inputs + multiset{input};
      r := Success(true);
    }

    /** Attaches a dual-input consumer: fails only if both its inputs are bound, returns false if it already has a queue. */
    method AttachConsumer2(input: Node<T>) returns (r: Result<bool, ConfigError>)
      requires input.inputSlots == 2
      modifies this
      ensures emittedItems == old(emittedItems)
      ensures input.input.Some? && input.input2.Some? ==> r == Failure(BothInputsAssigned(input.id)) && unchanged(this)
      ensures (input.input.None? || input.input2.None?) && input.id in old(queueMap) ==> r == Success(false) && unchanged(this)
      ensures (input.input.None? || input.input2.None?) && input.id !in old(queueMap) ==>
        && r == Success(true)
        && queueMap == old(queueMap)[input.id := Queue([], false)]
        && inputs == old(inputs) + multiset{input}
    {
      if input.input.Some? && input.input2.Some? {
        return Failure(BothInputsAssigned(input.id));
      }
      if input.id in queueMap {
        return Success(false);
      }
      queueMap := queueMap[input.id := Queue([], false)];
      inputs := inputs + multiset{input};
      r := Success(true);
    }

    /** Freezes `item`, counts it, and appends it to the end of every consumer's queue. */
    method Emit(item: Item<T>)
      requires forall k :: k in queueMap ==> !queueMap[k].completed
      modifies this, item
      ensures item.frozen
      ensures emittedItems == old(emittedItems) + 1
      ensures queueMap.Keys == old(queueMap).Keys
      ensures forall k :: k in queueMap ==> queueMap[k] == Queue(old(queueMap)[k].items + [item], false)
      ensures queueMap == Appended(old(queueMap), item)
      ensures inputs == old(inputs)
    {
      item.frozen := true;
      emittedItems := emittedItems + 1;
      var pending := queueMap.Keys;
      ghost var before := queueMap;
      while pending != {}
        invariant pending <= before.Keys && queueMap.Keys == before.Keys
        invariant forall k :: k in pending ==> queueMap[k] == before[k]
        invariant forall k :: k in before && k !in pending ==> queueMap[k] == Queue(before[k].items + [item], before[k].completed)
        invariant inputs == old(inputs) && emittedItems == old(emittedItems) + 1 && item.frozen
        decreases pending
      {
        var k :| k in pending;
        queueMap := queueMap[k := Queue(queueMap[k].items + [item], queueMap[k].completed)];
        pending := pending - {k};
      }
    }

    /** Marks every consumer's queue completed, keeping what each one buffers. */
    method SignalEnd()
      modifies this
      ensures queueMap.Keys == old(queueMap).Keys
      ensures forall k :: k in queueMap ==> queueMap[k] == Queue(old(queueMap)[k].items, true)
      ensures queueMap == Completed(old(queueMap))
      ensures inputs == old(inputs) && emittedItems == old(emittedItems)
    {
      var pending := queueMap.Keys;
      ghost var before := queueMap;
      while pending != {}
        invariant pending <= before.Keys && queueMap.Keys == before.Keys
        invariant forall k :: k in pending ==> queueMap[k] == before[k]
        invariant forall k :: k in before && k !in pending ==> queueMap[k] == Queue(before[k].items, true)
        invariant inputs == old(inputs) && emittedItems == old(emittedItems)
        decreases pending
      {
        var k :| k in pending;
        queueMap := queueMap[k := Queue(queueMap[k].items, true)];
        pending := pending - {k};
      }
    }
  }
}
