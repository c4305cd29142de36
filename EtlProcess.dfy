/**
 * The process orchestrator's graph construction.
 *
 * The process keeps three registries: the nodes it will run (no node twice),
 * the adapters it created (at most one per output node), and the list of
 * attachment keys "<output id>:<input id>" it has already wired. Wiring an
 * input to an output registers both nodes, finds or creates the output's
 * adapter, attaches the input as a consumer and binds the input's first free
 * slot to its queue.
 */
module Process {
  import opened Wrappers
  import opened Guids
  import opened Adapters

  /** `s` holds no element twice. */
  predicate NoDuplicates<N(==)>(s: seq<N>)
  {
    forall i, j :: 0 <= i < j < |s| ==> s[i] != s[j]
  }

  /** The registry after registering each of `ns` in turn, skipping those already present. */
  function RegisterAll<N(==)>(registry: seq<N>, ns: seq<N>): seq<N>
    decreases |ns|
  {
    if ns == [] then registry
    else if ns[0] in registry then RegisterAll(registry, ns[1..])
    else RegisterAll(registry + [ns[0]], ns[1..])
  }

  /** Registering keeps the old registry as a prefix and contains exactly the old and the new nodes. */
  lemma {:induction false} RegisterAllMembers<N>(registry: seq<N>, ns: seq<N>)
    ensures registry <= RegisterAll(registry, ns)
    ensures forall x :: x in RegisterAll(registry, ns) <==> x in registry || x in ns
    decreases |ns|
  {
    if ns != [] {
      var next := if ns[0] in registry then registry else registry + [ns[0]];
      RegisterAllMembers(next, ns[1..]);
      assert ns == [ns[0]] + ns[1..];
    }
  }

  /** Registering never puts a node in the registry twice. */
  lemma {:induction false} RegisterAllNoDuplicates<N>(registry: seq<N>, ns: seq<N>)
    requires NoDuplicates(registry)
    ensures NoDuplicates(RegisterAll(registry, ns))
    decreases |ns|
  {
    if ns != [] {
      if ns[0] in registry {
        RegisterAllNoDuplicates(registry, ns[1..]);
      } else {
        RegisterAllNoDuplicates(registry + [ns[0]], ns[1..]);
      }
    }
  }

  /** Registering nodes that are all present already changes nothing. */
  lemma {:induction false} RegisterAllPresent<N>(registry: seq<N>, ns: seq<N>)
    requires forall x :: x in ns ==> x in registry
    ensures RegisterAll(registry, ns) == registry
    decreases |ns|
  {
    if ns != [] {
      RegisterAllPresent(registry, ns[1..]);
    }
  }

  /** Registering the same nodes a second time changes nothing. */
  lemma RegisterAllIdempotent<N>(registry: seq<N>, ns: seq<N>)
    ensures RegisterAll(RegisterAll(registry, ns), ns) == RegisterAll(registry, ns)
  {
    RegisterAllMembers(registry, ns);
    RegisterAllPresent(RegisterAll(registry, ns), ns);
  }

  class EtlProcess<T> {
    const processContext: ProcessContext
    var nodes: seq<Node<T>>
    var ioAdapters: seq<InputOutputAdapter<T>>
    var attachmentDeduplicationList: seq<string>

    /** No node is registered twice, and no output node has two adapters. */
    ghost predicate Valid()
      reads this
    {
      && NoDuplicates(nodes)
      && (forall i, j :: 0 <= i < j < |ioAdapters| ==> ioAdapters[i].output != ioAdapters[j].output)
      && (forall i :: 0 <= i < |ioAdapters| ==> ioAdapters[i].output in nodes)
    }

    constructor (context: ProcessContext)
      ensures Valid()
      ensures processContext == context
      ensures nodes == [] && ioAdapters == [] && attachmentDeduplicationList == []
    {
      processContext := context;
      nodes := [];
      ioAdapters := [];
      attachmentDeduplicationList := [];
    }

    /** Registers `node` and binds it to the process context, unless it is registered already. */
    method RegisterNode(node: Node<T>)
      modifies this`nodes, node`context
      ensures node in old(nodes) ==> nodes == old(nodes) && node.context == old(node.context)
      ensures node !in old(nodes) ==> nodes == old(nodes) + [node] && node.context == Some(processContext)
    {
      if node in nodes {
        return;
      }
      node.context := Some(processContext);
      nodes := nodes + [node];
    }

    /** Registers each of `ns` in turn. */
    method RegisterNodes(ns: seq<Node<T>>)
      modifies this`nodes, ns`context
      ensures nodes == RegisterAll(old(nodes), ns)
      ensures forall n :: n in ns && n in old(nodes) ==> n.context == old(n.context)
      ensures forall n :: n in ns && n !in old(nodes) ==> n.context == Some(processContext)
    {
      for i := 0 to |ns|
        invariant RegisterAll(nodes, ns[i..]) == RegisterAll(old(nodes), ns)
        invariant forall x :: x in nodes <==> x in old(nodes) || x in ns[..i]
        invariant forall n :: n in ns && n in old(nodes) ==> n.context == old(n.context)
        invariant forall n :: n in ns[..i] && n !in old(nodes) ==> n.context == Some(processContext)
        invariant forall n :: n in ns[i..] && n !in ns[..i] ==> n.context == old(n.context)
      {
        assert ns[i..] == [ns[i]] + ns[i + 1..];
        assert ns[..i + 1] == ns[..i] + [ns[i]];
        RegisterNode(ns[i]);
      }
      assert ns[..|ns|] == ns;
    }

    /** The adapter whose output is `output`, or null if it has none. */
    method FindAdapter(output: Node<T>) returns (a: InputOutputAdapter?<T>)
      requires Valid()
      ensures a != null ==> a in ioAdapters && a.output == output
      ensures a == null <==> forall b :: b in ioAdapters ==> b.output != output
    {
      a := null;
      for i := 0 to |ioAdapters|
        invariant a != null ==> a in ioAdapters && a.output == output
        invariant a == null <==> forall j :: 0 <= j < i ==> ioAdapters[j].output != output
      {
        if ioAdapters[i].output == output {
          a := ioAdapters[i];
        }
      }
    }

    /** The adapter of `output`, created and set as its emitter if it had none. */
    method GetOrCreateAdapter(output: Node<T>) returns (a: InputOutputAdapter<T>)
      requires Valid() && output in nodes
      modifies this`ioAdapters, output`emitter
      ensures Valid()
      ensures a in ioAdapters && a.output == output
      ensures (exists b :: b in old(ioAdapters) && b.output == output) <==> a in old(ioAdapters)
      ensures a in old(ioAdapters) ==> ioAdapters == old(ioAdapters) && output.emitter == old(output.emitter)
      ensures a !in old(ioAdapters) ==>
        && fresh(a) && ioAdapters == old(ioAdapters) + [a] && output.emitter == a
        && a.queueMap == map[] && a.inputs == multiset{} && a.emittedItems == 0
    {
      var found := FindAdapter(output);
      if found == null {
        a := new InputOutputAdapter(output);
        output.emitter := a;
        ioAdapters := ioAdapters + [a];
      } else {
        a := found;
      }
    }

    /** Registers `input` and then `output`, and returns the adapter of `output`, created if it had none. */
    method RegisterAndGetAdapter(output: Node<T>, input: Node<T>) returns (a: InputOutputAdapter<T>)
      requires Valid()
      modifies this`nodes, this`ioAdapters, [input, output]`context, output`emitter
      ensures Valid()
      ensures nodes == RegisterAll(old(nodes), [input, output])
      ensures input !in old(nodes) ==> input.context == Some(processContext)
      ensures output !in old(nodes) ==> output.context == Some(processContext)
      ensures input in old(nodes) ==> input.context == old(input.context)
      ensures output in old(nodes) ==> output.context == old(output.context)
      ensures a in ioAdapters && a.output == output
      ensures (exists b :: b in old(ioAdapters) && b.output == output) <==> a in old(ioAdapters)
      ensures a in old(ioAdapters) ==> ioAdapters == old(ioAdapters) && output.emitter == old(output.emitter)
      ensures a !in old(ioAdapters) ==>
        && fresh(a) && ioAdapters == old(ioAdapters) + [a] && output.emitter == a
        && a.queueMap == map[] && a.inputs == multiset{} && a.emittedItems == 0
    {
      RegisterNodes([input, output]);
      RegisterAllMembers(old(nodes), [input, output]);
      RegisterAllNoDuplicates(old(nodes), [input, output]);
      a := GetOrCreateAdapter(output);
    }

    /**
     * Attaches `input` as a consumer of `a` and binds its first unbound slot to
     * the consumer's queue; the error of the attach is passed on.
     */
    static method BindInput(a: InputOutputAdapter<T>, input: Node<T>) returns (r: Outcome<ConfigError>)
      requires 1 <= input.inputSlots
      modifies a, input`input, input`input2
      ensures a.emittedItems == old(a.emittedItems)
      ensures r.Fail? ==> unchanged(a)
      ensures r.Pass? ==> a.queueMap == WithConsumer(old(a.queueMap), input.id)
      ensures r.Pass? ==> a.inputs == if input.id in old(a.queueMap) then old(a.inputs) else old(a.inputs) + multiset{input}
      ensures input.inputSlots == 1 ==>
        && input.input2 == old(input.input2)
        && (old(input.input).Some? ==> r == Fail(InputAlreadyAssigned(input.id)) && input.input == old(input.input))
        && (old(input.input).None? ==> r == Pass && input.input == Some(QueueRef(a, input.id)))
      ensures input.inputSlots == 2 ==>
        && (old(input.input).Some? && old(input.input2).Some? ==>
              r == Fail(BothInputsAssigned(input.id)) && input.input == old(input.input) && input.input2 == old(input.input2))
        && (old(input.input).None? ==>
              r == Pass && input.input == Some(QueueRef(a, input.id)) && input.input2 == old(input.input2))
        && (old(input.input).Some? && old(input.input2).None? ==>
              r == Pass && input.input == old(input.input) && input.input2 == Some(QueueRef(a, input.id)))
    {
      if input.inputSlots == 2 {
        var attached := a.AttachConsumer2(input);
        if attached.Failure? {
          return Fail(attached.error);
        }
        var queue := a.GetConsumingEnumerable(input.id);
        if input.input.None? {
          input.input := Some(queue.value);
        } else if input.input2.None? {
          input.input2 := Some(queue.value);
        }
      } else {
        var attached := a.AttachConsumer(input);
        if attached.Failure? {
          return Fail(attached.error);
        }
        var queue := a.GetConsumingEnumerable(input.id);
        input.input := Some(queue.value);
      }
      r := Pass;
    }

    /**
     * Wires the input of `input` to the output of `output`. A pair wired before
     * is left alone. Otherwise both nodes are registered, the output's adapter
     * is looked up or created, `input` is attached as its consumer and the
     * first unbound input slot is bound to the consumer's queue; only then is
     * the pair recorded. The ghost result is the adapter used.
     */
    method AttachInputToOutput(output: Node<T>, input: Node<T>) returns (r: Outcome<ConfigError>, ghost adapter: InputOutputAdapter?<T>)
      requires Valid()
      requires output.hasOutput && 1 <= input.inputSlots
      modifies this, input`input, input`input2, input`context, output`context, output`emitter, ioAdapters
      ensures Valid()
      // A pair wired before: nothing changes.
      ensures AttachmentKey(output.id, input.id) in old(attachmentDeduplicationList) ==>
        && r == Pass && adapter == null
        && nodes == old(nodes) && ioAdapters == old(ioAdapters)
        && attachmentDeduplicationList == old(attachmentDeduplicationList)
        && unchanged(input, output) && unchanged(ioAdapters)
      // A new pair: registration and the adapter, whether or not the attach then fails.
      ensures AttachmentKey(output.id, input.id) !in old(attachmentDeduplicationList) ==>
        && nodes == RegisterAll(old(nodes), [input, output])
        && (input !in old(nodes) ==> input.context == Some(processContext))
        && (output !in old(nodes) ==> output.context == Some(processContext))
        && (input in old(nodes) ==> input.context == old(input.context))
        && (output in old(nodes) ==> output.context == old(output.context))
        && adapter != null && adapter in ioAdapters && adapter.output == output
        && ((exists b :: b in old(ioAdapters) && b.output == output) <==> adapter in old(ioAdapters))
        && (adapter in old(ioAdapters) ==> ioAdapters == old(ioAdapters) && output.emitter == old(output.emitter))
        && (adapter !in old(ioAdapters) ==> fresh(adapter) && ioAdapters == old(ioAdapters) + [adapter] && output.emitter == adapter)
        && (forall b :: b in old(ioAdapters) && b != adapter ==> unchanged(b))
        && adapter.emittedItems == (if adapter in old(ioAdapters) then old(adapter.emittedItems) else 0)
        && adapter.queueMap == (
             var before := if adapter in old(ioAdapters) then old(adapter.queueMap) else map[];
             if r.Fail? then before else WithConsumer(before, input.id))
        && adapter.inputs == (
             var before := if adapter in old(ioAdapters) then old(adapter.inputs) else multiset{};
             var queues := if adapter in old(ioAdapters) then old(adapter.queueMap) else map[];
             if r.Fail? || input.id in queues then before else before + multiset{input})
      // A single-input node: its input must be unbound.
      ensures AttachmentKey(output.id, input.id) !in old(attachmentDeduplicationList) && input.inputSlots == 1 ==>
        && input.input2 == old(input.input2)
        && (old(input.input).Some? ==>
              && r == Fail(InputAlreadyAssigned(input.id))
              && input.input == old(input.input)
              && attachmentDeduplicationList == old(attachmentDeduplicationList))
        && (old(input.input).None? ==>
              && r == Pass
              && adapter != null && input.id in adapter.queueMap
              && input.input == Some(QueueRef(adapter, input.id))
              && attachmentDeduplicationList == old(attachmentDeduplicationList) + [AttachmentKey(output.id, input.id)])
      // A dual-input node: slot 1, then slot 2, then an error.
      ensures AttachmentKey(output.id, input.id) !in old(attachmentDeduplicationList) && input.inputSlots == 2 ==>
        && (old(input.input).Some? && old(input.input2).Some? ==>
              && r == Fail(BothInputsAssigned(input.id))
              && input.input == old(input.input) && input.input2 == old(input.input2)
              && attachmentDeduplicationList == old(attachmentDeduplicationList))
        && (old(input.input).None? ==>
              && r == Pass
              && adapter != null && input.id in adapter.queueMap
              && input.input == Some(QueueRef(adapter, input.id)) && input.input2 == old(input.input2)
              && attachmentDeduplicationList == old(attachmentDeduplicationList) + [AttachmentKey(output.id, input.id)])
        && (old(input.input).Some? && old(input.input2).None? ==>
              && r == Pass
              && adapter != null && input.id in adapter.queueMap
              && input.input == old(input.input) && input.input2 == Some(QueueRef(adapter, input.id))
              && attachmentDeduplicationList == old(attachmentDeduplicationList) + [AttachmentKey(output.id, input.id)])
    {
      adapter := null;
      var dedupHash := AttachmentKey(output.id, input.id);
      if dedupHash in attachmentDeduplicationList {
        return Pass, null;
      }

      var ioAdapter := RegisterAndGetAdapter(output, input);
      adapter := ioAdapter;

      r := BindInput(ioAdapter, input);
      if r.Fail? {
        return;
      }

      attachmentDeduplicationList := attachmentDeduplicationList + [AttachmentKey(output.id, input.id)];
    }
  }
}
