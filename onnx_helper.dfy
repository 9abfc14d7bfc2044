/** The helpers the converters are written against: the node-chaining graph builder, the caller's
    mutable Python lists and the conversion context's name supply. Their source is not part of this
    model; each is modelled by the behaviour its callers rely on. */
module OnnxHelper {
  import opened Wrappers
  import opened OnnxIr

  /** `onnx_helper.make_node(op, inputs, outputs, **attrs)`, returned as a one-element tuple. */
  function OneNode(opType: string, inputs: seq<string>, outputs: seq<string>, attrs: Attributes)
    : seq<Node>
  {
    [Node(opType, inputs, outputs, attrs)]
  }

  /** Python's reading of `xs[i]` for `-n <= i < n`: a negative index counts from the end. */
  function PyIndex(i: int, n: nat): (k: nat)
    requires -(n as int) <= i < n
    ensures k < n && (k - i) % n == 0
  {
    if i < 0 then i + n else i
  }

  /** Every input of every node is either one of `inputs` or an output of an EARLIER node:
      a node list with no forward references. */
  predicate NoForwardReferences(inputs: seq<string>, nodes: seq<Node>) {
    forall k, x :: 0 <= k < |nodes| && x in nodes[k].inputs ==>
      x in inputs || exists j :: 0 <= j < k && x in nodes[j].outputs
  }

  /** A queue of nodes with the generator of fresh intermediate names. `op` binds a node to fresh
      names, `op_output_named` to names the caller gives, and `nodes` hands the queue back in creation
      order. */
  class GraphBuilder {
    var queue: seq<Node>
    var next: nat  // the gensym counter: the next intermediate name is Gensym(next)

    constructor (base: nat)
      ensures queue == [] && next == base
    {
      queue := [];
      next := base;
    }

    /** `op`: enqueues one node with a single fresh output and returns that output's name. */
    method Op(opType: string, inputs: seq<string>, attrs: Attributes) returns (output: string)
      modifies this
      ensures output == Gensym(old(next)) && next == old(next) + 1
      ensures queue == old(queue) + [Node(opType, inputs, [output], attrs)]
    {
      output := Gensym(next);
      queue := queue + [Node(opType, inputs, [output], attrs)];
      next := next + 1;
    }

    /** `op` with `num_outputs=count`: enqueues one node with `count` fresh outputs and returns them. */
    method OpMulti(opType: string, inputs: seq<string>, count: nat, attrs: Attributes)
      returns (outputs: seq<string>)
      modifies this
      ensures outputs == GensymRange(old(next), count) && next == old(next) + count
      ensures queue == old(queue) + [Node(opType, inputs, outputs, attrs)]
    {
      outputs := GensymRange(next, count);
      queue := queue + [Node(opType, inputs, outputs, attrs)];
      next := next + count;
    }

    /** `op_output_named`: enqueues one node bound to the caller's output names. */
    method OpOutputNamed(opType: string, inputs: seq<string>, outputs: seq<string>, attrs: Attributes)
      modifies this
      ensures queue == old(queue) + [Node(opType, inputs, outputs, attrs)]
      ensures next == old(next)
    {
      queue := queue + [Node(opType, inputs, outputs, attrs)];
    }

    /** `nodes()`: every node created so far, in creation order. */
    method Nodes() returns (nodes: seq<Node>)
      ensures nodes == queue
    {
      nodes := queue;
    }

    /** `nodes(output_names)`: rebinds the outputs of the last node to `outputNames` (the builder
        asserts that their number matches) and returns every node in creation order. */
    method NodesNamed(outputNames: seq<string>) returns (nodes: seq<Node>)
      requires queue != [] && |queue[|queue| - 1].outputs| == |outputNames|
      modifies this
      ensures |queue| == |old(queue)| && queue[..|queue| - 1] == old(queue)[..|queue| - 1]
      ensures queue[|queue| - 1] == old(queue)[|queue| - 1].(outputs := outputNames)
      ensures nodes == queue && next == old(next)
    {
      var last := queue[|queue| - 1];
      queue := queue[..|queue| - 1] + [last.(outputs := outputNames)];
      nodes := queue;
    }
  }

  /** A Python list the converter receives from its caller and changes in place. */
  class PyList<T> {
    var items: seq<T>

    constructor (init: seq<T>)
      ensures items == init
    {
      items := init;
    }

    /** `list.append(x)`. */
    method Append(x: T)
      modifies this
      ensures items == old(items) + [x]
    {
      items := items + [x];
    }

    /** `list.insert(index, x)` for a non-negative index (an index past the end appends). */
    method Insert(index: nat, x: T)
      modifies this
      ensures var at := if index <= |old(items)| then index else |old(items)|;
              items == old(items)[..at] + [x] + old(items)[at..]
    {
      var at := if index <= |items| then index else |items|;
      items := items[..at] + [x] + items[at..];
    }
  }

  /** The conversion context's name registry, as a supplier of fresh names. */
  class Context {
    var issued: seq<string>  // every name handed out so far, in order

    ghost predicate Valid()
      reads this
    {
      forall k :: 0 <= k < |issued| ==> issued[k] == ContextName(k)
    }

    constructor ()
      ensures Valid() && issued == []
    {
      issued := [];
    }

    /** `context.get_name(v)` for a value that has no name yet: a name never handed out before. */
    method GetName() returns (name: string)
      requires Valid()
      modifies this
      ensures Valid() && issued == old(issued) + [name]
      ensures name !in old(issued)
    {
      name := ContextName(|issued|);
      forall k | 0 <= k < |issued|
        ensures issued[k] != name
      {
        if issued[k] == name {
          ContextNameInjective(k, |issued|);
        }
      }
      issued := issued + [name];
    }

    /** `context.get_name(v)` in general: the name `v` already has (`known`), or else the next fresh
        name. */
    method NameOf(known: Option<string>) returns (name: string)
      requires Valid()
      modifies this
      ensures Valid()
      ensures known.Some? ==> name == known.value && issued == old(issued)
      ensures known.None? ==> name == ContextName(|old(issued)|) && issued == old(issued) + [name]
      ensures known.None? ==> name !in old(issued)
    {
      if known.Some? {
        name := known.value;
      } else {
        name := GetName();
      }
    }
  }
}
