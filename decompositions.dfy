/** The converters that expand one Chainer function into a chain of ONNX nodes built through a
    GraphBuilder: Stack, Hstack, Vstack, Dstack and Separate. */
module Decompositions {
  import opened OnnxIr
  import opened OnnxHelper
  import opened Shapes
  import ArrayAttributes

  /** One Unsqueeze per name, in order, the k-th bound to the intermediate name Gensym(base + k). */
  function UnsqueezeEach(names: seq<string>, axes: seq<int>, base: nat): seq<Node> {
    seq(|names|, k requires 0 <= k < |names| =>
      Node("Unsqueeze", [names[k]], [Gensym(base + k)], map["axes" := AInts(axes)]))
  }

  /** `[gb.op('Unsqueeze', [name], axes=axes) for name in names]`. */
  method UnsqueezeAll(gb: GraphBuilder, names: seq<string>, axes: seq<int>) returns (outs: seq<string>)
    modifies gb
    ensures outs == GensymRange(old(gb.next), |names|) && gb.next == old(gb.next) + |names|
    ensures gb.queue == old(gb.queue) + UnsqueezeEach(names, axes, old(gb.next))
  {
    ghost var base, start := gb.next, gb.queue;
    outs := [];
    var i := 0;
    while i < |names|
      invariant 0 <= i <= |names|
      invariant gb.next == base + i
      invariant outs == GensymRange(base, i)
      invariant gb.queue == start + UnsqueezeEach(names[..i], axes, base)
    {
      var out := gb.Op("Unsqueeze", [names[i]], map["axes" := AInts(axes)]);
      assert UnsqueezeEach(names[..i + 1], axes, base)
             == UnsqueezeEach(names[..i], axes, base) + [Node("Unsqueeze", [names[i]], [out], map["axes" := AInts(axes)])];
      outs := outs + [out];
      i := i + 1;
    }
    assert names[..i] == names;
  }

  function ConcatNode(inputs: seq<string>, outputs: seq<string>, axis: int): Node {
    Node("Concat", inputs, outputs, map["axis" := AInt(axis)])
  }

  /** Unsqueezing every input and concatenating the results reads only the caller's inputs and
      earlier outputs; the Concat reads exactly the Unsqueeze outputs, in input order. */
  lemma UnsqueezeThenConcat(names: seq<string>, axes: seq<int>, base: nat, outputs: seq<string>, axis: int)
    ensures var nodes := UnsqueezeEach(names, axes, base) + [ConcatNode(GensymRange(base, |names|), outputs, axis)];
            && NoForwardReferences(names, nodes)
            && forall k :: 0 <= k < |names| ==> nodes[|names|].inputs[k] == nodes[k].outputs[0]
  {
    var nodes := UnsqueezeEach(names, axes, base) + [ConcatNode(GensymRange(base, |names|), outputs, axis)];
    forall k, x | 0 <= k < |nodes| && x in nodes[k].inputs
      ensures x in names || exists j :: 0 <= j < k && x in nodes[j].outputs
    {
      if k == |names| {
        var j :| 0 <= j < |names| && nodes[k].inputs[j] == x;
        assert x in nodes[j].outputs;
      } else {
        assert x == names[k];
      }
    }
  }

  /** `convert_Stack`: one Unsqueeze per input at the normalised axis, then one Concat of their
      outputs along that axis, bound to the caller's output names. */
  method ConvertStack(axis: int, rank: nat, inputNames: seq<string>, outputNames: seq<string>, base: nat)
    returns (nodes: seq<Node>)
    ensures var a, n := ArrayAttributes.NormalizeNewAxis(axis, rank), |inputNames|;
            && |nodes| == n + 1
            && (forall k :: 0 <= k < n ==>
                  nodes[k].opType == "Unsqueeze" && nodes[k].inputs == [inputNames[k]]
                  && nodes[k].outputs == [Gensym(base + k)] && nodes[k].attrs == map["axes" := AInts([a])])
            && nodes[n].opType == "Concat" && nodes[n].outputs == outputNames
            && nodes[n].attrs == map["axis" := AInt(a)]
            && |nodes[n].inputs| == n && (forall k :: 0 <= k < n ==> nodes[n].inputs[k] == nodes[k].outputs[0])
            && NoForwardReferences(inputNames, nodes)
  {
    var gb := new GraphBuilder(base);
    var a := axis;
    if a < 0 {
      a := rank + 1 + a;
    }
    var inputs := UnsqueezeAll(gb, inputNames, [a]);
    gb.OpOutputNamed("Concat", inputs, outputNames, map["axis" := AInt(a)]);
    nodes := gb.Nodes();
    UnsqueezeThenConcat(inputNames, [a], base, outputNames, a);
    assert nodes == UnsqueezeEach(inputNames, [a], base) + [ConcatNode(inputs, outputNames, a)];
  }

  /** Stacking gives every input a new dimension of extent 1 at the normalised axis. */
  lemma StackInsertsAxis(axis: int, shape: seq<nat>)
    requires -(|shape| + 1) <= axis <= |shape|
    ensures var a := ArrayAttributes.NormalizeNewAxis(axis, |shape|);
            0 <= a <= |shape| && Unsqueezed(shape, [a]) == shape[..a] + [1] + shape[a..]
  {
    InsertOneAxis(shape, ArrayAttributes.NormalizeNewAxis(axis, |shape|));
  }

  // ---------------------------------------------------------------------------------------------
  // hstack, vstack, dstack: by the rank of the first input, unsqueeze every input, then concatenate

  /** The unsqueeze axes `convert_Hstack` uses for inputs of rank `rank` (none when empty). */
  function HstackAxes(rank: nat): seq<int> {
    if rank == 0 then [0] else []
  }

  function HstackAxis(rank: nat): int {
    if rank <= 1 then 0 else 1
  }

  function VstackAxes(rank: nat): seq<int> {
    if rank == 0 then [0, 1] else if rank == 1 then [0] else []
  }

  function DstackAxes(rank: nat): seq<int> {
    if rank == 0 then [0, 1, 2] else if rank == 1 then [0, 2] else if rank == 2 then [2] else []
  }

  /** The nodes of a rank-dependent concatenation: with unsqueeze axes, one Unsqueeze per input and
      a Concat of their outputs; without, a single Concat of the inputs themselves. */
  function StackingNodes(inputNames: seq<string>, outputNames: seq<string>, axes: seq<int>, axis: int, base: nat)
    : seq<Node>
  {
    if axes == [] then [ConcatNode(inputNames, outputNames, axis)]
    else UnsqueezeEach(inputNames, axes, base) + [ConcatNode(GensymRange(base, |inputNames|), outputNames, axis)]
  }

  lemma StackingNodesOrdered(inputNames: seq<string>, outputNames: seq<string>, axes: seq<int>, axis: int, base: nat)
    ensures NoForwardReferences(inputNames, StackingNodes(inputNames, outputNames, axes, axis, base))
    ensures StackingNodes(inputNames, outputNames, axes, axis, base)[
              |StackingNodes(inputNames, outputNames, axes, axis, base)| - 1].outputs == outputNames
  {
    if axes != [] {
      UnsqueezeThenConcat(inputNames, axes, base, outputNames, axis);
    }
  }

  /** `convert_Hstack`. */
  method ConvertHstack(rank: nat, inputNames: seq<string>, outputNames: seq<string>, base: nat)
    returns (nodes: seq<Node>)
    ensures nodes == StackingNodes(inputNames, outputNames, HstackAxes(rank), HstackAxis(rank), base)
    ensures NoForwardReferences(inputNames, nodes) && nodes[|nodes| - 1].outputs == outputNames
  {
    var gb := new GraphBuilder(base);
    var inputs := inputNames;
    var axis := 1;
    if rank == 0 {
      inputs := UnsqueezeAll(gb, inputNames, [0]);
      axis := 0;
    } else if rank == 1 {
      axis := 0;
    }
    gb.OpOutputNamed("Concat", inputs, outputNames, map["axis" := AInt(axis)]);
    nodes := gb.Nodes();
    StackingNodesOrdered(inputNames, outputNames, HstackAxes(rank), HstackAxis(rank), base);
  }

  /** `convert_Vstack`. */
  method ConvertVstack(rank: nat, inputNames: seq<string>, outputNames: seq<string>, base: nat)
    returns (nodes: seq<Node>)
    ensures nodes == StackingNodes(inputNames, outputNames, VstackAxes(rank), 0, base)
    ensures NoForwardReferences(inputNames, nodes) && nodes[|nodes| - 1].outputs == outputNames
  {
    var gb := new GraphBuilder(base);
    var inputs := inputNames;
    if rank == 0 {
      inputs := UnsqueezeAll(gb, inputNames, [0, 1]);
    } else if rank == 1 {
      inputs := UnsqueezeAll(gb, inputNames, [0]);
    }
    gb.OpOutputNamed("Concat", inputs, outputNames, map["axis" := AInt(0)]);
    nodes := gb.Nodes();
    StackingNodesOrdered(inputNames, outputNames, VstackAxes(rank), 0, base);
  }

  /** `convert_Dstack`. */
  method ConvertDstack(rank: nat, inputNames: seq<string>, outputNames: seq<string>, base: nat)
    returns (nodes: seq<Node>)
    ensures nodes == StackingNodes(inputNames, outputNames, DstackAxes(rank), 2, base)
    ensures NoForwardReferences(inputNames, nodes) && nodes[|nodes| - 1].outputs == outputNames
  {
    var gb := new GraphBuilder(base);
    var inputs := inputNames;
    if rank == 0 {
      inputs := UnsqueezeAll(gb, inputNames, [0, 1, 2]);
    } else if rank == 1 {
      inputs := UnsqueezeAll(gb, inputNames, [0, 2]);
    } else if rank == 2 {
      inputs := UnsqueezeAll(gb, inputNames, [2]);
    }
    gb.OpOutputNamed("Concat", inputs, outputNames, map["axis" := AInt(2)]);
    nodes := gb.Nodes();
    StackingNodesOrdered(inputNames, outputNames, DstackAxes(rank), 2, base);
  }

  /** Hstack's unsqueeze makes every input at least 1-D, and it concatenates vectors along axis 0
      and everything else along axis 1. */
  lemma HstackMatchesNumpy(shape: seq<nat>)
    ensures var s := Unsqueezed(shape, HstackAxes(|shape|));
            (|shape| == 0 ==> s == [1]) && (|shape| >= 1 ==> s == shape)
            && HstackAxis(|shape|) < |s| && (HstackAxis(|shape|) == 0 <==> |s| == 1)
  {
    if |shape| == 0 {
      InsertOneAxis(shape, 0);
    } else {
      FillNoAxes(shape, {}, 0);
      assert (set a | a in HstackAxes(|shape|)) == {};
    }
  }

  /** Vstack's unsqueeze is numpy's `atleast_2d`; the Concat axis 0 exists in the result. */
  lemma VstackMatchesNumpy(shape: seq<nat>)
    ensures Unsqueezed(shape, VstackAxes(|shape|)) == AtLeast2d(shape)
    ensures |AtLeast2d(shape)| >= 2
  {
    var axes := set a | a in VstackAxes(|shape|);
    if |shape| == 0 {
      assert axes == {0, 1};
      assert Fill(shape, axes, 0, 2) == [1] + Fill(shape, axes, 1, 1) == [1, 1];
    } else if |shape| == 1 {
      InsertOneAxis(shape, 0);
    } else {
      assert axes == {};
      FillNoAxes(shape, {}, 0);
    }
  }

  /** Dstack's unsqueeze is numpy's `atleast_3d`; the Concat axis 2 exists in the result. */
  lemma DstackMatchesNumpy(shape: seq<nat>)
    ensures Unsqueezed(shape, DstackAxes(|shape|)) == AtLeast3d(shape)
    ensures |AtLeast3d(shape)| >= 3
  {
    var axes := set a | a in DstackAxes(|shape|);
    if |shape| == 0 {
      assert axes == {0, 1, 2};
      assert Fill(shape, axes, 2, 1) == [1];
      assert Fill(shape, axes, 1, 2) == [1, 1];
      assert Fill(shape, axes, 0, 3) == [1, 1, 1];
    } else if |shape| == 1 {
      assert axes == {0, 2};
      assert Fill(shape[1..], axes, 2, 1) == [1];
      assert Fill(shape, axes, 1, 2) == [shape[0], 1];
      assert Fill(shape, axes, 0, 3) == [1, shape[0], 1];
    } else if |shape| == 2 {
      assert axes == {2};
      InsertOneAxis(shape, 2);
    } else {
      assert axes == {};
      FillNoAxes(shape, {}, 0);
    }
  }

  // ---------------------------------------------------------------------------------------------
  // Separate

  /** `convert_Separate`: one Split with a fresh output per caller output, then one Squeeze of the
      split axis per piece, the k-th bound to the caller's k-th output name. */
  method ConvertSeparate(axis: int, inputNames: seq<string>, outputNames: seq<string>, base: nat)
    returns (nodes: seq<Node>)
    ensures var n := |outputNames|;
            && |nodes| == n + 1
            && nodes[0] == Node("Split", inputNames, GensymRange(base, n), map["axis" := AInt(axis)])
            && (forall k :: 0 <= k < n ==>
                  nodes[k + 1] == Node("Squeeze", [nodes[0].outputs[k]], [outputNames[k]], map["axes" := AInts([axis])]))
            && NoForwardReferences(inputNames, nodes)
  {
    var gb := new GraphBuilder(base);
    var splitOuts := gb.OpMulti("Split", inputNames, |outputNames|, map["axis" := AInt(axis)]);
    var i := 0;
    while i < |splitOuts|
      invariant 0 <= i <= |splitOuts|
      invariant |gb.queue| == i + 1
      invariant gb.queue[0] == Node("Split", inputNames, splitOuts, map["axis" := AInt(axis)])
      invariant forall k :: 0 <= k < i ==>
                  gb.queue[k + 1] == Node("Squeeze", [splitOuts[k]], [outputNames[k]], map["axes" := AInts([axis])])
    {
      gb.OpOutputNamed("Squeeze", [splitOuts[i]], [outputNames[i]], map["axes" := AInts([axis])]);
      i := i + 1;
    }
    nodes := gb.Nodes();
    forall k, x | 0 <= k < |nodes| && x in nodes[k].inputs
      ensures x in inputNames || exists j :: 0 <= j < k && x in nodes[j].outputs
    {
      if k > 0 {
        assert nodes[k].inputs == [splitOuts[k - 1]];
        assert nodes[0].outputs[k - 1] == x;
      }
    }
  }
}
