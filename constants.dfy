/** The converters that turn constant operands into graph initializers: they append a Parameter to
    the caller's parameter list and its fresh context name to the node's inputs (Reshape, Tile,
    Where, Repeat). */
module Constants {
  import opened Wrappers
  import opened OnnxIr
  import opened OnnxHelper

  /** Every current input name was handed out by the context, so a name the context issues next
      cannot clash with one of them. */
  ghost predicate NamedByContext(inputNames: seq<string>, ctx: Context)
    reads ctx
  {
    forall x :: x in inputNames ==> x in ctx.issued
  }

  /** `convert_Reshape`: opset 1 carries the target shape as an attribute; opset 5 appends it as an
      int64 initializer and feeds it as a second input. */
  method ConvertReshape(opset: int, shape: seq<int>, inputNames: PyList<string>, outputNames: seq<string>,
                        ctx: Context, parameters: PyList<Parameter>)
    returns (nodes: seq<Node>)
    requires opset == 1 || opset == 5
    requires ctx.Valid()
    modifies inputNames, parameters, ctx
    ensures ctx.Valid()
    ensures opset == 1 ==>
              && unchanged(inputNames, parameters, ctx)
              && nodes == [Node("Reshape", inputNames.items, outputNames, map["shape" := AInts(shape)])]
    ensures opset == 5 ==>
              var name := ContextName(|old(ctx.issued)|);
              && parameters.items == old(parameters.items) + [Parameter(Int64, shape)]
              && ctx.issued == old(ctx.issued) + [name]
              && inputNames.items == old(inputNames.items) + [name]
              && nodes == [Node("Reshape", inputNames.items, outputNames, map[])]
              && (old(NamedByContext(inputNames.items, ctx)) ==> name !in old(inputNames.items))
  {
    if opset == 1 {
      nodes := [Node("Reshape", inputNames.items, outputNames, map["shape" := AInts(shape)])];
    } else {
      parameters.Append(Parameter(Int64, shape));
      var name := ctx.GetName();
      inputNames.Append(name);
      nodes := [Node("Reshape", inputNames.items, outputNames, map[])];
    }
  }

  /** `func.reps`: an int or a sequence of ints. */
  datatype Reps = ScalarReps(n: int) | ListReps(ns: seq<int>)

  /** The repetition list after the source's promotion of an int to a one-element list. */
  function RepsList(reps: Reps): (tiles: seq<int>)
    ensures reps.ScalarReps? ==> tiles == [reps.n]
    ensures reps.ListReps? ==> tiles == reps.ns
  {
    match reps
    case ScalarReps(n) => [n]
    case ListReps(ns) => ns
  }

  /** `convert_Tile`: the repetitions become an int64 initializer; opset 1 also needs a float32
      initializer listing the axes 0, 1, ..., one per repetition. */
  method ConvertTile(opset: int, reps: Reps, inputNames: PyList<string>, outputNames: seq<string>,
                     ctx: Context, parameters: PyList<Parameter>)
    returns (nodes: seq<Node>)
    requires opset == 1 || opset == 6
    requires ctx.Valid()
    modifies inputNames, parameters, ctx
    ensures ctx.Valid()
    ensures var tiles, n0 := RepsList(reps), |old(ctx.issued)|;
            var added := if opset == 1 then [ContextName(n0), ContextName(n0 + 1)] else [ContextName(n0)];
            && parameters.items == old(parameters.items) + [Parameter(Int64, tiles)]
                 + (if opset == 1 then [Parameter(Float32, Range(0, |tiles|))] else [])
            && ctx.issued == old(ctx.issued) + added
            && inputNames.items == old(inputNames.items) + added
            && nodes == [Node("Tile", inputNames.items, outputNames, map[])]
            && (old(NamedByContext(inputNames.items, ctx)) ==> forall x :: x in added ==> x !in old(inputNames.items))
  {
    var tiles := RepsList(reps);
    parameters.Append(Parameter(Int64, tiles));
    var name := ctx.GetName();
    inputNames.Append(name);
    if opset == 1 {
      parameters.Append(Parameter(Float32, Range(0, |tiles|)));
      var axisName := ctx.GetName();
      inputNames.Append(axisName);
    }
    nodes := [Node("Tile", inputNames.items, outputNames, map[])];
  }

  /** `convert_Where`: the condition's context name becomes the first input. `condName` is the name
      the condition already has, if any; otherwise the context issues a fresh one. */
  method ConvertWhere(opset: int, condName: Option<string>, inputNames: PyList<string>, outputNames: seq<string>,
                      ctx: Context)
    returns (nodes: seq<Node>)
    requires opset == 9
    requires ctx.Valid()
    modifies inputNames, ctx
    ensures ctx.Valid()
    ensures var name := if condName.Some? then condName.value else ContextName(|old(ctx.issued)|);
            && ctx.issued == old(ctx.issued) + (if condName.Some? then [] else [name])
            && inputNames.items == [name] + old(inputNames.items)
            && nodes == [Node("Where", inputNames.items, outputNames, map[])]
  {
    var name := ctx.NameOf(condName);
    inputNames.Insert(0, name);
    nodes := [Node("Where", inputNames.items, outputNames, map[])];
  }

  // ---------------------------------------------------------------------------------------------
  // Repeat, as an Upsample whose scale is the repeat count along one axis

  /** The Upsample scales: one scale of the flattened input when no axis is given, otherwise 1 on
      every axis but `axis` (a Python index), which gets `repeat`. */
  function RepeatScales(repeat: int, axis: Option<int>, ndim: nat): seq<int>
    requires axis.Some? ==> -(ndim as int) <= axis.value < ndim
  {
    match axis
    case None => [repeat]
    case Some(a) => seq(ndim, k requires 0 <= k < ndim => if k == PyIndex(a, ndim) then repeat else 1)
  }

  function ToReals(xs: seq<int>): (rs: seq<real>)
    ensures |rs| == |xs| && forall k :: 0 <= k < |xs| ==> rs[k] == xs[k] as real
  {
    seq(|xs|, k requires 0 <= k < |xs| => xs[k] as real)
  }

  /** The shape a tensor of shape `shape` gets when every axis is scaled by `scales`. */
  function Scaled(shape: seq<int>, scales: seq<int>): (s: seq<int>)
    requires |scales| == |shape|
  {
    seq(|shape|, k requires 0 <= k < |shape| => shape[k] * scales[k])
  }

  /** numpy's `repeat(x, r, axis)` shape: the extent of axis `a` is multiplied by `r`. */
  function RepeatShape(shape: seq<int>, r: int, a: nat): seq<int>
    requires a < |shape|
  {
    shape[..a] + [shape[a] * r] + shape[a + 1..]
  }

  /** Upsampling by the scales of one axis gives exactly the shape `repeat` has along that axis. */
  lemma RepeatScalesMatchRepeat(shape: seq<int>, r: int, axis: int)
    requires -|shape| <= axis < |shape|
    ensures var scales := RepeatScales(r, Some(axis), |shape|);
            |scales| == |shape| && Scaled(shape, scales) == RepeatShape(shape, r, PyIndex(axis, |shape|))
  {
    var a := PyIndex(axis, |shape|);
    var lhs, rhs := Scaled(shape, RepeatScales(r, Some(axis), |shape|)), RepeatShape(shape, r, a);
    assert |lhs| == |rhs|;
    forall k | 0 <= k < |lhs|
      ensures lhs[k] == rhs[k]
    {
      if k < a {
        assert rhs[k] == shape[k];
      } else if k > a {
        assert rhs[k] == shape[a + 1..][k - a - 1];
      }
    }
  }

  /** The Reshape output that Repeat's Upsample reads when no axis is given is never a name the
      context has issued, so it cannot clash with the shape or scales initializers. */
  lemma ReshapeOutputNotInitializer(issued: seq<string>, base: nat)
    requires forall k :: 0 <= k < |issued| ==> issued[k] == ContextName(k)
    ensures Gensym(base) !in issued
  {
    forall k | 0 <= k < |issued|
      ensures issued[k] != Gensym(base)
    {
      GensymNotContextName(base, k);
    }
  }

  /** `convert_Repeat`. Only a single repeat count is supported. Without an axis, a Reshape to
      `[-1]` (whose shape becomes an initializer appended to the caller's inputs) flattens the input
      first; this happens before `repeats[0]` is read. Opset 7 gives the scales as an attribute,
      opset 9 as a float32 initializer appended to the Upsample's own inputs only. */
  method ConvertRepeat(opset: int, repeats: seq<int>, axis: Option<int>, ndim: nat,
                       inputNames: PyList<string>, outputNames: seq<string>,
                       ctx: Context, parameters: PyList<Parameter>, base: nat)
    returns (r: Result<seq<Node>>)
    requires opset == 7 || opset == 9
    requires ctx.Valid()
    modifies inputNames, parameters, ctx
    ensures ctx.Valid()
    // errors: an elementwise repeat, a missing count, an axis outside the input
    ensures |repeats| > 1 ==> r == Err(ElementwiseRepeatUnsupported) && unchanged(inputNames, parameters, ctx)
    ensures |repeats| <= 1 && axis.Some? && (|repeats| == 0 || !(-(ndim as int) <= axis.value < ndim)) ==>
              r == Err(IndexOutOfRange) && unchanged(inputNames, parameters, ctx)
    ensures |repeats| == 0 && axis.None? ==>
              && r == Err(IndexOutOfRange)
              && parameters.items == old(parameters.items) + [Parameter(Int64, [-1])]
              && ctx.issued == old(ctx.issued) + [ContextName(|old(ctx.issued)|)]
              && inputNames.items == old(inputNames.items) + [ContextName(|old(ctx.issued)|)]
    ensures r.Ok? <==> |repeats| == 1 && (axis.Some? ==> -(ndim as int) <= axis.value < ndim)
    // success
    ensures r.Ok? ==>
              var n0, flat := |old(ctx.issued)|, axis.None?;
              var scales := RepeatScales(repeats[0], axis, ndim);
              var shapeParams := if flat then [Parameter(Int64, [-1])] else [];
              var shapeNames := if flat then [ContextName(n0)] else [];
              var scalesName := ContextName(n0 + |shapeNames|);
              var reshape := if flat then [Node("Reshape", inputNames.items, [Gensym(base)], map[])] else [];
              var data := if flat then [Gensym(base)] else old(inputNames.items);
              && inputNames.items == old(inputNames.items) + shapeNames
              && (opset == 7 ==>
                    && parameters.items == old(parameters.items) + shapeParams
                    && ctx.issued == old(ctx.issued) + shapeNames
                    && r.value == reshape + [Node("Upsample", data, outputNames, map["scales" := AFloats(ToReals(scales))])])
              && (opset == 9 ==>
                    && parameters.items == old(parameters.items) + shapeParams + [Parameter(Float32, scales)]
                    && ctx.issued == old(ctx.issued) + shapeNames + [scalesName]
                    && r.value == reshape + [Node("Upsample", data + [scalesName], outputNames, map[])])
  {
    if |repeats| > 1 {
      return Err(ElementwiseRepeatUnsupported);
    }
    var gb := new GraphBuilder(base);
    var inputs := inputNames.items;
    var scales: seq<int>;
    if axis.None? {
      parameters.Append(Parameter(Int64, [-1]));
      var shapeName := ctx.GetName();
      inputNames.Append(shapeName);
      var flat := gb.Op("Reshape", inputNames.items, map[]);
      inputs := [flat];
      if |repeats| == 0 {
        return Err(IndexOutOfRange);
      }
      scales := [repeats[0]];
    } else {
      if |repeats| == 0 || !(-(ndim as int) <= axis.value < ndim) {
        return Err(IndexOutOfRange);
      }
      scales := seq(ndim, k => 1);
      scales := scales[PyIndex(axis.value, ndim) := repeats[0]];
    }
    assert scales == RepeatScales(repeats[0], axis, ndim);
    var nodes := EmitUpsample(opset, gb, inputs, scales, outputNames, ctx, parameters);
    r := Ok(nodes);
  }

  /** The Upsample that ends `convert_Repeat`: opset 7 takes the scales as an attribute, opset 9 as
      a float32 initializer named by the context and appended to the Upsample's inputs. */
  method EmitUpsample(opset: int, gb: GraphBuilder, inputs: seq<string>, scales: seq<int>,
                      outputNames: seq<string>, ctx: Context, parameters: PyList<Parameter>)
    returns (nodes: seq<Node>)
    requires opset == 7 || opset == 9
    requires ctx.Valid()
    modifies gb, ctx, parameters
    ensures ctx.Valid()
    ensures opset == 7 ==>
              && nodes == old(gb.queue) + [Node("Upsample", inputs, outputNames, map["scales" := AFloats(ToReals(scales))])]
              && parameters.items == old(parameters.items) && ctx.issued == old(ctx.issued)
    ensures opset == 9 ==>
              var scalesName := ContextName(|old(ctx.issued)|);
              && nodes == old(gb.queue) + [Node("Upsample", inputs + [scalesName], outputNames, map[])]
              && parameters.items == old(parameters.items) + [Parameter(Float32, scales)]
              && ctx.issued == old(ctx.issued) + [scalesName]
  {
    if opset == 7 {
      gb.OpOutputNamed("Upsample", inputs, outputNames, map["scales" := AFloats(ToReals(scales))]);
      nodes := gb.Nodes();
      return;
    }
    parameters.Append(Parameter(Float32, scales));
    var scalesName := ctx.GetName();
    gb.OpOutputNamed("Upsample", inputs + [scalesName], outputNames, map[]);
    nodes := gb.Nodes();
  }
}
