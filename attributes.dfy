/** The converters of `array.py` that compute attributes and emit a single node: Cast, Concat, Copy,
    Depth2Space, Space2Depth, Transpose, ExpandDims, Pad, SplitAxis, Squeeze and Swapaxes. */
module ArrayAttributes {
  import opened Wrappers
  import opened OnnxIr
  import opened OnnxHelper

  // ---------------------------------------------------------------------------------------------
  // Cast

  /** `TENSOR_TYPE_TO_NAME`: ONNX tensor element type codes and their names. */
  const TensorTypeToName: map<int, string> :=
    map[0 := "UNDEFINED", 1 := "FLOAT", 2 := "UINT8", 3 := "INT8", 4 := "UINT16", 5 := "INT16",
        6 := "INT32", 7 := "INT64", 8 := "STRING", 9 := "BOOL", 10 := "FLOAT16", 11 := "DOUBLE",
        12 := "UINT32", 13 := "UINT64", 14 := "COMPLEX64", 15 := "COMPLEX128"]

  /** The code of a tensor type name: the inverse of `TensorTypeToName`. */
  function TensorTypeOfName(name: string): Option<int> {
    match name
    case "UNDEFINED" => Some(0)
    case "FLOAT" => Some(1)
    case "UINT8" => Some(2)
    case "INT8" => Some(3)
    case "UINT16" => Some(4)
    case "INT16" => Some(5)
    case "INT32" => Some(6)
    case "INT64" => Some(7)
    case "STRING" => Some(8)
    case "BOOL" => Some(9)
    case "FLOAT16" => Some(10)
    case "DOUBLE" => Some(11)
    case "UINT32" => Some(12)
    case "UINT64" => Some(13)
    case "COMPLEX64" => Some(14)
    case "COMPLEX128" => Some(15)
    case _ => None
  }

  /** The table covers the codes 0 to 15, and a name read back gives the code it came from; so
      the names are distinct and the symbolic form loses nothing. */
  lemma TensorTypeTableInvertible(code: int)
    ensures code in TensorTypeToName <==> 0 <= code < 16
    ensures code in TensorTypeToName ==> TensorTypeOfName(TensorTypeToName[code]) == Some(code)
  {
  }

  /** A name the table does not hold reads back as nothing... and one it holds reads back to the
      code it is stored under. */
  lemma TensorTypeNameComplete(name: string)
    ensures TensorTypeOfName(name).Some? ==>
            TensorTypeOfName(name).value in TensorTypeToName
            && TensorTypeToName[TensorTypeOfName(name).value] == name
  {
  }

  /** `convert_Cast`. `code` is `NP_TYPE_TO_TENSOR_TYPE[dtype]`. Cast-1 writes the type's name
      (a KeyError for a code the table lacks), Cast-6 its integer code. */
  function ConvertCast(opset: int, code: int, inputs: seq<string>, outputs: seq<string>)
    : (r: Result<seq<Node>>)
    requires opset == 1 || opset == 6
    ensures opset == 1 ==> (r.Ok? <==> 0 <= code < 16)
    ensures opset == 1 && r.Err? ==> r.error == KeyNotFound
    ensures opset == 6 ==> r.Ok?
    ensures r.Ok? ==> |r.value| == 1 && r.value[0].opType == "Cast"
                      && r.value[0].inputs == inputs && r.value[0].outputs == outputs
                      && r.value[0].attrs.Keys == {"to"}
    ensures r.Ok? && opset == 6 ==> r.value[0].attrs["to"] == AInt(code)
    ensures r.Ok? && opset == 1 ==> r.value[0].attrs["to"].AStr?
                                    && TensorTypeOfName(r.value[0].attrs["to"].s) == Some(code)
  {
    TensorTypeTableInvertible(code);
    if opset == 1 then
      if code in TensorTypeToName then Ok(OneNode("Cast", inputs, outputs, map["to" := AStr(TensorTypeToName[code])]))
      else Err(KeyNotFound)
    else Ok(OneNode("Cast", inputs, outputs, map["to" := AInt(code)]))
  }

  /** Wherever Cast-1 succeeds, its symbolic attribute names the code Cast-6 writes. */
  lemma CastVersionsAgree(code: int, inputs: seq<string>, outputs: seq<string>)
    requires ConvertCast(1, code, inputs, outputs).Ok?
    ensures var n1, n6 := ConvertCast(1, code, inputs, outputs).value[0], ConvertCast(6, code, inputs, outputs).value[0];
            n1.attrs["to"].AStr? && n6.attrs["to"].AInt?
            && TensorTypeOfName(n1.attrs["to"].s) == Some(n6.attrs["to"].i)
            && n1.(attrs := map[]) == n6.(attrs := map[])
  {
  }

  // ---------------------------------------------------------------------------------------------
  // Concat, Copy, Depth2Space, Space2Depth, Transpose, ExpandDims

  /** `convert_Concat`: opsets 1 and 4 emit the same node. */
  function ConvertConcat(opset: int, axis: int, inputs: seq<string>, outputs: seq<string>)
    : (nodes: seq<Node>)
    requires opset == 1 || opset == 4
    ensures |nodes| == 1 && nodes[0].opType == "Concat" && nodes[0].attrs == map["axis" := AInt(axis)]
    ensures nodes[0].inputs == inputs && nodes[0].outputs == outputs
  {
    if opset == 1 then OneNode("Concat", inputs, outputs, map["axis" := AInt(axis)])
    else OneNode("Concat", inputs, outputs, map["axis" := AInt(axis)])
  }

  /** `convert_Copy`: an Identity node wired to the caller's names. */
  function ConvertCopy(inputs: seq<string>, outputs: seq<string>): (nodes: seq<Node>)
    ensures |nodes| == 1 && nodes[0].opType == "Identity" && nodes[0].attrs == map[]
    ensures nodes[0].inputs == inputs && nodes[0].outputs == outputs
  {
    OneNode("Identity", inputs, outputs, map[])
  }

  /** `convert_Depth2Space`: block size `r`. */
  function ConvertDepth2Space(r: int, inputs: seq<string>, outputs: seq<string>): (nodes: seq<Node>)
    ensures |nodes| == 1 && nodes[0].opType == "DepthToSpace" && nodes[0].attrs == map["blocksize" := AInt(r)]
    ensures nodes[0].inputs == inputs && nodes[0].outputs == outputs
  {
    OneNode("DepthToSpace", inputs, outputs, map["blocksize" := AInt(r)])
  }

  /** `convert_Space2Depth`: block size `r`. */
  function ConvertSpace2Depth(r: int, inputs: seq<string>, outputs: seq<string>): (nodes: seq<Node>)
    ensures |nodes| == 1 && nodes[0].opType == "SpaceToDepth" && nodes[0].attrs == map["blocksize" := AInt(r)]
    ensures nodes[0].inputs == inputs && nodes[0].outputs == outputs
  {
    OneNode("SpaceToDepth", inputs, outputs, map["blocksize" := AInt(r)])
  }

  /** `convert_Transpose`: `perm` only when the function names its axes. */
  function ConvertTranspose(axes: Option<seq<int>>, inputs: seq<string>, outputs: seq<string>)
    : (nodes: seq<Node>)
    ensures |nodes| == 1 && nodes[0].opType == "Transpose"
    ensures nodes[0].inputs == inputs && nodes[0].outputs == outputs
    ensures axes.None? ==> nodes[0].attrs == map[]
    ensures axes.Some? ==> nodes[0].attrs == map["perm" := AInts(axes.value)]
  {
    if axes.None? then OneNode("Transpose", inputs, outputs, map[])
    else OneNode("Transpose", inputs, outputs, map["perm" := AInts(axes.value)])
  }

  /** The position of a new axis in a result of rank `rank + 1`: a negative axis counts from the
      end of the result. */
  function NormalizeNewAxis(axis: int, rank: nat): (a: int)
    ensures axis >= 0 ==> a == axis
    ensures -(rank + 1) <= axis <= rank ==> 0 <= a <= rank && (a - axis) % (rank + 1) == 0
  {
    if axis < 0 then rank + 1 + axis else axis
  }

  /** `convert_ExpandDims`: one Unsqueeze at the normalised axis. */
  function ConvertExpandDims(axis: int, rank: nat, inputs: seq<string>, outputs: seq<string>)
    : (nodes: seq<Node>)
    ensures |nodes| == 1 && nodes[0].opType == "Unsqueeze"
    ensures nodes[0].inputs == inputs && nodes[0].outputs == outputs
    ensures nodes[0].attrs.Keys == {"axes"} && nodes[0].attrs["axes"].AInts?
    ensures var axes := nodes[0].attrs["axes"].ints;
            && |axes| == 1 && (axis >= 0 ==> axes[0] == axis)
            && (-(rank + 1) <= axis <= rank ==> 0 <= axes[0] <= rank && (axes[0] - axis) % (rank + 1) == 0)
  {
    OneNode("Unsqueeze", inputs, outputs, map["axes" := AInts([NormalizeNewAxis(axis, rank)])])
  }

  // ---------------------------------------------------------------------------------------------
  // Pad

  /** `func.pad_bw`: one (before, after) row per axis, or a single 1-D row shared by every axis. */
  datatype PadWidth = PerAxis(rows: seq<seq<int>>) | Shared(row: seq<int>)

  /** One entry of a `constant_values` sequence: a number `float` accepts, or a value it rejects
      (a nested tuple or list). */
  datatype FillItem = Number(x: real) | NonNumber

  /** `constant_values`: a Python int, another scalar (a float or a numpy scalar, neither of which
      is an `int` nor has a `len`), or a sequence of entries. */
  datatype FillValues = IntFill(v: int) | ScalarFill(x: real) | SeqFill(vs: seq<FillItem>)

  const PadModes: set<string> := {"constant", "reflect", "edge"}

  /** The rows the loop reads: a shared row is tiled once per axis (`np.tile(pad_bw, (rank, 1))`). */
  function PadRows(w: PadWidth, rank: nat): (rows: seq<seq<int>>)
    ensures w.PerAxis? ==> rows == w.rows
    ensures w.Shared? ==> |rows| == rank && forall k :: 0 <= k < rank ==> rows[k] == w.row
  {
    match w
    case PerAxis(rows) => rows
    case Shared(row) => seq(rank, _ => row)
  }

  predicate RowsReadable(rows: seq<seq<int>>) {
    forall k :: 0 <= k < |rows| ==> |rows[k]| >= 2
  }

  /** All begin widths, then all end widths. */
  function BeginsThenEnds(rows: seq<seq<int>>): (pads: seq<int>)
    requires RowsReadable(rows)
    ensures |pads| == 2 * |rows|
    ensures forall k :: 0 <= k < |rows| ==> pads[k] == rows[k][0] && pads[|rows| + k] == rows[k][1]
  {
    seq(|rows|, k requires 0 <= k < |rows| => rows[k][0])
      + seq(|rows|, k requires 0 <= k < |rows| => rows[k][1])
  }

  /** The loop of `convert_Pad` (lines 149-152): `pp[0]` and `pp[1]` of each row, begins first.
      A row with fewer than two entries raises IndexError. */
  method FlattenPads(rows: seq<seq<int>>) returns (r: Result<seq<int>>)
    ensures r.Ok? <==> RowsReadable(rows)
    ensures r.Err? ==> r.error == IndexOutOfRange
    ensures r.Ok? ==> r.value == BeginsThenEnds(rows)
  {
    var padBegin, padEnd := [], [];
    var i := 0;
    while i < |rows|
      invariant 0 <= i <= |rows|
      invariant forall k :: 0 <= k < i ==> |rows[k]| >= 2
      invariant padBegin == seq(i, k requires 0 <= k < i => rows[k][0])
      invariant padEnd == seq(i, k requires 0 <= k < i => rows[k][1])
    {
      var pp := rows[i];
      if |pp| < 2 {
        return Err(IndexOutOfRange);
      }
      padBegin := padBegin + [pp[0]];
      padEnd := padEnd + [pp[1]];
      i := i + 1;
    }
    r := Ok(padBegin + padEnd);
  }

  /** The fill value: `float(v)` of an int, the single element of a sequence, 0.0 when absent.
      A non-int scalar fails at `len(values)` and a non-numeric single entry at `float(values[0])`,
      both with TypeError; several entries fail first, with ValueError. */
  function PadFill(cv: Option<FillValues>): (r: Result<real>)
    ensures r.Ok? <==> cv.None? || cv.value.IntFill?
                       || (cv.value.SeqFill? && |cv.value.vs| == 1 && cv.value.vs[0].Number?)
    ensures cv.None? ==> r == Ok(0.0)
    ensures cv.Some? && cv.value.IntFill? ==> r == Ok(cv.value.v as real)
    ensures cv.Some? && cv.value.ScalarFill? ==> r == Err(TypeMismatch)
    ensures cv.Some? && cv.value.SeqFill? ==>
              r == (if |cv.value.vs| > 1 then Err(MultipleConstantValues)
                    else if |cv.value.vs| == 0 then Err(IndexOutOfRange)
                    else if cv.value.vs[0].NonNumber? then Err(TypeMismatch)
                    else Ok(cv.value.vs[0].x))
  {
    match cv
    case None => Ok(0.0)
    case Some(IntFill(v)) => Ok(v as real)
    case Some(ScalarFill(_)) => Err(TypeMismatch)
    case Some(SeqFill(vs)) =>
      if |vs| > 1 then Err(MultipleConstantValues)
      else if |vs| == 0 then Err(IndexOutOfRange)
      else match vs[0]
           case NonNumber => Err(TypeMismatch)
           case Number(x) => Ok(x)
  }

  /** The widths' attribute key: `paddings` in Pad-1, `pads` in Pad-2. */
  function PadKey(opset: int): string {
    if opset == 1 then "paddings" else "pads"
  }

  function PadAttrs(opset: int, mode: string, pads: seq<int>, value: real): Attributes {
    map["mode" := AStr(mode), PadKey(opset) := AInts(pads), "value" := AFloat(value)]
  }

  /** Pad-1 and Pad-2 carry the same mode, widths and value; only the widths' key is renamed. */
  lemma PadVersionsRename(mode: string, pads: seq<int>, value: real)
    ensures PadAttrs(1, mode, pads, value).Keys - {"paddings"} == PadAttrs(2, mode, pads, value).Keys - {"pads"}
    ensures PadAttrs(2, mode, pads, value)
            == (PadAttrs(1, mode, pads, value) - {"paddings"})["pads" := AInts(pads)]
  {
  }

  /** `convert_Pad`: checks the mode, flattens the widths, then reads the fill value. */
  method ConvertPad(opset: int, mode: string, padBw: PadWidth, rank: nat, constantValues: Option<FillValues>,
                    inputs: seq<string>, outputs: seq<string>) returns (r: Result<seq<Node>>)
    requires opset == 1 || opset == 2
    ensures mode !in PadModes ==> r == Err(PadModeUnsupported(mode))
    ensures mode in PadModes && !RowsReadable(PadRows(padBw, rank)) ==> r == Err(IndexOutOfRange)
    ensures mode in PadModes && RowsReadable(PadRows(padBw, rank)) ==>
              r == match PadFill(constantValues)
                   case Err(e) => Err(e)
                   case Ok(v) => Ok(OneNode("Pad", inputs, outputs,
                                           PadAttrs(opset, mode, BeginsThenEnds(PadRows(padBw, rank)), v)))
  {
    if mode !in PadModes {
      return Err(PadModeUnsupported(mode));
    }
    var pad := FlattenPads(PadRows(padBw, rank));
    if pad.Err? {
      return Err(pad.error);
    }
    var values := PadFill(constantValues);
    if values.Err? {
      return Err(values.error);
    }
    if opset == 1 {
      r := Ok(OneNode("Pad", inputs, outputs,
                      map["mode" := AStr(mode), "paddings" := AInts(pad.value), "value" := AFloat(values.value)]));
    } else {
      r := Ok(OneNode("Pad", inputs, outputs,
                      map["mode" := AStr(mode), "pads" := AInts(pad.value), "value" := AFloat(values.value)]));
    }
  }

  /** A shared (1-D) width row pads every axis alike: the widths are rank copies of its first entry
      followed by rank copies of its second. */
  lemma SharedPadRow(row: seq<int>, rank: nat)
    requires |row| >= 2
    ensures RowsReadable(PadRows(Shared(row), rank))
    ensures BeginsThenEnds(PadRows(Shared(row), rank)) == seq(rank, _ => row[0]) + seq(rank, _ => row[1])
  {
  }

  // ---------------------------------------------------------------------------------------------
  // SplitAxis

  /** `indices_or_sections`: a list of split points, or a number of equal sections. */
  datatype Sections = Indices(points: seq<int>) | SectionCount(n: int)

  /** Consecutive differences, starting from 0. */
  function Differences(xs: seq<int>): (ds: seq<int>)
    ensures |ds| == |xs|
  {
    seq(|xs|, k requires 0 <= k < |xs| => xs[k] - (if k == 0 then 0 else xs[k - 1]))
  }

  function Sum(xs: seq<int>): int {
    if xs == [] then 0 else Sum(xs[..|xs| - 1]) + xs[|xs| - 1]
  }

  /** Running totals: the inverse of Differences. */
  function PrefixSums(xs: seq<int>): (ps: seq<int>)
    ensures |ps| == |xs|
  {
    if xs == [] then [] else var ps := PrefixSums(xs[..|xs| - 1]); ps + [Sum(xs[..|xs| - 1]) + xs[|xs| - 1]]
  }

  /** The split sizes add up to the last split point. */
  lemma {:induction false} DifferencesSum(xs: seq<int>)
    ensures Sum(Differences(xs)) == if xs == [] then 0 else xs[|xs| - 1]
  {
    if xs != [] {
      var init := xs[..|xs| - 1];
      DifferencesSum(init);
      assert Differences(xs)[..|xs| - 1] == Differences(init);
    }
  }

  lemma {:induction false} PrefixSumsIsSum(xs: seq<int>)
    ensures forall k :: 0 <= k < |xs| ==> PrefixSums(xs)[k] == Sum(xs[..k + 1])
  {
    if xs != [] {
      var init := xs[..|xs| - 1];
      PrefixSumsIsSum(init);
      forall k | 0 <= k < |xs| - 1
        ensures PrefixSums(xs)[k] == Sum(xs[..k + 1])
      {
        assert init[..k + 1] == xs[..k + 1];
      }
      assert xs[..|xs|] == xs;
    }
  }

  /** Adding the split sizes back up gives the split points again. */
  lemma PrefixSumsOfDifferences(xs: seq<int>)
    ensures PrefixSums(Differences(xs)) == xs
  {
    var ds := Differences(xs);
    PrefixSumsIsSum(ds);
    forall k | 0 <= k < |xs|
      ensures PrefixSums(ds)[k] == xs[k]
    {
      DifferencesSum(xs[..k + 1]);
      assert Differences(xs[..k + 1]) == ds[..k + 1];
    }
  }

  /** The loop of `convert_SplitAxis` over a list of split points (lines 234-238). */
  method SplitSizes(points: seq<int>) returns (split: seq<int>)
    ensures split == Differences(points)
  {
    split := [];
    var prev := 0;
    var i := 0;
    while i < |points|
      invariant 0 <= i <= |points|
      invariant prev == if i == 0 then 0 else points[i - 1]
      invariant split == Differences(points)[..i]
    {
      split := split + [points[i] - prev];
      prev := points[i];
      i := i + 1;
    }
  }

  /** `convert_SplitAxis` (opsets 1 and 2 emit the same node). A section count splits
      `shape[axis]` into that many equal floor shares; a count of 0 divides by zero. */
  method ConvertSplitAxis(opset: int, sections: Sections, axis: int, shape: seq<nat>,
                          inputs: seq<string>, outputs: seq<string>) returns (r: Result<seq<Node>>)
    requires opset == 1 || opset == 2
    requires sections.SectionCount? ==> -(|shape| as int) <= axis < |shape|
    ensures r.Err? <==> sections.SectionCount? && sections.n == 0
    ensures r.Err? ==> r.error == DivisionByZero
    ensures r.Ok? ==> |r.value| == 1 && r.value[0].opType == "Split"
                      && r.value[0].inputs == inputs && r.value[0].outputs == outputs
                      && r.value[0].attrs.Keys == {"axis", "split"}
                      && r.value[0].attrs["axis"] == AInt(axis) && r.value[0].attrs["split"].AInts?
    ensures r.Ok? && sections.Indices? ==> r.value[0].attrs["split"].ints == Differences(sections.points)
    ensures r.Ok? && sections.SectionCount? ==>
              var split, n, dim := r.value[0].attrs["split"].ints, sections.n, shape[PyIndex(axis, |shape|)];
              |split| == (if n > 0 then n else 0)
              && forall k :: 0 <= k < |split| ==> split[k] * n <= dim < (split[k] + 1) * n
  {
    var split;
    match sections {
      case Indices(points) =>
        split := SplitSizes(points);
      case SectionCount(n) =>
        if n == 0 {
          return Err(DivisionByZero);
        }
        var length := shape[PyIndex(axis, |shape|)] / n;
        split := seq(if n > 0 then n else 0, _ => length);
    }
    if opset == 1 {
      r := Ok(OneNode("Split", inputs, outputs, map["axis" := AInt(axis), "split" := AInts(split)]));
    } else {
      r := Ok(OneNode("Split", inputs, outputs, map["axis" := AInt(axis), "split" := AInts(split)]));
    }
  }

  // ---------------------------------------------------------------------------------------------
  // Squeeze

  /** The loop of `convert_Squeeze` without an axis (lines 260-263): every axis of extent 1, in order. */
  method UnitAxes(shape: seq<nat>) returns (axes: seq<int>)
    ensures Increasing(axes)
    ensures forall a :: a in axes <==> 0 <= a < |shape| && shape[a] == 1
  {
    axes := [];
    var i := 0;
    while i < |shape|
      invariant 0 <= i <= |shape|
      invariant Increasing(axes)
      invariant forall a :: a in axes <==> 0 <= a < i && shape[a] == 1
    {
      if shape[i] == 1 {
        AppendIncreasing(axes, i);
        axes := axes + [i];
      }
      i := i + 1;
    }
  }

  /** `convert_Squeeze`: the given axes, or every axis of extent 1. */
  method ConvertSqueeze(axis: Option<seq<int>>, shape: seq<nat>, inputs: seq<string>, outputs: seq<string>)
    returns (nodes: seq<Node>)
    ensures |nodes| == 1 && nodes[0].opType == "Squeeze"
    ensures nodes[0].inputs == inputs && nodes[0].outputs == outputs
    ensures nodes[0].attrs.Keys == {"axes"} && nodes[0].attrs["axes"].AInts?
    ensures axis.Some? ==> nodes[0].attrs["axes"].ints == axis.value
    ensures axis.None? ==> var axes := nodes[0].attrs["axes"].ints;
              Increasing(axes) && forall a :: a in axes <==> 0 <= a < |shape| && shape[a] == 1
  {
    var axes;
    if axis.None? {
      axes := UnitAxes(shape);
    } else {
      axes := axis.value;
    }
    nodes := OneNode("Squeeze", inputs, outputs, map["axes" := AInts(axes)]);
  }

  // ---------------------------------------------------------------------------------------------
  // Swapaxes

  /** The identity permutation of 0..rank-1 with positions a and b exchanged. */
  function SwappedIdentity(rank: nat, a: nat, b: nat): (perm: seq<int>)
    requires a < rank && b < rank
    ensures |perm| == rank
  {
    seq(rank, k requires 0 <= k < rank => if k == a then b else if k == b then a else k)
  }

  /** The swapped identity is a permutation of 0..rank-1, it is its own inverse, and it fixes every
      position other than a and b. */
  lemma SwappedIdentityIsInvolution(rank: nat, a: nat, b: nat)
    requires a < rank && b < rank
    ensures var p := SwappedIdentity(rank, a, b);
            && (forall k :: 0 <= k < rank ==> 0 <= p[k] < rank && p[p[k]] == k)
            && (forall i, j :: 0 <= i < rank && 0 <= j < rank && p[i] == p[j] ==> i == j)
            && p[a] == b && p[b] == a
            && (forall k :: 0 <= k < rank && k != a && k != b ==> p[k] == k)
  {
  }

  /** The body of `convert_Swapaxes` (lines 275-276): `list(range(rank))`, then the two entries are
      exchanged in place (Python's negative indices count from the end). */
  method SwapaxesPerm(rank: nat, axis1: int, axis2: int) returns (perm: seq<int>)
    requires -(rank as int) <= axis1 < rank && -(rank as int) <= axis2 < rank
    ensures perm == SwappedIdentity(rank, PyIndex(axis1, rank), PyIndex(axis2, rank))
  {
    var p := new int[rank](k => k);
    var i, j := PyIndex(axis1, rank), PyIndex(axis2, rank);
    var atJ, atI := p[j], p[i];
    p[i] := atJ;
    p[j] := atI;
    perm := p[..];
  }

  /** `convert_Swapaxes`: a Transpose by the swapped identity. */
  method ConvertSwapaxes(rank: nat, axis1: int, axis2: int, inputs: seq<string>, outputs: seq<string>)
    returns (nodes: seq<Node>)
    requires -(rank as int) <= axis1 < rank && -(rank as int) <= axis2 < rank
    ensures |nodes| == 1 && nodes[0].opType == "Transpose"
    ensures nodes[0].inputs == inputs && nodes[0].outputs == outputs
    ensures nodes[0].attrs == map["perm" := AInts(SwappedIdentity(rank, PyIndex(axis1, rank), PyIndex(axis2, rank)))]
  {
    var perm := SwapaxesPerm(rank, axis1, axis2);
    nodes := OneNode("Transpose", inputs, outputs, map["perm" := AInts(perm)]);
  }
}
