# ONNX-Chainer array converters, modelled in Dafny

This project models the array-function converters of ONNX-Chainer
(`onnx_chainer/functions/array.py`). Each converter turns one Chainer function call into a short
ordered list of ONNX nodes. A node is an operator type, input names, output names and attributes.
The model covers four groups.

- **GetItem** (`get_item.dfy`). The left-to-right pass over the index specifiers (slice, int, 0-d
  array, `None`, `Ellipsis`) is a method with a `while` loop. The loop is proved equal to
  closed-form reference definitions: the axis of the j-th specifier, where each new axis lands,
  and the `skipped` offset set once at the ellipsis. The lemmas then prove that:
  - the three Slice lists have equal length;
  - the sliced axes increase, lie below the rank, and address the leading dimensions before the
    ellipsis and the trailing dimensions after it;
  - the squeeze axes are sliced axes;
  - the unsqueeze axes increase and fit the output rank.

  The converter chains Slice, an optional Squeeze and an optional Unsqueeze through a GraphBuilder
  and binds the last node to the caller's output names.
- **Attribute and axis computations** (`attributes.dfy`):
  - Cast-1 uses type names and Cast-6 uses type codes.
  - Concat, Copy, DepthToSpace, SpaceToDepth and Transpose each emit one node.
  - ExpandDims normalises a negative axis.
  - Pad flattens the begin/end rows (a loop) and renames `paddings` to `pads` between Pad-1 and
    Pad-2.
  - SplitAxis computes split sizes (a loop whose result is the consecutive differences of the
    indices).
  - Squeeze with no axis collects the unit axes (a loop).
  - Swapaxes builds its permutation with an in-place swap on an array.
- **Decompositions** (`decompositions.dfy`). Stack, Hstack, Vstack, Dstack and Separate build
  through a stateful `GraphBuilder` class. Their Unsqueeze axes are proved to match numpy's
  `atleast_1d/2d/3d` and the inserted stacking axis (`shapes.dfy`).
- **Constant materialisation** (`constants.dfy`). Reshape-5, Tile, Where and Repeat append or
  insert into the caller's `input_names` and `parameters` lists. These lists are `PyList` objects
  changed in place. The context's `get_name` is a `Context` object that hands out fresh names.

Shared pieces:
- `wrappers.dfy`: `Option`, `Result` and the converter errors.
- `onnx_ir.dfy`: nodes, attributes, parameters, and the two generated-name families, proved
  injective and disjoint.
- `onnx_helper.dfy`: the GraphBuilder, the mutable lists and the name supply.

The GraphBuilder and `context.get_name` come from `onnx_chainer/onnx_helper.py` and the exporter,
which are not part of this model. They are modelled by the behaviour their callers rely on:
- `op` returns the fresh name `Gensym(next)` and increments its counter;
- `op_output_named` binds the caller's names;
- `nodes()` returns the queue in creation order;
- `nodes(output_names=...)` rebinds the outputs of the last node;
- `get_name` returns the name a value already has, or else the next `ContextName(k)`, never one
  issued before.

The gensym counter's starting value is the `base` parameter of every converter that builds a graph.

Each converter that the opset registry restricts takes `opset` under a precondition listing its
declared versions. An error the source raises becomes an `Err` value. All errors are reported
before any node is built, except the missing-count error of Repeat without an axis, which the
source raises after it has already appended the shape initializer.

Two worked examples of the index pass, both proved as example lemmas:
- `x[2, :, None, ...]` on a rank-4 input slices axes `[0, 1]` with starts `[2, 0]` and ends
  `[3, shape[1]]`, squeezes `[0]` and unsqueezes `[1]` (`GetItem.ExampleLeadingPoint`).
- `x[1, ..., 3]` on a rank-5 input emits two Slice entries, at axes `[0, 4]`, and the ellipsis
  stands for three dimensions (`GetItem.ExampleEllipsis`).

## Model

| member | source | states |
|---|---|---|
| GetItem.PassSliced | onnx_chainer/functions/array.py:92-105 | appending the axis, start and end of a slice or point (and, for a point, the squeezed axis) to lists that match the reference for s[..i] gives lists that match it for s[..i+1] |
| GetItem.PassNewAxis | onnx_chainer/functions/array.py:106-107 | appending `i - len(squeeze_idxs) + skipped` for a `None` keeps the lists equal to the reference for the longer prefix |
| GetItem.PassEllipsis | onnx_chainer/functions/array.py:108-114 | at the ellipsis `skipped` is still 0, and the value assigned there is the reference offset for the longer prefix |
| GetItem.ResolveStep | onnx_chainer/functions/array.py:85-119 | one loop iteration: rejects exactly a stepped slice or an unsupported specifier, with its error; otherwise extends the five lists and `skipped` to the reference values for the next prefix |
| GetItem.Resolve | onnx_chainer/functions/array.py:84-119 | succeeds iff no specifier is a stepped slice or an unsupported type; on failure reports the first failing specifier's error; on success returns exactly the axes/starts/ends/squeeze/unsqueeze lists of the reference definitions (the per-specifier appends, with the axis `i - len(unsqueeze) + skipped`) |
| GetItem.AxisAt | onnx_chainer/functions/array.py:86-86 | the loop's axis expression for a slice or point equals the closed-form axis (consumed dimensions before the ellipsis, counted from the end after it) and lies in `0..rank-1` |
| GetItem.NewAxisAt | onnx_chainer/functions/array.py:106-107 | the unsqueeze position computed by the loop for a `None` equals its closed-form output position |
| GetItem.SkipAtEllipsis | onnx_chainer/functions/array.py:108-114 | `skipped` is still 0 at the (single) ellipsis, and the value set there equals rank minus all consumed dimensions minus 1 |
| GetItem.CountNotNoneSuffix | onnx_chainer/functions/array.py:111-112 | the count of non-`None` specifiers after position a is the suffix length minus the `None`s in it |
| GetItem.EllipsisCountAt | onnx_chainer/functions/array.py:113-113 | under valid indexing at most one ellipsis occurs in every prefix |
| GetItem.ResolvedLengths | onnx_chainer/functions/array.py:92-107 | axes, starts and ends have equal length (one entry per slice, int or 0-d array); squeeze has one per point index; unsqueeze one per `None` |
| GetItem.LeadingAxes | onnx_chainer/functions/array.py:86-98 | before any ellipsis the sliced axes are exactly 0, 1, ..., (consumed count) - 1 |
| GetItem.TrailingAxes | onnx_chainer/functions/array.py:108-114 | with an ellipsis after c consuming specifiers out of C in all, there is one sliced axis per consuming specifier and the k-th is k for k < c and rank - C + k otherwise: the specifiers after the ellipsis address the last C - c dimensions |
| GetItem.AxisOfIncreasing | onnx_chainer/functions/array.py:84-114 | a later slice or point specifier maps to a strictly larger input axis |
| GetItem.SlicedAxesIncreasing | onnx_chainer/functions/array.py:92-105 | the axes list (and the squeeze list) is strictly increasing |
| GetItem.SqueezeAxesAreSliced | onnx_chainer/functions/array.py:95-105 | every squeezed axis is one of the Slice axes |
| GetItem.SliceAxesValid | onnx_chainer/functions/array.py:84-119 | on success the Slice axes increase and lie in `0..rank-1`, the squeeze axes are among them, and without an ellipsis the axes are the leading `0..|axes|-1` |
| GetItem.OutPosStep | onnx_chainer/functions/array.py:106-107 | the output position never decreases along the specifiers and strictly increases past a `None` |
| GetItem.NewAxesBelow | onnx_chainer/functions/array.py:106-107 | the unsqueeze positions increase and lie below the current output position |
| GetItem.UnsqueezeAxesValid | onnx_chainer/functions/array.py:106-107 | on success the unsqueeze axes increase and lie below the result rank (rank - points + news) |
| GetItem.ExampleLeadingPoint | onnx_chainer/functions/array.py:84-119 | `[2, :, None, ...]` on rank 4 resolves to axes [0,1], starts [2,0], ends [3, shape[1]], squeeze [0], unsqueeze [1] |
| GetItem.ExampleEllipsis | onnx_chainer/functions/array.py:108-114 | `[1, ..., 3]` on rank 5 resolves to axes [0,4], starts [1,3], ends [2,4], squeeze [0,4], the ellipsis skipping 3 dimensions |
| GetItem.LinearChain | onnx_chainer/functions/array.py:121-133 | a chain whose first node reads the inputs and each later node reads its predecessor's outputs has no forward references |
| GetItem.GetItemNodesShape | onnx_chainer/functions/array.py:121-133 | the GetItem chain is one Slice of the inputs with the resolved lists, then a Squeeze fed by it iff squeeze axes exist, then an Unsqueeze fed by the previous output iff unsqueeze axes exist; intermediates get consecutive fresh names, the last node is bound to the output names, and no node reads a later output |
| GetItem.GetItemIntermediatesDistinct | onnx_chainer/functions/array.py:121-131 | the Slice, Squeeze and Unsqueeze intermediate outputs are pairwise distinct names |
| GetItem.ChainSnoc | onnx_chainer/functions/array.py:125-131 | adding one operator to a chain appends one node that reads the previous last output and writes the next fresh name |
| GetItem.StartChain | onnx_chainer/functions/array.py:121-123 | a fresh builder holds exactly the Slice node on the inputs, whose fresh output is returned |
| GetItem.AppendOp | onnx_chainer/functions/array.py:125-131 | `output = gb.op(op, [output], ...)` extends the built chain by that operator and returns its fresh output |
| GetItem.FinishChain | onnx_chainer/functions/array.py:133-133 | `gb.nodes(output_names=...)` returns the chain with only its last node's outputs replaced by the caller's names |
| GetItem.BuildGetItemNodes | onnx_chainer/functions/array.py:121-133 | the graph-builder calls produce exactly the GetItem chain for the resolved lists |
| GetItem.ConvertGetItem | onnx_chainer/functions/array.py:77-133 | same error conditions as the resolver, with no node built; on success exactly the GetItem chain of the reference lists, whose structure GetItemNodesShape states |
| ArrayAttributes.TensorTypeTableInvertible | onnx_chainer/functions/array.py:11-28 | the name table is defined exactly on codes 0..15 and every name maps back to its code |
| ArrayAttributes.TensorTypeNameComplete | onnx_chainer/functions/array.py:11-28 | every name that maps back to a code is that code's table entry |
| ArrayAttributes.ConvertCast | onnx_chainer/functions/array.py:31-44 | Cast-1 succeeds iff the code is in the table and gives its name as `to`; Cast-6 always succeeds with the integer code; one Cast node with only `to` |
| ArrayAttributes.CastVersionsAgree | onnx_chainer/functions/array.py:35-44 | the two versions emit the same node except that `to` is the name of Cast-6's code |
| ArrayAttributes.ConvertConcat | onnx_chainer/functions/array.py:47-59 | both opsets emit one Concat node on the caller's names with `axis` |
| ArrayAttributes.ConvertCopy | onnx_chainer/functions/array.py:62-66 | one attribute-less Identity node on the caller's names |
| ArrayAttributes.ConvertDepth2Space | onnx_chainer/functions/array.py:69-74 | one DepthToSpace node with `blocksize` r |
| ArrayAttributes.ConvertSpace2Depth | onnx_chainer/functions/array.py:217-222 | one SpaceToDepth node with `blocksize` r |
| ArrayAttributes.ConvertTranspose | onnx_chainer/functions/array.py:305-316 | one Transpose node, with `perm` exactly when the function has axes |
| ArrayAttributes.NormalizeNewAxis | onnx_chainer/functions/array.py:320-322 | a non-negative axis is kept; an axis in range lands in `0..rank` and is congruent to the given one modulo rank + 1 |
| ArrayAttributes.ConvertExpandDims | onnx_chainer/functions/array.py:319-326 | one Unsqueeze with a single axis, kept when non-negative, normalised into `0..rank` otherwise |
| ArrayAttributes.PadRows | onnx_chainer/functions/array.py:146-148 | a 1-D `pad_bw` is repeated once per input axis; a 2-D one is used as is |
| ArrayAttributes.BeginsThenEnds | onnx_chainer/functions/array.py:149-152 | the pad list has length 2 x rows: all begin widths, then all end widths, in axis order |
| ArrayAttributes.FlattenPads | onnx_chainer/functions/array.py:144-152 | the loop fails (IndexError) iff some row is shorter than 2, otherwise returns the begins-then-ends list |
| ArrayAttributes.SharedPadRow | onnx_chainer/functions/array.py:147-152 | a shared row `(b, e)` gives `rank` copies of b followed by `rank` copies of e |
| ArrayAttributes.PadFill | onnx_chainer/functions/array.py:154-163 | succeeds exactly when the value is absent (0), an int (as a real) or a one-entry sequence of a number (that number); several entries raise ValueError, an empty sequence IndexError, a non-int scalar or a non-numeric single entry TypeError |
| ArrayAttributes.PadVersionsRename | onnx_chainer/functions/array.py:165-193 | Pad-1 and Pad-2 attributes are identical except that `paddings` is renamed `pads` |
| ArrayAttributes.ConvertPad | onnx_chainer/functions/array.py:136-195 | error for a mode outside constant/reflect/edge, then for unreadable rows, then for several constant values; otherwise one Pad node with mode, the begins-then-ends pads under the version's key, and the fill value |
| ArrayAttributes.SplitSizes | onnx_chainer/functions/array.py:233-238 | the loop yields the consecutive differences of the indices starting from 0 |
| ArrayAttributes.DifferencesSum | onnx_chainer/functions/array.py:233-238 | the split sizes sum to the last index (0 for no indices) |
| ArrayAttributes.PrefixSumsIsSum | onnx_chainer/functions/array.py:233-238 | the running sums are the sums of the prefixes |
| ArrayAttributes.PrefixSumsOfDifferences | onnx_chainer/functions/array.py:233-238 | the running sums of the split sizes give back the indices: the sizes determine the split points |
| ArrayAttributes.ConvertSplitAxis | onnx_chainer/functions/array.py:225-254 | fails only for a section count of 0; indices give the differences; n > 0 sections give n equal sizes floor(dim / n); opsets 1 and 2 emit the same Split node with `axis` and `split` |
| ArrayAttributes.UnitAxes | onnx_chainer/functions/array.py:259-263 | the collected axes increase and are exactly the axes of extent 1 |
| ArrayAttributes.ConvertSqueeze | onnx_chainer/functions/array.py:257-270 | one Squeeze with the given axes, or with exactly the unit axes in increasing order |
| ArrayAttributes.SwappedIdentityIsInvolution | onnx_chainer/functions/array.py:275-276 | the swapped identity maps 0..rank-1 into itself injectively, is its own inverse, exchanges the two axes and fixes every other one |
| ArrayAttributes.SwapaxesPerm | onnx_chainer/functions/array.py:275-276 | the in-place swap on `list(range(rank))` (Python indices) yields the swapped identity |
| ArrayAttributes.ConvertSwapaxes | onnx_chainer/functions/array.py:273-280 | one Transpose with that permutation |
| Constants.ConvertReshape | onnx_chainer/functions/array.py:198-214 | opset 1 changes nothing and puts `shape` in an attribute; opset 5 appends one int64 parameter holding the shape and its fresh name at the end of the inputs, earlier inputs in order, and the node reads the extended list |
| Constants.RepsList | onnx_chainer/functions/array.py:288-289 | an integer `reps` is promoted to a one-element list |
| Constants.ConvertTile | onnx_chainer/functions/array.py:283-302 | always appends the int64 tiles parameter and its name; opset 1 then also appends the float32 axis parameter 0..len-1 and its name; the Tile node reads the extended inputs |
| Constants.ConvertWhere | onnx_chainer/functions/array.py:329-333 | the condition's name (its existing one, or a fresh context name) is inserted at position 0, the others keep their order, and the Where node reads that list |
| Constants.RepeatScalesMatchRepeat | onnx_chainer/functions/array.py:353-355 | scaling a shape by the per-axis scales gives numpy's `repeat` shape: only the chosen axis is multiplied by the count |
| Constants.ReshapeOutputNotInitializer | onnx_chainer/functions/array.py:347-351 | the flattening Reshape's output is never a name the context issued, so it cannot clash with the shape or scales initializer names |
| Constants.EmitUpsample | onnx_chainer/functions/array.py:357-367 | opset 7: one Upsample on the given inputs with the scales as a float attribute, nothing else changed; opset 9: a float32 scales parameter and its fresh name are appended and the Upsample reads the inputs plus that name |
| Constants.ConvertRepeat | onnx_chainer/functions/array.py:336-367 | error for more than one count with nothing changed; without an axis the `[-1]` shape parameter and its name are appended and a Reshape flattens the input (before a missing count fails); an axis out of range or a missing count fails with nothing changed; Upsample takes the scales as an attribute at opset 7 or as a float32 parameter on its own inputs at opset 9 |
| OnnxHelper.PyIndex | onnx_chainer/functions/array.py:276-276 | Python's index reading lands in `0..n-1`, congruent to the given index |
| OnnxHelper.GraphBuilder.Op | onnx_chainer/functions/array.py:122-131 | enqueues one node with a single fresh generated output and returns that name |
| OnnxHelper.GraphBuilder.OpMulti | onnx_chainer/functions/array.py:477-478 | enqueues one node with `count` fresh outputs and returns them |
| OnnxHelper.GraphBuilder.OpOutputNamed | onnx_chainer/functions/array.py:424-424 | enqueues one node bound to the caller's names |
| OnnxHelper.GraphBuilder.Nodes | onnx_chainer/functions/array.py:425-425 | returns the nodes in creation order |
| OnnxHelper.GraphBuilder.NodesNamed | onnx_chainer/functions/array.py:133-133 | rebinds only the last node's outputs to the caller's names |
| OnnxHelper.PyList.Append | onnx_chainer/functions/array.py:209-210 | `list.append` adds one element at the end |
| OnnxHelper.PyList.Insert | onnx_chainer/functions/array.py:332-332 | `list.insert` places the element at the (clamped) index and shifts the rest |
| OnnxHelper.Context.GetName | onnx_chainer/functions/array.py:210-210 | hands out a name never issued before |
| OnnxHelper.Context.NameOf | onnx_chainer/functions/array.py:332-332 | returns a value's existing name with nothing issued, or else issues and returns the next fresh name |
| Decompositions.UnsqueezeAll | onnx_chainer/functions/array.py:423-423 | one Unsqueeze per input in order, with consecutive fresh outputs returned in that order |
| Decompositions.UnsqueezeThenConcat | onnx_chainer/functions/array.py:423-424 | the unsqueezes followed by a Concat of their outputs have no forward references, and the Concat's k-th input is the k-th Unsqueeze's output |
| Decompositions.ConvertStack | onnx_chainer/functions/array.py:415-425 | one Unsqueeze per input at the normalised axis, in input order, then one Concat along that axis reading exactly their outputs in order and bound to the output names |
| Decompositions.StackInsertsAxis | onnx_chainer/functions/array.py:418-423 | for an axis in range, stacking inserts a dimension of extent 1 at the normalised axis |
| Decompositions.StackingNodesOrdered | onnx_chainer/functions/array.py:428-471 | every rank-dependent stacking plan has no forward references and ends with the node bound to the output names |
| Decompositions.ConvertHstack | onnx_chainer/functions/array.py:428-440 | scalars are unsqueezed at [0] and concatenated on axis 0, vectors concatenated on axis 0, others on axis 1 |
| Decompositions.ConvertVstack | onnx_chainer/functions/array.py:443-454 | scalars unsqueezed at [0,1], vectors at [0], then Concat on axis 0 |
| Decompositions.ConvertDstack | onnx_chainer/functions/array.py:457-471 | unsqueeze at [0,1,2], [0,2] or [2] for ranks 0, 1, 2, then Concat on axis 2 |
| Decompositions.HstackMatchesNumpy | onnx_chainer/functions/array.py:431-439 | the unsqueeze makes shapes `atleast_1d`, and the concat axis is 0 exactly for 1-D results |
| Decompositions.VstackMatchesNumpy | onnx_chainer/functions/array.py:446-453 | the unsqueeze yields numpy's `atleast_2d` shape, so axis 0 exists |
| Decompositions.DstackMatchesNumpy | onnx_chainer/functions/array.py:460-470 | the unsqueeze yields numpy's `atleast_3d` shape, so axis 2 exists |
| Decompositions.ConvertSeparate | onnx_chainer/functions/array.py:474-482 | one Split with one fresh output per output name, then for each k a Squeeze of the split axis from the k-th piece bound to the k-th output name; no forward references |
| Shapes.InsertOneAxis | onnx_chainer/functions/array.py:319-326 | Unsqueeze at one axis a in `0..rank` inserts a 1 before input dimension a |

## Left out

- `convert_ResizeImages` (array.py:372-412): floating-point scale division, a tolerance and a warning; floats and side-channel output are not modelled.
- `NP_TYPE_TO_TENSOR_TYPE` (from onnx) is not modelled: Cast takes the ONNX type code it would produce as the `code` parameter, and a dtype the onnx table lacks is not represented.
- The GraphBuilder, `make_node` and `context.get_name` internals (`onnx_chainer/onnx_helper.py`, the exporter's context) are not part of this model; they are modelled by their observable behaviour, with the gensym counter as the `base` parameter.
- `context.get_name` on the new Reshape, Tile and Repeat parameters always issues a fresh name, since those parameters are created just before; only Where's condition may already be named (`Context.NameOf`).
- Generated intermediate names (`Gensym`) and context names are proved distinct from each other, but not from arbitrary names chosen by the caller.
- The `@support` opset registry (`opset_version.py`) is not modelled; each converter instead requires `opset` to be one of its declared versions.
- GetItem.Resolve, GetItem.ConvertGetItem: require at most one ellipsis (the source only asserts it) and no more consuming specifiers than the rank (so that `x.shape[axis]` exists; Chainer rejects such an index before conversion). ConvertGetItem requires one output name, which the graph builder asserts.
- ArrayAttributes.ConvertSplitAxis: with a section count it requires the axis to index the input shape (Chainer has already checked it).
- ArrayAttributes.SwapaxesPerm, ArrayAttributes.ConvertSwapaxes: require both axes to index the shape (Python would raise IndexError; Chainer has already checked them).
- ConvertRepeat: the scales are Python floats built from integers; they are modelled as integers (and as exact reals in the opset-7 attribute), so float32 rounding of large counts is not modelled.
- ConvertPad: the constant value is an exact real, not a Python float; an entry `float` accepts is taken as already converted, and every value `float` rejects is one `NonNumber` entry.
- ConvertTile: the source also rewrites `func.reps` to a list when it is an int; that change to the Chainer function object is not modelled (only the promoted list is used).
- ConvertSeparate: the `num_outputs` keyword is modelled as the output count of the Split node rather than as an attribute, and a single output is taken to come back as a one-element list.
- Parameters are opaque values carrying a dtype and an integer list; numpy array construction (`np.asarray`, `np.tile`, `chainer.Parameter`) is not modelled beyond that.
- `tests/conftest.py` holds only test-runner configuration and is not modelled.
