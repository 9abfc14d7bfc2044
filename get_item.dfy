/** `convert_GetItem`: lowers a multi-dimensional indexing expression to one ONNX Slice node,
    followed by an optional Squeeze and an optional Unsqueeze. */
module GetItem {
  import opened Wrappers
  import opened OnnxIr
  import opened OnnxHelper

  /** One index specifier of `x[...]`. */
  datatype Index =
    | Slice(start: Option<int>, stop: Option<int>, step: Option<int>)
    | IntIndex(k: int)
    | ScalarArray(item: int)  // a 0-d ndarray, read through `idx.item()`
    | NewAxis                 // `None`
    | Ellipsis
    | Unsupported             // any other specifier: a list, a mask, an array of rank > 0

  /** What a specifier does to the dimensions of `x`. */
  datatype Kind = KSlice | KPoint | KNew | KEllipsis | KOther

  function KindOf(idx: Index): Kind {
    match idx
    case Slice(_, _, _) => KSlice
    case IntIndex(_) => KPoint
    case ScalarArray(_) => KPoint
    case NewAxis => KNew
    case Ellipsis => KEllipsis
    case Unsupported => KOther
  }

  /** The position a point specifier selects. */
  function PointOf(idx: Index): int
    requires KindOf(idx) == KPoint
  {
    if idx.IntIndex? then idx.k else idx.item
  }

  /** The converter rejects this specifier. */
  predicate Fails(idx: Index) {
    (idx.Slice? && idx.step.Some? && idx.step.value != 1) || idx.Unsupported?
  }

  function ErrorOf(idx: Index): ConvertError
    requires Fails(idx)
  {
    if idx.Slice? then StepSlicingUnsupported(idx.step.value) else IndexTypeUnsupported
  }

  /** Position p holds the first rejected specifier. */
  predicate FirstFailureAt(s: seq<Index>, p: int) {
    0 <= p < |s| && Fails(s[p]) && forall q :: 0 <= q < p ==> !Fails(s[q])
  }

  /** The number of specifiers of the given kind among s[..n]. */
  function Count(s: seq<Index>, n: nat, kind: Kind): (c: nat)
    requires n <= |s|
    ensures c <= n
  {
    if n == 0 then 0 else Count(s, n - 1, kind) + (if KindOf(s[n - 1]) == kind then 1 else 0)
  }

  /** The number of specifiers among s[..n] that address a dimension of `x`. */
  function Consumed(s: seq<Index>, n: nat): nat
    requires n <= |s|
  {
    Count(s, n, KSlice) + Count(s, n, KPoint) + Count(s, n, KOther)
  }

  /** `len([i for i in t if i is not None])`. */
  function CountNotNone(t: seq<Index>): nat {
    if t == [] then 0 else (if t[0].NewAxis? then 0 else 1) + CountNotNone(t[1..])
  }

  /** What numpy already demands of an index applied to an array of rank `rank`: at most one
      Ellipsis, and no more dimension-addressing specifiers than dimensions. */
  predicate ValidIndexing(s: seq<Index>, rank: nat) {
    Count(s, |s|, KEllipsis) <= 1 && Consumed(s, |s|) <= rank
  }

  /** The source dimension the specifier at position j addresses: specifiers before the Ellipsis
      address the leading dimensions in order; those after it address the trailing ones. */
  function AxisOf(s: seq<Index>, rank: nat, j: nat): int
    requires j <= |s|
  {
    if Count(s, j, KEllipsis) == 0 then Consumed(s, j)
    else rank - (Consumed(s, |s|) - Consumed(s, j))
  }

  /** The dimension of the result that the new axis at position j becomes: the number of result
      dimensions produced by s[..j] (a slice keeps one, a point none, a new axis adds one, the
      Ellipsis keeps every dimension no other specifier addresses). */
  function OutPos(s: seq<Index>, rank: nat, j: nat): int
    requires j <= |s|
  {
    Count(s, j, KSlice) + Count(s, j, KNew)
      + (if Count(s, j, KEllipsis) == 0 then 0 else rank - Consumed(s, |s|))
  }

  /** The value `skipped` has after the first n specifiers. */
  function Skip(s: seq<Index>, rank: nat, n: nat): int
    requires n <= |s|
  {
    if Count(s, n, KEllipsis) == 0 then 0 else rank - Consumed(s, |s|) - 1
  }

  /** `shape[a]`, or 0 for an axis outside the shape (never used: see AxisAt). */
  function Dim(shape: seq<nat>, a: int): nat {
    if 0 <= a < |shape| then shape[a] else 0
  }

  predicate Sliced(idx: Index, pointsOnly: bool) {
    KindOf(idx) == KPoint || (!pointsOnly && KindOf(idx) == KSlice)
  }

  /** Reference value of `axes` (all slices and points) or of `squeeze_idxs` (points only) after
      the first n specifiers. */
  function SlicedAxes(s: seq<Index>, rank: nat, n: nat, pointsOnly: bool): seq<int>
    requires n <= |s|
  {
    if n == 0 then []
    else SlicedAxes(s, rank, n - 1, pointsOnly)
         + (if Sliced(s[n - 1], pointsOnly) then [AxisOf(s, rank, n - 1)] else [])
  }

  /** Reference value of `starts` after the first n specifiers. */
  function Starts(s: seq<Index>, n: nat): seq<int>
    requires n <= |s|
  {
    if n == 0 then []
    else Starts(s, n - 1) + (match KindOf(s[n - 1])
                              case KSlice => [s[n - 1].start.GetOr(0)]
                              case KPoint => [PointOf(s[n - 1])]
                              case _ => [])
  }

  /** Reference value of `ends` after the first n specifiers. */
  function Ends(s: seq<Index>, shape: seq<nat>, n: nat): seq<int>
    requires n <= |s|
  {
    if n == 0 then []
    else Ends(s, shape, n - 1) + (match KindOf(s[n - 1])
                                   case KSlice => [s[n - 1].stop.GetOr(Dim(shape, AxisOf(s, |shape|, n - 1)))]
                                   case KPoint => [PointOf(s[n - 1]) + 1]
                                   case _ => [])
  }

  /** Reference value of `unsqueeze_idxs` after the first n specifiers. */
  function NewAxes(s: seq<Index>, rank: nat, n: nat): seq<int>
    requires n <= |s|
  {
    if n == 0 then []
    else NewAxes(s, rank, n - 1) + (if s[n - 1].NewAxis? then [OutPos(s, rank, n - 1)] else [])
  }

  /** The lists the single pass builds. */
  datatype Resolution = Resolution(axes: seq<int>, starts: seq<int>, ends: seq<int>,
                                   squeezeAxes: seq<int>, unsqueezeAxes: seq<int>)

  /** What the pass computes for a rejected-free index list. */
  function Expected(s: seq<Index>, shape: seq<nat>): Resolution {
    Resolution(SlicedAxes(s, |shape|, |s|, false), Starts(s, |s|), Ends(s, shape, |s|),
               SlicedAxes(s, |shape|, |s|, true), NewAxes(s, |shape|, |s|))
  }

  // ---------------------------------------------------------------------------------------------
  // Counting facts

  lemma {:induction false} CountMonotone(s: seq<Index>, kind: Kind, a: nat, b: nat)
    requires a <= b <= |s|
    ensures Count(s, a, kind) <= Count(s, b, kind)
    decreases b
  {
    if a < b {
      CountMonotone(s, kind, a, b - 1);
    }
  }

  /** Every specifier has exactly one kind. */
  lemma {:induction false} CountPartition(s: seq<Index>, n: nat)
    requires n <= |s|
    ensures n == Count(s, n, KSlice) + Count(s, n, KPoint) + Count(s, n, KNew)
                 + Count(s, n, KEllipsis) + Count(s, n, KOther)
  {
    if n > 0 {
      CountPartition(s, n - 1);
    }
  }

  lemma {:induction false} CountNotNoneSuffix(s: seq<Index>, a: nat)
    requires a <= |s|
    ensures CountNotNone(s[a..]) == (|s| - a) - (Count(s, |s|, KNew) - Count(s, a, KNew))
    decreases |s| - a
  {
    if a < |s| {
      assert s[a..][1..] == s[a + 1..];
      CountNotNoneSuffix(s, a + 1);
      CountMonotone(s, KNew, a + 1, |s|);
    }
  }

  /** Under valid indexing every prefix holds at most one Ellipsis. */
  lemma EllipsisCountAt(s: seq<Index>, rank: nat, n: nat)
    requires ValidIndexing(s, rank) && n <= |s|
    ensures Count(s, n, KEllipsis) <= 1
  {
    CountMonotone(s, KEllipsis, n, |s|);
  }

  // ---------------------------------------------------------------------------------------------
  // The loop's arithmetic agrees with the reference definitions

  /** `i - len(unsqueeze_idxs) + skipped` is the addressed dimension, and it lies inside the shape. */
  lemma AxisAt(s: seq<Index>, rank: nat, i: nat)
    requires ValidIndexing(s, rank) && i < |s|
    requires KindOf(s[i]) == KSlice || KindOf(s[i]) == KPoint
    requires Count(s, i, KOther) == 0
    ensures i - Count(s, i, KNew) + Skip(s, rank, i) == AxisOf(s, rank, i)
    ensures 0 <= AxisOf(s, rank, i) < rank
  {
    CountPartition(s, i);
    EllipsisCountAt(s, rank, i);
    ConsumedGrows(s, i);
    if Count(s, i, KEllipsis) == 0 {
      assert AxisOf(s, rank, i) == Consumed(s, i);
    } else {
      assert Skip(s, rank, i) == rank - Consumed(s, |s|) - 1;
    }
  }

  /** A slice or point at position i addresses one more dimension than the ones before it. */
  lemma ConsumedGrows(s: seq<Index>, i: nat)
    requires i < |s| && (KindOf(s[i]) == KSlice || KindOf(s[i]) == KPoint)
    ensures Consumed(s, i) < Consumed(s, |s|)
  {
    assert Consumed(s, i + 1) == Consumed(s, i) + 1;
    CountMonotone(s, KSlice, i + 1, |s|);
    CountMonotone(s, KPoint, i + 1, |s|);
    CountMonotone(s, KOther, i + 1, |s|);
  }

  /** `i - len(squeeze_idxs) + skipped` is the result dimension of the new axis. */
  lemma NewAxisAt(s: seq<Index>, rank: nat, i: nat)
    requires ValidIndexing(s, rank) && i < |s| && s[i].NewAxis?
    requires Count(s, i, KOther) == 0
    ensures i - Count(s, i, KPoint) + Skip(s, rank, i) == OutPos(s, rank, i)
  {
    CountPartition(s, i);
    EllipsisCountAt(s, rank, i);
  }

  /** At the Ellipsis, `len(x.shape) - axis - rest_slice_len - 1` is the reference `skipped`. */
  lemma SkipAtEllipsis(s: seq<Index>, rank: nat, i: nat)
    requires ValidIndexing(s, rank) && i < |s| && s[i].Ellipsis?
    ensures Skip(s, rank, i) == 0
    ensures rank - (i - Count(s, i, KNew)) - CountNotNone(s[i + 1..]) - 1 == Skip(s, rank, i + 1)
  {
    CountMonotone(s, KEllipsis, i + 1, |s|);
    CountPartition(s, i);
    CountPartition(s, |s|);
    CountNotNoneSuffix(s, i + 1);
  }

  /** A slice or point at position i appends its axis to `axes` (and to the squeeze list when it is
      a point) and its bounds to `starts` and `ends`; the unsqueeze list and `skipped` are kept. */
  lemma StepSliced(s: seq<Index>, shape: seq<nat>, i: nat)
    requires i < |s| && (KindOf(s[i]) == KSlice || KindOf(s[i]) == KPoint)
    ensures var rank, a := |shape|, AxisOf(s, |shape|, i);
      && SlicedAxes(s, rank, i + 1, false) == SlicedAxes(s, rank, i, false) + [a]
      && SlicedAxes(s, rank, i + 1, true)
         == SlicedAxes(s, rank, i, true) + (if KindOf(s[i]) == KPoint then [a] else [])
      && Starts(s, i + 1)
         == Starts(s, i) + [if KindOf(s[i]) == KSlice then s[i].start.GetOr(0) else PointOf(s[i])]
      && Ends(s, shape, i + 1)
         == Ends(s, shape, i) + [if KindOf(s[i]) == KSlice then s[i].stop.GetOr(Dim(shape, a)) else PointOf(s[i]) + 1]
      && NewAxes(s, rank, i + 1) == NewAxes(s, rank, i)
      && Count(s, i + 1, KNew) == Count(s, i, KNew) && Count(s, i + 1, KOther) == Count(s, i, KOther)
      && Skip(s, rank, i + 1) == Skip(s, rank, i)
  {
  }

  /** A new axis appends its output position to the unsqueeze list and keeps everything else. */
  lemma StepNewAxis(s: seq<Index>, shape: seq<nat>, i: nat)
    requires i < |s| && s[i].NewAxis?
    ensures var rank := |shape|;
      && SlicedAxes(s, rank, i + 1, false) == SlicedAxes(s, rank, i, false)
      && SlicedAxes(s, rank, i + 1, true) == SlicedAxes(s, rank, i, true)
      && Starts(s, i + 1) == Starts(s, i) && Ends(s, shape, i + 1) == Ends(s, shape, i)
      && NewAxes(s, rank, i + 1) == NewAxes(s, rank, i) + [OutPos(s, rank, i)]
      && Count(s, i + 1, KNew) == Count(s, i, KNew) + 1 && Count(s, i + 1, KPoint) == Count(s, i, KPoint)
      && Count(s, i + 1, KOther) == Count(s, i, KOther)
      && Skip(s, rank, i + 1) == Skip(s, rank, i)
  {
  }

  /** The Ellipsis leaves every list unchanged. */
  lemma StepEllipsis(s: seq<Index>, shape: seq<nat>, i: nat)
    requires i < |s| && s[i].Ellipsis?
    ensures var rank := |shape|;
      && SlicedAxes(s, rank, i + 1, false) == SlicedAxes(s, rank, i, false)
      && SlicedAxes(s, rank, i + 1, true) == SlicedAxes(s, rank, i, true)
      && Starts(s, i + 1) == Starts(s, i) && Ends(s, shape, i + 1) == Ends(s, shape, i)
      && NewAxes(s, rank, i + 1) == NewAxes(s, rank, i)
      && Count(s, i + 1, KNew) == Count(s, i, KNew) && Count(s, i + 1, KPoint) == Count(s, i, KPoint)
      && Count(s, i + 1, KOther) == Count(s, i, KOther)
  {
  }

  // ---------------------------------------------------------------------------------------------
  // The single pass

  /** What the pass has built after the first i specifiers: exactly the reference lists, and the
      `skipped` offset of the reference definition. */
  ghost predicate PassState(s: seq<Index>, shape: seq<nat>, i: nat, axes: seq<int>, starts: seq<int>,
                            ends: seq<int>, squeezeIdxs: seq<int>, unsqueezeIdxs: seq<int>, skipped: int)
    requires i <= |s|
  {
    && Count(s, i, KOther) == 0
    && |unsqueezeIdxs| == Count(s, i, KNew) && |squeezeIdxs| == Count(s, i, KPoint)
    && skipped == Skip(s, |shape|, i)
    && axes == SlicedAxes(s, |shape|, i, false) && squeezeIdxs == SlicedAxes(s, |shape|, i, true)
    && starts == Starts(s, i) && ends == Ends(s, shape, i)
    && unsqueezeIdxs == NewAxes(s, |shape|, i)
  }

  /** One pass over a slice or a point: its axis, start and end are appended (and the axis is squeezed for a point). */
  lemma PassSliced(s: seq<Index>, shape: seq<nat>, i: nat, axes: seq<int>, starts: seq<int>, ends: seq<int>,
                   squeezeIdxs: seq<int>, unsqueezeIdxs: seq<int>, skipped: int, start: int, end: int)
    requires ValidIndexing(s, |shape|) && i < |s|
    requires KindOf(s[i]) == KSlice || KindOf(s[i]) == KPoint
    requires PassState(s, shape, i, axes, starts, ends, squeezeIdxs, unsqueezeIdxs, skipped)
    requires var a := i - |unsqueezeIdxs| + skipped;
      0 <= a < |shape| &&
      start == (if KindOf(s[i]) == KSlice then s[i].start.GetOr(0) else PointOf(s[i])) &&
      end == (if KindOf(s[i]) == KSlice then s[i].stop.GetOr(shape[a]) else PointOf(s[i]) + 1)
    ensures var a := i - |unsqueezeIdxs| + skipped;
      PassState(s, shape, i + 1, axes + [a], starts + [start], ends + [end],
                squeezeIdxs + (if KindOf(s[i]) == KPoint then [a] else []), unsqueezeIdxs, skipped)
  {
    AxisAt(s, |shape|, i);
    StepSliced(s, shape, i);
  }
  /** One pass over a new axis: its output position is appended to the unsqueezed axes. */
  lemma PassNewAxis(s: seq<Index>, shape: seq<nat>, i: nat, axes: seq<int>, starts: seq<int>, ends: seq<int>,
                    squeezeIdxs: seq<int>, unsqueezeIdxs: seq<int>, skipped: int)
    requires ValidIndexing(s, |shape|) && i < |s| && s[i].NewAxis?
    requires PassState(s, shape, i, axes, starts, ends, squeezeIdxs, unsqueezeIdxs, skipped)
    ensures PassState(s, shape, i + 1, axes, starts, ends, squeezeIdxs,
                      unsqueezeIdxs + [i - |squeezeIdxs| + skipped], skipped)
  {
    NewAxisAt(s, |shape|, i);
    StepNewAxis(s, shape, i);
  }
  /** One pass over the ellipsis: the number of skipped axes is fixed, nothing is appended. */
  lemma PassEllipsis(s: seq<Index>, shape: seq<nat>, i: nat, axes: seq<int>, starts: seq<int>, ends: seq<int>,
                     squeezeIdxs: seq<int>, unsqueezeIdxs: seq<int>, skipped: int)
    requires ValidIndexing(s, |shape|) && i < |s| && s[i].Ellipsis?
    requires PassState(s, shape, i, axes, starts, ends, squeezeIdxs, unsqueezeIdxs, skipped)
    ensures skipped == 0
    ensures PassState(s, shape, i + 1, axes, starts, ends, squeezeIdxs, unsqueezeIdxs,
                      |shape| - (i - |unsqueezeIdxs| + skipped) - CountNotNone(s[i + 1..]) - 1)
  {
    SkipAtEllipsis(s, |shape|, i);
    StepEllipsis(s, shape, i);
  }
  /**
   * One iteration of the resolver: the specifier at i either is rejected, with its error,
   * or extends the accumulated lists to those of the prefix s[..i + 1].
   */
  method ResolveStep(s: seq<Index>, shape: seq<nat>, i: nat, axes: seq<int>, starts: seq<int>, ends: seq<int>,
                     squeezeIdxs: seq<int>, unsqueezeIdxs: seq<int>, skipped: int)
    returns (err: Option<ConvertError>, axes': seq<int>, starts': seq<int>, ends': seq<int>,
             squeezeIdxs': seq<int>, unsqueezeIdxs': seq<int>, skipped': int)
    requires ValidIndexing(s, |shape|) && i < |s|
    requires PassState(s, shape, i, axes, starts, ends, squeezeIdxs, unsqueezeIdxs, skipped)
    ensures err.Some? <==> Fails(s[i])
    ensures err.Some? ==> err.value == ErrorOf(s[i])
    ensures err.None? ==> PassState(s, shape, i + 1, axes', starts', ends', squeezeIdxs', unsqueezeIdxs', skipped')
  {
    err := None;
    var idx := s[i];
    var axis := i - |unsqueezeIdxs| + skipped;
    match idx {
      case Slice(start, stop, step) =>
        if step.Some? && step.value != 1 {
          return Some(StepSlicingUnsupported(step.value)), axes, starts, ends, squeezeIdxs, unsqueezeIdxs, skipped;
        }
        var lo := if start.None? then 0 else start.value;
        AxisAt(s, |shape|, i);
        var hi := if stop.None? then shape[axis] else stop.value;
        PassSliced(s, shape, i, axes, starts, ends, squeezeIdxs, unsqueezeIdxs, skipped, lo, hi);
        axes', starts', ends' := axes + [axis], starts + [lo], ends + [hi];
        squeezeIdxs', unsqueezeIdxs', skipped' := squeezeIdxs, unsqueezeIdxs, skipped;
      case IntIndex(k) =>
        AxisAt(s, |shape|, i);
        PassSliced(s, shape, i, axes, starts, ends, squeezeIdxs, unsqueezeIdxs, skipped, k, k + 1);
        axes', starts', ends' := axes + [axis], starts + [k], ends + [k + 1];
        squeezeIdxs', unsqueezeIdxs', skipped' := squeezeIdxs + [axis], unsqueezeIdxs, skipped;
      case ScalarArray(item) =>
        AxisAt(s, |shape|, i);
        PassSliced(s, shape, i, axes, starts, ends, squeezeIdxs, unsqueezeIdxs, skipped, item, item + 1);
        axes', starts', ends' := axes + [axis], starts + [item], ends + [item + 1];
        squeezeIdxs', unsqueezeIdxs', skipped' := squeezeIdxs + [axis], unsqueezeIdxs, skipped;
      case NewAxis =>
        PassNewAxis(s, shape, i, axes, starts, ends, squeezeIdxs, unsqueezeIdxs, skipped);
        axes', starts', ends', squeezeIdxs' := axes, starts, ends, squeezeIdxs;
        unsqueezeIdxs', skipped' := unsqueezeIdxs + [i - |squeezeIdxs| + skipped], skipped;
      case Ellipsis =>
        var restSliceLen := CountNotNone(s[i + 1..]);
        PassEllipsis(s, shape, i, axes, starts, ends, squeezeIdxs, unsqueezeIdxs, skipped);
        axes', starts', ends', squeezeIdxs', unsqueezeIdxs' := axes, starts, ends, squeezeIdxs, unsqueezeIdxs;
        skipped' := |shape| - axis - restSliceLen - 1;
      case Unsupported =>
        return Some(IndexTypeUnsupported), axes, starts, ends, squeezeIdxs, unsqueezeIdxs, skipped;
    }
  }

  /** The loop of `convert_GetItem` (lines 80-119): it rejects the first unsupported specifier and
      otherwise builds exactly the reference lists. */
  method Resolve(slices: seq<Index>, shape: seq<nat>) returns (r: Result<Resolution>)
    requires ValidIndexing(slices, |shape|)
    ensures r.Ok? <==> forall p :: 0 <= p < |slices| ==> !Fails(slices[p])
    ensures r.Err? ==> exists p :: FirstFailureAt(slices, p) && r.error == ErrorOf(slices[p])
    ensures r.Ok? ==> r.value == Expected(slices, shape)
  {
    var axes, starts, ends := [], [], [];
    var squeezeIdxs, unsqueezeIdxs := [], [];
    var skipped := 0;
    var i := 0;
    while i < |slices|
      invariant 0 <= i <= |slices|
      invariant forall p :: 0 <= p < i ==> !Fails(slices[p])
      invariant PassState(slices, shape, i, axes, starts, ends, squeezeIdxs, unsqueezeIdxs, skipped)
    {
      var err;
      err, axes, starts, ends, squeezeIdxs, unsqueezeIdxs, skipped :=
        ResolveStep(slices, shape, i, axes, starts, ends, squeezeIdxs, unsqueezeIdxs, skipped);
      if err.Some? {
        assert FirstFailureAt(slices, i);
        return Err(err.value);
      }
      i := i + 1;
    }
    assert slices[..|slices|] == slices;
    r := Ok(Resolution(axes, starts, ends, squeezeIdxs, unsqueezeIdxs));
  }

  // ---------------------------------------------------------------------------------------------
  // Properties of the lists the pass builds

  /** Every slice or point specifier contributes one entry to each of axes, starts and ends; every
      point one to the squeeze list; every new axis one to the unsqueeze list; nothing else adds. */
  lemma {:induction false} ResolvedLengths(s: seq<Index>, shape: seq<nat>, n: nat)
    requires n <= |s|
    ensures |SlicedAxes(s, |shape|, n, false)| == |Starts(s, n)| == |Ends(s, shape, n)|
                                             == Count(s, n, KSlice) + Count(s, n, KPoint)
    ensures |SlicedAxes(s, |shape|, n, true)| == Count(s, n, KPoint)
    ensures |NewAxes(s, |shape|, n)| == Count(s, n, KNew)
  {
    if n > 0 {
      ResolvedLengths(s, shape, n - 1);
    }
  }

  lemma {:induction false} NoOtherBefore(s: seq<Index>, n: nat)
    requires n <= |s| && forall p :: 0 <= p < n ==> !Fails(s[p])
    ensures Count(s, n, KOther) == 0
  {
    if n > 0 {
      NoOtherBefore(s, n - 1);
    }
  }

  lemma {:induction false} FindEllipsis(s: seq<Index>, n: nat) returns (e: nat)
    requires n <= |s| && Count(s, n, KEllipsis) >= 1
    ensures e < n && s[e].Ellipsis? && Count(s, e, KEllipsis) == 0
  {
    if Count(s, n - 1, KEllipsis) >= 1 {
      e := FindEllipsis(s, n - 1);
    } else {
      e := n - 1;
    }
  }

  /** Before any Ellipsis the sliced axes are 0, 1, 2, ...: a specifier addresses the dimension
      whose number is the count of dimension-addressing specifiers before it. */
  lemma {:induction false} LeadingAxes(s: seq<Index>, rank: nat, n: nat)
    requires n <= |s| && Count(s, n, KEllipsis) == 0 && Count(s, n, KOther) == 0
    ensures SlicedAxes(s, rank, n, false) == Range(0, Consumed(s, n))
  {
    if n > 0 {
      LeadingAxes(s, rank, n - 1);
    }
  }

  /** Every kind's count, and so the number of consumed dimensions, grows with the prefix. */
  lemma CountsMonotone(s: seq<Index>, a: nat, b: nat)
    requires a <= b <= |s|
    ensures Count(s, a, KSlice) <= Count(s, b, KSlice) && Count(s, a, KPoint) <= Count(s, b, KPoint)
    ensures Count(s, a, KOther) <= Count(s, b, KOther) && Count(s, a, KEllipsis) <= Count(s, b, KEllipsis)
    ensures Consumed(s, a) <= Consumed(s, b)
  {
    CountMonotone(s, KSlice, a, b);
    CountMonotone(s, KPoint, a, b);
    CountMonotone(s, KOther, a, b);
    CountMonotone(s, KEllipsis, a, b);
  }

  /** After the Ellipsis at position e, the specifiers address the LAST dimensions: the k-th sliced
      axis is k before the Ellipsis and rank - C + k after it, C being all consumed dimensions. */
  lemma {:induction false} TrailingAxes(s: seq<Index>, rank: nat, e: nat, n: nat)
    requires ValidIndexing(s, rank) && Count(s, |s|, KOther) == 0
    requires e < n <= |s| && s[e].Ellipsis?
    ensures Consumed(s, e) <= Consumed(s, n) <= Consumed(s, |s|)
    ensures var axes := SlicedAxes(s, rank, n, false);
      && |axes| == Consumed(s, n)
      && forall k :: 0 <= k < |axes| ==>
           axes[k] == if k < Consumed(s, e) then k else rank - Consumed(s, |s|) + k
    decreases n
  {
    CountsMonotone(s, n, |s|);
    if n == e + 1 {
      CountsMonotone(s, e, |s|);
      PrefixStep(s, e + 1);
      LeadingAxes(s, rank, e);
      assert SlicedAxes(s, rank, n, false) == SlicedAxes(s, rank, e, false);
    } else {
      TrailingAxes(s, rank, e, n - 1);
      CountsMonotone(s, e + 1, n - 1);
      PrefixStep(s, e + 1);
      PrefixStep(s, n);
    }
  }

  /** How the counts of the prefix of length n extend those of the prefix of length n - 1. */
  lemma PrefixStep(s: seq<Index>, n: nat)
    requires 0 < n <= |s|
    ensures Count(s, n, KEllipsis) == Count(s, n - 1, KEllipsis) + (if s[n - 1].Ellipsis? then 1 else 0)
    ensures Count(s, n, KOther) == Count(s, n - 1, KOther) + (if s[n - 1].Unsupported? then 1 else 0)
    ensures Consumed(s, n)
            == Consumed(s, n - 1) + (if Sliced(s[n - 1], false) || s[n - 1].Unsupported? then 1 else 0)
  {
  }

  /** Two sliced specifiers address dimensions in the same order as their positions. */
  lemma AxisOfIncreasing(s: seq<Index>, rank: nat, i: nat, j: nat)
    requires ValidIndexing(s, rank) && i < j < |s|
    requires Sliced(s[i], false) && Sliced(s[j], false)
    ensures AxisOf(s, rank, i) < AxisOf(s, rank, j)
  {
    CountMonotone(s, KEllipsis, i, j);
    CountMonotone(s, KSlice, i + 1, j);
    CountMonotone(s, KPoint, i + 1, j);
    CountMonotone(s, KOther, i + 1, j);
    CountMonotone(s, KSlice, j, |s|);
    CountMonotone(s, KPoint, j, |s|);
    CountMonotone(s, KOther, j, |s|);
  }

  lemma {:induction false} SlicedAxesBelow(s: seq<Index>, rank: nat, n: nat, pointsOnly: bool, j: nat)
    requires ValidIndexing(s, rank) && n <= j < |s| && Sliced(s[j], false)
    ensures forall x :: x in SlicedAxes(s, rank, n, pointsOnly) ==> x < AxisOf(s, rank, j)
  {
    if n > 0 {
      SlicedAxesBelow(s, rank, n - 1, pointsOnly, j);
      if Sliced(s[n - 1], pointsOnly) {
        AxisOfIncreasing(s, rank, n - 1, j);
      }
    }
  }

  lemma {:induction false} SlicedAxesIncreasing(s: seq<Index>, rank: nat, n: nat, pointsOnly: bool)
    requires ValidIndexing(s, rank) && n <= |s|
    ensures Increasing(SlicedAxes(s, rank, n, pointsOnly))
  {
    if n > 0 {
      SlicedAxesIncreasing(s, rank, n - 1, pointsOnly);
      if Sliced(s[n - 1], pointsOnly) {
        SlicedAxesBelow(s, rank, n - 1, pointsOnly, n - 1);
        AppendIncreasing(SlicedAxes(s, rank, n - 1, pointsOnly), AxisOf(s, rank, n - 1));
      }
    }
  }

  /** Every squeezed axis is one of the sliced axes (one that was cut to width one). */
  lemma {:induction false} SqueezeAxesAreSliced(s: seq<Index>, rank: nat, n: nat)
    requires n <= |s|
    ensures forall x :: x in SlicedAxes(s, rank, n, true) ==> x in SlicedAxes(s, rank, n, false)
  {
    if n > 0 {
      SqueezeAxesAreSliced(s, rank, n - 1);
    }
  }

  /** The Slice node's axes are distinct, increasing dimensions of `x`; without an Ellipsis they
      are exactly 0, 1, ..., |axes| - 1. The same holds of the squeeze list, and every squeezed axis
      is a sliced one. */
  lemma SliceAxesValid(s: seq<Index>, shape: seq<nat>)
    requires ValidIndexing(s, |shape|) && forall p :: 0 <= p < |s| ==> !Fails(s[p])
    ensures var r := Expected(s, shape);
            && Increasing(r.axes) && Increasing(r.squeezeAxes)
            && (forall k :: 0 <= k < |r.axes| ==> 0 <= r.axes[k] < |shape|)
            && (forall x :: x in r.squeezeAxes ==> x in r.axes)
            && (Count(s, |s|, KEllipsis) == 0 ==> r.axes == Range(0, |r.axes|))
  {
    var rank := |shape|;
    NoOtherBefore(s, |s|);
    SlicedAxesIncreasing(s, rank, |s|, false);
    SlicedAxesIncreasing(s, rank, |s|, true);
    SqueezeAxesAreSliced(s, rank, |s|);
    var axes := SlicedAxes(s, rank, |s|, false);
    if Count(s, |s|, KEllipsis) == 0 {
      LeadingAxes(s, rank, |s|);
    } else {
      var e := FindEllipsis(s, |s|);
      TrailingAxes(s, rank, e, |s|);
    }
  }

  lemma OutPosStep(s: seq<Index>, rank: nat, n: nat)
    requires ValidIndexing(s, rank) && n < |s|
    ensures OutPos(s, rank, n) <= OutPos(s, rank, n + 1)
    ensures s[n].NewAxis? ==> OutPos(s, rank, n) < OutPos(s, rank, n + 1)
  {
    EllipsisCountAt(s, rank, n + 1);
  }

  lemma {:induction false} NewAxesBelow(s: seq<Index>, rank: nat, n: nat)
    requires ValidIndexing(s, rank) && n <= |s|
    ensures Increasing(NewAxes(s, rank, n))
    ensures forall x :: x in NewAxes(s, rank, n) ==> 0 <= x < OutPos(s, rank, n)
  {
    if n > 0 {
      NewAxesBelow(s, rank, n - 1);
      OutPosStep(s, rank, n - 1);
      EllipsisCountAt(s, rank, n - 1);
      if s[n - 1].NewAxis? {
        AppendIncreasing(NewAxes(s, rank, n - 1), OutPos(s, rank, n - 1));
      }
    }
  }

  /** The unsqueeze axes are distinct, increasing dimensions of the result, whose rank is the rank
      of `x` minus the points plus the new axes. */
  lemma UnsqueezeAxesValid(s: seq<Index>, shape: seq<nat>)
    requires ValidIndexing(s, |shape|) && forall p :: 0 <= p < |s| ==> !Fails(s[p])
    ensures var u := Expected(s, shape).unsqueezeAxes;
            && Increasing(u)
            && forall k :: 0 <= k < |u| ==>
                 0 <= u[k] < |shape| - Count(s, |s|, KPoint) + Count(s, |s|, KNew)
  {
    NoOtherBefore(s, |s|);
    NewAxesBelow(s, |shape|, |s|);
    EllipsisCountAt(s, |shape|, |s|);
    var u := Expected(s, shape).unsqueezeAxes;
    assert forall k :: 0 <= k < |u| ==> u[k] in u;
  }

  /** `x[2, :, None, ...]` on a rank-4 array: the point and the slice address dimensions 0 and 1,
      the point is squeezed, and the new axis becomes dimension 1 of the result. */
  lemma ExampleLeadingPoint(s: seq<Index>, shape: seq<nat>)
    requires s == [IntIndex(2), Slice(None, None, None), NewAxis, Ellipsis] && |shape| == 4
    ensures Expected(s, shape) == Resolution([0, 1], [2, 0], [3, shape[1]], [0], [1])
  {
    assert Count(s, 1, KEllipsis) == 0 && Consumed(s, 1) == 1;
    assert Count(s, 2, KEllipsis) == 0 && Count(s, 2, KSlice) == 1 && Count(s, 2, KNew) == 0;
    StepSliced(s, shape, 0);
    StepSliced(s, shape, 1);
    StepNewAxis(s, shape, 2);
    StepEllipsis(s, shape, 3);
  }

  /** `x[1, ..., 3]` on a rank-5 array: the Ellipsis stands for three dimensions, and only the two
      points enter the Slice node, at dimensions 0 and 4. */
  lemma ExampleEllipsis(s: seq<Index>, shape: seq<nat>)
    requires s == [IntIndex(1), Ellipsis, IntIndex(3)] && |shape| == 5
    ensures Expected(s, shape) == Resolution([0, 4], [1, 3], [2, 4], [0, 4], [])
    ensures Skip(s, 5, 2) + 1 == 3
  {
    assert KindOf(s[0]) == KPoint && KindOf(s[1]) == KEllipsis && KindOf(s[2]) == KPoint;
    assert Consumed(s, 1) == 1;
    assert Count(s, 2, KEllipsis) == 1 && Consumed(s, 2) == 1;
    assert Consumed(s, 3) == 2;
    StepSliced(s, shape, 0);
    StepEllipsis(s, shape, 1);
    StepSliced(s, shape, 2);
  }

  // ---------------------------------------------------------------------------------------------
  // The converter

  /** A list of nodes in which the first reads the inputs and every later one reads exactly the
      outputs of the one before it has no forward references. */
  lemma LinearChain(inputNames: seq<string>, nodes: seq<Node>)
    requires |nodes| > 0 && nodes[0].inputs == inputNames
    requires forall k :: 0 < k < |nodes| ==> nodes[k].inputs == nodes[k - 1].outputs
    ensures NoForwardReferences(inputNames, nodes)
  {
    forall k, x | 0 <= k < |nodes| && x in nodes[k].inputs
      ensures x in inputNames || exists j :: 0 <= j < k && x in nodes[j].outputs
    {
      if k > 0 {
        assert x in nodes[k - 1].outputs;
      }
    }
  }

  function SliceAttrs(e: Resolution): Attributes {
    map["axes" := AInts(e.axes), "starts" := AInts(e.starts), "ends" := AInts(e.ends)]
  }

  /** A linear chain of operators: the k-th reads the previous one's output (the first reads
      `inputNames`) and writes the fresh name Gensym(base + k). */
  function Chain(inputNames: seq<string>, ops: seq<(string, Attributes)>, base: nat): (nodes: seq<Node>)
    ensures |nodes| == |ops|
  {
    seq(|ops|, k requires 0 <= k < |ops| =>
      Node(ops[k].0, if k == 0 then inputNames else [Gensym(base + k - 1)], [Gensym(base + k)], ops[k].1))
  }

  /** The last node's outputs replaced by the caller's names. */
  function Rebind(nodes: seq<Node>, outputNames: seq<string>): seq<Node>
    requires nodes != []
  {
    nodes[..|nodes| - 1] + [nodes[|nodes| - 1].(outputs := outputNames)]
  }

  /** Slice, then Squeeze when some axis is squeezed, then Unsqueeze when some axis is inserted. */
  function GetItemOps(e: Resolution): seq<(string, Attributes)> {
    [("Slice", SliceAttrs(e))]
      + (if |e.squeezeAxes| > 0 then [("Squeeze", map["axes" := AInts(e.squeezeAxes)])] else [])
      + (if |e.unsqueezeAxes| > 0 then [("Unsqueeze", map["axes" := AInts(e.unsqueezeAxes)])] else [])
  }

  /** The nodes `convert_GetItem` returns for the resolved lists `e`. */
  function GetItemNodes(e: Resolution, inputNames: seq<string>, outputNames: seq<string>, base: nat)
    : seq<Node>
  {
    Rebind(Chain(inputNames, GetItemOps(e), base), outputNames)
  }

  /** The GetItem chain: one Slice of the inputs with the resolved lists, a Squeeze fed by it exactly
      when some axis is squeezed, an Unsqueeze fed by the previous output exactly when some axis is
      inserted; fresh intermediate names, the last node bound to the caller's output names, and no
      node reading a later output. */
  lemma GetItemNodesShape(e: Resolution, inputNames: seq<string>, outputNames: seq<string>, base: nat)
    ensures var nodes := GetItemNodes(e, inputNames, outputNames, base);
      var squeeze, unsqueeze := |e.squeezeAxes| > 0, |e.unsqueezeAxes| > 0;
      && |nodes| == 1 + (if squeeze then 1 else 0) + (if unsqueeze then 1 else 0)
      && nodes[0].opType == "Slice" && nodes[0].inputs == inputNames && nodes[0].attrs == SliceAttrs(e)
      && (squeeze ==> nodes[1].opType == "Squeeze" && nodes[1].inputs == nodes[0].outputs
                      && nodes[1].attrs == map["axes" := AInts(e.squeezeAxes)])
      && (unsqueeze ==> nodes[|nodes| - 1].opType == "Unsqueeze"
                        && nodes[|nodes| - 1].inputs == nodes[|nodes| - 2].outputs
                        && nodes[|nodes| - 1].attrs == map["axes" := AInts(e.unsqueezeAxes)])
      && (forall k :: 0 <= k < |nodes| - 1 ==> nodes[k].outputs == [Gensym(base + k)])
      && nodes[|nodes| - 1].outputs == outputNames
      && NoForwardReferences(inputNames, nodes)
  {
    var ops := GetItemOps(e);
    var chain := Chain(inputNames, ops, base);
    var nodes := GetItemNodes(e, inputNames, outputNames, base);
    assert |nodes| == |ops|;
    forall k | 0 <= k < |nodes|
      ensures nodes[k].opType == ops[k].0 && nodes[k].attrs == ops[k].1
      ensures nodes[k].inputs == if k == 0 then inputNames else [Gensym(base + k - 1)]
      ensures k < |nodes| - 1 ==> nodes[k].outputs == [Gensym(base + k)]
    {
      assert nodes[k].inputs == chain[k].inputs;
    }
    LinearChain(inputNames, nodes);
  }

  /** The builder holds the chain of `ops` and `output` names the last node's output. */
  ghost predicate Built(gb: GraphBuilder, inputNames: seq<string>, ops: seq<(string, Attributes)>, base: nat,
                        output: string)
    reads gb
  {
    && ops != [] && gb.queue == Chain(inputNames, ops, base)
    && gb.next == base + |ops| && output == Gensym(base + |ops| - 1)
  }

  /** One more operator of the chain, fed by the previous output. */
  method AppendOp(gb: GraphBuilder, inputNames: seq<string>, ghost ops: seq<(string, Attributes)>, ghost base: nat,
                  output: string, op: (string, Attributes))
    returns (output': string)
    requires Built(gb, inputNames, ops, base, output)
    modifies gb
    ensures Built(gb, inputNames, ops + [op], base, output')
  {
    output' := gb.Op(op.0, [output], op.1);
    ChainSnoc(inputNames, ops, op, base);
  }

  /** The intermediate outputs of the GetItem chain are pairwise distinct: no later node writes a
      name an earlier node already produced. */
  lemma GetItemIntermediatesDistinct(e: Resolution, inputNames: seq<string>, outputNames: seq<string>,
                                     base: nat)
    ensures var nodes := GetItemNodes(e, inputNames, outputNames, base);
      forall j, k :: 0 <= j < k < |nodes| - 1 ==> nodes[j].outputs != nodes[k].outputs
  {
    GetItemNodesShape(e, inputNames, outputNames, base);
    var nodes := GetItemNodes(e, inputNames, outputNames, base);
    forall j, k | 0 <= j < k < |nodes| - 1
      ensures nodes[j].outputs != nodes[k].outputs
    {
      if nodes[j].outputs == nodes[k].outputs {
        assert Gensym(base + j) == nodes[j].outputs[0] == nodes[k].outputs[0] == Gensym(base + k);
        GensymInjective(base + j, base + k);
      }
    }
  }

  /** A fresh graph builder holding the first operator of the chain, applied to the inputs. */
  method StartChain(inputNames: seq<string>, op: (string, Attributes), base: nat)
    returns (gb: GraphBuilder, output: string)
    ensures fresh(gb) && Built(gb, inputNames, [op], base, output)
  {
    gb := new GraphBuilder(base);
    output := gb.Op(op.0, inputNames, op.1);
  }

  /** The built chain with its last output bound to the caller's names. */
  method FinishChain(gb: GraphBuilder, inputNames: seq<string>, ghost ops: seq<(string, Attributes)>,
                     ghost base: nat, ghost output: string, outputNames: seq<string>)
    returns (nodes: seq<Node>)
    requires Built(gb, inputNames, ops, base, output) && |outputNames| == 1
    modifies gb
    ensures nodes == Rebind(Chain(inputNames, ops, base), outputNames)
  {
    ghost var chain := gb.queue;
    assert chain[|chain| - 1].outputs == [output];
    nodes := gb.NodesNamed(outputNames);
    assert nodes == Rebind(chain, outputNames);
  }

  /** Lines 121-133: the chain built through a graph builder for resolved lists `e`. */
  method BuildGetItemNodes(e: Resolution, inputNames: seq<string>, outputNames: seq<string>, base: nat)
    returns (nodes: seq<Node>)
    requires |outputNames| == 1
    ensures nodes == GetItemNodes(e, inputNames, outputNames, base)
  {
    ghost var ops := [("Slice", SliceAttrs(e))];
    var gb, output := StartChain(inputNames, ("Slice", SliceAttrs(e)), base);
    if |e.squeezeAxes| > 0 {
      var op := ("Squeeze", map["axes" := AInts(e.squeezeAxes)]);
      output := AppendOp(gb, inputNames, ops, base, output, op);
      ops := ops + [op];
    }
    if |e.unsqueezeAxes| > 0 {
      var op := ("Unsqueeze", map["axes" := AInts(e.unsqueezeAxes)]);
      output := AppendOp(gb, inputNames, ops, base, output, op);
      ops := ops + [op];
    }
    assert ops == GetItemOps(e);
    nodes := FinishChain(gb, inputNames, ops, base, output, outputNames);
  }

  /** Extending a chain by one operator appends one node reading the previous last output. */
  lemma ChainSnoc(inputNames: seq<string>, ops: seq<(string, Attributes)>, op: (string, Attributes), base: nat)
    requires ops != []
    ensures Chain(inputNames, ops + [op], base)
            == Chain(inputNames, ops, base) + [Node(op.0, [Gensym(base + |ops| - 1)], [Gensym(base + |ops|)], op.1)]
  {
    var lhs := Chain(inputNames, ops + [op], base);
    var rhs := Chain(inputNames, ops, base) + [Node(op.0, [Gensym(base + |ops| - 1)], [Gensym(base + |ops|)], op.1)];
    forall k | 0 <= k < |lhs|
      ensures lhs[k] == rhs[k]
    {
      if k < |ops| {
        assert (ops + [op])[k] == ops[k];
      }
    }
  }

  /** `convert_GetItem`: rejects before building any node, or builds the GetItem chain through a
      graph builder. */
  method ConvertGetItem(slices: seq<Index>, shape: seq<nat>, inputNames: seq<string>,
                        outputNames: seq<string>, base: nat) returns (r: Result<seq<Node>>)
    requires ValidIndexing(slices, |shape|)
    requires |outputNames| == 1
    ensures r.Ok? <==> forall p :: 0 <= p < |slices| ==> !Fails(slices[p])
    ensures r.Err? ==> exists p :: FirstFailureAt(slices, p) && r.error == ErrorOf(slices[p])
    ensures r.Ok? ==> r.value == GetItemNodes(Expected(slices, shape), inputNames, outputNames, base)
  {
    var resolved := Resolve(slices, shape);
    if resolved.Err? {
      return Err(resolved.error);
    }
    var nodes := BuildGetItemNodes(resolved.value, inputNames, outputNames, base);
    r := Ok(nodes);
  }
}
