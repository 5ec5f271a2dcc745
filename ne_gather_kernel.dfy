/** NEGatherKernel: argument validation, configuration (axis normalisation,
    routine selection, output auto-initialisation, the execution window) and
    the three routines that run over a window of the output. Assertion-style
    errors (ERROR_ON, ERROR, ERROR_THROW_ON) are explicit abort outcomes. */
module NEGatherKernel {
  import opened Shapes
  import opened Windows
  import opened TensorInfos
  import opened GatherAddressing

  datatype Option<T> = None | Some(value: T)

  // ---------------------------------------------------------------------
  // validate_arguments / validate

  /** Why validate_arguments rejects its arguments, one case per check. */
  datatype ErrorReason =
    | NullPointer
    | TooManyDimensions
    | AxisOutOfRange
    | MultiIndexAxisNot1
    | UnknownDataType
    | MismatchingDataTypes
    | MismatchingQuantization
    | MismatchingElementCount
    | IndicesDataTypeNotSupported

  datatype Status = Ok | Error(reason: ErrorReason)

  /** The greatest input rank the kernel accepts. */
  const MaxInputRank := 4

  /** A negative axis counts back from the last dimension. */
  function NormalizeAxis(axis: int, rank: nat): (a: int)
    ensures 0 <= a < rank <==> -(rank as int) <= axis < rank
    ensures 0 <= axis < rank ==> a == axis
    ensures axis < 0 ==> a == axis + rank as int
  {
    if axis < 0 then axis + rank else axis
  }

  /** U32 and S32 are the index data types the kernel accepts. */
  predicate IsIndexDataType(dt: DataType)
  {
    dt == U32 || dt == S32
  }

  /** Every condition validate_arguments checks, stated without their order. */
  predicate Acceptable(input: TensorInfo, indices: TensorInfo, output: TensorInfo, axis: int)
  {
    var rank := input.NumDimensions();
    var a := NormalizeAxis(axis, rank);
    rank <= MaxInputRank
    && 0 <= a < rank
    && (a != 1 ==> indices.NumDimensions() <= 1)
    && input.dataType != Unknown
    && (output.TotalSize() != 0 ==>
          output.dataType == input.dataType
          && output.quantization == input.quantization
          && ElementCount(ComputeGatherShape(input.shape, indices.shape, a)) == ElementCount(output.shape))
    && IsIndexDataType(indices.dataType)
  }

  /** validate_arguments: the checks run in order and the first that fails
      gives the error. A missing descriptor is None. */
  function Validate(input: Option<TensorInfo>, indices: Option<TensorInfo>, output: Option<TensorInfo>, axis: int): (s: Status)
    ensures s == Ok <==> input.Some? && indices.Some? && output.Some?
                         && Acceptable(input.value, indices.value, output.value, axis)
    ensures s == Error(NullPointer) <==> input.None? || indices.None? || output.None?
    ensures input.Some? && input.value.NumDimensions() > MaxInputRank ==> s.Error?
    ensures input.Some? && input.value.dataType == Unknown ==> s.Error?
    ensures indices.Some? && !IsIndexDataType(indices.value.dataType) ==> s.Error?
  {
    if input.None? || indices.None? || output.None? then Error(NullPointer)
    else
      var inf, idx, out := input.value, indices.value, output.value;
      var rank := inf.NumDimensions();
      var a := NormalizeAxis(axis, rank);
      if rank > MaxInputRank then Error(TooManyDimensions)
      else if a < 0 || a >= rank then Error(AxisOutOfRange)
      else if a != 1 && idx.NumDimensions() > 1 then Error(MultiIndexAxisNot1)
      else if inf.dataType == Unknown then Error(UnknownDataType)
      else if out.TotalSize() != 0 && out.dataType != inf.dataType then Error(MismatchingDataTypes)
      else if out.TotalSize() != 0 && out.quantization != inf.quantization then Error(MismatchingQuantization)
      else if out.TotalSize() != 0
              && ElementCount(ComputeGatherShape(inf.shape, idx.shape, a)) != ElementCount(out.shape)
      then Error(MismatchingElementCount)
      else if !IsIndexDataType(idx.dataType) then Error(IndicesDataTypeNotSupported)
      else Ok
  }

  /** An output that is still empty takes no part in validation: two empty
      outputs give the same status, whatever their type, quantization or shape. */
  lemma EmptyOutputSkipsChecks(input: TensorInfo, indices: TensorInfo, out1: TensorInfo, out2: TensorInfo, axis: int)
    requires out1.TotalSize() == 0 && out2.TotalSize() == 0
    ensures Validate(Some(input), Some(indices), Some(out1), axis) == Validate(Some(input), Some(indices), Some(out2), axis)
  {
  }

  /** With an output already set, validation also fixes its data type,
      quantization and element count. */
  lemma ValidateChecksOutput(input: TensorInfo, indices: TensorInfo, output: TensorInfo, axis: int)
    requires output.TotalSize() != 0
    requires Validate(Some(input), Some(indices), Some(output), axis) == Ok
    ensures output.dataType == input.dataType && output.quantization == input.quantization
    ensures 0 <= NormalizeAxis(axis, |input.shape|) < |input.shape|
    ensures ElementCount(output.shape)
         == ElementCount(ComputeGatherShape(input.shape, indices.shape, NormalizeAxis(axis, |input.shape|)))
  {
  }

  /** The output descriptor configure auto-initialises still validates; an
      output that was empty, or that validation compared, now has the input's
      data type and quantization and the gather shape's element count. */
  lemma AutoInitStaysValid(input: TensorInfo, indices: TensorInfo, output: TensorInfo, axis: int, a: nat)
    requires Validate(Some(input), Some(indices), Some(output), axis) == Ok
    requires a == NormalizeAxis(axis, |input.shape|) && a < |input.shape|
    ensures var r := AutoInitIfEmpty(output, input.(shape := ComputeGatherShape(input.shape, indices.shape, a)));
      Validate(Some(input), Some(indices), Some(r), axis) == Ok
      && (ElementCount(output.shape) == 0 || output.TotalSize() != 0 ==>
            r.dataType == input.dataType && r.quantization == input.quantization
            && ElementCount(r.shape) == ElementCount(ComputeGatherShape(input.shape, indices.shape, a)))
  {
  }

  // ---------------------------------------------------------------------
  // Routine selection (configure)

  /** The template argument U of the routines. */
  datatype IndexType = U32Index | S32Index

  /** The routine configure stores in _func. */
  datatype Routine =
    | Gather0Axis(u: IndexType)
    | GatherNAxis(u: IndexType)
    | GatherMultiIndices1Axis(u: IndexType)

  function IndexTypeOf(dt: DataType): (u: Option<IndexType>)
    ensures u.Some? <==> IsIndexDataType(dt)
    ensures u == Some(U32Index) <==> dt == U32
  {
    match dt
    case U32 => Some(U32Index)
    case S32 => Some(S32Index)
    case _ => None
  }

  /** The switch of configure; None is its "Not supported" error. */
  function SelectRoutine(indexRank: nat, axis: int, dt: DataType): (r: Option<Routine>)
    ensures r.Some? <==> (indexRank == 1 || axis == 1) && IsIndexDataType(dt)
    ensures r.Some? ==> Some(r.value.u) == IndexTypeOf(dt)
    ensures r.Some? ==> (r.value.Gather0Axis? <==> indexRank == 1 && axis == 0)
    ensures r.Some? ==> (r.value.GatherNAxis? <==> indexRank == 1 && axis != 0)
    ensures r.Some? ==> (r.value.GatherMultiIndices1Axis? <==> indexRank != 1)
  {
    var u := IndexTypeOf(dt);
    if indexRank == 1 then
      if axis == 0 then
        if u.Some? then Some(Gather0Axis(u.value)) else None
      else
        if u.Some? then Some(GatherNAxis(u.value)) else None
    else if axis == 1 then
      if u.Some? then Some(GatherMultiIndices1Axis(u.value)) else None
    else None
  }

  /** Once validation passes, configure finds a routine for every index
      tensor of rank at least 1; only an index tensor without dimensions on
      an axis other than 1 reaches its "Not supported" error. The range
      check on the normalised axis can no longer fail. */
  lemma ValidatedArgumentsSelectRoutine(input: TensorInfo, indices: TensorInfo, output: TensorInfo, axis: int)
    requires Validate(Some(input), Some(indices), Some(output), axis) == Ok
    ensures 0 <= NormalizeAxis(axis, |input.shape|) < |input.shape|
    ensures SelectRoutine(|indices.shape|, NormalizeAxis(axis, |input.shape|), indices.dataType).None?
        <==> |indices.shape| == 0 && NormalizeAxis(axis, |input.shape|) != 1
  {
  }

  // ---------------------------------------------------------------------
  // Index words

  /** validate_indices reads every index as int32_t and aborts on a
      negative one, whatever U is. */
  predicate NonNegative(words: seq<Word>)
  {
    forall i :: 0 <= i < |words| ==> AsInt32(words[i]) >= 0
  }

  /** A U32 index word passes validate_indices only below 2^31. */
  lemma NonNegativeBelowHalf(words: seq<Word>)
    ensures NonNegative(words) <==> forall i :: 0 <= i < |words| ==> words[i] < 0x8000_0000
  {
  }

  /** validate_indices over the whole index tensor, in flat order. */
  method ValidateIndices(words: seq<Word>) returns (ok: bool)
    ensures ok <==> NonNegative(words)
  {
    var i := 0;
    while i < |words|
      invariant i <= |words|
      invariant NonNegative(words[..i])
    {
      if AsInt32(words[i]) < 0 {
        return false;
      }
      i := i + 1;
    }
    assert words[..i] == words;
    return true;
  }

  /** An index word read through U. */
  function ReadIndex(u: IndexType, w: Word): (v: int)
    ensures u == U32Index ==> v == w
    ensures AsInt32(w) >= 0 ==> v == w
    ensures u == S32Index ==> v % 0x1_0000_0000 == w
  {
    match u
    case U32Index => w
    case S32Index => AsInt32(w)
  }

  /** The library does not check indices against the gathered extent; the
      routines need every index that passes validate_indices to be in range. */
  predicate IndicesUsable(words: seq<Word>, extent: nat)
  {
    NonNegative(words) ==> IndicesBelow(words, extent)
  }

  // ---------------------------------------------------------------------
  // Tensors and the kernel

  /** An ITensor: its descriptor and its dense buffer. */
  class Tensor<T> {
    var info: TensorInfo
    var buffer: array<T>

    constructor (info: TensorInfo, buffer: array<T>)
      ensures this.info == info && this.buffer == buffer
    {
      this.info := info;
      this.buffer := buffer;
    }
  }

  datatype ConfigureOutcome =
    | Configured
    | NullArgument                  // ERROR_ON_NULLPTR
    | Rejected(reason: ErrorReason) // ERROR_THROW_ON(validate_arguments)
    | NotSupported                  // ERROR("Not supported")

  datatype AbortReason =
    | Unconfigured                  // ERROR_ON_UNCONFIGURED_KERNEL
    | IndexRankNotSupported         // index rank outside 2..3 in the multi-index routine
    | NegativeIndex                 // validate_indices

  datatype RunOutcome = Done | Aborted(why: AbortReason)

  class GatherKernel<T> {
    var input: Tensor?<T>
    var indices: Tensor?<Word>
    var output: Tensor?<T>
    var axis: int
    var func: Option<Routine>
    /** The window INEKernel::configure stores; None until configure succeeds. */
    var window: Option<Window>

    constructor ()
      ensures input == null && indices == null && output == null
      ensures axis == 0 && func == None && window == None
    {
      input, indices, output := null, null, null;
      axis := 0;
      func := None;
      window := None;
    }

    /** What a successful configure leaves behind. */
    ghost predicate Valid()
      reads this, input, indices, output
    {
      window.Some? ==>
        input != null && indices != null && output != null
        && 0 <= axis < |input.info.shape|
        && func.Some? && func == SelectRoutine(|indices.info.shape|, axis, indices.info.dataType)
        && window.value == Full(output.info.shape)
    }

    method Configure(input: Tensor?<T>, indices: Tensor?<Word>, output: Tensor?<T>, axis: int) returns (r: ConfigureOutcome)
      requires output != null ==> output != input && output as object? != indices as object?
      modifies this, output
      ensures r == NullArgument <==> input == null || indices == null || output == null
      ensures r.Rejected? <==> (input != null && indices != null && output != null
        && Validate(Some(input.info), Some(indices.info), Some(old(output.info)), axis).Error?)
      ensures r.Rejected? ==> Validate(Some(input.info), Some(indices.info), Some(old(output.info)), axis) == Error(r.reason)
      ensures r.NullArgument? || r.Rejected? ==> unchanged(this) && (output != null ==> unchanged(output))
      ensures r.NotSupported? || r.Configured? ==>
        input != null && indices != null && output != null
        && this.input == input && this.indices == indices && this.output == output
        && this.axis == NormalizeAxis(axis, |input.info.shape|) && 0 <= this.axis < |input.info.shape|
      ensures r.NotSupported? <==> (input != null && indices != null && output != null
        && Validate(Some(input.info), Some(indices.info), Some(old(output.info)), axis) == Ok
        && SelectRoutine(|indices.info.shape|, NormalizeAxis(axis, |input.info.shape|), indices.info.dataType).None?)
      ensures output != null ==> output.buffer == old(output.buffer)
      ensures r.NotSupported? ==> func == old(func) && window == old(window) && unchanged(output)
      ensures r.NotSupported? ==> (Valid() <==> window.None?)
      ensures r.Configured? ==>
        func == SelectRoutine(|indices.info.shape|, this.axis, indices.info.dataType)
        && output.info == AutoInitIfEmpty(old(output.info),
             input.info.(shape := ComputeGatherShape(input.info.shape, indices.info.shape, this.axis)))
        && window == Some(Full(output.info.shape))
        && Valid()
        && Validate(Some(input.info), Some(indices.info), Some(output.info), axis) == Ok
    {
      if input == null || indices == null || output == null {
        return NullArgument;
      }
      var status := Validate(Some(input.info), Some(indices.info), Some(output.info), axis);
      if status.Error? {
        return Rejected(status.reason);
      }
      ValidatedArgumentsSelectRoutine(input.info, indices.info, output.info, axis);
      this.input, this.indices, this.output, this.axis := input, indices, output, axis;
      this.axis := NormalizeAxis(this.axis, |input.info.shape|);
      var f := SelectRoutine(|indices.info.shape|, this.axis, indices.info.dataType);
      if f.None? {
        return NotSupported;
      }
      func := f;
      var shape := ComputeGatherShape(input.info.shape, indices.info.shape, this.axis);
      AutoInitStaysValid(input.info, indices.info, output.info, axis, this.axis);
      output.info := AutoInitIfEmpty(output.info, input.info.(shape := shape));
      window := Some(Full(output.info.shape));
      return Configured;
    }

    /** What run needs besides a configured kernel: allocated dense buffers,
        an output of the gather shape, distinct buffers and a window inside
        the output. */
    ghost predicate Ready(w: Window)
      reads this, input, indices, output
    {
      Valid() && window.Some?
      && input.buffer.Length == Size(input.info.shape)
      && indices.buffer.Length == ElementCount(indices.info.shape)
      && output.info.shape == ComputeGatherShape(input.info.shape, indices.info.shape, axis)
      && output.buffer.Length == Size(output.info.shape)
      && output.buffer != input.buffer
      && output.buffer as object != indices.buffer as object
      && WithinShape(w, output.info.shape)
    }

    /** The input as a dense tensor value. */
    function Source(): (src: DenseTensor<T>)
      reads this, input, input.buffer
      requires input != null
      ensures src.shape == input.info.shape
    {
      DenseTensor(input.info.shape, input.buffer[..])
    }

    /** The index tensor as a dense tensor value. */
    function IndexTensor(): (t: DenseTensor<Word>)
      reads this, indices, indices.buffer
      requires indices != null
      ensures t.shape == indices.info.shape
    {
      DenseTensor(indices.info.shape, indices.buffer[..])
    }

    /** run: the routine configure selected, over the window `w`. */
    method Run(w: Window) returns (r: RunOutcome)
      requires Valid()
      requires window.Some? ==> Ready(w) && IndicesUsable(indices.buffer[..], input.info.shape[axis])
      modifies if window.Some? && output != null then {output.buffer} else {}
      ensures r == Aborted(Unconfigured) <==> window.None?
      ensures r.Done? <==> window.Some? && NonNegative(indices.buffer[..])
                           && (func.value.GatherMultiIndices1Axis? ==> 2 <= |indices.info.shape| <= 3)
      ensures r.Aborted? && window.Some? ==> output.buffer[..] == old(output.buffer[..])
      ensures window.Some? ==>
        (r == Aborted(NegativeIndex) <==> !NonNegative(indices.buffer[..])
                                          && (func.value.GatherMultiIndices1Axis? ==> 2 <= |indices.info.shape| <= 3))
      ensures window.Some? && func.value.GatherMultiIndices1Axis? ==>
        (r == Aborted(IndexRankNotSupported) <==> |indices.info.shape| < 2 || |indices.info.shape| > 3)
      ensures r.Done? && func.value.Gather0Axis? ==>
        Rank1Ready(Source(), indices.buffer[..], 0)
        && output.info.shape == Rank1Shape(input.info.shape, indices.buffer.Length, 0)
        && output.buffer[..] == Over(output.info.shape, w, old(output.buffer[..]), Axis0Data(Source(), indices.buffer[..]))
      ensures r.Done? && func.value.GatherNAxis? ==>
        Rank1Ready(Source(), indices.buffer[..], axis) && axis >= 1
        && output.info.shape == Rank1Shape(input.info.shape, indices.buffer.Length, axis)
        && output.buffer[..] == RowsOver(output.info.shape, w, old(output.buffer[..]), AxisNData(Source(), indices.buffer[..], axis))
      ensures r.Done? && func.value.GatherMultiIndices1Axis? ==>
        MultiReady(Source(), IndexTensor())
        && output.buffer[..] == RowsOver(output.info.shape, w, old(output.buffer[..]), MultiData(Source(), IndexTensor()))
      ensures r.Done? && w == Full(output.info.shape) && func.value.GatherMultiIndices1Axis? ==>
        output.buffer[..] == MultiData(Source(), IndexTensor())
      ensures r.Done? && w == Full(output.info.shape) && !func.value.GatherMultiIndices1Axis? ==>
        Rank1Ready(Source(), indices.buffer[..], axis)
        && output.buffer[..] == Rank1Data(Source(), indices.buffer[..], axis)
    {
      if window.None? {
        return Aborted(Unconfigured);
      }
      match func.value
      case Gather0Axis(u) =>
        r := Gather0(w, u);
      case GatherNAxis(u) =>
        r := GatherN(w, u);
      case GatherMultiIndices1Axis(u) =>
        r := GatherMultiIndices(w, u);
    }

    /** gather_0_axis: output[id] = input[id with component 0 := indices[id[0]]]
        for every coordinate of the window. */
    method Gather0(w: Window, u: IndexType) returns (r: RunOutcome)
      requires Ready(w) && func == Some(Gather0Axis(u))
      requires IndicesUsable(indices.buffer[..], input.info.shape[axis])
      modifies output.buffer
      ensures r == Done || r == Aborted(NegativeIndex)
      ensures r.Done? <==> NonNegative(indices.buffer[..])
      ensures r.Aborted? ==> output.buffer[..] == old(output.buffer[..])
      ensures r.Done? ==>
        Rank1Ready(Source(), indices.buffer[..], 0)
        && output.info.shape == Rank1Shape(input.info.shape, indices.buffer.Length, 0)
        && output.buffer[..] == Over(output.info.shape, w, old(output.buffer[..]), Axis0Data(Source(), indices.buffer[..]))
      ensures r.Done? && w == Full(output.info.shape) ==>
        output.buffer[..] == Rank1Data(Source(), indices.buffer[..], 0)
    {
      var ok := ValidateIndices(indices.buffer[..]);
      if !ok {
        return Aborted(NegativeIndex);
      }
      var src, idx := Source(), indices.buffer[..];
      Rank1Indices(IndexTensor());
      var s, out := output.info.shape, output.buffer;
      ghost var before := out[..];
      ghost var want := Axis0Data(src, idx);
      var k := 0;
      while k < Count(w)
        invariant k <= Count(w)
        invariant out[..] == Written(s, w, k, before, want)
      {
        var id := At(w, k);
        WrittenStep(s, w, k, before, want);
        Axis0At(src, idx, id);
        var newIndex := ReadIndex(u, idx[id[0]]);
        var gatherId := id[0 := newIndex];
        out[Offset(s, id)] := src.data[Offset(src.shape, gatherId)];
        k := k + 1;
      }
      WrittenAll(s, w, before, want);
      if w == Full(s) {
        OverFull(s, before, want);
      }
      Axis0DataIsRank1Data(src, idx);
      return Done;
    }

    /** gather_n_axis: dimension 0 collapsed, every output row the window
        reaches receives input.dimension(0) contiguous elements of the input
        at the row with component axis := indices[id[axis]]. */
    method GatherN(w: Window, u: IndexType) returns (r: RunOutcome)
      requires Ready(w) && func == Some(GatherNAxis(u))
      requires IndicesUsable(indices.buffer[..], input.info.shape[axis])
      modifies output.buffer
      ensures r == Done || r == Aborted(NegativeIndex)
      ensures r.Done? <==> NonNegative(indices.buffer[..])
      ensures r.Aborted? ==> output.buffer[..] == old(output.buffer[..])
      ensures r.Done? ==>
        Rank1Ready(Source(), indices.buffer[..], axis) && axis >= 1
        && output.info.shape == Rank1Shape(input.info.shape, indices.buffer.Length, axis)
        && output.buffer[..] == RowsOver(output.info.shape, w, old(output.buffer[..]), AxisNData(Source(), indices.buffer[..], axis))
      ensures r.Done? && w == Full(output.info.shape) ==>
        output.buffer[..] == Rank1Data(Source(), indices.buffer[..], axis)
    {
      var ok := ValidateIndices(indices.buffer[..]);
      if !ok {
        return Aborted(NegativeIndex);
      }
      var src, idx, a := Source(), indices.buffer[..], axis as nat;
      Rank1Indices(IndexTensor());
      var s, out := output.info.shape, output.buffer;
      ghost var before := out[..];
      var win := CollapseX(w);
      var k := 0;
      while k < Count(win)
        invariant k <= Count(win)
        invariant out[..] == RowsWritten(s, w, k, before, AxisNData(src, idx, a))
      {
        GatherNRow(out, src, idx, u, a, w, k, before);
        k := k + 1;
      }
      RowsWrittenAll(s, w, before, AxisNData(src, idx, a));
      if w == Full(s) {
        OverFull(s, before, AxisNData(src, idx, a));
      }
      AxisNDataIsRank1Data(src, idx, a);
      return Done;
    }

    /** gather_multiindices_1_axis: the index rank check, validate_indices,
        then the row loop the reference also runs. */
    method GatherMultiIndices(w: Window, u: IndexType) returns (r: RunOutcome)
      requires Ready(w) && func == Some(GatherMultiIndices1Axis(u))
      requires IndicesUsable(indices.buffer[..], input.info.shape[axis])
      modifies output.buffer
      ensures r == Done || r == Aborted(IndexRankNotSupported) || r == Aborted(NegativeIndex)
      ensures r.Done? <==> 2 <= |indices.info.shape| <= 3 && NonNegative(indices.buffer[..])
      ensures r == Aborted(IndexRankNotSupported) <==> |indices.info.shape| < 2 || |indices.info.shape| > 3
      ensures r == Aborted(NegativeIndex) <==> 2 <= |indices.info.shape| <= 3 && !NonNegative(indices.buffer[..])
      ensures r.Aborted? ==> output.buffer[..] == old(output.buffer[..])
      ensures r.Done? ==>
        MultiReady(Source(), IndexTensor())
        && output.buffer[..] == RowsOver(output.info.shape, w, old(output.buffer[..]), MultiData(Source(), IndexTensor()))
      ensures r.Done? && w == Full(output.info.shape) ==>
        output.buffer[..] == MultiData(Source(), IndexTensor())
        && output.buffer[..] == Rank1Data(Source(), indices.buffer[..], 1)
    {
      if |indices.info.shape| < 2 || |indices.info.shape| > 3 {
        return Aborted(IndexRankNotSupported);
      }
      var ok := ValidateIndices(indices.buffer[..]);
      if !ok {
        return Aborted(NegativeIndex);
      }
      var src, idx := Source(), IndexTensor();
      var s, out := output.info.shape, output.buffer;
      ghost var before := out[..];
      var win := CollapseX(w);
      var k := 0;
      while k < Count(win)
        invariant k <= Count(win)
        invariant out[..] == RowsWritten(s, w, k, before, MultiData(src, idx))
      {
        GatherRow(out, src, idx, w, k, before);
        k := k + 1;
      }
      RowsWrittenAll(s, w, before, MultiData(src, idx));
      if w == Full(s) {
        OverFull(s, before, MultiData(src, idx));
      }
      MultiDataIsRank1Data(src, idx);
      return Done;
    }
  }

  /** The index read through U, gather_id, and the output and input
      offsets for row step `k` of the gather_n_axis loop: where the output row
      starts, where the input row it receives starts, and that the two rows
      agree with AxisNData. */
  method AxisNRowOffsets<T>(src: DenseTensor<T>, idx: seq<Word>, u: IndexType, axis: nat, w: Window, k: nat)
    returns (base: nat, from: nat)
    requires Rank1Ready(src, idx, axis) && axis >= 1 && NonNegative(idx)
    requires WithinShape(w, Rank1Shape(src.shape, |idx|, axis)) && k < Count(CollapseX(w))
    ensures base == Offset(Rank1Shape(src.shape, |idx|, axis), At(CollapseX(w), k))
    ensures from == Offset(src.shape, RowSource(At(CollapseX(w), k), axis, idx))
    ensures base + src.shape[0] <= Size(Rank1Shape(src.shape, |idx|, axis)) && from + src.shape[0] <= |src.data|
    ensures forall p :: base <= p < base + src.shape[0] ==> AxisNData(src, idx, axis)[p] == src.data[from + (p - base)]
  {
    var id := At(CollapseX(w), k);
    AxisNStepIn(src, idx, axis, w, k);
    var newIndex := ReadIndex(u, idx[id[axis]]);
    var gatherId := id[axis := newIndex];
    assert gatherId == RowSource(id, axis, idx);
    base, from := Offset(Rank1Shape(src.shape, |idx|, axis), id), Offset(src.shape, gatherId);
    AxisNRowMatches(src, idx, axis, id, base, from);
  }

  /** One step of the gather_n_axis row loop over CollapseX(w): the offsets,
      then the copy of one input row. */
  method GatherNRow<T>(dst: array<T>, src: DenseTensor<T>, idx: seq<Word>, u: IndexType, axis: nat,
                       w: Window, k: nat, ghost before: seq<T>)
    requires Rank1Ready(src, idx, axis) && axis >= 1 && NonNegative(idx)
    requires dst.Length == Size(Rank1Shape(src.shape, |idx|, axis))
    requires WithinShape(w, Rank1Shape(src.shape, |idx|, axis)) && k < Count(CollapseX(w))
    requires |before| == dst.Length
    requires dst[..] == RowsWritten(Rank1Shape(src.shape, |idx|, axis), w, k, before, AxisNData(src, idx, axis))
    modifies dst
    ensures dst[..] == RowsWritten(Rank1Shape(src.shape, |idx|, axis), w, k + 1, before, AxisNData(src, idx, axis))
  {
    var base, from := AxisNRowOffsets(src, idx, u, axis, w, k);
    ghost var s := Rank1Shape(src.shape, |idx|, axis);
    assert s[0] == src.shape[0];
    CopyRowStep(dst, s, w, k, before, AxisNData(src, idx, axis), src.data, base, from, src.shape[0]);
  }
}
