/** The reference gather that the kernel is validated against. It allocates
    the result and fills it with a window loop over the result shape: one
    element per coordinate for a rank-1 index list on any axis, one input row
    per result row for an index tensor of higher rank on axis 1. */
module ReferenceGather {
  import opened Shapes
  import opened Windows
  import opened TensorInfos
  import opened GatherAddressing

  /** The result, or the "Not implemented" error raised for an index tensor
      of rank other than 1 on an axis other than 1. */
  datatype Outcome<T> = Gathered(dst: DenseTensor<T>) | NotImplemented

  /** gather: the result has the gather shape and, position by position, the
      element the addressing rule of its branch selects. */
  method Gather<T(0)>(src: DenseTensor<T>, indices: DenseTensor<Word>, axis: nat) returns (out: Outcome<T>)
    requires src.WellFormed() && axis < |src.shape| && |indices.data| == Size(indices.shape)
    requires |indices.shape| == 0 ==> axis != 1
    requires |indices.shape| == 1 || axis == 1 ==> IndicesBelow(indices.data, src.shape[axis])
    ensures out.NotImplemented? <==> |indices.shape| != 1 && axis != 1
    ensures out.Gathered? ==> out.dst.shape == ComputeGatherShape(src.shape, indices.shape, axis)
    ensures out.Gathered? && |indices.shape| == 1 ==>
              Rank1Ready(src, indices.data, axis) && out.dst.data == Rank1Data(src, indices.data, axis)
    ensures out.Gathered? && |indices.shape| != 1 ==>
              MultiReady(src, indices) && out.dst.data == MultiData(src, indices)
  {
    var shape := ComputeGatherShape(src.shape, indices.shape, axis);
    var dst := new T[Size(shape)];
    if |indices.shape| == 1 {
      Rank1Indices(indices);
      GatherElements(dst, src, indices.data, axis);
      out := Gathered(DenseTensor(shape, dst[..]));
    } else if axis == 1 {
      GatherRows(dst, src, indices);
      out := Gathered(DenseTensor(shape, dst[..]));
    } else {
      out := NotImplemented;
    }
  }

  /** The rank-1 branch: every result coordinate receives the source element
      at ElementSource. */
  method GatherElements<T>(dst: array<T>, src: DenseTensor<T>, idx: seq<nat>, axis: nat)
    requires Rank1Ready(src, idx, axis)
    requires dst.Length == Size(Rank1Shape(src.shape, |idx|, axis))
    modifies dst
    ensures dst[..] == Rank1Data(src, idx, axis)
  {
    var shape := Rank1Shape(src.shape, |idx|, axis);
    var win := Full(shape);
    ghost var before := dst[..];
    ghost var want := Rank1Data(src, idx, axis);
    var k := 0;
    while k < Count(win)
      invariant k <= Count(win)
      invariant dst[..] == Written(shape, win, k, before, want)
    {
      var id := At(win, k);
      WrittenStep(shape, win, k, before, want);
      ElementAt(src, idx, axis, id);
      var offset := BuildOffset(id, axis, idx);
      dst[Offset(shape, id)] := src.data[Offset(src.shape, offset)];
      k := k + 1;
    }
    WrittenAll(shape, win, before, want);
    OverFull(shape, before, want);
  }

  /** offset: the result coordinate with component `axis` replaced by the
      index it selects. */
  method BuildOffset(id: Coordinates, axis: nat, idx: seq<nat>) returns (offset: Coordinates)
    requires axis < |id| && id[axis] < |idx|
    ensures offset == ElementSource(id, axis, idx)
  {
    offset := [];
    for dim := 0 to |id|
      invariant offset == ElementSource(id, axis, idx)[..dim]
    {
      if dim == axis {
        offset := offset + [idx[id[dim]]];
      } else {
        offset := offset + [id[dim]];
      }
    }
  }

  /** The multi-index branch on axis 1: dimension 0 collapsed, every result
      row is one copy of the input row at MultiRowSource. */
  method GatherRows<T>(dst: array<T>, src: DenseTensor<T>, indices: DenseTensor<Word>)
    requires MultiReady(src, indices)
    requires dst.Length == Size(MultiShape(src.shape, indices.shape))
    modifies dst
    ensures dst[..] == MultiData(src, indices)
  {
    var shape := MultiShape(src.shape, indices.shape);
    var win := CollapseX(Full(shape));
    ghost var before := dst[..];
    var k := 0;
    while k < Count(win)
      invariant k <= Count(win)
      invariant dst[..] == RowsWritten(shape, Full(shape), k, before, MultiData(src, indices))
    {
      GatherRow(dst, src, indices, Full(shape), k, before);
      k := k + 1;
    }
    RowsWrittenAll(shape, Full(shape), before, MultiData(src, indices));
    OverFull(shape, before, MultiData(src, indices));
  }
}
