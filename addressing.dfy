/** The addressing rules of gather: for an output coordinate, which input
    element (or which input row) it receives. One rule per code path of the
    kernel and of the reference, and the lemmas that relate them. Index
    values are taken as read, already known to be non-negative. */
module GatherAddressing {
  import opened Shapes
  import opened TensorInfos
  import opened Windows

  /** Every index selects a position below `extent`; neither the kernel nor
      the reference checks this, so callers must ensure it. */
  predicate IndicesBelow(idx: seq<nat>, extent: nat)
  {
    forall i :: 0 <= i < |idx| ==> idx[i] < extent
  }

  /** An input and a rank-1 index list that can be gathered along `axis`. */
  predicate Rank1Ready<T>(src: DenseTensor<T>, idx: seq<nat>, axis: nat)
  {
    src.WellFormed() && axis < |src.shape| && IndicesBelow(idx, src.shape[axis])
  }

  /** A rank-1 index tensor is the list of its elements. */
  lemma Rank1Indices(indices: DenseTensor<Word>)
    requires indices.WellFormed() && |indices.shape| == 1
    ensures indices.shape == [|indices.data|]
  {
    assert Size(indices.shape[1..]) == 1;
  }

  /** Output shape for a rank-1 index list of length `n`. */
  function Rank1Shape(input: Shape, n: nat, axis: nat): (r: Shape)
    requires axis < |input|
    ensures |r| == |input| && r[axis] == n
    ensures forall d :: 0 <= d < |input| && d != axis ==> r[d] == input[d]
  {
    ComputeGatherShape(input, [n], axis)
  }

  // ---------------------------------------------------------------------
  // Reference rule for rank-1 indices, any axis: element by element.

  /** offset[d] = indices[id[d]] on the gathered axis, id[d] elsewhere. */
  function ElementSource(id: Coordinates, axis: nat, idx: seq<nat>): (g: Coordinates)
    requires axis < |id| && id[axis] < |idx|
    ensures |g| == |id|
  {
    seq(|id|, d requires 0 <= d < |id| => if d == axis then idx[id[d]] else id[d])
  }

  /** The element the reference writes at output coordinate `c`. */
  function ElementRule<T>(src: DenseTensor<T>, idx: seq<nat>, axis: nat, c: Coordinates): T
    requires Rank1Ready(src, idx, axis)
    requires InBounds(Rank1Shape(src.shape, |idx|, axis), c)
  {
    src.Get(ElementSource(c, axis, idx))
  }

  // ---------------------------------------------------------------------
  // Kernel rules for rank-1 indices.

  /** gather_0_axis: the output coordinate with component 0 replaced by the
      index it selects. */
  function Axis0Source(id: Coordinates, idx: seq<nat>): (g: Coordinates)
    requires |id| >= 1 && id[0] < |idx|
    ensures |g| == |id|
  {
    id[0 := idx[id[0]]]
  }

  function Axis0Rule<T>(src: DenseTensor<T>, idx: seq<nat>, c: Coordinates): T
    requires Rank1Ready(src, idx, 0)
    requires InBounds(Rank1Shape(src.shape, |idx|, 0), c)
  {
    src.Get(Axis0Source(c, idx))
  }

  /** gather_n_axis: the start of the input row copied to output row `row`. */
  function RowSource(row: Coordinates, axis: nat, idx: seq<nat>): (g: Coordinates)
    requires axis < |row| && row[axis] < |idx|
    ensures |g| == |row|
  {
    row[axis := idx[row[axis]]]
  }

  /** Element `c[0]` of the row gather_n_axis copies to the row of `c`. */
  function AxisNRule<T>(src: DenseTensor<T>, idx: seq<nat>, axis: nat, c: Coordinates): T
    requires Rank1Ready(src, idx, axis) && axis >= 1
    requires InBounds(Rank1Shape(src.shape, |idx|, axis), c)
  {
    var g := RowSource(c[0 := 0], axis, idx);
    RowSourceFits(src, idx, axis, c[0 := 0]);
    RowFits(src.shape, g);
    src.data[Offset(src.shape, g) + c[0]]
  }

  // ---------------------------------------------------------------------
  // Multi-index rule, axis 1 (kernel and reference share it).

  /** An input and an index tensor of any rank that can be gathered along axis 1. */
  predicate MultiReady<T>(src: DenseTensor<T>, indices: DenseTensor<Word>)
  {
    src.WellFormed() && |src.shape| >= 2 && indices.WellFormed()
    && IndicesBelow(indices.data, src.shape[1])
  }

  function MultiShape(input: Shape, indices: Shape): (r: Shape)
    requires |input| >= 2
    ensures r == [input[0]] + indices + input[2..]
  {
    ComputeGatherShape(input, indices, 1)
  }

  /** Coordinates (id[1], ..., id[R]) of the index tensor that selects the
      input row for output row `id`. */
  function IndexCoord(id: Coordinates, rank: nat): (c: Coordinates)
    requires 1 + rank <= |id|
    ensures |c| == rank && forall k :: 0 <= k < rank ==> c[k] == id[k + 1]
  {
    id[1..1 + rank]
  }

  /** gather_multiindices_1_axis: the start (0, row, id[1+R], ...) of the input
      row copied to output row `id`. */
  function MultiRowSource(id: Coordinates, indices: DenseTensor<Word>, inRank: nat): (g: Coordinates)
    requires indices.WellFormed() && inRank >= 2
    requires |id| == inRank - 1 + |indices.shape|
    requires InBounds(indices.shape, IndexCoord(id, |indices.shape|))
    ensures |g| == inRank
  {
    var r := |indices.shape|;
    [0, indices.Get(IndexCoord(id, r))] + id[1 + r..]
  }

  /** Element `c[0]` of the row copied to the row of `c`. */
  function MultiRule<T>(src: DenseTensor<T>, indices: DenseTensor<Word>, c: Coordinates): T
    requires MultiReady(src, indices)
    requires InBounds(MultiShape(src.shape, indices.shape), c)
  {
    var row := c[0 := 0];
    assert RowStartIn(MultiShape(src.shape, indices.shape), row);
    MultiRowSourceFits(src, indices, row);
    var g := MultiRowSource(row, indices, |src.shape|);
    src.data[Offset(src.shape, g) + c[0]]
  }

  /** The rule at `c` reads element c[0] of the input row that starts at
      MultiRowSource(c with component 0 := 0), inside the input. */
  lemma MultiRuleValue<T>(src: DenseTensor<T>, indices: DenseTensor<Word>, c: Coordinates)
    requires MultiReady(src, indices)
    requires InBounds(MultiShape(src.shape, indices.shape), c)
    ensures InBounds(indices.shape, IndexCoord(c[0 := 0], |indices.shape|))
    ensures Offset(src.shape, MultiRowSource(c[0 := 0], indices, |src.shape|)) + c[0] < |src.data|
    ensures MultiRule(src, indices, c) == src.data[Offset(src.shape, MultiRowSource(c[0 := 0], indices, |src.shape|)) + c[0]]
  {
    assert RowStartIn(MultiShape(src.shape, indices.shape), c[0 := 0]);
    MultiRowSourceFits(src, indices, c[0 := 0]);
  }

  // ---------------------------------------------------------------------
  // How the rules relate.

  /** gather_0_axis computes the reference rule for axis 0. */
  lemma Axis0MatchesElementRule<T>(src: DenseTensor<T>, idx: seq<nat>, c: Coordinates)
    requires Rank1Ready(src, idx, 0)
    requires InBounds(Rank1Shape(src.shape, |idx|, 0), c)
    ensures Axis0Rule(src, idx, c) == ElementRule(src, idx, 0, c)
  {
    assert Axis0Source(c, idx) == ElementSource(c, 0, idx);
  }

  /** gather_n_axis copies, for axis != 0, exactly the elements the
      reference picks one at a time: a row copy is the element copies with
      component 0 unchanged. */
  lemma AxisNMatchesElementRule<T>(src: DenseTensor<T>, idx: seq<nat>, axis: nat, c: Coordinates)
    requires Rank1Ready(src, idx, axis) && axis >= 1
    requires InBounds(Rank1Shape(src.shape, |idx|, axis), c)
    ensures AxisNRule(src, idx, axis, c) == ElementRule(src, idx, axis, c)
  {
    var g := RowSource(c[0 := 0], axis, idx);
    RowOffset(src.shape, g, c[0]);
    assert g[0 := c[0]] == ElementSource(c, axis, idx);
  }

  /** Output coordinate of the rank-1 gather over the flattened index list
      that corresponds to multi-index output coordinate `c`. */
  function Flatten(c: Coordinates, indices: Shape): (f: Coordinates)
    requires 1 + |indices| <= |c|
    ensures |f| == |c| - |indices| + 1
  {
    [c[0]] + ([Offset(indices, IndexCoord(c, |indices|))] + c[1 + |indices|..])
  }

  /** Where the multi-index output coordinate `c` lies: its index part is a
      coordinate of the index tensor and the rest follows the input. */
  lemma MultiCoordParts(input: Shape, indices: Shape, c: Coordinates)
    requires |input| >= 2
    requires |c| == |MultiShape(input, indices)|
    requires forall d :: 1 <= d < |c| ==> c[d] < MultiShape(input, indices)[d]
    ensures InBounds(indices, IndexCoord(c, |indices|))
    ensures InBounds(input[2..], c[1 + |indices|..])
  {
    SplitShapes(input, indices);
    SplitCoords(c, |indices|);
    InBoundsParts(input[0], indices, input[2..], c[0], IndexCoord(c, |indices|), c[1 + |indices|..]);
  }

  lemma InBoundsParts(n: nat, s: Shape, t: Shape, x: nat, c: Coordinates, e: Coordinates)
    requires |c| == |s| && |e| == |t|
    requires forall d :: 1 <= d < 1 + |s| + |t| ==> ([x] + (c + e))[d] < ([n] + (s + t))[d]
    ensures InBounds(s, c) && InBounds(t, e)
  {
    var whole, at := [n] + (s + t), [x] + (c + e);
    forall d | 0 <= d < |s|
      ensures c[d] < s[d]
    {
      assert whole[d + 1] == s[d] && at[d + 1] == c[d];
    }
    forall d | 0 <= d < |t|
      ensures e[d] < t[d]
    {
      assert whole[d + 1 + |s|] == t[d] && at[d + 1 + |s|] == e[d];
    }
  }

  /** A multi-index output coordinate and its flattened counterpart in the
      rank-1 output name the same flat position. */
  lemma FlattenKeepsOffset(input: Shape, indices: Shape, c: Coordinates)
    requires |input| >= 2
    requires InBounds(MultiShape(input, indices), c)
    ensures InBounds(Rank1Shape(input, Size(indices), 1), Flatten(c, indices))
    ensures Offset(Rank1Shape(input, Size(indices), 1), Flatten(c, indices))
         == Offset(MultiShape(input, indices), c)
  {
    MultiCoordParts(input, indices, c);
    assert c[0] < input[0] by {
      SplitShapes(input, indices);
    }
    FlattenInBounds(input, indices, c);
    var r := |indices|;
    SplitShapes(input, indices);
    SplitCoords(c, r);
    SameOffset(Rank1Shape(input, Size(indices), 1), Flatten(c, indices), MultiShape(input, indices), c,
               indices, input[2..], IndexCoord(c, r), c[1 + r..]);
  }

  lemma FlattenInBounds(input: Shape, indices: Shape, c: Coordinates)
    requires |input| >= 2 && 1 + |indices| <= |c|
    requires c[0] < input[0]
    requires InBounds(indices, IndexCoord(c, |indices|))
    requires InBounds(input[2..], c[1 + |indices|..])
    ensures InBounds(Rank1Shape(input, Size(indices), 1), Flatten(c, indices))
  {
    var ic, rest, trailing := IndexCoord(c, |indices|), c[1 + |indices|..], input[2..];
    SplitShapes(input, indices);
    InBoundsCons(Size(indices), Offset(indices, ic), trailing, rest);
    InBoundsCons(input[0], c[0], [Size(indices)] + trailing, [Offset(indices, ic)] + rest);
  }

  lemma InBoundsCons(n: nat, x: nat, s: Shape, c: Coordinates)
    requires x < n && InBounds(s, c)
    ensures InBounds([n] + s, [x] + c)
  {
    assert forall d :: 1 <= d <= |s| ==> ([n] + s)[d] == s[d - 1] && ([x] + c)[d] == c[d - 1];
  }

  /** Both output shapes, split as head, middle part and the trailing input
      dimensions. */
  lemma SplitShapes(input: Shape, indices: Shape)
    requires |input| >= 2
    ensures MultiShape(input, indices) == [input[0]] + (indices + input[2..])
    ensures Rank1Shape(input, Size(indices), 1) == [input[0]] + ([Size(indices)] + input[2..])
  {
  }

  lemma SplitCoords(c: Coordinates, r: nat)
    requires 1 + r <= |c|
    ensures c == [c[0]] + (IndexCoord(c, r) + c[1 + r..])
  {
    assert c == [c[0]] + c[1..];
    assert c[1..] == IndexCoord(c, r) + c[1 + r..];
  }

  /** The two split layouts give the same flat position: the middle part
      contributes Offset(indices, ic) below Size(indices) either way. */
  lemma SameOffset(s: Shape, f: Coordinates, m: Shape, c: Coordinates,
                   indices: Shape, trailing: Shape, ic: Coordinates, rest: Coordinates)
    requires |ic| == |indices| && |rest| == |trailing| && |c| >= 1 && |m| >= 1
    requires m == [m[0]] + (indices + trailing) && c == [c[0]] + (ic + rest)
    requires s == [m[0]] + ([Size(indices)] + trailing)
    requires f == [c[0]] + ([Offset(indices, ic)] + rest)
    ensures Offset(s, f) == Offset(m, c)
  {
    var o := Offset(indices, ic);
    var tail := o + Size(indices) * Offset(trailing, rest);
    assert Offset(m[1..], c[1..]) == tail by {
      assert m[1..] == indices + trailing;
      assert c[1..] == ic + rest;
      OffsetOfConcat(indices, trailing, ic, rest);
    }
    assert Offset(s[1..], f[1..]) == tail by {
      assert s[1..] == [Size(indices)] + trailing;
      assert f[1..] == [o] + rest;
      OffsetOfConcat([Size(indices)], trailing, [o], rest);
      assert Offset([Size(indices)], [o]) == o;
    }
    HeadOffset(s, f);
    HeadOffset(m, c);
  }

  /** Multi-index gather along axis 1 is the rank-1 gather along axis 1 with
      the index tensor read in flat order: the element the multi-index rule
      picks for `c` is the one the element rule picks for Flatten(c), and
      both land at the same flat output position. */
  lemma MultiIsFlattenedRank1<T>(src: DenseTensor<T>, indices: DenseTensor<Word>, c: Coordinates)
    requires MultiReady(src, indices)
    requires InBounds(MultiShape(src.shape, indices.shape), c)
    ensures Rank1Ready(src, indices.data, 1)
    ensures InBounds(Rank1Shape(src.shape, |indices.data|, 1), Flatten(c, indices.shape))
    ensures Offset(Rank1Shape(src.shape, |indices.data|, 1), Flatten(c, indices.shape))
         == Offset(MultiShape(src.shape, indices.shape), c)
    ensures MultiRule(src, indices, c) == ElementRule(src, indices.data, 1, Flatten(c, indices.shape))
  {
    FlattenKeepsOffset(src.shape, indices.shape, c);
    MultiRuleIsElementRule(src, indices, c, Flatten(c, indices.shape));
  }

  /** The value half of MultiIsFlattenedRank1. */
  lemma MultiRuleIsElementRule<T>(src: DenseTensor<T>, indices: DenseTensor<Word>, c: Coordinates, f: Coordinates)
    requires MultiReady(src, indices)
    requires InBounds(MultiShape(src.shape, indices.shape), c)
    requires f == Flatten(c, indices.shape) && InBounds(Rank1Shape(src.shape, |indices.data|, 1), f)
    ensures Rank1Ready(src, indices.data, 1)
    ensures MultiRule(src, indices, c) == ElementRule(src, indices.data, 1, f)
  {
    MultiCoordParts(src.shape, indices.shape, c);
    SourceOffsetShift(src.shape, indices, c);
    MultiRuleValue(src, indices, c);
  }

  /** The element rule's source offset for Flatten(c) is c[0] past the start
      of the multi-index source row. */
  lemma SourceOffsetShift(input: Shape, indices: DenseTensor<Word>, c: Coordinates)
    requires indices.WellFormed() && |input| >= 2
    requires |c| == |input| - 1 + |indices.shape|
    requires InBounds(indices.shape, IndexCoord(c, |indices.shape|))
    ensures IndexCoord(c[0 := 0], |indices.shape|) == IndexCoord(c, |indices.shape|)
    ensures Flatten(c, indices.shape)[1] < |indices.data|
    ensures Offset(input, ElementSource(Flatten(c, indices.shape), 1, indices.data))
         == Offset(input, MultiRowSource(c[0 := 0], indices, |input|)) + c[0]
  {
    MultiSourceIsElementSource(indices, |input|, c);
    var g := MultiRowSource(c[0 := 0], indices, |input|);
    RowOffset(input, g, c[0]);
  }

  /** The multi-index row start with component 0 moved to c[0] is the source
      coordinate the element rule computes for Flatten(c). */
  lemma MultiSourceIsElementSource(indices: DenseTensor<Word>, inRank: nat, c: Coordinates)
    requires indices.WellFormed() && inRank >= 2
    requires |c| == inRank - 1 + |indices.shape|
    requires InBounds(indices.shape, IndexCoord(c, |indices.shape|))
    ensures IndexCoord(c[0 := 0], |indices.shape|) == IndexCoord(c, |indices.shape|)
    ensures Flatten(c, indices.shape)[1] < |indices.data|
    ensures MultiRowSource(c[0 := 0], indices, inRank)[0 := c[0]]
         == ElementSource(Flatten(c, indices.shape), 1, indices.data)
  {
    var r := |indices.shape|;
    var ic := IndexCoord(c, r);
    assert IndexCoord(c[0 := 0], r) == ic;
    var g := MultiRowSource(c[0 := 0], indices, inRank)[0 := c[0]];
    var e := ElementSource(Flatten(c, indices.shape), 1, indices.data);
    assert g == [c[0], indices.Get(ic)] + c[1 + r..];
    assert e[0] == c[0] && e[1] == indices.Get(ic);
    assert forall d :: 2 <= d < |e| ==> e[d] == c[1 + r..][d - 2];
  }

  /** Gathering with the identity index list returns the input unchanged. */
  lemma IdentityGather<T>(src: DenseTensor<T>, axis: nat, c: Coordinates)
    requires src.WellFormed() && axis < |src.shape|
    requires InBounds(src.shape, c)
    ensures var idx := seq(src.shape[axis], i => i);
      Rank1Ready(src, idx, axis) && Rank1Shape(src.shape, |idx|, axis) == src.shape
      && ElementRule(src, idx, axis, c) == src.Get(c)
  {
    var idx := seq(src.shape[axis], i => i);
    assert Rank1Shape(src.shape, |idx|, axis) == src.shape;
    assert ElementSource(c, axis, idx) == c;
  }

  // ---------------------------------------------------------------------
  // Whole results: the value each rule gives at every flat output position.

  /** The rank-1 gather result, element by element (the reference loop). */
  function Rank1Data<T>(src: DenseTensor<T>, idx: seq<nat>, axis: nat): (d: seq<T>)
    requires Rank1Ready(src, idx, axis)
    ensures |d| == Size(Rank1Shape(src.shape, |idx|, axis))
  {
    var s := Rank1Shape(src.shape, |idx|, axis);
    seq(Size(s), p requires 0 <= p < Size(s) => ElementRule(src, idx, axis, Coord(s, p)))
  }

  /** What gather_0_axis writes over the whole output. */
  function Axis0Data<T>(src: DenseTensor<T>, idx: seq<nat>): (d: seq<T>)
    requires Rank1Ready(src, idx, 0)
    ensures |d| == Size(Rank1Shape(src.shape, |idx|, 0))
  {
    var s := Rank1Shape(src.shape, |idx|, 0);
    seq(Size(s), p requires 0 <= p < Size(s) => Axis0Rule(src, idx, Coord(s, p)))
  }

  /** What gather_n_axis writes over the whole output. */
  function AxisNData<T>(src: DenseTensor<T>, idx: seq<nat>, axis: nat): (d: seq<T>)
    requires Rank1Ready(src, idx, axis) && axis >= 1
    ensures |d| == Size(Rank1Shape(src.shape, |idx|, axis))
  {
    var s := Rank1Shape(src.shape, |idx|, axis);
    seq(Size(s), p requires 0 <= p < Size(s) => AxisNRule(src, idx, axis, Coord(s, p)))
  }

  /** What the multi-index row copy writes over the whole output. */
  function MultiData<T>(src: DenseTensor<T>, indices: DenseTensor<Word>): (d: seq<T>)
    requires MultiReady(src, indices)
    ensures |d| == Size(MultiShape(src.shape, indices.shape))
  {
    var s := MultiShape(src.shape, indices.shape);
    seq(Size(s), p requires 0 <= p < Size(s) => MultiRule(src, indices, Coord(s, p)))
  }

  /** gather_0_axis produces the reference rank-1 result for axis 0. */
  lemma Axis0DataIsRank1Data<T>(src: DenseTensor<T>, idx: seq<nat>)
    requires Rank1Ready(src, idx, 0)
    ensures Axis0Data(src, idx) == Rank1Data(src, idx, 0)
  {
    var s := Rank1Shape(src.shape, |idx|, 0);
    forall p | 0 <= p < Size(s)
      ensures Axis0Data(src, idx)[p] == Rank1Data(src, idx, 0)[p]
    {
      Axis0MatchesElementRule(src, idx, Coord(s, p));
    }
  }

  /** gather_n_axis produces the reference rank-1 result for every axis >= 1. */
  lemma AxisNDataIsRank1Data<T>(src: DenseTensor<T>, idx: seq<nat>, axis: nat)
    requires Rank1Ready(src, idx, axis) && axis >= 1
    ensures AxisNData(src, idx, axis) == Rank1Data(src, idx, axis)
  {
    var s := Rank1Shape(src.shape, |idx|, axis);
    forall p | 0 <= p < Size(s)
      ensures AxisNData(src, idx, axis)[p] == Rank1Data(src, idx, axis)[p]
    {
      AxisNMatchesElementRule(src, idx, axis, Coord(s, p));
    }
  }

  /** The multi-index output has as many elements as the rank-1 output over
      the flattened index list. */
  lemma MultiSize(input: Shape, indices: Shape)
    requires |input| >= 2
    ensures Size(MultiShape(input, indices)) == Size(Rank1Shape(input, Size(indices), 1))
  {
    SplitShapes(input, indices);
    var trailing := input[2..];
    SizeOfConcat(indices, trailing);
    SizeOfConcat([Size(indices)], trailing);
    assert Size([Size(indices)]) == Size(indices) by {
      assert [Size(indices)][1..] == [];
    }
  }

  /** Multi-index gather along axis 1 gives, position by position, the
      rank-1 gather along axis 1 over the index tensor read in flat order. */
  lemma MultiDataIsRank1Data<T>(src: DenseTensor<T>, indices: DenseTensor<Word>)
    requires MultiReady(src, indices)
    ensures Rank1Ready(src, indices.data, 1)
    ensures MultiData(src, indices) == Rank1Data(src, indices.data, 1)
  {
    var m := MultiShape(src.shape, indices.shape);
    var s := Rank1Shape(src.shape, |indices.data|, 1);
    MultiSize(src.shape, indices.shape);
    forall p | 0 <= p < Size(m)
      ensures MultiData(src, indices)[p] == Rank1Data(src, indices.data, 1)[p]
    {
      var c := Coord(m, p);
      MultiIsFlattenedRank1(src, indices, c);
      CoordOfOffset(s, Flatten(c, indices.shape));
    }
  }

  /** Gathering along any axis with the index list 0, 1, ..., n - 1 returns
      the input data unchanged. */
  lemma IdentityData<T>(src: DenseTensor<T>, axis: nat)
    requires src.WellFormed() && axis < |src.shape|
    ensures var idx := seq(src.shape[axis], i => i);
      Rank1Ready(src, idx, axis) && Rank1Data(src, idx, axis) == src.data
  {
    var idx := seq(src.shape[axis], i => i);
    assert Rank1Shape(src.shape, |idx|, axis) == src.shape;
    forall p | 0 <= p < |src.data|
      ensures Rank1Data(src, idx, axis)[p] == src.data[p]
    {
      IdentityGather(src, axis, Coord(src.shape, p));
    }
  }

  // ---------------------------------------------------------------------
  // The value each result holds at the position one loop step writes.

  /** The reference writes at the position of `c` the source element at
      ElementSource(c). */
  lemma ElementAt<T>(src: DenseTensor<T>, idx: seq<nat>, axis: nat, c: Coordinates)
    requires Rank1Ready(src, idx, axis)
    requires InBounds(Rank1Shape(src.shape, |idx|, axis), c)
    ensures InBounds(src.shape, ElementSource(c, axis, idx))
    ensures Offset(Rank1Shape(src.shape, |idx|, axis), c) < Size(Rank1Shape(src.shape, |idx|, axis))
    ensures Rank1Data(src, idx, axis)[Offset(Rank1Shape(src.shape, |idx|, axis), c)]
         == src.Get(ElementSource(c, axis, idx))
  {
    CoordOfOffset(Rank1Shape(src.shape, |idx|, axis), c);
  }

  /** gather_0_axis writes at the position of `c` the source element at
      Axis0Source(c). */
  lemma Axis0At<T>(src: DenseTensor<T>, idx: seq<nat>, c: Coordinates)
    requires Rank1Ready(src, idx, 0)
    requires InBounds(Rank1Shape(src.shape, |idx|, 0), c)
    ensures InBounds(src.shape, Axis0Source(c, idx))
    ensures Offset(Rank1Shape(src.shape, |idx|, 0), c) < Size(Rank1Shape(src.shape, |idx|, 0))
    ensures Axis0Data(src, idx)[Offset(Rank1Shape(src.shape, |idx|, 0), c)] == src.Get(Axis0Source(c, idx))
  {
    CoordOfOffset(Rank1Shape(src.shape, |idx|, 0), c);
  }

  /** A row start: component 0 is 0 and the others are in bounds. */
  predicate RowStartIn(s: Shape, r: Coordinates)
  {
    |s| >= 1 && |r| == |s| && r[0] == 0 && forall d :: 1 <= d < |s| ==> r[d] < s[d]
  }

  /** gather_n_axis fills output row `r` with the input row that starts at
      RowSource(r): element `j` of one is element `j` of the other. */
  lemma AxisNRowAt<T>(src: DenseTensor<T>, idx: seq<nat>, axis: nat, r: Coordinates, j: nat, p: nat)
    requires Rank1Ready(src, idx, axis) && axis >= 1
    requires RowStartIn(Rank1Shape(src.shape, |idx|, axis), r) && j < src.shape[0]
    requires p == Offset(Rank1Shape(src.shape, |idx|, axis), r) + j
    ensures RowStartIn(src.shape, RowSource(r, axis, idx))
    ensures Offset(src.shape, RowSource(r, axis, idx)) + src.shape[0] <= |src.data|
    ensures p < Size(Rank1Shape(src.shape, |idx|, axis))
    ensures AxisNData(src, idx, axis)[p] == src.data[Offset(src.shape, RowSource(r, axis, idx)) + j]
  {
    var s := Rank1Shape(src.shape, |idx|, axis);
    RowSourceFits(src, idx, axis, r);
    RowFits(src.shape, RowSource(r, axis, idx));
    RowCoord(s, r, j, p);
    AxisNRowValue(src, idx, axis, r, j);
    AxisNDataAt(src, idx, axis, p, r[0 := j]);
  }

  /** Element `j` of output row `r` is element `j` of the input row at RowSource(r). */
  lemma AxisNRowValue<T>(src: DenseTensor<T>, idx: seq<nat>, axis: nat, r: Coordinates, j: nat)
    requires Rank1Ready(src, idx, axis) && axis >= 1
    requires RowStartIn(Rank1Shape(src.shape, |idx|, axis), r) && j < src.shape[0]
    requires InBounds(Rank1Shape(src.shape, |idx|, axis), r[0 := j])
    requires RowStartIn(src.shape, RowSource(r, axis, idx))
    requires Offset(src.shape, RowSource(r, axis, idx)) + src.shape[0] <= |src.data|
    ensures AxisNRule(src, idx, axis, r[0 := j]) == src.data[Offset(src.shape, RowSource(r, axis, idx)) + j]
  {
    assert r[0 := j][0 := 0] == r;
  }

  /** gather_n_axis writes output row `r`, which starts at `base`, as one
      copy of the input row at RowSource(r), which starts at `from`. */
  lemma AxisNRowMatches<T>(src: DenseTensor<T>, idx: seq<nat>, axis: nat, r: Coordinates, base: nat, from: nat)
    requires Rank1Ready(src, idx, axis) && axis >= 1
    requires RowStartIn(Rank1Shape(src.shape, |idx|, axis), r)
    requires base == Offset(Rank1Shape(src.shape, |idx|, axis), r) && from == Offset(src.shape, RowSource(r, axis, idx))
    ensures RowStartIn(src.shape, RowSource(r, axis, idx))
    ensures base + src.shape[0] <= Size(Rank1Shape(src.shape, |idx|, axis)) && from + src.shape[0] <= |src.data|
    ensures forall p :: base <= p < base + src.shape[0] ==> AxisNData(src, idx, axis)[p] == src.data[from + (p - base)]
  {
    var s := Rank1Shape(src.shape, |idx|, axis);
    RowSourceFits(src, idx, axis, r);
    RowFits(src.shape, RowSource(r, axis, idx));
    RowFits(s, r);
    forall p | base <= p < base + src.shape[0]
      ensures AxisNData(src, idx, axis)[p] == src.data[from + (p - base)]
    {
      AxisNRowAt(src, idx, axis, r, p - base, p);
    }
  }

  /** The input row gather_n_axis copies for output row `r` lies inside the input. */
  lemma RowSourceFits<T>(src: DenseTensor<T>, idx: seq<nat>, axis: nat, r: Coordinates)
    requires Rank1Ready(src, idx, axis) && axis >= 1
    requires RowStartIn(Rank1Shape(src.shape, |idx|, axis), r)
    ensures RowStartIn(src.shape, RowSource(r, axis, idx))
  {
    var s, g := Rank1Shape(src.shape, |idx|, axis), RowSource(r, axis, idx);
    forall d | 1 <= d < |src.shape|
      ensures g[d] < src.shape[d]
    {
      if d != axis {
        assert g[d] == r[d] && s[d] == src.shape[d];
      }
    }
  }

  /** The element of AxisNData at position `p` is the rule at `c` = Coord(p). */
  lemma AxisNDataAt<T>(src: DenseTensor<T>, idx: seq<nat>, axis: nat, p: nat, c: Coordinates)
    requires Rank1Ready(src, idx, axis) && axis >= 1
    requires p < Size(Rank1Shape(src.shape, |idx|, axis)) && c == Coord(Rank1Shape(src.shape, |idx|, axis), p)
    ensures AxisNData(src, idx, axis)[p] == AxisNRule(src, idx, axis, c)
  {
  }

  /** The multi-index row copy fills output row `r` with the input row that
      starts at MultiRowSource(r). */
  lemma MultiRowAt<T>(src: DenseTensor<T>, indices: DenseTensor<Word>, r: Coordinates, j: nat, p: nat, from: nat)
    requires MultiReady(src, indices)
    requires RowStartIn(MultiShape(src.shape, indices.shape), r) && j < src.shape[0]
    requires p == Offset(MultiShape(src.shape, indices.shape), r) + j
    requires InBounds(indices.shape, IndexCoord(r, |indices.shape|))
    requires from == Offset(src.shape, MultiRowSource(r, indices, |src.shape|))
    ensures p < Size(MultiShape(src.shape, indices.shape)) && from + j < |src.data|
    ensures MultiData(src, indices)[p] == src.data[from + j]
  {
    RowCoord(MultiShape(src.shape, indices.shape), r, j, p);
    MultiRuleOnRow(src, indices, r, j, from);
    MultiDataAt(src, indices, p, r[0 := j]);
  }

  /** The rule at coordinate j of output row `r` reads element j of the input
      row at MultiRowSource(r). */
  lemma MultiRuleOnRow<T>(src: DenseTensor<T>, indices: DenseTensor<Word>, r: Coordinates, j: nat, from: nat)
    requires MultiReady(src, indices)
    requires RowStartIn(MultiShape(src.shape, indices.shape), r) && j < src.shape[0]
    requires InBounds(indices.shape, IndexCoord(r, |indices.shape|))
    requires from == Offset(src.shape, MultiRowSource(r, indices, |src.shape|))
    ensures InBounds(MultiShape(src.shape, indices.shape), r[0 := j]) && from + j < |src.data|
    ensures MultiRule(src, indices, r[0 := j]) == src.data[from + j]
  {
    var c := r[0 := j];
    assert InBounds(MultiShape(src.shape, indices.shape), c);
    assert c[0 := 0] == r && c[0] == j;
    MultiRuleValue(src, indices, c);
  }

  /** The multi-index row copy writes output row `r`, which starts at
      `base`, as one copy of the input row at MultiRowSource(r), which starts
      at `from`. */
  lemma MultiRowMatches<T>(src: DenseTensor<T>, indices: DenseTensor<Word>, r: Coordinates, base: nat, from: nat)
    requires MultiReady(src, indices)
    requires RowStartIn(MultiShape(src.shape, indices.shape), r)
    requires base == Offset(MultiShape(src.shape, indices.shape), r)
    requires InBounds(indices.shape, IndexCoord(r, |indices.shape|))
    requires from == Offset(src.shape, MultiRowSource(r, indices, |src.shape|))
    ensures base + src.shape[0] <= Size(MultiShape(src.shape, indices.shape)) && from + src.shape[0] <= |src.data|
    ensures forall p :: base <= p < base + src.shape[0] ==> MultiData(src, indices)[p] == src.data[from + (p - base)]
  {
    MultiRowSourceFits(src, indices, r);
    RowFits(MultiShape(src.shape, indices.shape), r);
    forall p | base <= p < base + src.shape[0]
      ensures MultiData(src, indices)[p] == src.data[from + (p - base)]
    {
      MultiRowAt(src, indices, r, p - base, p, from);
    }
  }

  lemma SameSlice<T>(a: seq<T>, b: seq<T>, i: nat, j: nat, n: nat)
    requires i + n <= |a| && j + n <= |b|
    requires forall p | i <= p < i + n :: a[p] == b[j + (p - i)]
    ensures a[i..i + n] == b[j..j + n]
  {
    var x, y := a[i..i + n], b[j..j + n];
    forall k | 0 <= k < n
      ensures x[k] == y[k]
    {
      assert a[i + k] == b[j + (i + k - i)];
    }
  }

  /** The multi-index routine reads the index tensor inside its bounds and
      the input row it copies lies inside the input. */
  lemma MultiRowSourceFits<T>(src: DenseTensor<T>, indices: DenseTensor<Word>, r: Coordinates)
    requires MultiReady(src, indices)
    requires RowStartIn(MultiShape(src.shape, indices.shape), r)
    ensures InBounds(indices.shape, IndexCoord(r, |indices.shape|))
    ensures RowStartIn(src.shape, MultiRowSource(r, indices, |src.shape|))
    ensures Offset(src.shape, MultiRowSource(r, indices, |src.shape|)) + src.shape[0] <= |src.data|
  {
    var R := |indices.shape|;
    MultiCoordParts(src.shape, indices.shape, r);
    var g := MultiRowSource(r, indices, |src.shape|);
    assert g[2..] == r[1 + R..];
    forall d | 2 <= d < |src.shape|
      ensures g[d] < src.shape[d]
    {
      assert g[d] == g[2..][d - 2] && src.shape[d] == src.shape[2..][d - 2];
    }
    RowFits(src.shape, g);
  }

  /** The element of MultiData at position `p` is the rule at `c` = Coord(p). */
  lemma MultiDataAt<T>(src: DenseTensor<T>, indices: DenseTensor<Word>, p: nat, c: Coordinates)
    requires MultiReady(src, indices)
    requires p < Size(MultiShape(src.shape, indices.shape)) && c == Coord(MultiShape(src.shape, indices.shape), p)
    ensures MultiData(src, indices)[p] == MultiRule(src, indices, c)
  {
  }

  // ---------------------------------------------------------------------
  // Loops that build coordinates and copy rows; the kernel and the
  // reference contain the same code for these.

  /** index_offset: component k is id[k + 1], for k below the index rank. */
  method BuildIndexOffset(id: Coordinates, rank: nat) returns (ic: Coordinates)
    requires 1 + rank <= |id|
    ensures ic == IndexCoord(id, rank)
  {
    ic := [];
    for k := 0 to rank
      invariant ic == id[1..1 + k]
    {
      ic := ic + [id[k + 1]];
    }
  }

  /** src_offset: (0, row) followed by the components of `id` after the
      index part, one per remaining input dimension. */
  method BuildSourceOffset(id: Coordinates, row: nat, inRank: nat, rank: nat) returns (g: Coordinates)
    requires inRank >= 2 && |id| == inRank - 1 + rank
    ensures g == [0, row] + id[1 + rank..]
  {
    g := [0, row];
    for j := 2 to inRank
      invariant g == [0, row] + id[1 + rank..1 + rank + (j - 2)]
    {
      g := g + [id[1 + rank + (j - 2)]];
    }
  }

  /** memcpy / copy_n of `n` elements from `src[from..]` to `dst[at..]`. */
  method CopyRow<T>(dst: array<T>, at: nat, src: seq<T>, from: nat, n: nat)
    requires at + n <= dst.Length && from + n <= |src|
    modifies dst
    ensures dst[..] == Paste(old(dst[..]), src[from..from + n], at)
  {
    forall j | 0 <= j < n {
      dst[at + j] := src[from + j];
    }
  }

  /** Row step `k` over a shape `s`: copying `n` = s[0] elements of `src`
      from `from` to the row's start `base`, when they are the elements
      `want` holds there, takes the buffer from RowsWritten after `k` steps to
      RowsWritten after `k + 1` steps. */
  method CopyRowStep<T>(dst: array<T>, ghost s: Shape, ghost w: Window, ghost k: nat, ghost before: seq<T>,
                        ghost want: seq<T>, src: seq<T>, base: nat, from: nat, n: nat)
    requires |s| >= 1 && WithinShape(w, s) && k < Count(CollapseX(w))
    requires |before| == Size(s) && |want| == Size(s) && dst.Length == Size(s)
    requires base == Offset(s, At(CollapseX(w), k)) && n == s[0] && base + n <= Size(s) && from + n <= |src|
    requires forall p :: base <= p < base + n ==> want[p] == src[from + (p - base)]
    requires dst[..] == RowsWritten(s, w, k, before, want)
    modifies dst
    ensures dst[..] == RowsWritten(s, w, k + 1, before, want)
  {
    SameSlice(want, src, base, from, n);
    RowsWrittenCopy(s, w, k, before, want, src[from..from + n], base, n);
    CopyRow(dst, base, src, from, n);
  }

  /** Row step `k` of the multi-index loop reaches only rows of the output
      and entries of the index tensor. */
  lemma MultiStepIn<T>(src: DenseTensor<T>, indices: DenseTensor<Word>, w: Window, k: nat)
    requires MultiReady(src, indices)
    requires WithinShape(w, MultiShape(src.shape, indices.shape)) && k < Count(CollapseX(w))
    ensures RowStartIn(MultiShape(src.shape, indices.shape), At(CollapseX(w), k))
    ensures InBounds(indices.shape, IndexCoord(At(CollapseX(w), k), |indices.shape|))
  {
    RowStart(MultiShape(src.shape, indices.shape), w, k);
    MultiRowSourceFits(src, indices, At(CollapseX(w), k));
  }

  /** index_offset, the row it selects and src_offset for row step `k` of
      the multi-index loop: where the output row starts, where the input row
      it receives starts, and that the two rows agree with MultiData. */
  method MultiRowOffsets<T>(src: DenseTensor<T>, indices: DenseTensor<Word>, w: Window, k: nat)
    returns (base: nat, from: nat)
    requires MultiReady(src, indices)
    requires WithinShape(w, MultiShape(src.shape, indices.shape)) && k < Count(CollapseX(w))
    ensures InBounds(indices.shape, IndexCoord(At(CollapseX(w), k), |indices.shape|))
    ensures MultiShape(src.shape, indices.shape)[0] == src.shape[0]
    ensures base == Offset(MultiShape(src.shape, indices.shape), At(CollapseX(w), k))
    ensures from == Offset(src.shape, MultiRowSource(At(CollapseX(w), k), indices, |src.shape|))
    ensures base + src.shape[0] <= Size(MultiShape(src.shape, indices.shape)) && from + src.shape[0] <= |src.data|
    ensures forall p :: base <= p < base + src.shape[0] ==> MultiData(src, indices)[p] == src.data[from + (p - base)]
  {
    var id := At(CollapseX(w), k);
    MultiStepIn(src, indices, w, k);
    var rank := |indices.shape|;
    var indexOffset := BuildIndexOffset(id, rank);
    var row := indices.Get(indexOffset);
    var srcOffset := BuildSourceOffset(id, row, |src.shape|, rank);
    assert srcOffset == MultiRowSource(id, indices, |src.shape|);
    base, from := Offset(MultiShape(src.shape, indices.shape), id), Offset(src.shape, srcOffset);
    MultiRowMatches(src, indices, id, base, from);
    assert MultiShape(src.shape, indices.shape)[0] == src.shape[0];
  }

  /** One step of the multi-index row loop over CollapseX(w): the offsets,
      then the copy of one input row. */
  method GatherRow<T>(dst: array<T>, src: DenseTensor<T>, indices: DenseTensor<Word>, w: Window, k: nat, ghost before: seq<T>)
    requires MultiReady(src, indices)
    requires dst.Length == Size(MultiShape(src.shape, indices.shape))
    requires WithinShape(w, MultiShape(src.shape, indices.shape)) && k < Count(CollapseX(w))
    requires |before| == dst.Length
    requires dst[..] == RowsWritten(MultiShape(src.shape, indices.shape), w, k, before, MultiData(src, indices))
    modifies dst
    ensures dst[..] == RowsWritten(MultiShape(src.shape, indices.shape), w, k + 1, before, MultiData(src, indices))
  {
    var base, from := MultiRowOffsets(src, indices, w, k);
    CopyRowStep(dst, MultiShape(src.shape, indices.shape), w, k, before, MultiData(src, indices), src.data, base, from, src.shape[0]);
  }

  /** Row step `k` of the gather_n_axis loop reaches only rows of the output
      and of the input. */
  lemma AxisNStepIn<T>(src: DenseTensor<T>, idx: seq<nat>, axis: nat, w: Window, k: nat)
    requires Rank1Ready(src, idx, axis) && axis >= 1
    requires WithinShape(w, Rank1Shape(src.shape, |idx|, axis)) && k < Count(CollapseX(w))
    ensures RowStartIn(Rank1Shape(src.shape, |idx|, axis), At(CollapseX(w), k))
    ensures RowStartIn(src.shape, RowSource(At(CollapseX(w), k), axis, idx))
  {
    RowStart(Rank1Shape(src.shape, |idx|, axis), w, k);
    RowSourceFits(src, idx, axis, At(CollapseX(w), k));
  }
}
