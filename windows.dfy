/** Execution windows and the order in which a window loop visits them.
    Every window this kernel uses has step 1 in each dimension, so a dimension
    is a half-open range [start, end). The k-th coordinate visited is the
    start of the window plus Coord(Extents(w), k): dimension 0 varies fastest,
    which is the nesting of the window loop. */
module Windows {
  import opened Shapes

  datatype Dimension = Dimension(start: nat, end: nat)

  type Window = seq<Dimension>

  /** Every range of `w` is ordered and lies within the extents of `s`. */
  predicate WithinShape(w: Window, s: Shape)
  {
    |w| == |s| && forall d :: 0 <= d < |w| ==> w[d].start <= w[d].end <= s[d]
  }

  /** The number of steps of each dimension (an inverted range is empty). */
  function Extents(w: Window): (e: Shape)
    ensures |e| == |w|
  {
    seq(|w|, d requires 0 <= d < |w| => if w[d].start <= w[d].end then w[d].end - w[d].start else 0)
  }

  /** The number of coordinates the window loop visits. */
  function Count(w: Window): nat
  {
    Size(Extents(w))
  }

  predicate Contains(w: Window, c: Coordinates)
  {
    |c| == |w| && forall d :: 0 <= d < |w| ==> w[d].start <= c[d] < w[d].end
  }

  /** The coordinates relative to the start of the window. */
  function Local(w: Window, c: Coordinates): (l: Coordinates)
    requires Contains(w, c)
    ensures InBounds(Extents(w), l)
  {
    seq(|w|, d requires 0 <= d < |w| => c[d] - w[d].start)
  }

  /** How many coordinates the window loop visits before `c`. */
  function RankIn(w: Window, c: Coordinates): (k: nat)
    requires Contains(w, c)
    ensures k < Count(w)
  {
    Offset(Extents(w), Local(w, c))
  }

  /** The k-th coordinate the window loop visits. */
  function At(w: Window, k: nat): (c: Coordinates)
    requires k < Count(w)
    ensures Contains(w, c) && RankIn(w, c) == k
  {
    var l := Coord(Extents(w), k);
    var c := seq(|w|, d requires 0 <= d < |w| => w[d].start + l[d]);
    assert Local(w, c) == l;
    c
  }

  /** Every coordinate of the window is visited, at its rank. */
  lemma AtRankIn(w: Window, c: Coordinates)
    requires Contains(w, c)
    ensures At(w, RankIn(w, c)) == c
  {
    var l := Local(w, c);
    CoordOfOffset(Extents(w), l);
  }

  /** Coordinates visited in the first `k` steps of the loop. */
  predicate VisitedBefore(w: Window, k: nat, c: Coordinates)
  {
    Contains(w, c) && RankIn(w, c) < k
  }

  /** Step `k` of the loop visits exactly one new coordinate, At(w, k). */
  lemma VisitNext(w: Window, k: nat)
    requires k < Count(w)
    ensures forall c :: VisitedBefore(w, k + 1, c) <==> VisitedBefore(w, k, c) || c == At(w, k)
  {
    forall c
      ensures VisitedBefore(w, k + 1, c) <==> VisitedBefore(w, k, c) || c == At(w, k)
    {
      VisitNextAt(w, k, c);
    }
  }

  lemma VisitNextAt(w: Window, k: nat, c: Coordinates)
    requires k < Count(w)
    ensures VisitedBefore(w, k + 1, c) <==> VisitedBefore(w, k, c) || c == At(w, k)
  {
    if VisitedBefore(w, k + 1, c) && !VisitedBefore(w, k, c) {
      AtRankIn(w, c);
    }
  }

  /** After Count(w) steps the loop has visited the whole window. */
  lemma VisitedAll(w: Window, c: Coordinates)
    requires Contains(w, c)
    ensures VisitedBefore(w, Count(w), c)
  {
  }

  /** The window spanning a whole shape (use_tensor_dimensions, calculate_max_window). */
  function Full(s: Shape): (w: Window)
    ensures WithinShape(w, s)
    ensures forall c :: Contains(w, c) <==> InBounds(s, c)
  {
    seq(|s|, d requires 0 <= d < |s| => Dimension(0, s[d]))
  }

  /** Over a whole shape the loop visits positions in flat memory order. */
  lemma FullVisitsInOrder(s: Shape, k: nat)
    requires k < Size(s)
    ensures Extents(Full(s)) == s
    ensures At(Full(s), k) == Coord(s, k) && Offset(s, At(Full(s), k)) == k
  {
    assert Extents(Full(s)) == s;
  }

  /** Dimension 0 reduced to the single step [0, 1): the loop then visits one
      coordinate per row (Window::set(DimX, Dimension(0, 1, 1))). */
  function CollapseX(w: Window): (r: Window)
    requires |w| >= 1
    ensures |r| == |w| && r[0] == Dimension(0, 1)
    ensures forall d :: 1 <= d < |w| ==> r[d] == w[d]
  {
    w[0 := Dimension(0, 1)]
  }

  /** The collapsed loop visits one coordinate per row: the coordinates with
      component 0 equal to 0 and the others inside `w`, and as many steps as
      the window has rows. */
  lemma CollapseXRows(w: Window)
    requires |w| >= 1
    ensures forall c :: Contains(CollapseX(w), c) <==>
      |c| == |w| && c[0] == 0 && forall d :: 1 <= d < |w| ==> w[d].start <= c[d] < w[d].end
    ensures Count(w) == Extents(w)[0] * Count(CollapseX(w))
  {
    var e, f := Extents(w), Extents(CollapseX(w));
    assert f[0] == 1 && f[1..] == e[1..];
    assert Size(f) == Size(f[1..]);
  }

  /** The row of coordinate `c` is visited in the first `k` steps of the loop
      over CollapseX(w). */
  predicate RowVisitedBefore(w: Window, k: nat, c: Coordinates)
    requires |w| >= 1 && |c| >= 1
  {
    VisitedBefore(CollapseX(w), k, c[0 := 0])
  }

  /** Coordinate `c` lies in a row the loop over CollapseX(w) visits: every
      component but the first is inside the window. */
  predicate RowIn(w: Window, c: Coordinates)
    requires |w| >= 1 && |c| >= 1
  {
    Contains(CollapseX(w), c[0 := 0])
  }

  // ---------------------------------------------------------------------
  // What a window loop that writes into a dense buffer has written.

  /** The buffer after a loop over `w` that writes `want` at every coordinate
      of the window: `before` everywhere else. */
  ghost function Over<T>(s: Shape, w: Window, before: seq<T>, want: seq<T>): (r: seq<T>)
    requires |before| == Size(s) && |want| == Size(s)
    ensures |r| == Size(s)
  {
    seq(Size(s), p requires 0 <= p < Size(s) => if Contains(w, Coord(s, p)) then want[p] else before[p])
  }

  /** The buffer after a loop over CollapseX(w) that writes whole rows of
      `want`: every row the window reaches is written in full. */
  ghost function RowsOver<T>(s: Shape, w: Window, before: seq<T>, want: seq<T>): (r: seq<T>)
    requires |s| >= 1 && |w| >= 1 && |before| == Size(s) && |want| == Size(s)
    ensures |r| == Size(s)
  {
    seq(Size(s), p requires 0 <= p < Size(s) => if RowIn(w, Coord(s, p)) then want[p] else before[p])
  }

  /** A loop over the whole shape leaves nothing of `before`. */
  lemma OverFull<T>(s: Shape, before: seq<T>, want: seq<T>)
    requires |s| >= 1 && |before| == Size(s) && |want| == Size(s)
    ensures Over(s, Full(s), before, want) == want
    ensures RowsOver(s, Full(s), before, want) == want
  {
    var w := Full(s);
    forall p | 0 <= p < Size(s)
      ensures Over(s, w, before, want)[p] == want[p] && RowsOver(s, w, before, want)[p] == want[p]
    {
      var c := Coord(s, p);
      assert Contains(w, c);
      assert Contains(CollapseX(w), c[0 := 0]);
    }
  }

  /** The coordinate step `k` visits lies inside the shape. */
  lemma AtInShape(s: Shape, w: Window, k: nat)
    requires WithinShape(w, s) && k < Count(w)
    ensures InBounds(s, At(w, k)) && Offset(s, At(w, k)) < Size(s)
  {
    assert InBounds(s, At(w, k));
  }

  /** The buffer after the first `k` steps of the element loop over `w`. */
  ghost function Written<T>(s: Shape, w: Window, k: nat, before: seq<T>, want: seq<T>): (r: seq<T>)
    requires |before| == Size(s) && |want| == Size(s)
    ensures |r| == Size(s)
  {
    seq(Size(s), p requires 0 <= p < Size(s) => if VisitedBefore(w, k, Coord(s, p)) then want[p] else before[p])
  }

  /** Step `k` writes the position of At(w, k), and only that position. */
  lemma WrittenStep<T>(s: Shape, w: Window, k: nat, before: seq<T>, want: seq<T>)
    requires WithinShape(w, s) && k < Count(w) && |before| == Size(s) && |want| == Size(s)
    ensures InBounds(s, At(w, k)) && Offset(s, At(w, k)) < Size(s)
    ensures Written(s, w, k + 1, before, want)
         == Written(s, w, k, before, want)[Offset(s, At(w, k)) := want[Offset(s, At(w, k))]]
  {
    AtInShape(s, w, k);
    var id := At(w, k);
    var q := Offset(s, id);
    var a, b := Written(s, w, k + 1, before, want), Written(s, w, k, before, want)[q := want[q]];
    forall p | 0 <= p < Size(s)
      ensures a[p] == b[p]
    {
      VisitNextAt(w, k, Coord(s, p));
      SamePosition(s, id, p);
    }
  }

  /** When the loop ends, exactly the coordinates of the window are written. */
  lemma WrittenAll<T>(s: Shape, w: Window, before: seq<T>, want: seq<T>)
    requires |before| == Size(s) && |want| == Size(s)
    ensures Written(s, w, Count(w), before, want) == Over(s, w, before, want)
  {
    var a, b := Written(s, w, Count(w), before, want), Over(s, w, before, want);
    forall p | 0 <= p < Size(s)
      ensures a[p] == b[p]
    {
    }
  }

  /** The row visited at step `k` starts at component 0 and lies, with all its
      s[0] elements, inside the tensor. */
  lemma RowStart(s: Shape, w: Window, k: nat)
    requires |s| >= 1 && WithinShape(w, s) && k < Count(CollapseX(w))
    ensures At(CollapseX(w), k)[0] == 0
    ensures forall d :: 1 <= d < |s| ==> At(CollapseX(w), k)[d] < s[d]
    ensures Offset(s, At(CollapseX(w), k)) + s[0] <= Size(s)
  {
    var r := At(CollapseX(w), k);
    assert forall d :: 1 <= d < |s| ==> w[d].start <= r[d] < w[d].end;
    RowFits(s, r);
  }

  /** The positions [Offset(s, r), Offset(s, r) + s[0]) are exactly the
      positions whose coordinates, with component 0 cleared, are `r`. */
  lemma RowSpan(s: Shape, r: Coordinates, p: nat)
    requires |s| >= 1 && |r| == |s| && r[0] == 0
    requires forall d :: 1 <= d < |s| ==> r[d] < s[d]
    requires p < Size(s)
    ensures Offset(s, r) <= p < Offset(s, r) + s[0] <==> Coord(s, p)[0 := 0] == r
  {
    var c := Coord(s, p);
    if c[0 := 0] == r {
      RowOffset(s, r, c[0]);
      assert r[0 := c[0]] == c;
    }
    if Offset(s, r) <= p < Offset(s, r) + s[0] {
      RowCoord(s, r, p - Offset(s, r), p);
    }
  }

  /** Step `k` of the row loop adds exactly the positions of row At(CollapseX(w), k). */
  lemma RowStepAt(s: Shape, w: Window, k: nat, p: nat)
    requires |s| >= 1 && WithinShape(w, s) && k < Count(CollapseX(w)) && p < Size(s)
    ensures RowVisitedBefore(w, k + 1, Coord(s, p))
        <==> RowVisitedBefore(w, k, Coord(s, p))
             || Offset(s, At(CollapseX(w), k)) <= p < Offset(s, At(CollapseX(w), k)) + s[0]
  {
    RowStart(s, w, k);
    RowSpan(s, At(CollapseX(w), k), p);
    VisitNextAt(CollapseX(w), k, Coord(s, p)[0 := 0]);
  }

  /** `cur` with the block starting at `lo` overwritten by `row`. */
  function Paste<T>(cur: seq<T>, row: seq<T>, lo: nat): (r: seq<T>)
    requires lo + |row| <= |cur|
    ensures |r| == |cur|
  {
    cur[..lo] + row + cur[lo + |row|..]
  }

  /** Each position of a paste comes from `row` inside the block and from
      `cur` outside it. */
  lemma PasteAt<T>(cur: seq<T>, row: seq<T>, lo: nat, p: nat)
    requires lo + |row| <= |cur| && p < |cur|
    ensures Paste(cur, row, lo)[p] == if lo <= p < lo + |row| then row[p - lo] else cur[p]
  {
  }

  /** `cur` with the block [lo, lo + n) taken from `want` at the same place. */
  ghost function Splice<T>(cur: seq<T>, want: seq<T>, lo: nat, n: nat): (r: seq<T>)
    requires lo + n <= |cur| && |want| == |cur|
    ensures |r| == |cur|
  {
    Paste(cur, want[lo..lo + n], lo)
  }

  lemma SpliceAt<T>(cur: seq<T>, want: seq<T>, lo: nat, n: nat, p: nat)
    requires lo + n <= |cur| && |want| == |cur| && p < |cur|
    ensures Splice(cur, want, lo, n)[p] == if lo <= p < lo + n then want[p] else cur[p]
  {
    PasteAt(cur, want[lo..lo + n], lo, p);
  }

  /** A block equal to the one of `want` at the same place pastes as the splice. */
  lemma PasteSame<T>(cur: seq<T>, want: seq<T>, row: seq<T>, lo: nat, n: nat)
    requires lo + n <= |cur| && |want| == |cur| && want[lo..lo + n] == row
    ensures Paste(cur, row, lo) == Splice(cur, want, lo, n)
  {
  }

  /** The buffer after the first `k` steps of the row loop over CollapseX(w). */
  ghost function RowsWritten<T>(s: Shape, w: Window, k: nat, before: seq<T>, want: seq<T>): (r: seq<T>)
    requires |s| >= 1 && |w| >= 1 && |before| == Size(s) && |want| == Size(s)
    ensures |r| == Size(s)
  {
    seq(Size(s), p requires 0 <= p < Size(s) => if RowVisitedBefore(w, k, Coord(s, p)) then want[p] else before[p])
  }

  /** Position `p` after step `k` of the row loop. */
  lemma RowsWrittenAt<T>(s: Shape, w: Window, k: nat, before: seq<T>, want: seq<T>, base: nat, p: nat)
    requires |s| >= 1 && WithinShape(w, s) && k < Count(CollapseX(w))
    requires |before| == Size(s) && |want| == Size(s) && p < Size(s)
    requires base == Offset(s, At(CollapseX(w), k))
    ensures RowsWritten(s, w, k + 1, before, want)[p]
         == if base <= p < base + s[0] then want[p] else RowsWritten(s, w, k, before, want)[p]
  {
    RowStepAt(s, w, k, p);
  }

  /** Step `k` of the row loop writes the whole row At(CollapseX(w), k), one
      contiguous block of s[0] positions, and nothing else. */
  lemma RowsWrittenStep<T>(s: Shape, w: Window, k: nat, before: seq<T>, want: seq<T>)
    requires |s| >= 1 && WithinShape(w, s) && k < Count(CollapseX(w))
    requires |before| == Size(s) && |want| == Size(s)
    ensures Offset(s, At(CollapseX(w), k)) + s[0] <= Size(s)
    ensures RowsWritten(s, w, k + 1, before, want)
         == Splice(RowsWritten(s, w, k, before, want), want, Offset(s, At(CollapseX(w), k)), s[0])
  {
    RowStart(s, w, k);
    var base := Offset(s, At(CollapseX(w), k));
    var cur := RowsWritten(s, w, k, before, want);
    var a, b := RowsWritten(s, w, k + 1, before, want), Splice(cur, want, base, s[0]);
    forall p | 0 <= p < Size(s)
      ensures a[p] == b[p]
    {
      RowsWrittenAt(s, w, k, before, want, base, p);
      SpliceAt(cur, want, base, s[0], p);
    }
  }

  /** Copying the row of `want` that step `k` visits, from wherever it is
      found, completes step `k`. */
  lemma RowsWrittenCopy<T>(s: Shape, w: Window, k: nat, before: seq<T>, want: seq<T>, row: seq<T>, base: nat, n: nat)
    requires |s| >= 1 && WithinShape(w, s) && k < Count(CollapseX(w))
    requires |before| == Size(s) && |want| == Size(s)
    requires base == Offset(s, At(CollapseX(w), k)) && n == s[0] && base + n <= Size(s)
    requires want[base..base + n] == row
    ensures Paste(RowsWritten(s, w, k, before, want), row, base) == RowsWritten(s, w, k + 1, before, want)
  {
    RowsWrittenStep(s, w, k, before, want);
    PasteSame(RowsWritten(s, w, k, before, want), want, row, base, s[0]);
  }

  /** When the row loop ends, exactly the rows of the window are written. */
  lemma RowsWrittenAll<T>(s: Shape, w: Window, before: seq<T>, want: seq<T>)
    requires |s| >= 1 && |w| >= 1 && |before| == Size(s) && |want| == Size(s)
    ensures RowsWritten(s, w, Count(CollapseX(w)), before, want) == RowsOver(s, w, before, want)
  {
    var a, b := RowsWritten(s, w, Count(CollapseX(w)), before, want), RowsOver(s, w, before, want);
    forall p | 0 <= p < Size(s)
      ensures a[p] == b[p]
    {
    }
  }
}
