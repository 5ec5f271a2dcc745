/** Dense tensor addressing: shapes, coordinates and the flat offset of a coordinate.
    Dimension 0 varies fastest in memory, as in TensorShape and Coordinates. */
module Shapes {

  /** The extents of a tensor, dimension 0 first. */
  type Shape = seq<nat>

  /** A position in a tensor, one component per dimension. */
  type Coordinates = seq<nat>

  /** Product of the extents. */
  function Size(s: Shape): nat
  {
    if |s| == 0 then 1 else s[0] * Size(s[1..])
  }

  /** A shape holds no element exactly when one of its extents is 0. */
  lemma {:induction false} SizeZero(s: Shape)
    ensures Size(s) == 0 <==> exists d :: 0 <= d < |s| && s[d] == 0
  {
    if |s| > 0 {
      SizeZero(s[1..]);
      if Size(s) == 0 && s[0] != 0 {
        var d :| 0 <= d < |s[1..]| && s[1..][d] == 0;
        assert s[d + 1] == 0;
      }
      if s[0] != 0 && exists d :: 0 <= d < |s| && s[d] == 0 {
        var d :| 0 <= d < |s| && s[d] == 0;
        assert s[1..][d - 1] == 0;
      }
    }
  }

  /** TensorShape::total_size(): the number of elements; a shape without
      dimensions, or with an extent 0, holds none. */
  function ElementCount(s: Shape): (n: nat)
    ensures |s| >= 1 ==> n == Size(s)
    ensures n == 0 <==> |s| == 0 || exists d :: 0 <= d < |s| && s[d] == 0
  {
    SizeZero(s);
    if |s| == 0 then 0 else Size(s)
  }

  /** `c` names an element of a tensor of shape `s`. */
  predicate InBounds(s: Shape, c: Coordinates)
  {
    |c| == |s| && forall d :: 0 <= d < |s| ==> c[d] < s[d]
  }

  lemma MulLeft(a: nat, b: nat, c: nat)
    requires b <= c
    ensures a * b <= a * c
  {
  }

  lemma InBoundsTail(s: Shape, c: Coordinates)
    requires |s| >= 1 && InBounds(s, c)
    ensures InBounds(s[1..], c[1..])
  {
    forall d | 0 <= d < |s| - 1
      ensures c[1..][d] < s[1..][d]
    {
      assert c[1..][d] == c[d + 1] && s[1..][d] == s[d + 1];
    }
  }

  /** Flat position of `c` in a dense tensor of shape `s`. */
  function Offset(s: Shape, c: Coordinates): (p: nat)
    requires |c| == |s|
    ensures InBounds(s, c) ==> p < Size(s)
  {
    if |s| == 0 then 0
    else
      var rest := Offset(s[1..], c[1..]);
      OffsetStepBound(s, c, rest);
      c[0] + s[0] * rest
  }

  /** One step of Offset stays below Size when the coordinates are in bounds. */
  lemma OffsetStepBound(s: Shape, c: Coordinates, rest: nat)
    requires |s| >= 1 && |c| == |s|
    requires InBounds(s[1..], c[1..]) ==> rest < Size(s[1..])
    ensures InBounds(s, c) ==> c[0] + s[0] * rest < Size(s)
  {
    if InBounds(s, c) {
      InBoundsTail(s, c);
      MulLeft(s[0], rest, Size(s[1..]) - 1);
    }
  }

  /** Offset unfolded once: the first component plus the first extent times
      the offset of the rest. */
  lemma HeadOffset(s: Shape, c: Coordinates)
    requires |s| >= 1 && |c| == |s|
    ensures Offset(s, c) == c[0] + s[0] * Offset(s[1..], c[1..])
  {
  }

  lemma DivBelow(p: nat, a: nat, b: nat)
    requires p < a * b
    ensures a > 0 && p / a < b
  {
    if p / a >= b {
      MulLeft(a, b, p / a);
    }
  }

  lemma DivModOfSum(r: nat, a: nat, q: nat)
    requires r < a
    ensures (r + a * q) / a == q && (r + a * q) % a == r
  {
    var x := r + a * q;
    var q', r' := x / a, x % a;
    var d := q' - q;
    MulSub(a, q', q);
    assert a * d == r - r';
    if d != 0 {
      MulAtLeast(a, d);
    }
  }

  lemma MulSub(a: int, b: int, c: int)
    ensures a * b - a * c == a * (b - c)
  {
  }

  lemma MulAtLeast(a: int, d: int)
    requires a > 0 && d != 0
    ensures a * d >= a || a * d <= -a
  {
    if d > 0 {
      MulLeft(a, 1, d);
    } else {
      MulLeft(a, 1, -d);
    }
  }

  /** The coordinates of flat position `p`: the inverse of Offset. */
  function Coord(s: Shape, p: nat): (c: Coordinates)
    requires p < Size(s)
    ensures InBounds(s, c) && Offset(s, c) == p
  {
    if |s| == 0 then []
    else
      DivBelow(p, s[0], Size(s[1..]));
      var tail := Coord(s[1..], p / s[0]);
      var c := [p % s[0]] + tail;
      assert c[1..] == tail;
      HeadOffset(s, c);
      c
  }

  /** Offset is injective on in-bounds coordinates: Coord undoes it. */
  lemma {:induction false} CoordOfOffset(s: Shape, c: Coordinates)
    requires InBounds(s, c)
    ensures Coord(s, Offset(s, c)) == c
  {
    if |s| > 0 {
      InBoundsTail(s, c);
      var rest := Offset(s[1..], c[1..]);
      DivModOfSum(c[0], s[0], rest);
      CoordOfOffset(s[1..], c[1..]);
      assert Coord(s, Offset(s, c)) == [c[0]] + c[1..];
    }
  }

  /** Offset and Coord are mutually inverse bijections between the in-bounds
      coordinates of `s` and the flat positions below Size(s). */
  lemma SamePosition(s: Shape, c: Coordinates, p: nat)
    requires InBounds(s, c) && p < Size(s)
    ensures p == Offset(s, c) <==> Coord(s, p) == c
  {
    CoordOfOffset(s, c);
  }

  /** Moving along dimension 0 moves the flat position by the same amount:
      the elements of one row are contiguous. */
  lemma RowOffset(s: Shape, c: Coordinates, j: nat)
    requires |s| >= 1 && |c| == |s|
    ensures Offset(s, c[0 := j]) == Offset(s, c) - c[0] + j
  {
    assert c[0 := j][1..] == c[1..];
  }

  /** A row starting at dimension-0 position 0, inside the other extents, lies
      entirely within the tensor. */
  lemma RowFits(s: Shape, r: Coordinates)
    requires |s| >= 1 && |r| == |s| && r[0] == 0
    requires forall d :: 1 <= d < |s| ==> r[d] < s[d]
    ensures Offset(s, r) + s[0] <= Size(s)
  {
    if s[0] > 0 {
      RowOffset(s, r, s[0] - 1);
      assert InBounds(s, r[0 := s[0] - 1]);
    }
  }

  /** Position `p`, element `j` of the row starting at `r`, has coordinates
      r[0 := j]. */
  lemma RowCoord(s: Shape, r: Coordinates, j: nat, p: nat)
    requires |s| >= 1 && |r| == |s| && r[0] == 0 && j < s[0]
    requires forall d :: 1 <= d < |s| ==> r[d] < s[d]
    requires p == Offset(s, r) + j
    ensures InBounds(s, r[0 := j]) && p < Size(s)
    ensures Coord(s, p) == r[0 := j]
  {
    var c := r[0 := j];
    assert InBounds(s, c) by {
      forall d | 0 <= d < |s|
        ensures c[d] < s[d]
      {
        if d > 0 {
          assert c[d] == r[d];
        }
      }
    }
    RowOffset(s, r, j);
    assert Offset(s, c) == p;
    CoordOfOffset(s, c);
  }

  lemma MulAssoc(a: nat, b: nat, c: nat)
    ensures a * (b * c) == a * b * c
  {
  }

  lemma {:induction false} SizeOfConcat(a: Shape, b: Shape)
    ensures Size(a + b) == Size(a) * Size(b)
  {
    if |a| > 0 {
      assert (a + b)[1..] == a[1..] + b;
      SizeOfConcat(a[1..], b);
      calc {
        Size(a + b);
        a[0] * Size(a[1..] + b);
        a[0] * (Size(a[1..]) * Size(b));
        { MulAssoc(a[0], Size(a[1..]), Size(b)); }
        a[0] * Size(a[1..]) * Size(b);
      }
    } else {
      assert a + b == b;
    }
  }

  /** The flat position of a coordinate split into a leading part (over the
      shape `a`) and a trailing part (over `b`). */
  lemma {:induction false} OffsetOfConcat(a: Shape, b: Shape, x: Coordinates, y: Coordinates)
    requires |x| == |a| && |y| == |b|
    ensures Offset(a + b, x + y) == Offset(a, x) + Size(a) * Offset(b, y)
  {
    if |a| > 0 {
      var u, o, sz := Offset(a[1..], x[1..]), Offset(b, y), Size(a[1..]);
      var t := Offset((a + b)[1..], (x + y)[1..]);
      assert t == u + (sz as int) * o by {
        assert (a + b)[1..] == a[1..] + b;
        assert (x + y)[1..] == x[1..] + y;
        OffsetOfConcat(a[1..], b, x[1..], y);
      }
      HeadOffset(a + b, x + y);
      HeadOffset(a, x);
      HornerStep(Offset(a + b, x + y), x[0], a[0], t, u, sz, o, Offset(a, x), Size(a));
    } else {
      assert a + b == b && x + y == y;
    }
  }

  /** One Horner step of Offset over a split shape, on plain numbers. */
  lemma HornerStep(whole: nat, x0: nat, a0: nat, t: nat, u: nat, sz: nat, o: nat, head: nat, size: nat)
    requires whole == x0 + a0 * t && t == u + sz * o
    requires head == x0 + a0 * u && size == a0 * sz
    ensures whole == head + size * o
  {
    MulDist(a0, u, sz * o);
    MulAssoc(a0, sz, o);
  }

  lemma MulDist(a: nat, b: nat, c: nat)
    ensures a * (b + c) == a * b + a * c
  {
  }

  /** A dense tensor value: its shape and its elements in flat order
      (SimpleTensor, or a snapshot of a tensor's buffer). */
  datatype DenseTensor<T> = DenseTensor(shape: Shape, data: seq<T>)
  {
    predicate WellFormed()
    {
      |shape| >= 1 && |data| == Size(shape)
    }

    /** The element at coordinates `c`. */
    function Get(c: Coordinates): T
      requires WellFormed() && InBounds(shape, c)
    {
      data[Offset(shape, c)]
    }
  }
}
