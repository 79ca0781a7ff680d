/**
 * Shapes described by a system of linear inequalities over the three cube
 * components: the bounds are the smallest and largest q, r and s of a list of
 * points, and the shape is every hexagon within all six bounds, shifted so that
 * (q_min, r_min) becomes the origin of the shape's tile array.
 */
module ShapeInequality {
  import opened Prelude
  import opened HexCoordinate

  const I32Min: int := -0x8000_0000
  const I32Max: int := 0x7fff_ffff

  /** A coordinate whose three cube components all fit Rust's `i32`. */
  predicate PointInI32(p: Axial)
  {
    I32Min <= p.q <= I32Max && I32Min <= p.r <= I32Max && I32Min <= ComputeS(p) <= I32Max
  }

  datatype InequalityError = EmptyInputArray

  datatype Inequality = Inequality(qMin: int, qMax: int, rMin: int, rMax: int, sMin: int, sMax: int)

  /** The bounds of the single point `p`. */
  function PointBounds(p: Axial): Inequality
  {
    Inequality(p.q, p.q, p.r, p.r, ComputeS(p), ComputeS(p))
  }

  /** Bounds `b` widened just enough to take in `p`. */
  function Widen(b: Inequality, p: Axial): Inequality
  {
    var s := ComputeS(p);
    Inequality(Min(b.qMin, p.q), Max(b.qMax, p.q), Min(b.rMin, p.r), Max(b.rMax, p.r), Min(b.sMin, s), Max(b.sMax, s))
  }

  /** The tightest bounds of a non-empty list of points. */
  function BoundsOf(points: seq<Axial>): Inequality
    requires |points| > 0
    decreases |points|
  {
    if |points| == 1 then PointBounds(points[0])
    else Widen(BoundsOf(points[..|points| - 1]), points[|points| - 1])
  }

  /** `p` satisfies all six inequalities of `b`. */
  predicate Contains(b: Inequality, p: Axial)
  {
    b.qMin <= p.q <= b.qMax && b.rMin <= p.r <= b.rMax && b.sMin <= ComputeS(p) <= b.sMax
  }

  /** Every bound of `b` is the component of some point of `points`. */
  predicate Attained(b: Inequality, points: seq<Axial>)
  {
    (exists p :: p in points && p.q == b.qMin) && (exists p :: p in points && p.q == b.qMax) &&
    (exists p :: p in points && p.r == b.rMin) && (exists p :: p in points && p.r == b.rMax) &&
    (exists p :: p in points && ComputeS(p) == b.sMin) && (exists p :: p in points && ComputeS(p) == b.sMax)
  }

  /** The bounds hold for every point. */
  lemma {:induction false} BoundsOfContains(points: seq<Axial>)
    requires |points| > 0
    ensures forall p :: p in points ==> Contains(BoundsOf(points), p)
    decreases |points|
  {
    if |points| > 1 {
      var init, last := points[..|points| - 1], points[|points| - 1];
      assert points == init + [last];
      BoundsOfContains(init);
    }
  }

  /** Each bound is reached by some point, so no tighter bounds exist. */
  lemma {:induction false} BoundsOfAttained(points: seq<Axial>)
    requires |points| > 0
    ensures Attained(BoundsOf(points), points)
    decreases |points|
  {
    if |points| == 1 {
      assert points[0] in points;
    } else {
      var init, last := points[..|points| - 1], points[|points| - 1];
      assert points == init + [last];
      BoundsOfAttained(init);
      assert last in points;
      forall p | p in init
        ensures p in points
      {
      }
    }
  }

  /**
   * The bounds of `points`, or `EmptyInputArray` for an empty list; the six
   * running minima and maxima start from the extreme `i32` values.
   */
  method NewInequality(points: seq<Axial>) returns (r: Result<Inequality, InequalityError>)
    requires forall p :: p in points ==> PointInI32(p)
    ensures r.Err? <==> |points| == 0
    ensures r.Ok? ==> r.value == BoundsOf(points)
  {
    if |points| == 0 {
      return Err(EmptyInputArray);
    }
    var qMin, qMax, rMin, rMax, sMin, sMax := I32Max, I32Min, I32Max, I32Min, I32Max, I32Min;
    for i := 0 to |points|
      invariant i == 0 ==> qMin == I32Max && qMax == I32Min && rMin == I32Max && rMax == I32Min && sMin == I32Max && sMax == I32Min
      invariant i > 0 ==> Inequality(qMin, qMax, rMin, rMax, sMin, sMax) == BoundsOf(points[..i])
    {
      var point := points[i];
      assert point in points;
      assert points[..i + 1][..i] == points[..i];
      qMin := Min(qMin, point.q);
      qMax := Max(qMax, point.q);
      rMin := Min(rMin, point.r);
      rMax := Max(rMax, point.r);
      var s := ComputeS(point);
      sMin := Min(sMin, s);
      sMax := Max(sMax, s);
    }
    assert points[..|points|] == points;
    return Ok(Inequality(qMin, qMax, rMin, rMax, sMin, sMax));
  }

  /* ---------------------------------------------------------------- solve */

  /** The lowest and highest r of column q: within r's own bounds and with s = -q - r within its bounds. */
  function RowLow(b: Inequality, q: int): int
  {
    Max(b.rMin, -q - b.sMax)
  }

  function RowHigh(b: Inequality, q: int): int
  {
    Min(b.rMax, -q - b.sMin)
  }

  /** Column q of the solution, shifted by (-q_min, -r_min), in increasing r. */
  function Row(b: Inequality, q: int): seq<Axial>
  {
    var lo, hi := RowLow(b, q), RowHigh(b, q);
    if hi < lo then [] else seq(hi - lo + 1, i => Axial(q - b.qMin, lo + i - b.rMin))
  }

  /** Columns q .. q_max of the solution. */
  function SolveFrom(b: Inequality, q: int): seq<Axial>
    decreases b.qMax - q
  {
    if q > b.qMax then [] else Row(b, q) + SolveFrom(b, q + 1)
  }

  /** Every hexagon within the six bounds, shifted by (-q_min, -r_min), ordered by q, then r. */
  function Solve(b: Inequality): seq<Axial>
  {
    SolveFrom(b, b.qMin)
  }

  /** The unshifted hexagon that the shifted solution element `c` stands for. */
  function Unshift(b: Inequality, c: Axial): Axial
  {
    Axial(c.q + b.qMin, c.r + b.rMin)
  }

  lemma RowMembers(b: Inequality, q: int)
    ensures forall c :: c in Row(b, q) <==> c.q == q - b.qMin && RowLow(b, q) <= c.r + b.rMin <= RowHigh(b, q)
    ensures Ascending(Row(b, q))
  {
    var lo, hi := RowLow(b, q), RowHigh(b, q);
    var row := Row(b, q);
    forall c: Axial | c.q == q - b.qMin && lo <= c.r + b.rMin <= hi
      ensures c in row
    {
      assert row[c.r + b.rMin - lo] == c;
    }
  }

  lemma {:induction false} SolveFromMembers(b: Inequality, q: int)
    requires b.qMin <= q
    ensures forall c :: c in SolveFrom(b, q) <==> q <= c.q + b.qMin && Contains(b, Unshift(b, c))
    ensures Ascending(SolveFrom(b, q))
    decreases b.qMax - q
  {
    if q <= b.qMax {
      var row, rest := Row(b, q), SolveFrom(b, q + 1);
      RowMembers(b, q);
      SolveFromMembers(b, q + 1);
      forall c: Axial
        ensures c in row + rest <==> q <= c.q + b.qMin && Contains(b, Unshift(b, c))
      {
        assert c in row + rest <==> c in row || c in rest;
      }
      forall i, j | 0 <= i < j < |row + rest|
        ensures Before((row + rest)[i], (row + rest)[j])
      {
        if j >= |row| && i < |row| {
          assert row[i] in row && rest[j - |row|] in rest;
        }
      }
    }
  }

  /** `Solve` holds exactly the shifted hexagons that satisfy all six inequalities, without repetition and in order. */
  lemma SolveMembers(b: Inequality)
    ensures forall c :: c in Solve(b) <==> Contains(b, Unshift(b, c))
    ensures Ascending(Solve(b))
  {
    SolveFromMembers(b, b.qMin);
  }

  function QStride(b: Inequality): nat
  {
    Abs(b.qMax - b.qMin)
  }

  function RStride(b: Inequality): nat
  {
    Abs(b.rMax - b.rMin)
  }

  function LargestStride(b: Inequality): nat
  {
    Max(QStride(b), RStride(b))
  }

  /** Every element of the solution indexes a cell of a (q_stride + 1) x (r_stride + 1) array. */
  lemma SolveWithinStrides(b: Inequality)
    ensures forall c :: c in Solve(b) ==> 0 <= c.q <= QStride(b) && 0 <= c.r <= RStride(b)
    ensures LargestStride(b) >= QStride(b) && LargestStride(b) >= RStride(b)
  {
    SolveMembers(b);
  }

  /** Every input point, shifted by (-q_min, -r_min), belongs to the solution of its own bounds. */
  lemma PointsInSolve(points: seq<Axial>)
    requires |points| > 0
    ensures var b := BoundsOf(points);
      forall p :: p in points ==> Axial(p.q - b.qMin, p.r - b.rMin) in Solve(b)
  {
    var b := BoundsOf(points);
    BoundsOfContains(points);
    SolveMembers(b);
    forall p | p in points
      ensures Axial(p.q - b.qMin, p.r - b.rMin) in Solve(b)
    {
      assert Unshift(b, Axial(p.q - b.qMin, p.r - b.rMin)) == p;
    }
  }
}

/**
 * The free shape constructors: the same inequality construction as
 * `HexShape.MakeShape`, always with a square array of side largest stride + 1.
 */
module ShapeConstructors {
  import opened Prelude
  import opened HexCoordinate
  import opened ShapeInequality
  import opened HexShapes

  /** Size and direction of a constructed shape; the array is always square. */
  datatype ConstructorArgs = ConstructorArgs(size: nat, rotDir: int)

  /** The shape of `points` with a square tile array; the default empty shape for no points. */
  method MakeShape<T>(points: seq<Axial>, tiles: nat -> Option<T>) returns (s: HexShape<T>)
    requires forall p :: p in points ==> PointInI32(p)
    ensures fresh(s) && Shaped(s, points, true, tiles)
    ensures |points| > 0 ==> s.shape.Length0 == s.shape.Length1 == LargestStride(BoundsOf(points)) + 1
  {
    s := HexShape.MakeShape(points, true, tiles);
  }

  method Line<T>(args: ConstructorArgs, tiles: nat -> Option<T>) returns (s: HexShape<T>)
    requires args.size <= I32Max
    ensures fresh(s) && Shaped(s, LinePoints(args.size, args.rotDir), true, tiles)
  {
    var vertexA := Axial(0, 0);
    var vertexB := MakeVector(vertexA, args.size, args.rotDir);
    var points := [vertexA, vertexB];
    assert points == LinePoints(args.size, args.rotDir);
    LinePointsInI32(args.size, args.rotDir);
    s := MakeShape(points, tiles);
  }

  method Triangle<T>(args: ConstructorArgs, tiles: nat -> Option<T>) returns (s: HexShape<T>)
    requires args.size <= I32Max
    ensures fresh(s) && Shaped(s, TrianglePoints(args.size, args.rotDir), true, tiles)
  {
    var vertexA := Axial(0, 0);
    var vertexB := MakeVector(vertexA, args.size, args.rotDir);
    var vertexC := MakeVector(vertexA, args.size, args.rotDir + 1);
    var points := [vertexA, vertexB, vertexC];
    assert points == TrianglePoints(args.size, args.rotDir);
    TrianglePointsInI32(args.size, args.rotDir);
    s := MakeShape(points, tiles);
  }

  method Rhombus<T>(args: ConstructorArgs, tiles: nat -> Option<T>) returns (s: HexShape<T>)
    requires args.size <= I32Max / 2
    ensures fresh(s) && Shaped(s, RhombusPoints(args.size, args.rotDir), true, tiles)
  {
    var vertexA := Axial(0, 0);
    var vertexB := MakeVector(vertexA, args.size, args.rotDir);
    var vertexC := MakeVector(vertexA, args.size, args.rotDir + 1);
    var vertexD := MakeVector(vertexB, args.size, args.rotDir + 1);
    var points := [vertexA, vertexB, vertexC, vertexD];
    assert points == RhombusPoints(args.size, args.rotDir);
    RhombusPointsInI32(args.size, args.rotDir);
    s := MakeShape(points, tiles);
  }
}
