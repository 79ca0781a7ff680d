/**
 * A shape: a 2-D array of tiles indexed by local (q, r), together with the
 * transform that places it in a parent grid.  A tile is an optional value;
 * the default tile is empty.  The constructor closure that produces tile
 * contents is modelled by `tiles`, whose k-th value is the tile the closure
 * returns on its k-th call.
 */
module HexShapes {
  import opened Prelude
  import opened HexCoordinate
  import CT = CoreTransform
  import opened ShapeInequality

  datatype ShapeArgs = ShapeArgs(size: nat, rotDir: int, squareBb: bool)

  /** The transform of a new shape: no translation, no rotation, unit scale. */
  function IdentityTransform(): (t: CT.Transform<Axial>)
    ensures t.translation == Axial(0, 0) && t.rotation == 0 && t.scale == CT.Splat(1)
  {
    CT.DefaultTransform(Axial(0, 0))
  }

  /** Array dimensions for bounds `b`: a square of the larger stride, or tight in each direction. */
  function BoxSize(b: Inequality, squareBb: bool): (size: (nat, nat))
    ensures size.0 > QStride(b) && size.1 > RStride(b)
    ensures squareBb ==> size.0 == size.1
  {
    if squareBb then (LargestStride(b) + 1, LargestStride(b) + 1)
    else (QStride(b) + 1, RStride(b) + 1)
  }

  /** The k-th hexagon's cell holds the k-th constructed tile; every other cell is the default tile. */
  ghost predicate Filled<T>(arr: array2<Option<T>>, hexes: seq<Axial>, tiles: nat -> Option<T>)
    reads arr
  {
    (forall k :: 0 <= k < |hexes| ==>
      0 <= hexes[k].q < arr.Length0 && 0 <= hexes[k].r < arr.Length1 && arr[hexes[k].q, hexes[k].r] == tiles(k)) &&
    (forall i, j :: 0 <= i < arr.Length0 && 0 <= j < arr.Length1 && Axial(i, j) !in hexes ==> arr[i, j] == None)
  }

  /**
   * What building a shape from `points` produces: the empty default shape for
   * no points; otherwise an array of `BoxSize` whose cells at the solution of
   * the points' inequalities hold constructed tiles, and the identity transform.
   */
  ghost predicate Shaped<T>(s: HexShape<T>, points: seq<Axial>, squareBb: bool, tiles: nat -> Option<T>)
    reads s, s.shape
  {
    s.transform == IdentityTransform() &&
    if |points| == 0 then s.shape.Length0 == 0 && s.shape.Length1 == 0
    else
      var b := BoundsOf(points);
      var size := BoxSize(b, squareBb);
      s.shape.Length0 == size.0 && s.shape.Length1 == size.1 && Filled(s.shape, Solve(b), tiles)
  }

  /** The transform after rotating the shape `rotDir` sixths of a turn about `coord`. */
  function RotatedAbout(t: CT.Transform<Axial>, coord: Axial, rotDir: int): CT.Transform<Axial>
  {
    t.(translation := Rotate(t.translation, Some(coord), rotDir), rotation := t.rotation + rotDir)
  }

  /**
   * Rotating about a point and then back by the opposite amount restores the
   * transform; rotating keeps the translation's distance to the pivot.
   */
  lemma RotatedAboutUndo(t: CT.Transform<Axial>, coord: Axial, rotDir: int)
    ensures RotatedAbout(RotatedAbout(t, coord, rotDir), coord, -rotDir) == t
    ensures Distance(RotatedAbout(t, coord, rotDir).translation, coord) == Distance(t.translation, coord)
  {
    RotateInverse(t.translation, Some(coord), rotDir);
    RotateDistanceToCenter(t.translation, Some(coord), rotDir);
  }

  /* ---------------------------------------------------------------- point lists */

  function LinePoints(size: int, rotDir: int): seq<Axial>
  {
    var a := Axial(0, 0);
    [a, MakeVector(a, size, rotDir)]
  }

  function TrianglePoints(size: int, rotDir: int): seq<Axial>
  {
    var a := Axial(0, 0);
    [a, MakeVector(a, size, rotDir), MakeVector(a, size, rotDir + 1)]
  }

  function RhombusPoints(size: int, rotDir: int): seq<Axial>
  {
    var a := Axial(0, 0);
    var b := MakeVector(a, size, rotDir);
    [a, b, MakeVector(a, size, rotDir + 1), MakeVector(b, size, rotDir + 1)]
  }

  /** The unit vector of direction k + 2 is the step from the unit vector of k to that of k + 1. */
  lemma AdjacentUnitStep(k: int)
    ensures Sub(MovementVector(DirectionFromInt(k + 1)), MovementVector(DirectionFromInt(k))) ==
            MovementVector(DirectionFromInt(k + 2))
  {
    var m := k % 6;
    NextResidue(k);
    NextResidue(k + 1);
    var d0, d1, d2 := DirectionFromInt(k), DirectionFromInt(k + 1), DirectionFromInt(k + 2);
    if m == 0 {
      assert d0 == Front && d1 == FrontRight && d2 == BackRight;
    } else if m == 1 {
      assert d0 == FrontRight && d1 == BackRight && d2 == Back;
    } else if m == 2 {
      assert d0 == BackRight && d1 == Back && d2 == BackLeft;
    } else if m == 3 {
      assert d0 == Back && d1 == BackLeft && d2 == FrontLeft;
    } else if m == 4 {
      assert d0 == BackLeft && d1 == FrontLeft && d2 == Front;
    } else {
      assert d0 == FrontLeft && d1 == Front && d2 == FrontRight;
    }
  }

  /** The residue modulo 6 of k + 1 follows that of k around the cycle. */
  lemma NextResidue(k: int)
    ensures (k + 1) % 6 == if k % 6 == 5 then 0 else k % 6 + 1
  {
  }

  /** A unit vector scaled by m has every cube component within |m|. */
  lemma ScaledUnitBounds(d: HexDirection, m: int)
    ensures var w := Mul(MovementVector(d), m);
      Abs(w.q) <= Abs(m) && Abs(w.r) <= Abs(m) && Abs(ComputeS(w)) <= Abs(m)
  {
  }

  /** The line's end is `size` away from its start. */
  lemma LineLength(size: int, rotDir: int)
    ensures var l := LinePoints(size, rotDir);
      Distance(l[0], l[1]) == Abs(size)
  {
    var l := LinePoints(size, rotDir);
    DistanceSymmetric(l[0], l[1]);
  }

  /** The bounding box of a line of size n from the origin has largest side n, so its square array is (n + 1) x (n + 1). */
  lemma LineBoxSide(size: nat, rotDir: int)
    ensures LargestStride(BoundsOf(LinePoints(size, rotDir))) == size
  {
    var pts := LinePoints(size, rotDir);
    assert pts[..1] == [Axial(0, 0)];
    assert BoundsOf(pts[..1]) == PointBounds(Axial(0, 0));
    assert pts[1] == Mul(MovementVector(DirectionFromInt(rotDir)), size) by {
      assert Sub(pts[1], Axial(0, 0)) == pts[1];
    }
    OriginPairStride(pts[1]);
    ScaledUnitOnAxis(DirectionFromInt(rotDir), size);
  }

  /** The largest stride of the origin and `e` is the larger of |e.q| and |e.r|. */
  lemma OriginPairStride(e: Axial)
    ensures LargestStride(Widen(PointBounds(Axial(0, 0)), e)) == Max(Abs(e.q), Abs(e.r))
  {
  }

  /** A unit vector scaled by a natural number lies on one of the six axes, that number out. */
  lemma ScaledUnitOnAxis(d: HexDirection, size: nat)
    ensures var e := Mul(MovementVector(d), size);
      Max(Abs(e.q), Abs(e.r)) == size
  {
    var n: int := size;
    match d
    case Front => assert Mul(MovementVector(d), n) == Axial(n, 0);
    case FrontRight => assert Mul(MovementVector(d), n) == Axial(0, n);
    case BackRight => assert Mul(MovementVector(d), n) == Axial(-n, n);
    case Back => assert Mul(MovementVector(d), n) == Axial(-n, 0);
    case BackLeft => assert Mul(MovementVector(d), n) == Axial(0, -n);
    case FrontLeft => assert Mul(MovementVector(d), n) == Axial(n, -n);
  }

  /** Scaling distributes over the difference of two vectors. */
  lemma MulSub(a: Axial, b: Axial, k: int)
    ensures Sub(Mul(a, k), Mul(b, k)) == Mul(Sub(a, b), k)
  {
    assert a.q * k - b.q * k == (a.q - b.q) * k;
    assert a.r * k - b.r * k == (a.r - b.r) * k;
  }

  /** The triangle is equilateral with side `size`. */
  lemma TriangleEquilateral(size: int, rotDir: int)
    ensures var t := TrianglePoints(size, rotDir);
      Distance(t[0], t[1]) == Abs(size) && Distance(t[0], t[2]) == Abs(size) && Distance(t[1], t[2]) == Abs(size)
  {
    var t := TrianglePoints(size, rotDir);
    var u := MovementVector(DirectionFromInt(rotDir + 2));
    assert Sub(t[2], t[1]) == Mul(u, size) by {
      var v0, v1 := MovementVector(DirectionFromInt(rotDir)), MovementVector(DirectionFromInt(rotDir + 1));
      assert Sub(t[2], t[1]) == Sub(Mul(v1, size), Mul(v0, size));
      MulSub(v1, v0, size);
      AdjacentUnitStep(rotDir);
    }
    assert Length(Mul(u, size)) == Abs(size) by {
      MulScalesLength(u, size);
      MovementVectorUnit(DirectionFromInt(rotDir + 2));
    }
    DistanceSymmetric(t[1], t[2]);
    DistanceSymmetric(t[0], t[1]);
    DistanceSymmetric(t[0], t[2]);
  }

  /** The rhombus is a parallelogram: opposite sides are the same vector, and its sides have length `size`. */
  lemma RhombusParallelogram(size: int, rotDir: int)
    ensures var r := RhombusPoints(size, rotDir);
      Sub(r[1], r[0]) == Sub(r[3], r[2]) && Sub(r[2], r[0]) == Sub(r[3], r[1]) &&
      Distance(r[0], r[1]) == Abs(size) && Distance(r[0], r[2]) == Abs(size)
  {
    var r := RhombusPoints(size, rotDir);
    DistanceSymmetric(r[0], r[1]);
    DistanceSymmetric(r[0], r[2]);
  }

  /** A point `m` steps from the origin fits `i32` when `m` does. */
  lemma OriginVectorInI32(m: int, rotDir: int)
    requires 0 <= m <= I32Max
    ensures PointInI32(MakeVector(Axial(0, 0), m, rotDir))
  {
    ScaledUnitBounds(DirectionFromInt(rotDir), m);
  }

  /** The far corner of a rhombus fits `i32` when twice its size does. */
  lemma RhombusCornerInI32(m: int, rotDir: int)
    requires 0 <= m <= I32Max / 2
    ensures PointInI32(RhombusPoints(m, rotDir)[3])
  {
    var r := RhombusPoints(m, rotDir);
    ScaledUnitBounds(DirectionFromInt(rotDir), m);
    ScaledUnitBounds(DirectionFromInt(rotDir + 1), m);
    assert r[3] == Add(r[1], Mul(MovementVector(DirectionFromInt(rotDir + 1)), m));
  }

  /** The ends of a line of size below 2^31 fit `i32`. */
  lemma LinePointsInI32(size: int, rotDir: int)
    requires 0 <= size <= I32Max
    ensures forall p :: p in LinePoints(size, rotDir) ==> PointInI32(p)
  {
    OriginVectorInI32(size, rotDir);
  }

  /** The corners of a triangle of size below 2^31 fit `i32`. */
  lemma TrianglePointsInI32(size: int, rotDir: int)
    requires 0 <= size <= I32Max
    ensures forall p :: p in TrianglePoints(size, rotDir) ==> PointInI32(p)
  {
    OriginVectorInI32(size, rotDir);
    OriginVectorInI32(size, rotDir + 1);
  }

  /** The corners of a rhombus of size below 2^30 fit `i32`. */
  lemma RhombusPointsInI32(size: int, rotDir: int)
    requires 0 <= size <= I32Max / 2
    ensures forall p :: p in RhombusPoints(size, rotDir) ==> PointInI32(p)
  {
    OriginVectorInI32(size, rotDir);
    OriginVectorInI32(size, rotDir + 1);
    RhombusCornerInI32(size, rotDir);
  }

  /* ---------------------------------------------------------------- the shape */

  class HexShape<T> {
    var shape: array2<Option<T>>
    var transform: CT.Transform<Axial>

    /** A shape from an optional array and transform; absent parts take their defaults. */
    constructor (hexArray: Option<array2<Option<T>>>, transform: Option<CT.Transform<Axial>>)
      ensures hexArray.Some? ==> shape == hexArray.value
      ensures hexArray.None? ==> fresh(shape) && shape.Length0 == 0 && shape.Length1 == 0
      ensures this.transform == if transform.Some? then transform.value else IdentityTransform()
    {
      if hexArray.Some? {
        shape := hexArray.value;
      } else {
        shape := new Option<T>[0, 0]((i, j) => None);
      }
      this.transform := if transform.Some? then transform.value else IdentityTransform();
    }

    /** Writes the k-th constructed tile into the cell of the k-th hexagon; `hexes` has no repeats. */
    static method FillCells(arr: array2<Option<T>>, hexes: seq<Axial>, tiles: nat -> Option<T>)
      requires forall k :: 0 <= k < |hexes| ==> 0 <= hexes[k].q < arr.Length0 && 0 <= hexes[k].r < arr.Length1
      requires Ascending(hexes)
      requires forall i, j :: 0 <= i < arr.Length0 && 0 <= j < arr.Length1 ==> arr[i, j] == None
      modifies arr
      ensures Filled(arr, hexes, tiles)
    {
      for n := 0 to |hexes|
        invariant forall k :: 0 <= k < n ==> arr[hexes[k].q, hexes[k].r] == tiles(k)
        invariant forall i, j :: 0 <= i < arr.Length0 && 0 <= j < arr.Length1 && Axial(i, j) !in hexes[..n] ==>
          arr[i, j] == None
      {
        var coord := hexes[n];
        assert forall k :: 0 <= k < n ==> Before(hexes[k], coord);
        arr[coord.q, coord.r] := tiles(n);
        assert hexes[..n + 1] == hexes[..n] + [coord];
      }
      assert hexes[..|hexes|] == hexes;
    }

    /**
     * Builds a shape from the inequalities of `points`: every solution
     * hexagon's cell receives the next constructed tile, all other cells stay
     * default; no points give the default empty shape.
     */
    static method MakeShape(points: seq<Axial>, squareBb: bool, tiles: nat -> Option<T>) returns (s: HexShape<T>)
      requires forall p :: p in points ==> PointInI32(p)
      ensures fresh(s) && fresh(s.shape)
      ensures Shaped(s, points, squareBb, tiles)
    {
      if |points| == 0 {
        s := new HexShape(None, None);
        return;
      }
      var transform := IdentityTransform();
      var ineq := NewInequality(points);
      var b := ineq.value;
      var hexes := Solve(b);
      var size := BoxSize(b, squareBb);
      var arr := new Option<T>[size.0, size.1]((i, j) => None);
      SolveMembers(b);
      SolveWithinStrides(b);
      FillCells(arr, hexes, tiles);
      s := new HexShape(Some(arr), Some(transform));
    }

    /** A line from the origin, `size` steps in direction `rotDir`. */
    static method Line(args: ShapeArgs, tiles: nat -> Option<T>) returns (s: HexShape<T>)
      requires args.size <= I32Max
      ensures fresh(s) && Shaped(s, LinePoints(args.size, args.rotDir), args.squareBb, tiles)
    {
      var vertexA := Axial(0, 0);
      var vertexB := MakeVector(vertexA, args.size, args.rotDir);
      var points := [vertexA, vertexB];
      assert points == LinePoints(args.size, args.rotDir);
      LinePointsInI32(args.size, args.rotDir);
      s := MakeShape(points, args.squareBb, tiles);
    }

    /** A triangle with corners at the origin and `size` steps along directions `rotDir` and `rotDir + 1`. */
    static method Triangle(args: ShapeArgs, tiles: nat -> Option<T>) returns (s: HexShape<T>)
      requires args.size <= I32Max
      ensures fresh(s) && Shaped(s, TrianglePoints(args.size, args.rotDir), args.squareBb, tiles)
    {
      var vertexA := Axial(0, 0);
      var vertexB := MakeVector(vertexA, args.size, args.rotDir);
      var vertexC := MakeVector(vertexA, args.size, args.rotDir + 1);
      var points := [vertexA, vertexB, vertexC];
      assert points == TrianglePoints(args.size, args.rotDir);
      TrianglePointsInI32(args.size, args.rotDir);
      s := MakeShape(points, args.squareBb, tiles);
    }

    /** A rhombus: the triangle's corners and the fourth corner of the parallelogram. */
    static method Rhombus(args: ShapeArgs, tiles: nat -> Option<T>) returns (s: HexShape<T>)
      requires args.size <= I32Max / 2
      ensures fresh(s) && Shaped(s, RhombusPoints(args.size, args.rotDir), args.squareBb, tiles)
    {
      var vertexA := Axial(0, 0);
      var vertexB := MakeVector(vertexA, args.size, args.rotDir);
      var vertexC := MakeVector(vertexA, args.size, args.rotDir + 1);
      var vertexD := MakeVector(vertexB, args.size, args.rotDir + 1);
      var points := [vertexA, vertexB, vertexC, vertexD];
      assert points == RhombusPoints(args.size, args.rotDir);
      RhombusPointsInI32(args.size, args.rotDir);
      s := MakeShape(points, args.squareBb, tiles);
    }

    /** Moves the shape by `coord`: only the translation changes. */
    method Translate(coord: Axial)
      modifies this
      ensures transform == old(transform).(translation := Add(old(transform.translation), coord))
      ensures shape == old(shape)
    {
      transform := transform.(translation := Add(transform.translation, coord));
    }

    /** Rotates the shape about `coord`: the translation turns about `coord` and the rotation count grows by `rotDir`. */
    method RotateAbout(coord: Axial, rotDir: int)
      modifies this
      ensures transform == RotatedAbout(old(transform), coord, rotDir)
      ensures shape == old(shape)
    {
      transform := transform.(translation := Rotate(transform.translation, Some(coord), rotDir));
      transform := transform.(rotation := transform.rotation + rotDir);
    }

    /** Rotates about `coord` when given; otherwise only the rotation count changes. */
    method RotateOptional(coord: Option<Axial>, rotDir: int)
      modifies this
      ensures coord.Some? ==> transform == RotatedAbout(old(transform), coord.value, rotDir)
      ensures coord.None? ==> transform == old(transform).(rotation := old(transform.rotation) + rotDir)
      ensures shape == old(shape)
    {
      match coord
      case Some(c) =>
        RotateAbout(c, rotDir);
      case None =>
        transform := transform.(rotation := transform.rotation + rotDir);
    }

    /** The tile array itself, shared rather than copied. */
    function GetHexes(): (view: array2<Option<T>>)
      reads this
      ensures view == shape
    {
      shape
    }
  }
}
