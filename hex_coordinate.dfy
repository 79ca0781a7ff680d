/**
 * Axial coordinates of a hexagonal grid (`Axial`, `HexDirection`, `Axes`)
 * with their arithmetic, distance, neighbourhoods, reflections and
 * rotations. The third cube component is always `s = -q - r`.
 */
module HexCoordinate {
  import opened Prelude
  import CT = CoreTransform

  datatype Axial = Axial(q: int, r: int)

  const Origin := Axial(0, 0)

  /** The six neighbour directions, clockwise starting from positive q. */
  datatype HexDirection = Front | FrontRight | BackRight | Back | BackLeft | FrontLeft

  /** The three axes of symmetry used by reflection. */
  datatype Axes = Q | R | S

  /** Conversion from an integer: the integer is taken modulo 6 (Euclidean remainder). */
  function DirectionFromInt(value: int): HexDirection
  {
    match value % 6
    case 0 => Front
    case 1 => FrontRight
    case 2 => BackRight
    case 3 => Back
    case 4 => BackLeft
    case _ => FrontLeft
  }

  /** Conversion to an integer; it is the inverse of `DirectionFromInt` on 0..5. */
  function DirectionToInt(d: HexDirection): (i: int)
    ensures 0 <= i < 6
    ensures DirectionFromInt(i) == d
  {
    match d
    case Front => 0
    case FrontRight => 1
    case BackRight => 2
    case Back => 3
    case BackLeft => 4
    case FrontLeft => 5
  }

  /** Every integer names the direction of its remainder modulo 6. */
  lemma DirectionFromIntPeriodic(value: int)
    ensures DirectionFromInt(value + 6) == DirectionFromInt(value)
    ensures DirectionToInt(DirectionFromInt(value)) == value % 6
  {
  }

  /* ---------------------------------------------------------------- arithmetic */

  /** The implicit third cube component. */
  function ComputeS(a: Axial): int
  {
    -a.q - a.r
  }

  function Add(a: Axial, b: Axial): Axial
  {
    Axial(a.q + b.q, a.r + b.r)
  }

  function Sub(a: Axial, b: Axial): Axial
  {
    Axial(a.q - b.q, a.r - b.r)
  }

  function Neg(a: Axial): Axial
  {
    Axial(-a.q, -a.r)
  }

  /** Scaling by an integer. */
  function Mul(a: Axial, k: int): Axial
  {
    Axial(a.q * k, a.r * k)
  }

  /** Scaling a vector scales its length by the absolute factor. */
  lemma MulScalesLength(a: Axial, k: int)
    ensures Length(Mul(a, k)) == Abs(k) * Length(a)
  {
    MulLength(a, k);
  }

  /**
   * Division by an integer, truncating each component toward zero: each component of the
   * result is the largest multiple of k not beyond the dividend, with the sign of the exact
   * quotient. A zero divisor panics in the source.
   */
  function Div(a: Axial, k: int): (d: Axial)
    requires k != 0
    ensures Abs(d.q) == Abs(a.q) / Abs(k) && d.q * a.q * k >= 0
    ensures Abs(d.r) == Abs(a.r) / Abs(k) && d.r * a.r * k >= 0
    ensures Abs(d.q * k) <= Abs(a.q) < Abs(d.q * k) + Abs(k)
    ensures Abs(d.r * k) <= Abs(a.r) < Abs(d.r * k) + Abs(k)
  {
    TruncDivBound(a.q, k);
    TruncDivBound(a.r, k);
    TruncDivMagnitude(a.q, k);
    TruncDivMagnitude(a.r, k);
    Axial(TruncDiv(a.q, k), TruncDiv(a.r, k))
  }

  /** Division undoes scaling by the same non-zero factor. */
  lemma DivUndoesMul(a: Axial, k: int)
    requires k != 0
    ensures Div(Mul(a, k), k) == a
  {
    TruncDivOfMultiple(a.q, k);
    TruncDivOfMultiple(a.r, k);
  }

  /** The examples of the division test: exact (4, 2) / 2 and truncating (41, 23) / 6. */
  lemma DivExample()
    ensures Div(Axial(4, 2), 2) == Axial(2, 1)
    ensures Div(Axial(41, 23), 6) == Axial(6, 3)
  {
  }

  /** In-place `+=`: the coordinate is replaced by the sum. */
  method AddAssign(a: Axial, rhs: Axial) returns (updated: Axial)
    ensures updated == Add(a, rhs)
    ensures Sub(updated, rhs) == a
  {
    updated := a;
    updated := updated.(q := updated.q + rhs.q);
    updated := updated.(r := updated.r + rhs.r);
  }

  /** In-place `-=`: the coordinate is replaced by the difference. */
  method SubAssign(a: Axial, rhs: Axial) returns (updated: Axial)
    ensures updated == Sub(a, rhs)
    ensures Add(updated, rhs) == a
  {
    updated := a;
    updated := updated.(q := updated.q - rhs.q);
    updated := updated.(r := updated.r - rhs.r);
  }

  /** Subtraction is addition of the negation. */
  lemma SubIsAddNeg(a: Axial, b: Axial)
    ensures Sub(a, b) == Add(a, Neg(b))
    ensures Add(Sub(a, b), b) == a
    ensures Add(a, Neg(a)) == Origin && Neg(Neg(a)) == a
    ensures Sub(Add(a, b), b) == a
  {
  }

  lemma ScaleSum(x: int, y: int, z: int, k: int, la: int, lm: int)
    requires 2 * la == x + y + z
    requires 2 * lm == x * k + y * k + z * k
    ensures lm == k * la
  {
    assert x * k + y * k + z * k == (x + y + z) * k;
  }

  lemma MulLength(a: Axial, k: int)
    ensures Length(Axial(a.q * k, a.r * k)) == Abs(k) * Length(a)
  {
    var m := Axial(a.q * k, a.r * k);
    assert m.q + m.r == (a.q + a.r) * k;
    AbsMul(a.q, k);
    AbsMul(a.r, k);
    AbsMul(a.q + a.r, k);
    LengthTwice(m);
    LengthTwice(a);
    ScaleSum(Abs(a.q), Abs(a.q + a.r), Abs(a.r), Abs(k), Length(a), Length(m));
  }

  /* ---------------------------------------------------------------- distance */

  /** Cube length of a vector: half the sum of the absolute cube components. */
  function Length(v: Axial): nat
  {
    (Abs(v.q) + Abs(v.q + v.r) + Abs(v.r)) / 2
  }

  /** The cube length is the largest absolute cube component, and the halved sum is exact. */
  lemma LengthIsMax(v: Axial)
    ensures Length(v) == Max(Abs(v.q), Max(Abs(v.r), Abs(v.q + v.r)))
    ensures 2 * Length(v) == Abs(v.q) + Abs(v.q + v.r) + Abs(v.r)
  {
  }

  /** The sum of the absolute cube components is even, so halving it is exact. */
  lemma LengthTwice(v: Axial)
    ensures 2 * Length(v) == Abs(v.q) + Abs(v.q + v.r) + Abs(v.r)
  {
  }

  /** Grid distance: the number of neighbour steps between two hexagons. */
  function Distance(a: Axial, b: Axial): (d: int)
    ensures d >= 0
    ensures d == 0 <==> a == b
  {
    Length(Sub(a, b))
  }

  /** Distance is the largest difference of cube components. */
  lemma DistanceIsMax(a: Axial, b: Axial)
    ensures Distance(a, b) == Max(Abs(a.q - b.q), Max(Abs(a.r - b.r), Abs(ComputeS(a) - ComputeS(b))))
  {
    LengthIsMax(Sub(a, b));
  }

  lemma DistanceSymmetric(a: Axial, b: Axial)
    ensures Distance(a, b) == Distance(b, a)
  {
    DistanceIsMax(a, b);
    DistanceIsMax(b, a);
  }

  lemma AbsSumTriangle(x1: int, y1: int, z1: int, x2: int, y2: int, z2: int)
    ensures Abs(x1 + x2) + Abs(y1 + y2) + Abs(z1 + z2) <= Abs(x1) + Abs(y1) + Abs(z1) + Abs(x2) + Abs(y2) + Abs(z2)
  {
  }

  /** Cube length is subadditive. */
  lemma LengthTriangle(u: Axial, v: Axial)
    ensures Length(Axial(u.q + v.q, u.r + v.r)) <= Length(u) + Length(v)
  {
    LengthTwice(u);
    LengthTwice(v);
    LengthTwice(Axial(u.q + v.q, u.r + v.r));
    AbsSumTriangle(u.q, u.q + u.r, u.r, v.q, v.q + v.r, v.r);
    assert (u.q + v.q) + (u.r + v.r) == (u.q + u.r) + (v.q + v.r);
  }

  lemma DistanceTriangle(a: Axial, b: Axial, c: Axial)
    ensures Distance(a, c) <= Distance(a, b) + Distance(b, c)
  {
    var u, v := Sub(a, b), Sub(b, c);
    assert Sub(a, c) == Axial(u.q + v.q, u.r + v.r);
    LengthTriangle(u, v);
  }

  /** Translating both ends does not change a distance. */
  lemma DistanceTranslate(a: Axial, b: Axial, t: Axial)
    ensures Distance(Add(a, t), Add(b, t)) == Distance(a, b)
  {
    assert Sub(Add(a, t), Add(b, t)) == Sub(a, b);
  }

  /* ---------------------------------------------------------------- directions */

  /** The unit vector of a direction. */
  function MovementVector(d: HexDirection): (v: Axial)
    ensures -1 <= v.q <= 1 && -1 <= v.r <= 1
    ensures v != Axial(0, 0)
  {
    match d
    case Front => Axial(1, 0)
    case FrontRight => Axial(0, 1)
    case BackRight => Axial(-1, 1)
    case Back => Axial(-1, 0)
    case BackLeft => Axial(0, -1)
    case FrontLeft => Axial(1, -1)
  }

  /** Opposite directions (three apart) have opposite unit vectors. */
  lemma MovementVectorOpposite(d: HexDirection)
    ensures MovementVector(DirectionFromInt(DirectionToInt(d) + 3)) == Neg(MovementVector(d))
  {
    var e := DirectionFromInt(DirectionToInt(d) + 3);
    match d
    case Front => assert e == Back;
    case FrontRight => assert e == BackLeft;
    case BackRight => assert e == FrontLeft;
    case Back => assert e == Front;
    case BackLeft => assert e == FrontRight;
    case FrontLeft => assert e == BackRight;
  }

  /** Every movement vector is a unit step. */
  lemma MovementVectorUnit(d: HexDirection)
    ensures Length(MovementVector(d)) == 1
  {
  }

  /** Swap to the next cube component: (q, r, s) becomes (r, s, q). */
  function SwizzleL(a: Axial): (b: Axial)
    ensures b.q == a.r && ComputeS(b) == a.q
  {
    Axial(a.r, ComputeS(a))
  }

  /** Swap to the previous cube component: (q, r, s) becomes (s, q, r); undoes `SwizzleL`. */
  function SwizzleR(a: Axial): (b: Axial)
    ensures SwizzleL(b) == a
    ensures b == SwizzleL(SwizzleL(a))
  {
    Axial(ComputeS(a), a.q)
  }

  lemma SwizzleRoundTrip(a: Axial)
    ensures SwizzleR(SwizzleL(a)) == a
    ensures SwizzleL(SwizzleL(SwizzleL(a))) == a
  {
  }

  /** Move `magnitude` steps from `a` in the direction named by `rotDir`. */
  function MakeVector(a: Axial, magnitude: int, rotDir: int): (c: Axial)
    ensures Distance(c, a) == Abs(magnitude)
    ensures Sub(c, a) == Mul(MovementVector(DirectionFromInt(rotDir)), magnitude)
  {
    var v := Mul(MovementVector(DirectionFromInt(rotDir)), magnitude);
    MulScalesLength(MovementVector(DirectionFromInt(rotDir)), magnitude);
    Add(a, v)
  }

  /** The adjacent hexagon in a direction. */
  function Neighbor(a: Axial, d: HexDirection): (n: Axial)
    ensures Distance(a, n) == 1
    ensures n == Add(a, MovementVector(d))
  {
    MakeVector(a, 1, DirectionToInt(d))
  }

  /** The six neighbours, Front first and clockwise. */
  function Neighbors(a: Axial): (ns: seq<Axial>)
    ensures |ns| == 6
    ensures forall i :: 0 <= i < 6 ==> Distance(a, ns[i]) == 1
  {
    [Neighbor(a, Front), Neighbor(a, FrontRight), Neighbor(a, BackRight),
     Neighbor(a, Back), Neighbor(a, BackLeft), Neighbor(a, FrontLeft)]
  }

  /** The neighbour list is exactly the set of hexagons at distance 1. */
  lemma NeighborsAtDistanceOne(a: Axial)
    ensures forall c :: c in Neighbors(a) <==> Distance(a, c) == 1
  {
    var ns := Neighbors(a);
    forall c | Distance(a, c) == 1
      ensures c in ns
    {
      UnitOffsets(a, c);
      assert ns == [Add(a, Axial(1, 0)), Add(a, Axial(0, 1)), Add(a, Axial(-1, 1)),
                    Add(a, Axial(-1, 0)), Add(a, Axial(0, -1)), Add(a, Axial(1, -1))];
    }
  }

  /** The neighbours come without repetition, in the order of the direction indices. */
  lemma NeighborsDistinct(a: Axial)
    ensures forall i, j :: 0 <= i < j < 6 ==> Neighbors(a)[i] != Neighbors(a)[j]
    ensures forall i :: 0 <= i < 6 ==> Neighbors(a)[i] == Neighbor(a, DirectionFromInt(i))
  {
    var ns := Neighbors(a);
    assert ns == [Add(a, Axial(1, 0)), Add(a, Axial(0, 1)), Add(a, Axial(-1, 1)),
                  Add(a, Axial(-1, 0)), Add(a, Axial(0, -1)), Add(a, Axial(1, -1))];
  }

  /** A hexagon at distance 1 is one unit vector away. */
  lemma UnitOffsets(a: Axial, c: Axial)
    requires Distance(a, c) == 1
    ensures c in {Add(a, Axial(1, 0)), Add(a, Axial(0, 1)), Add(a, Axial(-1, 1)),
                  Add(a, Axial(-1, 0)), Add(a, Axial(0, -1)), Add(a, Axial(1, -1))}
  {
    DistanceIsMax(a, c);
    var v := Sub(c, a);
    assert c == Add(a, v);
    assert -1 <= v.q <= 1 && -1 <= v.r <= 1 && -1 <= v.q + v.r <= 1 && v != Origin;
  }

  /** Whether every coordinate of `coords` is one of `a`'s neighbours; returns at the first one that is not. */
  method AreNeighbors(a: Axial, coords: seq<Axial>) returns (b: bool)
    ensures b <==> forall i :: 0 <= i < |coords| ==> Distance(a, coords[i]) == 1
  {
    var neighbors := Neighbors(a);
    NeighborsAtDistanceOne(a);
    for i := 0 to |coords|
      invariant forall j :: 0 <= j < i ==> Distance(a, coords[j]) == 1
    {
      if coords[i] !in neighbors {
        return false;
      }
    }
    return true;
  }

  /* ---------------------------------------------------------------- range */

  /** Lexicographic order on (q, r): the order in which `Range` lists its coordinates. */
  predicate Before(x: Axial, y: Axial)
  {
    x.q < y.q || (x.q == y.q && x.r < y.r)
  }

  /** Number of hexagons with offset q-component in `-n .. q-1` that lie within distance n. */
  ghost function RowsBefore(n: int, q: int): int
    decreases q + n
  {
    if q <= -n then 0 else RowsBefore(n, q - 1) + (2 * n + 1 - Abs(q - 1))
  }

  /** The polynomial step behind `RowsBeforeClosed`. */
  lemma RowsStep(n: int, q: int)
    ensures (q + n) * (3 * n + 1 + q) == (q - 1 + n) * (3 * n + q) + 2 * (2 * n + 1 + (q - 1))
    ensures 2 * q * (2 * n + 1) - q * (q - 1) == 2 * (q - 1) * (2 * n + 1) - (q - 1) * (q - 2) + 2 * (2 * n + 1 - (q - 1))
  {
  }

  lemma {:induction false} RowsBeforeClosed(n: int, q: int)
    requires 0 <= n && -n <= q <= n + 1
    ensures q <= 0 ==> 2 * RowsBefore(n, q) == (q + n) * (3 * n + 1 + q)
    ensures q > 0 ==> 2 * RowsBefore(n, q) == n * (3 * n + 1) + 2 * q * (2 * n + 1) - q * (q - 1)
    decreases q + n
  {
    if q > -n {
      RowsBeforeClosed(n, q - 1);
      RowsStep(n, q);
    }
  }

  /** A disk of radius n holds 3n^2 + 3n + 1 hexagons. */
  lemma RangeCount(n: int)
    requires n >= 0
    ensures RowsBefore(n, n + 1) == 3 * n * n + 3 * n + 1
  {
    RowsBeforeClosed(n, n + 1);
  }

  /** Strictly increasing in the `Before` order (hence free of duplicates). */
  predicate Ascending(s: seq<Axial>)
  {
    forall i, j :: 0 <= i < j < |s| ==> Before(s[i], s[j])
  }

  lemma AscendingAppend(s: seq<Axial>, x: Axial)
    requires Ascending(s)
    requires forall y :: y in s ==> Before(y, x)
    ensures Ascending(s + [x])
  {
    forall i, j | 0 <= i < j < |s + [x]|
      ensures Before((s + [x])[i], (s + [x])[j])
    {
      if j == |s| {
        assert s[i] in s;
      }
    }
  }

  /** Offset from `a` bounded by `n` in all three cube components. */
  predicate InDisk(a: Axial, c: Axial, n: int)
  {
    -n <= c.q - a.q <= n && -n <= c.r - a.r <= n && -n <= (c.q - a.q) + (c.r - a.r) <= n
  }

  lemma InDiskIsDistance(a: Axial, c: Axial, n: int)
    ensures InDisk(a, c, n) <==> Distance(a, c) <= n
  {
    DistanceIsMax(a, c);
  }

  lemma DiskIsBall(a: Axial, n: int, s: seq<Axial>)
    requires forall c :: c in s <==> InDisk(a, c, n)
    ensures forall c :: c in s <==> Distance(a, c) <= n
  {
    forall c
      ensures c in s <==> Distance(a, c) <= n
    {
      InDiskIsDistance(a, c, n);
    }
  }

  /** Number of offsets r in the row at offset q that lie in the disk of radius n. */
  lemma RowWidth(n: int, q: int)
    requires -n <= q <= n
    ensures Min(n, -q + n) + 1 - Max(-n, -q - n) == 2 * n + 1 - Abs(q)
  {
  }

  /** One row of `Range`: appends, in increasing r, the disk's hexagons with offset q-component `q`. */
  method AppendRow(a: Axial, n: int, q: int, ret: seq<Axial>) returns (out: seq<Axial>)
    requires -n <= q <= n
    requires Ascending(ret)
    requires forall c :: c in ret <==> InDisk(a, c, n) && c.q - a.q < q
    ensures Ascending(out)
    ensures forall c :: c in out <==> InDisk(a, c, n) && c.q - a.q <= q
    ensures |out| == |ret| + (2 * n + 1 - Abs(q))
  {
    var lo := Max(-n, -q - n);
    var hi := Min(n, -q + n);
    out := ret;
    var r := lo;
    while r <= hi
      invariant lo <= r <= hi + 1
      invariant forall c :: c in out <==>
        InDisk(a, c, n) && (c.q - a.q < q || (c.q - a.q == q && c.r - a.r < r))
      invariant Ascending(out)
      invariant |out| == |ret| + (r - lo)
      decreases hi + 1 - r
    {
      AscendingAppend(out, Add(a, Axial(q, r)));
      out := out + [Add(a, Axial(q, r))];
      r := r + 1;
    }
    RowWidth(n, q);
  }

  /**
   * All hexagons within distance `n` of `a`, ordered by offset q and then offset r.
   * A negative `n` gives the empty list.
   */
  method Range(a: Axial, n: int) returns (ret: seq<Axial>)
    ensures forall c :: c in ret <==> Distance(a, c) <= n
    ensures Ascending(ret)
    ensures |ret| == if n < 0 then 0 else 3 * n * n + 3 * n + 1
  {
    ret := [];
    var q := -n;
    while q <= n
      invariant -n <= q && (n >= 0 ==> q <= n + 1) && (n < 0 ==> q == -n)
      invariant forall c :: c in ret <==> InDisk(a, c, n) && c.q - a.q < q
      invariant Ascending(ret)
      invariant |ret| == RowsBefore(n, q)
      decreases n + 1 - q
    {
      ret := AppendRow(a, n, q, ret);
      q := q + 1;
    }
    DiskIsBall(a, n, ret);
    if n >= 0 {
      RangeCount(n);
    }
  }

  /* ---------------------------------------------------------------- symmetry */

  function CenterOrOrigin(center: Option<Axial>): Axial
  {
    match center
    case Some(c) => c
    case None => Origin
  }

  /** Reflection of an offset across one axis through the origin. */
  function ReflectVector(v: Axial, axes: Axes): Axial
  {
    match axes
    case Q => Axial(v.q, ComputeS(v))
    case R => Axial(ComputeS(v), v.r)
    case S => Axial(v.r, v.q)
  }

  /** Reflect across an axis through `center` (the origin when absent). */
  function Reflect(a: Axial, center: Option<Axial>, axes: Axes): Axial
  {
    var c := CenterOrOrigin(center);
    Add(ReflectVector(Sub(a, c), axes), c)
  }

  /** Reflecting an offset twice gives it back; the offset's own-axis component and its length are kept. */
  lemma ReflectVectorProperties(v: Axial, axes: Axes)
    ensures ReflectVector(ReflectVector(v, axes), axes) == v
    ensures axes == Q ==> ReflectVector(v, axes).q == v.q
    ensures axes == R ==> ReflectVector(v, axes).r == v.r
    ensures axes == S ==> ComputeS(ReflectVector(v, axes)) == ComputeS(v)
  {
  }

  lemma ReflectVectorLength(v: Axial, axes: Axes)
    ensures Length(ReflectVector(v, axes)) == Length(v)
  {
    LengthIsMax(v);
    LengthIsMax(ReflectVector(v, axes));
  }

  /** A reflection keeps every coordinate at the same distance from the centre. */
  lemma ReflectDistanceToCenter(a: Axial, center: Option<Axial>, axes: Axes)
    ensures Distance(Reflect(a, center, axes), CenterOrOrigin(center)) == Distance(a, CenterOrOrigin(center))
  {
    var c := CenterOrOrigin(center);
    var w := ReflectVector(Sub(a, c), axes);
    ReflectVectorLength(Sub(a, c), axes);
    assert Sub(Add(w, c), c) == w;
  }

  /** Reflecting twice across the same axis and centre gives the coordinate back. */
  lemma ReflectInvolution(a: Axial, center: Option<Axial>, axes: Axes)
    ensures Reflect(Reflect(a, center, axes), center, axes) == a
  {
    var c := CenterOrOrigin(center);
    var v := Sub(a, c);
    var w := ReflectVector(v, axes);
    ReflectVectorProperties(v, axes);
    assert Sub(Add(w, c), c) == w;
  }

  /** The cube component of the reflection's own axis is kept. */
  lemma ReflectKeepsAxis(a: Axial, center: Option<Axial>, axes: Axes)
    ensures axes == Q ==> Reflect(a, center, axes).q == a.q
    ensures axes == R ==> Reflect(a, center, axes).r == a.r
    ensures axes == S ==> ComputeS(Reflect(a, center, axes)) == ComputeS(a)
  {
    var c := CenterOrOrigin(center);
    ReflectVectorProperties(Sub(a, c), axes);
  }

  /** One clockwise 60-degree step about the origin: the negated left swizzle. */
  function RotateCw(v: Axial): Axial
  {
    Neg(SwizzleL(v))
  }

  /** One counter-clockwise 60-degree step about the origin: the negated right swizzle. */
  function RotateCcw(v: Axial): (w: Axial)
    ensures RotateCw(w) == v
  {
    Neg(SwizzleR(v))
  }

  lemma RotateStepsInverse(v: Axial)
    ensures RotateCcw(RotateCw(v)) == v
    ensures RotateCw(RotateCw(RotateCw(v))) == Neg(v)
  {
  }

  /** A single step in either direction preserves the cube length. */
  lemma RotateStepLength(v: Axial)
    ensures Length(RotateCw(v)) == Length(v)
    ensures Length(RotateCcw(v)) == Length(v)
  {
    var w := RotateCw(v);
    assert w == Axial(-v.r, v.q + v.r);
    var u := RotateCcw(v);
    assert u == Axial(v.q + v.r, -v.q);
  }

  /** `iter` rotation steps about the origin, clockwise when `cw`. */
  function RotateRecursive(v: Axial, iter: nat, cw: bool): Axial
    decreases iter
  {
    if iter == 0 then v
    else
      var input := if cw then RotateCw(v) else RotateCcw(v);
      RotateRecursive(input, iter - 1, cw)
  }

  lemma {:induction false} RotateRecursiveLength(v: Axial, iter: nat, cw: bool)
    ensures Length(RotateRecursive(v, iter, cw)) == Length(v)
    decreases iter
  {
    if iter > 0 {
      RotateStepLength(v);
      var input := if cw then RotateCw(v) else RotateCcw(v);
      RotateRecursiveLength(input, iter - 1, cw);
    }
  }

  /**
   * Rotate by `rotDir` sixths of a turn about `center` (the origin when absent):
   * positive is clockwise, negative counter-clockwise, and only the truncating
   * remainder of `rotDir` by 6 matters.
   */
  function Rotate(a: Axial, center: Option<Axial>, rotDir: int): Axial
  {
    var c := CenterOrOrigin(center);
    var v := Sub(a, c);
    var steps := Abs(TruncRem(rotDir, 6));
    if rotDir < 0 then Add(RotateRecursive(v, steps, false), c)
    else Add(RotateRecursive(v, steps, true), c)
  }

  lemma {:induction false} RotateRecursiveSplit(v: Axial, i: nat, j: nat, cw: bool)
    ensures RotateRecursive(RotateRecursive(v, i, cw), j, cw) == RotateRecursive(v, i + j, cw)
    decreases i
  {
    if i > 0 {
      var input := if cw then RotateCw(v) else RotateCcw(v);
      RotateRecursiveSplit(input, i - 1, j, cw);
    }
  }

  /** Stepping clockwise first: `iter` steps are one step followed by `iter - 1` more. */
  lemma {:induction false} RotateRecursiveLast(v: Axial, iter: nat, cw: bool)
    requires iter > 0
    ensures RotateRecursive(v, iter, cw) ==
      (if cw then RotateCw(RotateRecursive(v, iter - 1, cw)) else RotateCcw(RotateRecursive(v, iter - 1, cw)))
  {
    RotateRecursiveSplit(v, iter - 1, 1, cw);
  }

  lemma RotateSixCw(v: Axial)
    ensures RotateRecursive(v, 6, true) == v
  {
    var w := RotateCw(RotateCw(RotateCw(v)));
    assert w == Neg(v);
    assert RotateRecursive(v, 6, true) == RotateRecursive(w, 3, true);
    assert RotateRecursive(w, 3, true) == RotateCw(RotateCw(RotateCw(w)));
  }

  /** Counter-clockwise by k steps is clockwise by 6 - k steps. */
  lemma {:induction false} CcwIsCw(v: Axial, k: nat)
    requires k <= 6
    ensures RotateRecursive(v, k, false) == RotateRecursive(v, 6 - k, true)
    decreases k
  {
    if k == 0 {
      RotateSixCw(v);
    } else {
      CcwIsCw(v, k - 1);
      RotateRecursiveLast(v, k, false);
      var prev := RotateRecursive(v, 6 - (k - 1), true);
      RotateRecursiveLast(v, 6 - (k - 1), true);
      assert prev == RotateCw(RotateRecursive(v, 6 - k, true));
    }
  }

  /** The step count `rotate` derives from `rotDir`: the magnitude of its truncating remainder by 6. */
  lemma RotateSteps(rotDir: int)
    ensures rotDir >= 0 ==> Abs(TruncRem(rotDir, 6)) == rotDir % 6
    ensures rotDir < 0 ==> Abs(TruncRem(rotDir, 6)) == (-rotDir) % 6
    ensures rotDir < 0 && (-rotDir) % 6 == 0 ==> rotDir % 6 == 0
    ensures rotDir < 0 && (-rotDir) % 6 != 0 ==> rotDir % 6 == 6 - (-rotDir) % 6
  {
    TruncRemSix(rotDir);
  }

  /** Every rotation is the clockwise rotation by the Euclidean remainder of `rotDir` by 6. */
  lemma RotateIsCwPower(a: Axial, center: Option<Axial>, rotDir: int)
    ensures Rotate(a, center, rotDir) ==
      Add(RotateRecursive(Sub(a, CenterOrOrigin(center)), rotDir % 6, true), CenterOrOrigin(center))
  {
    RotateSteps(rotDir);
    var c := CenterOrOrigin(center);
    var v := Sub(a, c);
    var steps := Abs(TruncRem(rotDir, 6));
    assert Rotate(a, center, rotDir) == Add(RotateRecursive(v, steps, rotDir >= 0), c);
    if rotDir < 0 {
      CcwIsCw(v, steps);
      if steps == 0 {
        RotateSixCw(v);
      }
    }
  }

  /** Rotations are periodic with period 6. */
  lemma RotatePeriodic(a: Axial, center: Option<Axial>, k: int)
    ensures Rotate(a, center, k + 6) == Rotate(a, center, k)
  {
    RotateIsCwPower(a, center, k);
    RotateIsCwPower(a, center, k + 6);
    assert (k + 6) % 6 == k % 6;
  }

  lemma ModSixNeg(k: int)
    ensures k % 6 == 0 ==> (-k) % 6 == 0
    ensures k % 6 != 0 ==> k % 6 + (-k) % 6 == 6
  {
  }

  /** Clockwise powers by the remainders of k and -k cancel. */
  lemma CwPowerInverse(v: Axial, k: int)
    ensures RotateRecursive(RotateRecursive(v, k % 6, true), (-k) % 6, true) == v
  {
    ModSixNeg(k);
    RotateRecursiveSplit(v, k % 6, (-k) % 6, true);
    if k % 6 != 0 {
      RotateSixCw(v);
    }
  }

  /** A rotation by -k undoes a rotation by k about the same centre. */
  lemma RotateInverse(a: Axial, center: Option<Axial>, k: int)
    ensures Rotate(Rotate(a, center, k), center, -k) == a
  {
    var c := CenterOrOrigin(center);
    var v := Sub(a, c);
    var w := RotateRecursive(v, k % 6, true);
    RotateIsCwPower(a, center, k);
    var b := Rotate(a, center, k);
    RotateIsCwPower(b, center, -k);
    CwPowerInverse(v, k);
    assert Sub(Add(w, c), c) == w;
  }

  /** Rotation commutes with vector subtraction, so it preserves the distance between any two points. */
  lemma {:induction false} RotateRecursiveLinear(v: Axial, w: Axial, iter: nat, cw: bool)
    ensures RotateRecursive(Sub(v, w), iter, cw) == Sub(RotateRecursive(v, iter, cw), RotateRecursive(w, iter, cw))
    decreases iter
  {
    if iter > 0 {
      if cw {
        assert RotateCw(Sub(v, w)) == Sub(RotateCw(v), RotateCw(w));
        RotateRecursiveLinear(RotateCw(v), RotateCw(w), iter - 1, cw);
      } else {
        assert RotateCcw(Sub(v, w)) == Sub(RotateCcw(v), RotateCcw(w));
        RotateRecursiveLinear(RotateCcw(v), RotateCcw(w), iter - 1, cw);
      }
    }
  }

  /** A rotation keeps every coordinate at the same distance from the centre. */
  lemma RotateDistanceToCenter(a: Axial, center: Option<Axial>, k: int)
    ensures Distance(Rotate(a, center, k), CenterOrOrigin(center)) == Distance(a, CenterOrOrigin(center))
  {
    var c := CenterOrOrigin(center);
    var v := Sub(a, c);
    var steps := Abs(TruncRem(k, 6));
    RotateRecursiveLength(v, steps, k >= 0);
    var w := RotateRecursive(v, steps, k >= 0);
    assert Rotate(a, center, k) == Add(w, c);
    assert Sub(Add(w, c), c) == w;
  }

  lemma RotateIsometry(a: Axial, b: Axial, center: Option<Axial>, k: int)
    ensures Distance(Rotate(a, center, k), Rotate(b, center, k)) == Distance(a, b)
  {
    var c := CenterOrOrigin(center);
    RotateIsCwPower(a, center, k);
    RotateIsCwPower(b, center, k);
    var va := Sub(a, c);
    var vb := Sub(b, c);
    var ra := RotateRecursive(va, k % 6, true);
    var rb := RotateRecursive(vb, k % 6, true);
    RotateRecursiveLinear(va, vb, k % 6, true);
    RotateRecursiveLength(Sub(va, vb), k % 6, true);
    assert Sub(va, vb) == Sub(a, b);
    assert Sub(Add(ra, c), Add(rb, c)) == Sub(ra, rb);
  }

  /** A shape transform applied to one coordinate: rotate about the origin, then translate. */
  function ApplyTransform(a: Axial, t: CT.Transform<Axial>): Axial
  {
    Add(Rotate(a, None, t.rotation), t.translation)
  }

  /**
   * Applying a transform moves every coordinate rigidly: distances are kept, a
   * transform without rotation is a plain translation, and rotation counts
   * that differ by a full turn act alike.
   */
  lemma ApplyTransformRigid(a: Axial, b: Axial, t: CT.Transform<Axial>)
    ensures Distance(ApplyTransform(a, t), ApplyTransform(b, t)) == Distance(a, b)
    ensures t.rotation == 0 ==> ApplyTransform(a, t) == Add(a, t.translation)
    ensures ApplyTransform(a, t.(rotation := t.rotation + 6)) == ApplyTransform(a, t)
  {
    RotateIsometry(a, b, None, t.rotation);
    DistanceTranslate(Rotate(a, None, t.rotation), Rotate(b, None, t.rotation), t.translation);
    RotatePeriodic(a, None, t.rotation);
  }
}
