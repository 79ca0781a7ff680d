/**
 * Coordinates on a triangular lattice.  A triple (x, y, z) names a triangular
 * face when its component sum is not zero and a lattice vertex when the sum is
 * zero.  Faces as produced by `ComputeZ` have sum 2 (pointing up) or 1
 * (pointing down); the orientation itself is read off the parity of the sum.
 */
module TriangleCoordinate {
  import opened Prelude

  datatype Triangle = Triangle(x: int, y: int, z: int)

  datatype TriOrientation = Up | Down

  /** Directions of travel out of a face: across its left leg, its right leg or its base. */
  datatype TriDirection = Left | Right | Base

  datatype Axes3D = X | Y | Z

  function Sum(t: Triangle): int
  {
    t.x + t.y + t.z
  }

  function Add(a: Triangle, b: Triangle): Triangle
  {
    Triangle(a.x + b.x, a.y + b.y, a.z + b.z)
  }

  function Sub(a: Triangle, b: Triangle): Triangle
  {
    Triangle(a.x - b.x, a.y - b.y, a.z - b.z)
  }

  /** Down exactly when the low bit of the component sum is set, i.e. the sum is odd. */
  function Orientation(t: Triangle): TriOrientation
  {
    if Sum(t) % 2 == 1 then Down else Up
  }

  /** A face in the normal form `ComputeZ` produces: component sum 1 (down) or 2 (up). */
  predicate Normalized(t: Triangle)
  {
    Sum(t) == 1 || Sum(t) == 2
  }

  function IsTriFace(t: Triangle): bool
  {
    Sum(t) != 0
  }

  /** Keeps x and y and picks z so that the triple names a vertex. */
  function ComputeZVert(t: Triangle): (v: Triangle)
    ensures v.x == t.x && v.y == t.y
    ensures Sum(v) == 0 && !IsTriFace(v)
  {
    Triangle(t.x, t.y, -t.x - t.y)
  }

  /** The z component of the normalised face with the given x, y and orientation. */
  function SolveCoord(x: int, y: int, orientation: TriOrientation): int
  {
    match orientation
    case Up => 2 - x - y
    case Down => 1 - x - y
  }

  /** Keeps x and y and picks z so that the triple is a normalised face of the requested orientation. */
  function ComputeZ(t: Triangle, orientation: TriOrientation): (f: Triangle)
    ensures f.x == t.x && f.y == t.y
    ensures Normalized(f) && IsTriFace(f)
    ensures Orientation(f) == orientation
  {
    Triangle(t.x, t.y, SolveCoord(t.x, t.y, orientation))
  }

  /* ---------------------------------------------------------------- distance */

  /** L1 norm of the difference. */
  function Distance(a: Triangle, b: Triangle): (d: int)
    ensures d >= 0
    ensures d == 0 <==> a == b
  {
    var dt := Sub(a, b);
    Abs(dt.x) + Abs(dt.y) + Abs(dt.z)
  }

  lemma DistanceSymmetric(a: Triangle, b: Triangle)
    ensures Distance(a, b) == Distance(b, a)
  {
  }

  lemma DistanceTranslate(a: Triangle, b: Triangle, c: Triangle)
    ensures Distance(Add(c, a), Add(c, b)) == Distance(a, b)
  {
    assert Sub(Add(c, a), Add(c, b)) == Sub(a, b);
  }

  /* ---------------------------------------------------------------- rotation */

  /** Rotation by `rotDir` sixths of a turn (positive is clockwise); only `rotDir` modulo 6 matters. */
  function Rotate(t: Triangle, rotDir: int): Triangle
  {
    match rotDir % 6
    case 0 => t
    case 1 => Triangle(1 - t.z, 1 - t.x, 1 - t.y)
    case 2 => Triangle(t.y, t.z, t.x)
    case 3 => Triangle(1 - t.x, 1 - t.y, 1 - t.z)
    case 4 => Triangle(t.z, t.x, t.y)
    case _ => Triangle(1 - t.y, 1 - t.z, 1 - t.x)
  }

  /** One sixth of a turn clockwise. */
  function RotateOnce(t: Triangle): Triangle
  {
    Triangle(1 - t.z, 1 - t.x, 1 - t.y)
  }

  lemma RotatePeriodic(t: Triangle, k: int)
    ensures Rotate(t, 0) == t
    ensures Rotate(t, k + 6) == Rotate(t, k)
    ensures Rotate(t, k) == Rotate(t, k % 6)
  {
  }

  /** `n` successive sixths of a turn. */
  function RotatePow(t: Triangle, n: nat): Triangle
    decreases n
  {
    if n == 0 then t else RotateOnce(RotatePow(t, n - 1))
  }

  lemma {:induction false} RotatePowAdd(t: Triangle, m: nat, n: nat)
    ensures RotatePow(RotatePow(t, m), n) == RotatePow(t, m + n)
    decreases n
  {
    if n > 0 {
      RotatePowAdd(t, m, n - 1);
    }
  }

  /** Six sixths make a full turn. */
  lemma RotatePowSix(t: Triangle)
    ensures RotatePow(t, 6) == t
  {
    var t1 := RotatePow(t, 1);
    var t2 := RotatePow(t1, 1);
    var t3 := RotatePow(t2, 1);
    assert t3 == Triangle(1 - t.x, 1 - t.y, 1 - t.z);
    RotatePowAdd(t, 1, 1);
    RotatePowAdd(t, 2, 1);
    RotatePowAdd(t, 3, 3);
    assert RotatePow(t3, 3) == t by {
      RotatePowAdd(t3, 1, 1);
      RotatePowAdd(t3, 2, 1);
    }
  }

  lemma {:induction false} RotatePowMod(t: Triangle, n: nat)
    ensures RotatePow(t, n) == RotatePow(t, n % 6)
    decreases n
  {
    if n >= 6 {
      var m: nat := n - 6;
      ModSixShift(m);
      RotatePowMod(t, m);
      RotatePowAdd(t, 6, m);
      RotatePowSix(t);
    }
  }

  /** The rotation table lists the first six powers of one sixth of a turn. */
  lemma RotateIsPow(t: Triangle, k: int)
    ensures Rotate(t, k) == RotatePow(t, k % 6)
  {
    var t1 := RotatePow(t, 1);
    var t2 := RotatePow(t1, 1);
    var t3 := RotatePow(t2, 1);
    var t4 := RotatePow(t3, 1);
    var t5 := RotatePow(t4, 1);
    RotatePowAdd(t, 1, 1);
    RotatePowAdd(t, 2, 1);
    RotatePowAdd(t, 3, 1);
    RotatePowAdd(t, 4, 1);
  }

  lemma ModSixShift(m: int)
    ensures (m + 6) % 6 == m % 6
  {
  }

  lemma ModSixAdd(a: int, b: int)
    ensures (a % 6 + b % 6) % 6 == (a + b) % 6
  {
    var qa, qb := a / 6, b / 6;
    assert a + b == (a % 6 + b % 6) + 6 * (qa + qb);
  }

  lemma RotatePowCompose(t: Triangle, a: int, b: int)
    ensures RotatePow(RotatePow(t, a % 6), b % 6) == RotatePow(t, (a + b) % 6)
  {
    var ma, mb: nat := a % 6, b % 6;
    var sum: nat := ma + mb;
    assert sum % 6 == (a + b) % 6 by {
      ModSixAdd(a, b);
    }
    assert RotatePow(RotatePow(t, ma), mb) == RotatePow(t, sum) by {
      RotatePowAdd(t, ma, mb);
    }
    assert RotatePow(t, sum) == RotatePow(t, sum % 6) by {
      RotatePowMod(t, sum);
    }
  }

  /** Rotations compose by adding their step counts. */
  lemma RotateCompose(t: Triangle, a: int, b: int)
    ensures Rotate(Rotate(t, a), b) == Rotate(t, a + b)
  {
    var u := Rotate(t, a);
    RotateIsPow(t, a);
    RotateIsPow(u, b);
    RotatePowCompose(t, a, b);
    RotateIsPow(t, a + b);
  }

  lemma RotateInverse(t: Triangle, k: int)
    ensures Rotate(Rotate(t, k), -k) == t
  {
    RotateCompose(t, k, -k);
  }

  /** Even rotations keep the component sum (faces stay faces); odd ones map sum s to 3 - s. */
  lemma RotateSum(t: Triangle, k: int)
    ensures k % 2 == 0 ==> Sum(Rotate(t, k)) == Sum(t)
    ensures k % 2 == 1 ==> Sum(Rotate(t, k)) == 3 - Sum(t)
  {
    assert k % 2 == (k % 6) % 2;
  }

  /** Rotation moves differences by a permutation, possibly negated. */
  lemma RotateSub(a: Triangle, b: Triangle, k: int)
    ensures var d, e := Sub(a, b), Sub(Rotate(a, k), Rotate(b, k));
      (k % 6 == 0 ==> e == d) &&
      (k % 6 == 1 ==> e == Triangle(-d.z, -d.x, -d.y)) &&
      (k % 6 == 2 ==> e == Triangle(d.y, d.z, d.x)) &&
      (k % 6 == 3 ==> e == Triangle(-d.x, -d.y, -d.z)) &&
      (k % 6 == 4 ==> e == Triangle(d.z, d.x, d.y)) &&
      (k % 6 == 5 ==> e == Triangle(-d.y, -d.z, -d.x))
  {
  }

  /** Rotation preserves the L1 distance. */
  lemma RotateIsometry(a: Triangle, b: Triangle, k: int)
    ensures Distance(Rotate(a, k), Rotate(b, k)) == Distance(a, b)
  {
    RotateSub(a, b, k);
  }

  /** Rotation of `t` about `about`. */
  function RotateAbout(t: Triangle, about: Triangle, rotDir: int): Triangle
  {
    Add(about, Rotate(Sub(t, about), rotDir))
  }

  lemma RotateAboutIsometry(s: Triangle, t: Triangle, about: Triangle, k: int)
    ensures Distance(RotateAbout(s, about, k), RotateAbout(t, about, k)) == Distance(s, t)
  {
    DistanceTranslate(Rotate(Sub(s, about), k), Rotate(Sub(t, about), k), about);
    RotateIsometry(Sub(s, about), Sub(t, about), k);
    assert Sub(Sub(s, about), Sub(t, about)) == Sub(s, t);
  }

  lemma RotateAboutCompose(t: Triangle, about: Triangle, j: int, k: int)
    ensures RotateAbout(RotateAbout(t, about, j), about, k) == RotateAbout(t, about, j + k)
  {
    assert Sub(RotateAbout(t, about, j), about) == Rotate(Sub(t, about), j);
    RotateCompose(Sub(t, about), j, k);
  }

  lemma RotateAboutInverse(t: Triangle, about: Triangle, k: int)
    ensures RotateAbout(RotateAbout(t, about, k), about, -k) == t
  {
    RotateAboutCompose(t, about, k, -k);
    assert Add(about, Sub(t, about)) == t;
  }

  /* ---------------------------------------------------------------- reflection */

  /** Reflection across the cartesian x axis. */
  function ReflectX(t: Triangle): Triangle
  {
    Triangle(t.z, t.y, t.x)
  }

  /** Reflection across the cartesian y axis. */
  function ReflectY(t: Triangle): Triangle
  {
    Triangle(1 - t.z, 1 - t.y, 1 - t.x)
  }

  /** Both reflections are involutions; x-reflection keeps y and the sum, y-reflection maps sum s to 3 - s. */
  lemma ReflectProperties(t: Triangle)
    ensures ReflectX(ReflectX(t)) == t && ReflectY(ReflectY(t)) == t
    ensures ReflectX(t).y == t.y && Sum(ReflectX(t)) == Sum(t)
    ensures Sum(ReflectY(t)) == 3 - Sum(t)
  {
  }

  lemma ReflectIsometry(a: Triangle, b: Triangle)
    ensures Distance(ReflectX(a), ReflectX(b)) == Distance(a, b)
    ensures Distance(ReflectY(a), ReflectY(b)) == Distance(a, b)
  {
  }

  /* ---------------------------------------------------------------- neighbours */

  /** The face across the given edge; which component moves depends on the orientation. */
  function Neighbor(t: Triangle, direction: TriDirection): Triangle
  {
    match (direction, Orientation(t))
    case (Left, Up) => Triangle(t.x - 1, t.y, t.z)
    case (Base, Up) => Triangle(t.x, t.y - 1, t.z)
    case (Right, Up) => Triangle(t.x, t.y, t.z - 1)
    case (Left, Down) => Triangle(t.x, t.y, t.z + 1)
    case (Base, Down) => Triangle(t.x, t.y + 1, t.z)
    case (Right, Down) => Triangle(t.x + 1, t.y, t.z)
  }

  function Neighbors(t: Triangle): (ns: seq<Triangle>)
    ensures |ns| == 3
  {
    [Neighbor(t, Left), Neighbor(t, Right), Neighbor(t, Base)]
  }

  /** A neighbour is one step away, has the other orientation, and has `t` among its own neighbours. */
  lemma NeighborProperties(t: Triangle, direction: TriDirection)
    ensures Distance(t, Neighbor(t, direction)) == 1
    ensures Orientation(Neighbor(t, direction)) != Orientation(t)
    ensures t in Neighbors(Neighbor(t, direction))
  {
    var n := Neighbor(t, direction);
    if Orientation(t) == Up {
      assert Sum(n) == Sum(t) - 1;
      assert Orientation(n) == Down;
    } else {
      assert Sum(n) == Sum(t) + 1;
      assert Orientation(n) == Up;
    }
  }

  lemma NeighborsDistinct(t: Triangle)
    ensures forall i, j :: 0 <= i < j < 3 ==> Neighbors(t)[i] != Neighbors(t)[j]
  {
  }

  /** Whether every coordinate in `coords` is one of the three neighbours of `t`. */
  method AreNeighbors(t: Triangle, coords: seq<Triangle>) returns (b: bool)
    ensures b <==> forall i :: 0 <= i < |coords| ==> coords[i] in Neighbors(t)
  {
    var neighbors := Neighbors(t);
    for i := 0 to |coords|
      invariant forall j :: 0 <= j < i ==> coords[j] in neighbors
    {
      if coords[i] !in neighbors {
        return false;
      }
    }
    return true;
  }

  /* ---------------------------------------------------------------- range */

  /** Lexicographic order on (x, y, z): the order in which `Range` lists its coordinates. */
  predicate Before(a: Triangle, b: Triangle)
  {
    a.x < b.x || (a.x == b.x && (a.y < b.y || (a.y == b.y && a.z < b.z)))
  }

  /** Strictly increasing in the `Before` order (hence free of duplicates). */
  predicate Ascending(s: seq<Triangle>)
  {
    forall i, j :: 0 <= i < j < |s| ==> Before(s[i], s[j])
  }

  lemma AscendingAppend(s: seq<Triangle>, c: Triangle)
    requires Ascending(s)
    requires forall d :: d in s ==> Before(d, c)
    ensures Ascending(s + [c])
  {
    forall i, j | 0 <= i < j < |s + [c]|
      ensures Before((s + [c])[i], (s + [c])[j])
    {
      if j == |s| {
        assert s[i] in s;
      }
    }
  }

  /** Normalised faces within L1 distance `n` of `t`. */
  predicate InBall(t: Triangle, c: Triangle, n: int)
  {
    Normalized(c) && Distance(t, c) <= n
  }

  /** A normalised face is fixed by its x and y offsets up to the two possible sums. */
  lemma CellCandidates(t: Triangle, c: Triangle, dx: int, dy: int)
    requires Normalized(c) && c.x - t.x == dx && c.y - t.y == dy
    ensures var dz0 := 1 - (Sum(t) + dx + dy);
      c == Add(t, Triangle(dx, dy, dz0)) || c == Add(t, Triangle(dx, dy, dz0 + 1))
  {
  }

  /** The offsets of every face in the ball lie inside the loop bounds of `Range`. */
  lemma BallBounds(t: Triangle, c: Triangle, n: int)
    requires Distance(t, c) <= n
    ensures var dx, dy := c.x - t.x, c.y - t.y;
      -n <= dx <= n && Max(-n - dx, -n) <= dy <= Min(n - dx, n)
  {
  }

  /** The faces of `Range` at offsets (dx, dy): at most the two candidate sums, smaller z first. */
  method AppendCell(t: Triangle, n: int, dx: int, dy: int, ret: seq<Triangle>) returns (out: seq<Triangle>)
    requires Ascending(ret)
    requires forall c :: c in ret <==>
      InBall(t, c, n) && (c.x - t.x < dx || (c.x - t.x == dx && c.y - t.y < dy))
    ensures Ascending(out)
    ensures forall c :: c in out <==>
      InBall(t, c, n) && (c.x - t.x < dx || (c.x - t.x == dx && c.y - t.y <= dy))
  {
    out := ret;
    var dz0 := 1 - (t.x + t.y + t.z + dx + dy);
    var c0 := Add(t, Triangle(dx, dy, dz0));
    var c1 := Add(t, Triangle(dx, dy, dz0 + 1));
    assert Distance(t, c0) == Abs(dx) + Abs(dy) + Abs(dz0);
    if Abs(dx) + Abs(dy) + Abs(dz0) <= n {
      AscendingAppend(out, c0);
      out := out + [c0];
    }
    var dz1 := dz0 + 1;
    assert Distance(t, c1) == Abs(dx) + Abs(dy) + Abs(dz1);
    if Abs(dx) + Abs(dy) + Abs(dz1) <= n {
      assert forall d :: d in out ==> Before(d, c1);
      AscendingAppend(out, c1);
      out := out + [c1];
    }
    forall c | InBall(t, c, n) && c.x - t.x == dx && c.y - t.y == dy
      ensures c in out
    {
      CellCandidates(t, c, dx, dy);
    }
  }

  /** One column of `Range`: the faces of the ball with x offset `dx`, in increasing y and z. */
  method AppendColumn(t: Triangle, n: int, dx: int, ret: seq<Triangle>) returns (out: seq<Triangle>)
    requires Ascending(ret)
    requires forall c :: c in ret <==> InBall(t, c, n) && c.x - t.x < dx
    ensures Ascending(out)
    ensures forall c :: c in out <==> InBall(t, c, n) && c.x - t.x <= dx
  {
    out := ret;
    var dy := Max(-n - dx, -n);
    var hi := Min(n - dx, n);
    while dy <= hi
      invariant Ascending(out)
      invariant forall c :: c in out <==>
        InBall(t, c, n) && (c.x - t.x < dx || (c.x - t.x == dx && c.y - t.y < dy))
      decreases hi + 1 - dy
    {
      out := AppendCell(t, n, dx, dy, out);
      dy := dy + 1;
    }
    forall c | InBall(t, c, n) && c.x - t.x == dx
      ensures c in out
    {
      BallBounds(t, c, n);
    }
  }

  /**
   * The normalised faces within L1 distance `dist` of `t`, ordered by x, then y,
   * then z.  A negative `dist` gives the empty list.
   */
  method Range(t: Triangle, dist: int) returns (ret: seq<Triangle>)
    ensures forall c :: c in ret <==> Normalized(c) && Distance(t, c) <= dist
    ensures Ascending(ret)
  {
    ret := [];
    var dx := -dist;
    while dx <= dist
      invariant Ascending(ret)
      invariant forall c :: c in ret <==> InBall(t, c, dist) && c.x - t.x < dx
      decreases dist + 1 - dx
    {
      ret := AppendColumn(t, dist, dx, ret);
      dx := dx + 1;
    }
    forall c | InBall(t, c, dist)
      ensures c in ret
    {
      BallBounds(t, c, dist);
    }
  }

  /* ---------------------------------------------------------------- lines */

  /** The component that stays fixed on a walk along `axis`. */
  function Component(t: Triangle, axis: Axes3D): int
  {
    match axis
    case X => t.x
    case Y => t.y
    case Z => t.z
  }

  /**
   * The two unit steps of a walk along `axis`: index 0 is taken from an up face,
   * index 1 from a down face.  `forward` walks toward growing x or y and
   * shrinking z (on the X axis: growing y).
   */
  function AxisSteps(axis: Axes3D, forward: bool): (steps: seq<Triangle>)
    ensures |steps| == 2
  {
    match axis
    case X => if forward then [Triangle(0, 0, -1), Triangle(0, 1, 0)] else [Triangle(0, -1, 0), Triangle(0, 0, 1)]
    case Y => if forward then [Triangle(0, 0, -1), Triangle(1, 0, 0)] else [Triangle(-1, 0, 0), Triangle(0, 0, 1)]
    case Z => if forward then [Triangle(0, -1, 0), Triangle(1, 0, 0)] else [Triangle(-1, 0, 0), Triangle(0, 1, 0)]
  }

  /** The direction test of the line walk as the library writes it: both comparisons strict. */
  predicate ForwardAsWritten(a: Triangle, b: Triangle, axis: Axes3D)
  {
    match axis
    case X => a.y < b.y && a.z > b.z
    case Y => a.x < b.x && a.z > b.z
    case Z => a.x < b.x && a.y > b.y
  }

  /** The direction test the walk needs: one free component may already agree with `b`. */
  predicate Forward(a: Triangle, b: Triangle, axis: Axes3D)
  {
    match axis
    case X => a.y <= b.y && a.z >= b.z
    case Y => a.x <= b.x && a.z >= b.z
    case Z => a.x <= b.x && a.y >= b.y
  }

  /** Which of the two steps is taken at step `i` of a walk that starts on a down face iff `startDown`. */
  function StepIndex(startDown: bool, i: int): (k: nat)
    ensures k < 2
  {
    if startDown != (i % 2 == 1) then 1 else 0
  }

  /** Position after `i` steps of the walk from `a`, choosing each step by the start orientation and parity. */
  function WalkAt(a: Triangle, steps: seq<Triangle>, i: nat): Triangle
    requires |steps| == 2
    decreases i
  {
    if i == 0 then a
    else Add(WalkAt(a, steps, i - 1), steps[StepIndex(Orientation(a) == Down, i - 1)])
  }

  lemma WalkAtNext(a: Triangle, steps: seq<Triangle>, i: nat)
    requires |steps| == 2
    ensures WalkAt(a, steps, i + 1) == Add(WalkAt(a, steps, i), steps[StepIndex(Orientation(a) == Down, i)])
  {
  }

  /** The loop of `line_along_axis`: `a` followed by `dist` steps. */
  method WalkLine(a: Triangle, steps: seq<Triangle>, dist: nat) returns (ret: seq<Triangle>)
    requires |steps| == 2
    ensures |ret| == dist + 1
    ensures forall i {:trigger ret[i]} :: 0 <= i < |ret| ==> ret[i] == WalkAt(a, steps, i)
  {
    var isStartDown := Orientation(a) == Down;
    var start := a;
    ret := [a];
    for i := 0 to dist
      invariant |ret| == i + 1
      invariant forall j {:trigger ret[j]} :: 0 <= j < |ret| ==> ret[j] == WalkAt(a, steps, j)
      invariant start == WalkAt(a, steps, i)
    {
      var k := StepIndex(isStartDown, i);
      WalkAtNext(a, steps, i);
      start := Add(start, steps[k]);
      ret := ret + [start];
    }
  }

  /** The walk's orientation alternates: after `i` steps the sum has the parity of the start sum plus `i`. */
  lemma {:induction false} WalkParity(a: Triangle, axis: Axes3D, forward: bool, i: nat)
    ensures (Sum(WalkAt(a, AxisSteps(axis, forward), i)) - Sum(a) - i) % 2 == 0
    decreases i
  {
    if i > 0 {
      WalkParity(a, axis, forward, i - 1);
      var steps := AxisSteps(axis, forward);
      assert Sum(steps[0]) == -1 && Sum(steps[1]) == 1;
    }
  }

  /** The step the walk takes after `i` steps is the one for the orientation it has reached. */
  lemma WalkIndex(a: Triangle, axis: Axes3D, forward: bool, i: nat)
    ensures StepIndex(Orientation(a) == Down, i) ==
      if Orientation(WalkAt(a, AxisSteps(axis, forward), i)) == Down then 1 else 0
  {
    var p := WalkAt(a, AxisSteps(axis, forward), i);
    WalkParity(a, axis, forward, i);
    ParityXor(Sum(p), Sum(a), i);
  }

  /** Parities add like exclusive or. */
  lemma ParityXor(s: int, t: int, i: int)
    requires (s - t - i) % 2 == 0
    ensures (s % 2 == 1) == ((t % 2 == 1) != (i % 2 == 1))
  {
    var k := (s - t - i) / 2;
    assert s == t + i + 2 * k;
    var tr, ir := t % 2, i % 2;
    assert s == 2 * (t / 2 + i / 2 + k) + tr + ir;
    if tr + ir == 2 {
      ModTwo(s, t / 2 + i / 2 + k + 1, 0);
    } else {
      ModTwo(s, t / 2 + i / 2 + k, tr + ir);
    }
  }

  lemma ModTwo(x: int, m: int, r: int)
    requires x == 2 * m + r && 0 <= r < 2
    ensures x % 2 == r
  {
  }

  /** Every step of an axis walk has length 1. */
  lemma WalkUnitStep(a: Triangle, axis: Axes3D, forward: bool, i: nat)
    ensures Distance(WalkAt(a, AxisSteps(axis, forward), i), WalkAt(a, AxisSteps(axis, forward), i + 1)) == 1
  {
    var steps := AxisSteps(axis, forward);
    var p := WalkAt(a, steps, i);
    var k := StepIndex(Orientation(a) == Down, i);
    assert WalkAt(a, steps, i + 1) == Add(p, steps[k]);
    assert Abs(steps[k].x) + Abs(steps[k].y) + Abs(steps[k].z) == 1;
  }

  /** `p` is on the way from ... to `b` in the given direction, on the line through both along `axis`. */
  predicate OnTheWay(p: Triangle, b: Triangle, axis: Axes3D, forward: bool)
  {
    Normalized(p) && Normalized(b) && Component(p, axis) == Component(b, axis) &&
    (if forward then Forward(p, b, axis) else Forward(b, p, axis))
  }

  /** Between two normalised faces on one axis line, the corrected test picks a direction that leads to `b`. */
  lemma ForwardChoice(a: Triangle, b: Triangle, axis: Axes3D)
    requires Normalized(a) && Normalized(b) && Component(a, axis) == Component(b, axis)
    ensures OnTheWay(a, b, axis, Forward(a, b, axis))
  {
  }

  /** From a face on the way to `b`, the step chosen by its orientation brings the walk one closer. */
  lemma StepCloser(p: Triangle, b: Triangle, axis: Axes3D, forward: bool)
    requires OnTheWay(p, b, axis, forward) && p != b
    ensures var q := Add(p, AxisSteps(axis, forward)[if Orientation(p) == Down then 1 else 0]);
      OnTheWay(q, b, axis, forward) && Distance(q, b) == Distance(p, b) - 1
  {
    if Orientation(p) == Down {
      assert Sum(p) == 1;
    } else {
      assert Sum(p) == 2;
    }
  }

  /** After `i` steps of the corrected walk from `a`, the walk is on the way to `b` and `i` closer to it. */
  lemma {:induction false} WalkApproaches(a: Triangle, b: Triangle, axis: Axes3D, i: nat)
    requires Normalized(a) && Normalized(b) && Component(a, axis) == Component(b, axis)
    requires i <= Distance(a, b)
    ensures var p := WalkAt(a, AxisSteps(axis, Forward(a, b, axis)), i);
      OnTheWay(p, b, axis, Forward(a, b, axis)) && Distance(p, b) == Distance(a, b) - i
    decreases i
  {
    var forward := Forward(a, b, axis);
    var steps := AxisSteps(axis, forward);
    if i == 0 {
      ForwardChoice(a, b, axis);
    } else {
      WalkApproaches(a, b, axis, i - 1);
      var p := WalkAt(a, steps, i - 1);
      WalkIndex(a, axis, forward, i - 1);
      assert WalkAt(a, steps, i) == Add(p, steps[if Orientation(p) == Down then 1 else 0]);
      StepCloser(p, b, axis, forward);
    }
  }

  /**
   * The walk of `line` along a shared component: `Distance(a, b) + 1` faces,
   * starting at `a`, one step apart, and ending at `b` when both are
   * normalised faces.
   */
  method LineAlongAxis(a: Triangle, b: Triangle, axis: Axes3D) returns (ret: seq<Triangle>)
    ensures |ret| == Distance(a, b) + 1 && ret[0] == a
    ensures forall i :: 0 <= i < |ret| - 1 ==> Distance(ret[i], ret[i + 1]) == 1
    ensures Normalized(a) && Normalized(b) && Component(a, axis) == Component(b, axis) ==> ret[|ret| - 1] == b
    ensures forall i {:trigger ret[i]} :: 0 <= i < |ret| ==> ret[i] == WalkAt(a, AxisSteps(axis, Forward(a, b, axis)), i)
  {
    var dist := Distance(a, b);
    var forward := Forward(a, b, axis);
    ret := WalkLine(a, AxisSteps(axis, forward), dist);
    forall i | 0 <= i < |ret| - 1
      ensures Distance(ret[i], ret[i + 1]) == 1
    {
      WalkUnitStep(a, axis, forward, i);
    }
    if Normalized(a) && Normalized(b) && Component(a, axis) == Component(b, axis) {
      WalkApproaches(a, b, axis, dist);
    }
  }

  /** The same walk with the library's strict direction test. */
  method LineAlongAxisAsWritten(a: Triangle, b: Triangle, axis: Axes3D) returns (ret: seq<Triangle>)
    ensures |ret| == Distance(a, b) + 1
    ensures forall i {:trigger ret[i]} :: 0 <= i < |ret| ==> ret[i] == WalkAt(a, AxisSteps(axis, ForwardAsWritten(a, b, axis)), i)
  {
    ret := WalkLine(a, AxisSteps(axis, ForwardAsWritten(a, b, axis)), Distance(a, b));
  }

  /** With the strict test, the one-step walk from (0, 0, 2) to (0, 0, 1) ends at (0, -1, 2) instead. */
  lemma LineAsWrittenMissesEnd()
    ensures var a, b := Triangle(0, 0, 2), Triangle(0, 0, 1);
      Normalized(a) && Normalized(b) && a.x == b.x && Distance(a, b) == 1 &&
      WalkAt(a, AxisSteps(X, ForwardAsWritten(a, b, X)), 1) == Triangle(0, -1, 2) != b
  {
    var a := Triangle(0, 0, 2);
    assert WalkAt(a, AxisSteps(X, false), 1) == Add(a, Triangle(0, -1, 0));
  }

  /**
   * Where a face lies along the line through it parallel to `axis`: every
   * forward step adds one, every backward step takes one away.
   */
  function AxisPosition(t: Triangle, axis: Axes3D): int
  {
    match axis
    case X => t.y - t.z
    case Y => t.x - t.z
    case Z => t.x - t.y
  }

  /** Going forward along an axis line, the distance is the gain in position. */
  lemma ForwardDistance(p: Triangle, q: Triangle, axis: Axes3D)
    requires Component(p, axis) == Component(q, axis) && Forward(p, q, axis)
    ensures Distance(p, q) == AxisPosition(q, axis) - AxisPosition(p, axis)
  {
  }

  /** Two normalised faces on one axis line at the same position are the same face. */
  lemma PositionDeterminesFace(p: Triangle, q: Triangle, axis: Axes3D)
    requires Normalized(p) && Normalized(q) && Component(p, axis) == Component(q, axis)
    requires AxisPosition(p, axis) == AxisPosition(q, axis)
    ensures p == q
  {
  }

  /** The walk from `b` back to `a` visits the same faces as the walk from `a` to `b`, in reverse. */
  lemma WalkReverses(a: Triangle, b: Triangle, axis: Axes3D, i: nat)
    requires Normalized(a) && Normalized(b) && Component(a, axis) == Component(b, axis)
    requires i <= Distance(a, b)
    ensures WalkAt(a, AxisSteps(axis, Forward(a, b, axis)), i) ==
      WalkAt(b, AxisSteps(axis, Forward(b, a, axis)), Distance(a, b) - i)
  {
    var d := Distance(a, b);
    DistanceSymmetric(a, b);
    if a != b {
      var p := WalkAt(a, AxisSteps(axis, Forward(a, b, axis)), i);
      var q := WalkAt(b, AxisSteps(axis, Forward(b, a, axis)), d - i);
      WalkApproaches(a, b, axis, i);
      WalkApproaches(b, a, axis, d - i);
      assert OnTheWay(p, b, axis, Forward(a, b, axis)) && OnTheWay(q, a, axis, Forward(b, a, axis));
      assert Distance(p, b) + Distance(q, a) == d;
      ForwardChoice(a, b, axis);
      DistanceSymmetric(p, b);
      DistanceSymmetric(q, a);
      SamePosition(a, b, p, q, axis);
      PositionDeterminesFace(p, q, axis);
    }
  }

  /**
   * A face `p` that is `Distance(a, b) - i` short of `b` and a face `q` that
   * is `i` short of `a`, both on the way along the line through `a` and `b`,
   * have the same position on it.
   */
  lemma SamePosition(a: Triangle, b: Triangle, p: Triangle, q: Triangle, axis: Axes3D)
    requires Normalized(a) && Normalized(b) && Component(a, axis) == Component(b, axis) && a != b
    requires OnTheWay(a, b, axis, Forward(a, b, axis))
    requires OnTheWay(p, b, axis, Forward(a, b, axis)) && OnTheWay(q, a, axis, Forward(b, a, axis))
    requires Distance(p, b) + Distance(q, a) == Distance(a, b)
    requires Distance(p, b) == Distance(b, p) && Distance(q, a) == Distance(a, q) && Distance(a, b) == Distance(b, a)
    ensures AxisPosition(p, axis) == AxisPosition(q, axis)
  {
    if Forward(a, b, axis) {
      assert !Forward(b, a, axis);
      ForwardDistance(a, b, axis);
      ForwardDistance(p, b, axis);
      ForwardDistance(a, q, axis);
    } else {
      ForwardDistance(b, a, axis);
      ForwardDistance(b, p, axis);
      ForwardDistance(q, a, axis);
    }
  }

  /** The axis `line` walks along: x is tested first, then y, then z. */
  function LineAxis(a: Triangle, b: Triangle): Axes3D
  {
    if a.x == b.x then X else if a.y == b.y then Y else Z
  }

  /** The faces of the walk from `a` toward `b` along `axis`, as `line_along_axis` lists them. */
  function AxisWalk(a: Triangle, b: Triangle, axis: Axes3D): (w: seq<Triangle>)
    ensures |w| == Distance(a, b) + 1
  {
    seq(Distance(a, b) + 1, i requires 0 <= i <= Distance(a, b) => WalkAt(a, AxisSteps(axis, Forward(a, b, axis)), i))
  }

  function Reversed<E>(s: seq<E>): (r: seq<E>)
    ensures |r| == |s|
  {
    seq(|s|, i requires 0 <= i < |s| => s[|s| - 1 - i])
  }

  /** For normalised faces sharing a component, the line from `a` is the line from `b` reversed. */
  lemma AxisWalkReverses(a: Triangle, b: Triangle)
    requires Normalized(a) && Normalized(b) && (a.x == b.x || a.y == b.y || a.z == b.z)
    ensures LineAxis(a, b) == LineAxis(b, a)
    ensures AxisWalk(a, b, LineAxis(a, b)) == Reversed(AxisWalk(b, a, LineAxis(b, a)))
  {
    var axis := LineAxis(a, b);
    var d := Distance(a, b);
    DistanceSymmetric(a, b);
    var w, v := AxisWalk(a, b, axis), AxisWalk(b, a, axis);
    forall i | 0 <= i <= d
      ensures w[i] == Reversed(v)[i]
    {
      WalkReverses(a, b, axis, i);
    }
  }

  /**
   * A line from `a` to `b`: `[a]` when they are equal, the axis walk when they
   * share a component (x tested first, then y, then z), and otherwise the
   * floating-point construction, given here as `smoothLine` with step size 8.
   */
  method Line(a: Triangle, b: Triangle, smoothLine: (Triangle, Triangle, int) -> seq<Triangle>)
    returns (ret: seq<Triangle>)
    ensures a == b ==> ret == [a]
    ensures a != b && (a.x == b.x || a.y == b.y || a.z == b.z) ==>
      |ret| == Distance(a, b) + 1 && ret[0] == a &&
      (forall i :: 0 <= i < |ret| - 1 ==> Distance(ret[i], ret[i + 1]) == 1) &&
      (Normalized(a) && Normalized(b) ==> ret[|ret| - 1] == b)
    ensures a != b && (a.x == b.x || a.y == b.y || a.z == b.z) ==> ret == AxisWalk(a, b, LineAxis(a, b))
    ensures a != b && (a.x == b.x || a.y == b.y || a.z == b.z) && Normalized(a) && Normalized(b) ==>
      ret == Reversed(AxisWalk(b, a, LineAxis(b, a)))
    ensures a != b && a.x != b.x && a.y != b.y && a.z != b.z ==> ret == smoothLine(a, b, 8)
  {
    if a == b {
      ret := [a];
    } else if a.x == b.x {
      ret := LineAlongAxis(a, b, X);
    } else if a.y == b.y {
      ret := LineAlongAxis(a, b, Y);
    } else if a.z == b.z {
      ret := LineAlongAxis(a, b, Z);
    } else {
      ret := smoothLine(a, b, 8);
    }
    if a != b && (a.x == b.x || a.y == b.y || a.z == b.z) {
      assert ret == AxisWalk(a, b, LineAxis(a, b));
      if Normalized(a) && Normalized(b) {
        AxisWalkReverses(a, b);
      }
    }
  }
}
