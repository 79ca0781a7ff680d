/**
 * The corners and sides of one hexagon, and the corners that two or three
 * neighbouring hexagons share.  The corner of a hexagon in a given corner
 * direction is supplied by the caller as `vertexOf`.
 */
module HexTile {
  import opened Prelude
  import opened HexCoordinate
  import E = HexEdge
  import V = HexVertex

  /** The six sides of hexagon `a`, starting with the north-east side and going clockwise. */
  function Edges(a: Axial): (es: seq<E.Edge>)
    ensures |es| == 6
  {
    [
      E.Edge(a.q, a.r, E.NorthEast),
      E.Edge(a.q + 1, a.r, E.West),
      E.Edge(a.q, a.r + 1, E.NorthWest),
      E.Edge(a.q - 1, a.r + 1, E.NorthEast),
      E.Edge(a.q, a.r, E.West),
      E.Edge(a.q, a.r, E.NorthWest)
    ]
  }

  /**
   * Side i of `a` lies between `a` and its neighbour in direction i - 1
   * (modulo 6), and the six sides are distinct.
   */
  lemma EdgesSeparate(a: Axial)
    ensures forall i :: 0 <= i < 6 ==>
      var hs := E.AdjacentHexes(Edges(a)[i]);
      a in hs && Add(a, MovementVector(DirectionFromInt(i + 5))) in hs
    ensures forall i, j :: 0 <= i < j < 6 ==> Edges(a)[i] != Edges(a)[j]
  {
    var es := Edges(a);
    forall i | 0 <= i < 6
      ensures a in E.AdjacentHexes(es[i])
      ensures Add(a, MovementVector(DirectionFromInt(i + 5))) in E.AdjacentHexes(es[i])
    {
      assert (i + 5) % 6 == if i == 0 then 5 else i - 1;
    }
  }

  /** The six corners of `a`, clockwise from the top. */
  function Vertices(a: Axial, vertexOf: (Axial, V.VertexDirection) -> V.Vertex): (vs: seq<V.Vertex>)
    ensures |vs| == 6
    ensures forall i :: 0 <= i < 6 ==> vs[i] == vertexOf(a, V.DirectionFromInt(i))
  {
    [
      vertexOf(a, V.VertexDirection.Up),
      vertexOf(a, V.UpRight),
      vertexOf(a, V.DownRight),
      vertexOf(a, V.VertexDirection.Down),
      vertexOf(a, V.DownLeft),
      vertexOf(a, V.UpLeft)
    ]
  }

  /** The two corners of a hexagon on its side towards direction `d`, clockwise. */
  function SharedCorners(d: HexDirection): (cs: (V.VertexDirection, V.VertexDirection))
  {
    match d
    case Front => (V.UpRight, V.DownRight)
    case FrontRight => (V.DownRight, V.VertexDirection.Down)
    case BackRight => (V.VertexDirection.Down, V.DownLeft)
    case Back => (V.DownLeft, V.UpLeft)
    case BackLeft => (V.UpLeft, V.VertexDirection.Up)
    case FrontLeft => (V.VertexDirection.Up, V.UpRight)
  }

  /** The side towards hex direction k runs from corner k + 1 to corner k + 2. */
  lemma SharedCornersFollowDirection(d: HexDirection)
    ensures SharedCorners(d).0 == V.DirectionFromInt(DirectionToInt(d) + 1)
    ensures SharedCorners(d).1 == V.DirectionFromInt(DirectionToInt(d) + 2)
  {
  }

  /** The pair of corners of `a` on its side towards direction `d`. */
  function SharedPair(a: Axial, d: HexDirection, vertexOf: (Axial, V.VertexDirection) -> V.Vertex): seq<V.Vertex>
  {
    [vertexOf(a, SharedCorners(d).0), vertexOf(a, SharedCorners(d).1)]
  }

  /** Both shared corners are corners of `a`, and they are adjacent corners. */
  lemma SharedPairAreCorners(a: Axial, d: HexDirection, vertexOf: (Axial, V.VertexDirection) -> V.Vertex)
    ensures var p, vs := SharedPair(a, d, vertexOf), Vertices(a, vertexOf);
      var k := (DirectionToInt(d) + 1) % 6;
      p[0] == vs[k] && p[1] == vs[(k + 1) % 6]
  {
  }

  /** Distinct directions have distinct unit vectors. */
  lemma MovementVectorInjective(d: HexDirection, e: HexDirection)
    requires MovementVector(d) == MovementVector(e)
    ensures d == e
  {
  }

  /** A hexagon at distance 1 from `a` is one of its six offsets. */
  lemma NeighborHasOffset(a: Axial, b: Axial)
    requires Distance(a, b) == 1
    ensures exists k :: 0 <= k < 6 && b == Add(MovementVector(DirectionFromInt(k)), a)
  {
    UnitOffsets(a, b);
    if b == Add(a, Axial(1, 0)) {
      assert b == Add(MovementVector(DirectionFromInt(0)), a);
    } else if b == Add(a, Axial(0, 1)) {
      assert b == Add(MovementVector(DirectionFromInt(1)), a);
    } else if b == Add(a, Axial(-1, 1)) {
      assert b == Add(MovementVector(DirectionFromInt(2)), a);
    } else if b == Add(a, Axial(-1, 0)) {
      assert b == Add(MovementVector(DirectionFromInt(3)), a);
    } else if b == Add(a, Axial(0, -1)) {
      assert b == Add(MovementVector(DirectionFromInt(4)), a);
    } else {
      assert b == Add(MovementVector(DirectionFromInt(5)), a);
    }
  }

  /** A hexagon that is none of the six offsets of `a` is not at distance 1 from it. */
  lemma NoOffsetNotNeighbor(a: Axial, b: Axial)
    requires forall k :: 0 <= k < 6 ==> b != Add(MovementVector(DirectionFromInt(k)), a)
    ensures Distance(a, b) != 1
  {
    if Distance(a, b) == 1 {
      NeighborHasOffset(a, b);
      assert false;
    }
  }

  /**
   * The two corners that `a` shares with `b`: the directions are tried in
   * order until `b` is the neighbour in that direction; `None` exactly when
   * `b` is not at distance 1.
   */
  method SharedVertTwo(a: Axial, b: Axial, vertexOf: (Axial, V.VertexDirection) -> V.Vertex)
    returns (r: Option<seq<V.Vertex>>)
    ensures r.None? <==> Distance(a, b) != 1
    ensures r.Some? ==> |r.value| == 2
    ensures forall d :: b == Add(MovementVector(d), a) ==> r == Some(SharedPair(a, d, vertexOf))
  {
    for i := 0 to 6
      invariant forall k :: 0 <= k < i ==> b != Add(MovementVector(DirectionFromInt(k)), a)
    {
      var dir := DirectionFromInt(i);
      var vec := MovementVector(dir);
      if b == Add(vec, a) {
        assert b == Neighbor(a, dir);
        forall d | b == Add(MovementVector(d), a)
          ensures d == dir
        {
          MovementVectorInjective(d, dir);
        }
        return Some(SharedPair(a, dir, vertexOf));
      }
    }
    NoOffsetNotNeighbor(a, b);
    forall d
      ensures b != Add(MovementVector(d), a)
    {
      assert d == DirectionFromInt(DirectionToInt(d));
    }
    return None;
  }

  /**
   * The corner shared by `a`, `b` and `c`: the first of the two corners shared
   * by `a` and `b` that is also a corner of `c`.
   */
  method SharedVertThree(a: Axial, b: Axial, c: Axial, vertexOf: (Axial, V.VertexDirection) -> V.Vertex)
    returns (r: Option<V.Vertex>)
    ensures Distance(a, b) != 1 ==> r.None?
    ensures forall d :: b == Add(MovementVector(d), a) ==>
      var p, cs := SharedPair(a, d, vertexOf), Vertices(c, vertexOf);
      r == (if p[0] in cs then Some(p[0]) else if p[1] in cs then Some(p[1]) else None)
  {
    var ab := SharedVertTwo(a, b, vertexOf);
    if ab.None? {
      return None;
    }
    var pair := ab.value;
    var cs := Vertices(c, vertexOf);
    if pair[0] in cs {
      r := Some(pair[0]);
    } else if pair[1] in cs {
      r := Some(pair[1]);
    } else {
      r := None;
    }
  }
}
