/**
 * Vertices of a hexagonal grid.  A vertex is stored as a coordinate of the
 * triangular lattice; the triangles of that lattice are the corners of the
 * hexagons.  A vertex knows its three hexagons, its three neighbouring
 * vertices and its three edges, provided its triple names a triangular face.
 */
module HexVertex {
  import opened Prelude
  import HC = HexCoordinate
  import T = TriangleCoordinate
  import E = HexEdge

  /** Which side of the vertex holds two of its three hexagons. */
  datatype VertexSpin = Up | Down

  /** The corner of a pointy-top hexagon, clockwise from the top. */
  datatype VertexDirection = Up | UpRight | DownRight | Down | DownLeft | UpLeft

  datatype Vertex = Vertex(coord: T.Triangle)

  /** The two-component vertex form: the third component is 0. */
  function MakeVertex(x: int, y: int): Vertex
  {
    Vertex(T.Triangle(x, y, 0))
  }

  /* ---------------------------------------------------------------- directions */

  /** Only the Euclidean remainder modulo 6 matters. */
  function DirectionFromInt(value: int): VertexDirection
  {
    match value % 6
    case 0 => VertexDirection.Up
    case 1 => UpRight
    case 2 => DownRight
    case 3 => VertexDirection.Down
    case 4 => DownLeft
    case _ => UpLeft
  }

  /** Conversion to an integer; it is the inverse of `DirectionFromInt` on 0..5. */
  function DirectionToInt(d: VertexDirection): (i: int)
    ensures 0 <= i < 6
    ensures DirectionFromInt(i) == d
  {
    match d
    case Up => 0
    case UpRight => 1
    case DownRight => 2
    case Down => 3
    case DownLeft => 4
    case UpLeft => 5
  }

  lemma DirectionFromIntPeriodic(value: int)
    ensures DirectionFromInt(value + 6) == DirectionFromInt(value)
    ensures DirectionToInt(DirectionFromInt(value)) == value % 6
  {
  }

  /** The opposite corner. */
  function NegDirection(d: VertexDirection): VertexDirection
  {
    match d
    case Up => VertexDirection.Down
    case UpRight => DownLeft
    case DownRight => UpLeft
    case Down => VertexDirection.Up
    case DownLeft => UpRight
    case UpLeft => DownRight
  }

  /** The opposite corner is three steps round, and negating twice gives the corner back. */
  lemma NegDirectionProperties(d: VertexDirection)
    ensures DirectionToInt(NegDirection(d)) == (DirectionToInt(d) + 3) % 6
    ensures NegDirection(NegDirection(d)) == d
  {
  }

  /** The offset of each corner direction. */
  function FromDirection(d: VertexDirection): Vertex
  {
    match d
    case Up => MakeVertex(0, -1)
    case UpRight => MakeVertex(1, 0)
    case DownRight => MakeVertex(0, 1)
    case Down => MakeVertex(-1, 2)
    case DownLeft => MakeVertex(-2, 1)
    case UpLeft => MakeVertex(-1, 0)
  }

  /* ---------------------------------------------------------------- arithmetic */

  function Add(a: Vertex, b: Vertex): Vertex
  {
    Vertex(T.Add(a.coord, b.coord))
  }

  function Sub(a: Vertex, b: Vertex): Vertex
  {
    Vertex(T.Sub(a.coord, b.coord))
  }

  /** Component-wise negation of the triple. */
  function Neg(a: Vertex): Vertex
  {
    Vertex(T.Triangle(-a.coord.x, -a.coord.y, -a.coord.z))
  }

  lemma ArithmeticLaws(a: Vertex, b: Vertex)
    ensures Sub(Add(a, b), b) == a && Add(Sub(a, b), b) == a
    ensures Add(a, Neg(b)) == Sub(a, b)
    ensures Neg(Neg(a)) == a
  {
  }

  /** `+=`: the vertex is replaced by the sum. */
  method AddAssign(v: Vertex, rhs: Vertex) returns (updated: Vertex)
    ensures updated == Add(v, rhs)
    ensures Sub(updated, rhs) == v
  {
    updated := Add(v, rhs);
    ArithmeticLaws(v, rhs);
  }

  /** `-=`: the vertex is replaced by the difference. */
  method SubAssign(v: Vertex, rhs: Vertex) returns (updated: Vertex)
    ensures updated == Sub(v, rhs)
    ensures Add(updated, rhs) == v
  {
    updated := Sub(v, rhs);
    ArithmeticLaws(v, rhs);
  }

  /** L1 distance of the underlying triples. */
  function Distance(a: Vertex, b: Vertex): (d: int)
    ensures d >= 0
    ensures d == 0 <==> a == b
  {
    T.Distance(a.coord, b.coord)
  }

  lemma DistanceSymmetric(a: Vertex, b: Vertex)
    ensures Distance(a, b) == Distance(b, a)
  {
    T.DistanceSymmetric(a.coord, b.coord);
  }

  /* ---------------------------------------------------------------- hexagon embedding */

  /** The vertex that stands for hexagon `a`: odd x for r <= 0, odd y for r > 0. */
  function FromAxial(a: HC.Axial): Vertex
  {
    var x := if a.r <= 0 then 2 * a.q - 1 else 2 * a.q;
    var y := if a.r > 0 then 2 * a.r - 1 else 2 * a.r;
    MakeVertex(x, y)
  }

  /** Back from the vertex form to the hexagon, halving with Rust's truncating division. */
  function TriToAxial(v: Vertex): HC.Axial
  {
    var q := if v.coord.y <= 0 then TruncDiv(v.coord.x + 1, 2) else TruncDiv(v.coord.x, 2);
    var r := if v.coord.y > 0 then TruncDiv(v.coord.y + 1, 2) else TruncDiv(v.coord.y, 2);
    HC.Axial(q, r)
  }

  /** `TriToAxial` undoes `FromAxial` for every hexagon; every halving is exact. */
  lemma TriToAxialRoundTrip(a: HC.Axial)
    ensures TriToAxial(FromAxial(a)) == a
  {
    TruncDivTwice(a.q);
    TruncDivTwice(a.r);
  }

  /**
   * The hexagon and spin of a face vertex, or `None` when the triple is not a
   * face: the vertex is shifted by a corner offset chosen by its orientation
   * and by the sign of y, then mapped back to the hexagon.
   */
  function TryToAxial(v: Vertex): (r: Option<(HC.Axial, VertexSpin)>)
    ensures r.None? <==> !T.IsTriFace(v.coord)
    ensures r.Some? ==> (r.value.1 == VertexSpin.Down <==> T.Orientation(v.coord) == T.Up)
  {
    if !T.IsTriFace(v.coord) then None
    else
      match (T.Orientation(v.coord), v.coord.y >= 0)
      case (Up, true) => Some((TriToAxial(Add(v, Neg(FromDirection(VertexDirection.Down)))), VertexSpin.Down))
      case (Up, false) => Some((TriToAxial(Add(v, FromDirection(VertexDirection.Up))), VertexSpin.Down))
      case (Down, true) => Some((TriToAxial(Add(v, Neg(FromDirection(VertexDirection.Up)))), VertexSpin.Up))
      case (Down, false) => Some((TriToAxial(Add(v, FromDirection(VertexDirection.Down))), VertexSpin.Up))
  }

  /* ---------------------------------------------------------------- adjacency */

  /** The three hexagons around a vertex of hexagon `c` with the given spin, `c` first. */
  function SpinHexes(c: HC.Axial, spin: VertexSpin): seq<HC.Axial>
  {
    match spin
    case Up => [c, HC.Axial(c.q, c.r - 1), HC.Axial(c.q + 1, c.r - 1)]
    case Down => [c, HC.Axial(c.q, c.r + 1), HC.Axial(c.q - 1, c.r + 1)]
  }

  /** The three hexagons meeting at the vertex, the owning hexagon first; `None` for a non-face triple. */
  function AdjacentHexes(v: Vertex): (r: Option<seq<HC.Axial>>)
    ensures r.None? <==> !T.IsTriFace(v.coord)
    ensures r.Some? ==> |r.value| == 3 && r.value[0] == TryToAxial(v).value.0
  {
    match TryToAxial(v)
    case None => None
    case Some((c, spin)) => Some(SpinHexes(c, spin))
  }

  /** The three hexagons at a vertex are pairwise neighbours. */
  lemma AdjacentHexesNeighbors(v: Vertex)
    requires T.IsTriFace(v.coord)
    ensures var hs := AdjacentHexes(v).value;
      forall i, j :: 0 <= i < j < 3 ==> HC.Distance(hs[i], hs[j]) == 1
  {
    var (c, spin) := TryToAxial(v).value;
    var hs := SpinHexes(c, spin);
    forall i, j | 0 <= i < j < 3
      ensures HC.Distance(hs[i], hs[j]) == 1
    {
      HC.DistanceIsMax(hs[i], hs[j]);
    }
  }

  /** The three neighbouring vertices: the lattice neighbours of the triple, in order; `None` for a non-face triple. */
  function AdjacentVertices(v: Vertex): (r: Option<seq<Vertex>>)
    ensures r.None? <==> !T.IsTriFace(v.coord)
    ensures r.Some? ==> (|r.value| == 3 &&
      forall i :: 0 <= i < 3 ==> r.value[i].coord == T.Neighbors(v.coord)[i])
  {
    if !T.IsTriFace(v.coord) then None
    else
      var ns := T.Neighbors(v.coord);
      Some([Vertex(ns[0]), Vertex(ns[1]), Vertex(ns[2])])
  }

  /** Each neighbouring vertex is one step away and, when it is a face itself, lists `v` among its neighbours. */
  lemma AdjacentVerticesSymmetric(v: Vertex)
    requires T.IsTriFace(v.coord)
    ensures var ns := AdjacentVertices(v).value;
      forall i :: 0 <= i < 3 ==>
        Distance(v, ns[i]) == 1 &&
        (T.IsTriFace(ns[i].coord) ==> v in AdjacentVertices(ns[i]).value)
  {
    var ns := AdjacentVertices(v).value;
    forall i | 0 <= i < 3
      ensures Distance(v, ns[i]) == 1
      ensures T.IsTriFace(ns[i].coord) ==> v in AdjacentVertices(ns[i]).value
    {
      var d := [T.Left, T.Right, T.Base][i];
      assert ns[i].coord == T.Neighbor(v.coord, d);
      T.NeighborProperties(v.coord, d);
      if T.IsTriFace(ns[i].coord) {
        var ms := AdjacentVertices(ns[i]).value;
        var k :| 0 <= k < 3 && T.Neighbors(ns[i].coord)[k] == v.coord;
        assert ms[k] == v;
      }
    }
  }

  /** The three edges ending at a vertex of hexagon `c` with the given spin. */
  function SpinEdges(c: HC.Axial, spin: VertexSpin): seq<E.Edge>
  {
    match spin
    case Up => [
      E.Edge(c.q + 1, c.r - 1, E.West), E.Edge(c.q, c.r, E.NorthEast), E.Edge(c.q, c.r, E.NorthWest)]
    case Down => [
      E.Edge(c.q, c.r + 1, E.NorthWest), E.Edge(c.q, c.r + 1, E.West), E.Edge(c.q - 1, c.r + 1, E.NorthEast)]
  }

  /** The three edges ending at the vertex; `None` for a non-face triple. */
  function AdjacentEdges(v: Vertex): (r: Option<seq<E.Edge>>)
    ensures r.None? <==> !T.IsTriFace(v.coord)
    ensures r.Some? ==> |r.value| == 3
  {
    match TryToAxial(v)
    case None => None
    case Some((c, spin)) => Some(SpinEdges(c, spin))
  }

  lemma SpinEdgesBetweenHexes(c: HC.Axial, spin: VertexSpin)
    ensures forall i, h :: 0 <= i < 3 && h in E.AdjacentHexes(SpinEdges(c, spin)[i]) ==>
      h in SpinHexes(c, spin)
  {
    var es, hs := SpinEdges(c, spin), SpinHexes(c, spin);
    forall i | 0 <= i < 3
      ensures E.AdjacentHexes(es[i])[0] in hs && E.AdjacentHexes(es[i])[1] in hs
    {
    }
  }

  /** Both hexagons of every edge at a vertex are among the vertex's hexagons. */
  lemma AdjacentEdgesBetweenHexes(v: Vertex)
    requires T.IsTriFace(v.coord)
    ensures forall i, h :: 0 <= i < 3 && h in E.AdjacentHexes(AdjacentEdges(v).value[i]) ==>
      h in AdjacentHexes(v).value
  {
    var (c, spin) := TryToAxial(v).value;
    SpinEdgesBetweenHexes(c, spin);
  }

  /**
   * Distance between two edges: the distance between their first endpoints.
   * The endpoint table itself is given as `endpoints`.  This is `Edge::distance`;
   * it lives here rather than in `HexEdge` because it measures vertices, and
   * `HexEdge` cannot import this module, which already imports `HexEdge`.
   */
  function EdgeDistance(e: E.Edge, f: E.Edge, endpoints: E.Edge -> (Vertex, Vertex)): (d: int)
    ensures d >= 0
  {
    Distance(endpoints(e).0, endpoints(f).0)
  }

  lemma EdgeDistanceProperties(e: E.Edge, f: E.Edge, endpoints: E.Edge -> (Vertex, Vertex))
    ensures EdgeDistance(e, e, endpoints) == 0
    ensures EdgeDistance(e, f, endpoints) == EdgeDistance(f, e, endpoints)
  {
    DistanceSymmetric(endpoints(e).0, endpoints(f).0);
  }
}
