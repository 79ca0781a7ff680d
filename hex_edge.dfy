/**
 * Edges of a hexagonal grid.  An edge is named by a hexagon (q, r) and one of
 * three of its sides (west, north-west, north-east); the other three sides of
 * that hexagon are named from the neighbouring hexagon.
 */
module HexEdge {
  import opened HexCoordinate

  datatype EdgeDirection = West | NorthWest | NorthEast

  datatype Edge = Edge(q: int, r: int, dir: EdgeDirection)

  /** The two hexagons that share the edge; the first is always the naming hexagon (q, r). */
  function AdjacentHexes(e: Edge): (hs: seq<Axial>)
    ensures |hs| == 2 && hs[0] == Axial(e.q, e.r)
    ensures Distance(hs[0], hs[1]) == 1
  {
    match e.dir
    case West => [Axial(e.q, e.r), Axial(e.q - 1, e.r)]
    case NorthWest => [Axial(e.q, e.r), Axial(e.q, e.r - 1)]
    case NorthEast => [Axial(e.q, e.r), Axial(e.q + 1, e.r - 1)]
  }

  /** The default edge: the west side of the origin hexagon. */
  function DefaultEdge(): (e: Edge)
    ensures AdjacentHexes(e) == [Origin, MovementVector(Back)]
  {
    Edge(0, 0, West)
  }

  /** The side of the origin hexagon that faces direction `d`. */
  function FromHexDirection(d: HexDirection): Edge
  {
    match d
    case Front => Edge(1, 0, West)
    case FrontRight => Edge(0, 1, NorthWest)
    case BackRight => Edge(-1, 1, NorthEast)
    case Back => Edge(0, 0, West)
    case BackLeft => Edge(0, 0, NorthWest)
    case FrontLeft => Edge(0, 0, NorthEast)
  }

  /**
   * The edge facing `d` lies between the origin and its neighbour in direction
   * `d`, which is the origin plus the unit vector of `d`.
   */
  lemma FromHexDirectionSeparates(d: HexDirection)
    ensures var hs := AdjacentHexes(FromHexDirection(d));
      Origin in hs && MovementVector(d) in hs
  {
  }

  /** The four edges that share an endpoint with `e`. */
  function AdjacentEdges(e: Edge): (es: seq<Edge>)
    ensures |es| == 4
  {
    match e.dir
    case West => [
      Edge(e.q - 1, e.r + 1, NorthEast), Edge(e.q, e.r, NorthWest),
      Edge(e.q - 1, e.r + 1, NorthWest), Edge(e.q - 1, e.r, NorthEast)]
    case NorthWest => [
      Edge(e.q + 1, e.r - 1, West), Edge(e.q, e.r, NorthEast),
      Edge(e.q, e.r, West), Edge(e.q - 1, e.r, NorthEast)]
    case NorthEast => [
      Edge(e.q + 1, e.r, NorthWest), Edge(e.q + 1, e.r, West),
      Edge(e.q, e.r, NorthWest), Edge(e.q + 1, e.r - 1, West)]
  }

  /** The four adjacent edges are distinct and differ from `e`. */
  lemma AdjacentEdgesDistinct(e: Edge)
    ensures forall i, j :: 0 <= i < j < 4 ==> AdjacentEdges(e)[i] != AdjacentEdges(e)[j]
    ensures e !in AdjacentEdges(e)
  {
  }

  /** Each adjacent edge borders exactly one of the two hexagons of `e`. */
  lemma AdjacentEdgesShareOneHex(e: Edge)
    ensures forall i :: 0 <= i < 4 ==>
      var hs, fs := AdjacentHexes(e), AdjacentHexes(AdjacentEdges(e)[i]);
      (hs[0] in fs) != (hs[1] in fs)
  {
  }
}
