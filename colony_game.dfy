/**
 * The rules of the colony board game example: paying for purchases from a
 * player's stock, placing houses and roads on the corners and sides of the
 * hexagon board, and collecting resources after a roll.
 */
module ColonyGame {
  import P = Prelude
  import opened ColonyTypes
  import HC = HexCoordinate
  import E = HexEdge
  import V = HexVertex
  import Tile = HexTile

  /** A player's stock, one count per resource indexed by `ResourceToInt`. */
  class Player {
    const resources: array<nat>
    const id: nat

    predicate Valid()
    {
      resources.Length == ResourceTypeNum
    }

    constructor(id: nat)
      ensures this.id == id && Valid() && fresh(resources)
      ensures forall i :: 0 <= i < ResourceTypeNum ==> resources[i] == 0
    {
      this.id := id;
      resources := new nat[ResourceTypeNum](_ => 0);
    }
  }

  /** The contents of a board at one moment. */
  datatype BoardState = BoardState(
    tiles: map<HC.Axial, GameTile>,
    edges: map<E.Edge, GameEdge>,
    vertices: map<V.Vertex, GameVert>,
    robberTile: HC.Axial)

  /** What a purchase does to the board once it is paid for. */
  datatype BoardAction =
    | InsertVert(vert: V.Vertex, vertData: GameVert)
    | InsertEdge(edge: E.Edge, edgeData: GameEdge)

  function Apply(s: BoardState, action: BoardAction): BoardState
  {
    match action
    case InsertVert(v, d) => s.(vertices := s.vertices[v := d])
    case InsertEdge(e, d) => s.(edges := s.edges[e := d])
  }

  /** The board: land tiles by hexagon, roads by side, developments by corner, and the robber's hexagon. */
  class GameBoard {
    var tiles: map<HC.Axial, GameTile>
    var edges: map<E.Edge, GameEdge>
    var vertices: map<V.Vertex, GameVert>
    var robberTile: HC.Axial

    function State(): BoardState
      reads this
    {
      BoardState(tiles, edges, vertices, robberTile)
    }

    /** The default board: nothing placed, the robber on the origin. */
    constructor()
      ensures State() == BoardState(map[], map[], map[], HC.Axial(0, 0))
    {
      tiles, edges, vertices, robberTile := map[], map[], map[], HC.Axial(0, 0);
    }

    /** Storing a shape's tile: the tile at `coord` becomes `data`, nothing else changes. */
    method SetTile(coord: HC.Axial, data: GameTile)
      modifies this
      ensures State() == old(State()).(tiles := old(tiles)[coord := data])
    {
      tiles := tiles[coord := data];
    }

    method Perform(action: BoardAction)
      modifies this
      ensures State() == Apply(old(State()), action)
    {
      match action
      case InsertVert(v, d) => vertices := vertices[v := d];
      case InsertEdge(e, d) => edges := edges[e := d];
    }
  }

  /* ------------------------------------------------------------ purchases */

  /** The iterator `all` over a cost row: each amount is covered by the stock at the same index. */
  function Covers(stock: seq<nat>, cost: seq<nat>): (b: bool)
    requires |cost| <= |stock|
    ensures b <==> forall i :: 0 <= i < |cost| ==> stock[i] >= cost[i]
    decreases |cost|
  {
    |cost| == 0 || (stock[0] >= cost[0] && Covers(stock[1..], cost[1..]))
  }

  /** The player holds at least the cost of `ty` in every resource. */
  function CanPurchase(ty: PurchaseType, player: Player): (b: bool)
    reads player.resources
    requires player.Valid()
    ensures b <==> forall i :: 0 <= i < ResourceTypeNum ==> player.resources[i] >= Cost(ty)[i]
  {
    Covers(player.resources[..], Cost(ty))
  }

  /** `after` is `before` with the cost of `ty` taken off every resource. */
  ghost predicate Deducted(before: seq<nat>, after: seq<nat>, ty: PurchaseType)
  {
    |before| == |after| == ResourceTypeNum &&
    forall i :: 0 <= i < ResourceTypeNum ==> after[i] + Cost(ty)[i] == before[i]
  }

  /**
   * Takes the cost of `ty` off the stock.  The stock is unsigned, so the
   * caller must hold enough of every resource.
   */
  method RemoveResources(ty: PurchaseType, player: Player)
    requires player.Valid() && CanPurchase(ty, player)
    modifies player.resources
    ensures Deducted(old(player.resources[..]), player.resources[..], ty)
  {
    var cost := Cost(ty);
    for i := 0 to ResourceTypeNum
      invariant forall k :: 0 <= k < i ==> player.resources[k] + cost[k] == old(player.resources[k])
      invariant forall k :: i <= k < ResourceTypeNum ==> player.resources[k] == old(player.resources[k])
    {
      player.resources[i] := player.resources[i] - cost[i];
    }
  }

  /**
   * Pays for `ty` and then performs `action` once; without the resources the
   * result is `NotEnoughResources` and neither the stock nor the board changes.
   */
  method Purchase(ty: PurchaseType, player: Player, board: GameBoard, action: BoardAction)
    returns (r: P.Result<(), GameError>)
    requires player.Valid()
    modifies player.resources, board
    ensures r.Ok? <==> old(CanPurchase(ty, player))
    ensures r.Ok? ==> Deducted(old(player.resources[..]), player.resources[..], ty)
    ensures r.Ok? ==> board.State() == Apply(old(board.State()), action)
    ensures r.Err? ==> r.error == NotEnoughResources && unchanged(player.resources) && unchanged(board)
  {
    if CanPurchase(ty, player) {
      RemoveResources(ty, player);
      board.Perform(action);
      return P.Ok(());
    }
    return P.Err(NotEnoughResources);
  }

  /* ----------------------------------------------------------- placement */

  /** Corner `v` carries a house or a city, whoever owns it. */
  predicate Developed(vertices: map<V.Vertex, GameVert>, v: V.Vertex)
  {
    v in vertices && vertices[v].vertType != DevType.None
  }

  /** Corner `v` carries a house or a city of player `pid`. */
  predicate OwnsDevelopment(vertices: map<V.Vertex, GameVert>, v: V.Vertex, pid: nat)
  {
    Developed(vertices, v) && vertices[v].owningPlayer == pid
  }

  /** Side `e` carries a road of player `pid`. */
  predicate OwnsRoad(edges: map<E.Edge, GameEdge>, e: E.Edge, pid: nat)
  {
    e in edges && edges[e].edgeType == EdgeType.Road && edges[e].owningPlayer == pid
  }

  /** One of the corners next to `vert` is developed. */
  predicate IsHouseAdjacent(vertices: map<V.Vertex, GameVert>, vert: V.Vertex)
  {
    var ns := V.AdjacentVertices(vert);
    ns.Some? && exists i :: 0 <= i < |ns.value| && Developed(vertices, ns.value[i])
  }

  /** One of the sides meeting at `vert` is a road of `pid`. */
  predicate IsOnRoad(edges: map<E.Edge, GameEdge>, vert: V.Vertex, pid: nat)
  {
    var es := V.AdjacentEdges(vert);
    es.Some? && exists i :: 0 <= i < |es.value| && OwnsRoad(edges, es.value[i], pid)
  }

  /** The location test of `place_house` as the code states it: reject unless a neighbour is developed and a road is owned. */
  predicate HouseRejectedAsWritten(s: BoardState, vert: V.Vertex, pid: nat)
  {
    !IsHouseAdjacent(s.vertices, vert) || !IsOnRoad(s.edges, vert, pid)
  }

  /** The location test as the rules state it: reject when a neighbour is developed or no road of the player arrives. */
  predicate HouseRejected(s: BoardState, vert: V.Vertex, pid: nat)
  {
    IsHouseAdjacent(s.vertices, vert) || !IsOnRoad(s.edges, vert, pid)
  }

  /**
   * The written test refuses the placement the rules are about, a corner with
   * no developed neighbour on one of the player's roads, while the rules'
   * test accepts it.
   */
  lemma PlaceHouseGuardFinding()
    ensures var vert := V.MakeVertex(1, 0);
      var road := V.AdjacentEdges(vert).value[0];
      var s := BoardState(map[], map[road := GameEdge(EdgeType.Road, 0)], map[], HC.Axial(0, 0));
      HouseRejectedAsWritten(s, vert, 0) && !HouseRejected(s, vert, 0)
  {
    var vert := V.MakeVertex(1, 0);
    var es := V.AdjacentEdges(vert).value;
    var s := BoardState(map[], map[es[0] := GameEdge(EdgeType.Road, 0)], map[], HC.Axial(0, 0));
    assert OwnsRoad(s.edges, es[0], 0);
  }

  /** Conversely, every corner the written test lets through has a developed neighbour. */
  lemma AsWrittenAcceptsOnlyCrowded(s: BoardState, vert: V.Vertex, pid: nat)
    requires !HouseRejectedAsWritten(s, vert, pid)
    ensures HouseRejected(s, vert, pid)
    ensures IsHouseAdjacent(s.vertices, vert)
  {
  }

  /**
   * Places a house of the player at `vert`, paying the house cost:
   * `InvalidLocation` when a neighbouring corner is developed or no road of
   * the player arrives there, otherwise as `Purchase` of a house.
   */
  method PlaceHouse(board: GameBoard, vert: V.Vertex, player: Player) returns (r: P.Result<(), GameError>)
    requires player.Valid()
    modifies board, player.resources
    ensures r == P.Err(InvalidLocation) <==> old(HouseRejected(board.State(), vert, player.id))
    ensures r.Ok? <==> !old(HouseRejected(board.State(), vert, player.id)) && old(CanPurchase(PurchaseType.House, player))
    ensures r.Ok? ==> Deducted(old(player.resources[..]), player.resources[..], PurchaseType.House)
    ensures r.Ok? ==> board.State() == Apply(old(board.State()), InsertVert(vert, GameVert(DevType.House, player.id)))
    ensures r.Err? ==> unchanged(board) && unchanged(player.resources)
  {
    var playerId := player.id;
    var isHouseAdjacent := IsHouseAdjacent(board.vertices, vert);
    var isOnRoad := IsOnRoad(board.edges, vert, playerId);
    if isHouseAdjacent || !isOnRoad {
      return P.Err(InvalidLocation);
    }
    r := Purchase(PurchaseType.House, player, board, InsertVert(vert, GameVert(DevType.House, playerId)));
  }

  /**
   * A house keeps the distance rule: once a house stands at a corner, every
   * neighbouring corner is rejected for anyone's house.
   */
  lemma HouseBlocksNeighbours(s: BoardState, v: V.Vertex, pid: nat, w: V.Vertex, other: nat)
    requires V.AdjacentVertices(v).Some? && w in V.AdjacentVertices(v).value
    requires V.AdjacentVertices(w).Some?
    ensures HouseRejected(Apply(s, InsertVert(v, GameVert(DevType.House, pid))), w, other)
  {
    var t := Apply(s, InsertVert(v, GameVert(DevType.House, pid)));
    V.AdjacentVerticesSymmetric(v);
    var ns := V.AdjacentVertices(w).value;
    assert v in ns;
    var i :| 0 <= i < |ns| && ns[i] == v;
    assert Developed(t.vertices, ns[i]);
  }

  /** One of the four sides touching `edge` is a road of `pid`. */
  predicate IsRoadAdjacent(edges: map<E.Edge, GameEdge>, edge: E.Edge, pid: nat)
  {
    exists i :: 0 <= i < 4 && OwnsRoad(edges, E.AdjacentEdges(edge)[i], pid)
  }

  /** One of the two ends of `edge` is a development of `pid`. */
  predicate IsDevelopmentAdjacent(vertices: map<V.Vertex, GameVert>, edge: E.Edge, pid: nat,
                                  endpoints: E.Edge -> (V.Vertex, V.Vertex))
  {
    OwnsDevelopment(vertices, endpoints(edge).0, pid) || OwnsDevelopment(vertices, endpoints(edge).1, pid)
  }

  /** A road must continue one of the player's roads or leave one of the player's developments. */
  predicate RoadRejected(s: BoardState, edge: E.Edge, pid: nat, endpoints: E.Edge -> (V.Vertex, V.Vertex))
  {
    !IsRoadAdjacent(s.edges, edge, pid) && !IsDevelopmentAdjacent(s.vertices, edge, pid, endpoints)
  }

  /**
   * Places a road of the player on `edge`, paying the road cost:
   * `InvalidLocation` when it would touch neither a road nor a development of
   * the player, otherwise as `Purchase` of a road.
   */
  method PlaceRoad(board: GameBoard, edge: E.Edge, player: Player, endpoints: E.Edge -> (V.Vertex, V.Vertex))
    returns (r: P.Result<(), GameError>)
    requires player.Valid()
    modifies board, player.resources
    ensures r == P.Err(InvalidLocation) <==> old(RoadRejected(board.State(), edge, player.id, endpoints))
    ensures r.Ok? <==> !old(RoadRejected(board.State(), edge, player.id, endpoints)) && old(CanPurchase(PurchaseType.Road, player))
    ensures r.Ok? ==> Deducted(old(player.resources[..]), player.resources[..], PurchaseType.Road)
    ensures r.Ok? ==> board.State() == Apply(old(board.State()), InsertEdge(edge, GameEdge(EdgeType.Road, player.id)))
    ensures r.Err? ==> unchanged(board) && unchanged(player.resources)
  {
    var playerId := player.id;
    var isRoadAdjacent := IsRoadAdjacent(board.edges, edge, playerId);
    var isDevelopmentAdjacent := IsDevelopmentAdjacent(board.vertices, edge, playerId, endpoints);
    if !isRoadAdjacent && !isDevelopmentAdjacent {
      return P.Err(InvalidLocation);
    }
    r := Purchase(PurchaseType.Road, player, board, InsertEdge(edge, GameEdge(EdgeType.Road, playerId)));
  }

  /** A new road opens every side touching it to further roads of the same player. */
  lemma RoadExtends(s: BoardState, edge: E.Edge, pid: nat, f: E.Edge, endpoints: E.Edge -> (V.Vertex, V.Vertex))
    requires edge in E.AdjacentEdges(f)
    ensures !RoadRejected(Apply(s, InsertEdge(edge, GameEdge(EdgeType.Road, pid))), f, pid, endpoints)
  {
    var t := Apply(s, InsertEdge(edge, GameEdge(EdgeType.Road, pid)));
    var i :| 0 <= i < 4 && E.AdjacentEdges(f)[i] == edge;
    assert OwnsRoad(t.edges, E.AdjacentEdges(f)[i], pid);
  }

  /* ----------------------------------------------------------- collection */

  /** A house earns one of its tile's resource, a city two. */
  function Increment(d: DevType): nat
  {
    match d
    case None => 0
    case House => 1
    case City => 2
  }

  /** What corner `v` earns player `pid` from a producing tile. */
  function CornerYield(vertices: map<V.Vertex, GameVert>, v: V.Vertex, pid: nat): nat
  {
    if OwnsDevelopment(vertices, v, pid) then Increment(vertices[v].vertType) else 0
  }

  function CornersYield(vertices: map<V.Vertex, GameVert>, corners: seq<V.Vertex>, pid: nat): nat
    decreases |corners|
  {
    if |corners| == 0 then 0
    else CornersYield(vertices, corners[..|corners| - 1], pid) + CornerYield(vertices, corners[|corners| - 1], pid)
  }

  /**
   * The amount of resource `res` that tile `c` earns `pid` on `roll`: nothing
   * unless the tile carries the rolled number, is free of the robber and
   * yields that resource.
   */
  function TileYield(s: BoardState, roll: nat, pid: nat, vertexOf: (HC.Axial, V.VertexDirection) -> V.Vertex,
                     c: HC.Axial, res: nat): nat
  {
    if c in s.tiles && s.tiles[c].number == roll && c != s.robberTile then
      var kind := ResourceFromTile(s.tiles[c].tileType);
      if kind.Ok? && ResourceToInt(kind.value) == res then CornersYield(s.vertices, Tile.Vertices(c, vertexOf), pid)
      else 0
    else 0
  }

  /** The sum of `f` over the hexagons of `order`. */
  function SumOver(order: seq<HC.Axial>, f: HC.Axial -> nat): nat
    decreases |order|
  {
    if |order| == 0 then 0 else SumOver(order[..|order| - 1], f) + f(order[|order| - 1])
  }

  /** The amount of resource `res` the tiles of `order` earn together. */
  function Yield(s: BoardState, roll: nat, pid: nat, vertexOf: (HC.Axial, V.VertexDirection) -> V.Vertex,
                 order: seq<HC.Axial>, res: nat): nat
  {
    SumOver(order, c => TileYield(s, roll, pid, vertexOf, c, res))
  }

  /** Adds to the player's stock what tile `c` earns on `roll`. */
  method CollectTile(board: GameBoard, c: HC.Axial, roll: nat, player: Player,
                     vertexOf: (HC.Axial, V.VertexDirection) -> V.Vertex)
    requires player.Valid() && c in board.tiles
    modifies player.resources
    ensures forall res :: 0 <= res < ResourceTypeNum ==>
      player.resources[res] == old(player.resources[res]) + TileYield(board.State(), roll, player.id, vertexOf, c, res)
  {
    var tile := board.tiles[c];
    if tile.number == roll && c != board.robberTile {
      var corners := Tile.Vertices(c, vertexOf);
      var kind := ResourceFromTile(tile.tileType);
      assert corners[..0] == [];
      assert CornersYield(board.vertices, corners[..0], player.id) == 0;
      assert forall res :: 0 <= res < ResourceTypeNum ==> player.resources[res] == old(player.resources[res]);
      for j := 0 to |corners|
        invariant forall res :: 0 <= res < ResourceTypeNum ==>
          player.resources[res] == old(player.resources[res]) +
            (if kind.Ok? && ResourceToInt(kind.value) == res then CornersYield(board.vertices, corners[..j], player.id) else 0)
      {
        var vert := corners[j];
        if vert in board.vertices {
          var vertData := board.vertices[vert];
          if vertData.owningPlayer == player.id && vertData.vertType != DevType.None {
            if kind.Ok? {
              var index := ResourceToInt(kind.value);
              player.resources[index] := player.resources[index] + Increment(vertData.vertType);
            }
          }
        }
        assert corners[..j + 1][..j] == corners[..j];
      }
      assert corners[..|corners|] == corners;
    }
  }

  /**
   * Adds to the player's stock what every tile earns on `roll`.  `order` is
   * the order in which the board's tiles are visited: each tile exactly once.
   */
  method CollectResources(roll: nat, board: GameBoard, player: Player,
                          vertexOf: (HC.Axial, V.VertexDirection) -> V.Vertex, order: seq<HC.Axial>)
    requires player.Valid()
    requires forall c :: c in board.tiles <==> c in order
    requires forall i, j :: 0 <= i < j < |order| ==> order[i] != order[j]
    modifies player.resources
    ensures forall res :: 0 <= res < ResourceTypeNum ==>
      player.resources[res] == old(player.resources[res]) + Yield(board.State(), roll, player.id, vertexOf, order, res)
  {
    for k := 0 to |order|
      invariant forall res :: 0 <= res < ResourceTypeNum ==>
        player.resources[res] == old(player.resources[res]) + Yield(board.State(), roll, player.id, vertexOf, order[..k], res)
    {
      CollectTile(board, order[k], roll, player, vertexOf);
      assert order[..k + 1][..k] == order[..k];
    }
    assert order[..|order|] == order;
  }

  /** Each corner earns at most two, a city's share. */
  lemma {:induction false} CornersYieldBound(vertices: map<V.Vertex, GameVert>, corners: seq<V.Vertex>, pid: nat)
    ensures CornersYield(vertices, corners, pid) <= 2 * |corners|
    decreases |corners|
  {
    if |corners| > 0 {
      CornersYieldBound(vertices, corners[..|corners| - 1], pid);
    }
  }

  /**
   * A tile earns nothing when it carries another number, holds the robber or
   * is a desert; otherwise it earns only its own resource, at most two for
   * each of its six corners.
   */
  lemma TileYieldProperties(s: BoardState, roll: nat, pid: nat, vertexOf: (HC.Axial, V.VertexDirection) -> V.Vertex,
                            c: HC.Axial, res: nat)
    ensures c == s.robberTile ==> TileYield(s, roll, pid, vertexOf, c, res) == 0
    ensures c in s.tiles && (s.tiles[c].number != roll || s.tiles[c].tileType == Desert) ==>
      TileYield(s, roll, pid, vertexOf, c, res) == 0
    ensures TileYield(s, roll, pid, vertexOf, c, res) > 0 ==>
      c in s.tiles && ResourceFromTile(s.tiles[c].tileType).Ok? && ResourceToInt(ResourceFromTile(s.tiles[c].tileType).value) == res
    ensures TileYield(s, roll, pid, vertexOf, c, res) <= 12
  {
    CornersYieldBound(s.vertices, Tile.Vertices(c, vertexOf), pid);
  }

  /** Sums over two runs of hexagons add up. */
  lemma {:induction false} SumAppend(a: seq<HC.Axial>, b: seq<HC.Axial>, f: HC.Axial -> nat)
    ensures SumOver(a + b, f) == SumOver(a, f) + SumOver(b, f)
    decreases |b|
  {
    if |b| == 0 {
      assert a + b == a;
    } else {
      var init := b[..|b| - 1];
      assert (a + b)[..|a + b| - 1] == a + init;
      SumAppend(a, init, f);
    }
  }

  /** A sum does not depend on the order of the hexagons summed over. */
  lemma {:induction false} SumPermutation(a: seq<HC.Axial>, b: seq<HC.Axial>, f: HC.Axial -> nat)
    requires multiset(a) == multiset(b)
    ensures SumOver(a, f) == SumOver(b, f)
    decreases |a|
  {
    if |a| == 0 {
      assert |b| == |multiset(b)| == 0;
    } else {
      var x := a[|a| - 1];
      var init := a[..|a| - 1];
      assert a == init + [x];
      assert x in multiset(b);
      var i :| 0 <= i < |b| && b[i] == x;
      var left, right := b[..i], b[i + 1..];
      assert b == left + [x] + right;
      assert multiset(b) == multiset(left + right) + multiset{x};
      assert multiset(a) == multiset(init) + multiset{x};
      assert multiset(init) == multiset(a) - multiset{x} == multiset(left + right);
      SumPermutation(init, left + right, f);
      SumAppend(left, right, f);
      SumAppend(left + [x], right, f);
      SumAppend(left, [x], f);
      assert SumOver([x], f) == f(x) by {
        assert [x][..0] == [];
      }
    }
  }

  /** A sum of zeros is zero. */
  lemma {:induction false} SumZero(order: seq<HC.Axial>, f: HC.Axial -> nat)
    requires forall c :: c in order ==> f(c) == 0
    ensures SumOver(order, f) == 0
    decreases |order|
  {
    if |order| > 0 {
      var init := order[..|order| - 1];
      assert forall c :: c in init ==> c in order;
      SumZero(init, f);
      assert order[|order| - 1] in order;
    }
  }

  /** The earnings do not depend on the order in which the tiles are visited. */
  lemma YieldPermutation(s: BoardState, roll: nat, pid: nat, vertexOf: (HC.Axial, V.VertexDirection) -> V.Vertex,
                         a: seq<HC.Axial>, b: seq<HC.Axial>, res: nat)
    requires multiset(a) == multiset(b)
    ensures Yield(s, roll, pid, vertexOf, a, res) == Yield(s, roll, pid, vertexOf, b, res)
  {
    SumPermutation(a, b, c => TileYield(s, roll, pid, vertexOf, c, res));
  }

  /** A roll that no tile carries, such as 7 on a dealt island, earns nothing. */
  lemma NoMatchNoYield(s: BoardState, roll: nat, pid: nat, vertexOf: (HC.Axial, V.VertexDirection) -> V.Vertex,
                       order: seq<HC.Axial>, res: nat)
    requires forall c :: c in order && c in s.tiles ==> s.tiles[c].number != roll
    ensures Yield(s, roll, pid, vertexOf, order, res) == 0
  {
    var f := c => TileYield(s, roll, pid, vertexOf, c, res);
    forall c | c in order
      ensures f(c) == 0
    {
      TileYieldProperties(s, roll, pid, vertexOf, c, res);
    }
    SumZero(order, f);
  }
}
