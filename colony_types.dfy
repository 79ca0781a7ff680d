/**
 * The data of the colony board game example: tile and resource kinds and
 * their conversions, developments and roads, the purchase cost table and the
 * pools an island is dealt from.
 */
module ColonyTypes {
  import P = Prelude

  datatype GameError = InvalidLocation | NotEnoughResources

  /** Land kinds; the default tile is a desert. */
  datatype TileType = Desert | Plains | Farmland | Forest | Quarry | Mountain

  const DefaultTileType: TileType := Desert

  datatype ResourceType = Lumber | Brick | Wool | Grain | Ore

  /** The land a resource comes from. */
  function TileFromResource(r: ResourceType): TileType
  {
    match r
    case Lumber => Forest
    case Brick => Quarry
    case Wool => Plains
    case Grain => Farmland
    case Ore => Mountain
  }

  /** The resource a land kind yields; a desert yields none. */
  function ResourceFromTile(t: TileType): (r: P.Result<ResourceType, string>)
    ensures r.Err? <==> t == Desert
  {
    match t
    case Desert => P.Err("Desert does not have a resource")
    case Plains => P.Ok(Wool)
    case Farmland => P.Ok(Grain)
    case Forest => P.Ok(Lumber)
    case Quarry => P.Ok(Brick)
    case Mountain => P.Ok(Ore)
  }

  /** Going from a resource to its land and back gives the resource again. */
  lemma ResourceTileRoundTrip(r: ResourceType)
    ensures ResourceFromTile(TileFromResource(r)) == P.Ok(r)
    ensures TileFromResource(r) != Desert
  {
  }

  /** Every land other than the desert is the land of the resource it yields. */
  lemma TileResourceRoundTrip(t: TileType)
    requires t != Desert
    ensures TileFromResource(ResourceFromTile(t).value) == t
  {
  }

  /** A resource's position in declaration order, used to index a stock. */
  function ResourceToInt(r: ResourceType): (n: nat)
    ensures n < 5
  {
    match r
    case Lumber => 0
    case Brick => 1
    case Wool => 2
    case Grain => 3
    case Ore => 4
  }

  const ResourceTypeNum: nat := ResourceToInt(Ore) + 1

  /** The resource at a stock index; indices past the last resource are invalid. */
  function ResourceFromInt(n: nat): (r: P.Result<ResourceType, string>)
  {
    match n
    case 0 => P.Ok(Lumber)
    case 1 => P.Ok(Brick)
    case 2 => P.Ok(Wool)
    case 3 => P.Ok(Grain)
    case 4 => P.Ok(Ore)
    case _ => P.Err("Invalid input")
  }

  /** `ResourceFromInt` succeeds exactly on the indices below `ResourceTypeNum` and inverts `ResourceToInt`. */
  lemma ResourceIndexRoundTrip(n: nat, r: ResourceType)
    ensures ResourceFromInt(n).Ok? <==> n < ResourceTypeNum
    ensures ResourceFromInt(ResourceToInt(r)) == P.Ok(r)
    ensures ResourceFromInt(n).Ok? ==> ResourceToInt(ResourceFromInt(n).value) == n
  {
  }

  /** A land tile and the roll that makes it produce. */
  datatype GameTile = GameTile(tileType: TileType, number: nat)

  datatype DevType = None | House | City

  datatype GameVert = GameVert(vertType: DevType, owningPlayer: nat)

  datatype EdgeType = None | Road

  datatype GameEdge = GameEdge(edgeType: EdgeType, owningPlayer: nat)

  datatype PurchaseType = Road | House | City | DevCard

  function PurchaseToInt(ty: PurchaseType): (n: nat)
    ensures n < 4
  {
    match ty
    case Road => 0
    case House => 1
    case City => 2
    case DevCard => 3
  }

  const PurchaseTypeNum: nat := PurchaseToInt(DevCard) + 1

  /** Row: purchase kind; column: resource index. */
  const CostTable: seq<seq<nat>> := [
    [1, 1, 0, 0, 0],
    [1, 1, 1, 1, 0],
    [0, 0, 0, 2, 3],
    [0, 0, 1, 1, 1]
  ]

  /** The cost row of a purchase, one amount per resource. */
  function Cost(ty: PurchaseType): (row: seq<nat>)
    ensures |row| == ResourceTypeNum
  {
    CostTable[PurchaseToInt(ty)]
  }

  /** The cost table has one row per purchase kind and one column per resource. */
  lemma CostTableShape()
    ensures ResourceTypeNum == 5 && PurchaseTypeNum == 4
    ensures |CostTable| == PurchaseTypeNum
    ensures forall i :: 0 <= i < |CostTable| ==> |CostTable[i]| == ResourceTypeNum
  {
  }

  const TilePool: seq<TileType> := [
    Plains, Plains, Plains, Plains,
    Forest, Forest, Forest, Forest,
    Farmland, Farmland, Farmland, Farmland,
    Quarry, Quarry, Quarry,
    Mountain, Mountain, Mountain,
    Desert
  ]

  const NumberPool: seq<nat> := [2, 3, 3, 4, 4, 5, 5, 6, 6, 8, 8, 9, 9, 10, 10, 11, 11, 12]

  /** How many times `x` occurs in `s`. */
  function Count<X(==)>(s: seq<X>, x: X): (n: nat)
    ensures n <= |s|
  {
    if |s| == 0 then 0 else (if s[0] == x then 1 else 0) + Count(s[1..], x)
  }

  /** The tile pool deals 19 tiles of which exactly one is a desert. */
  lemma TilePoolHasOneDesert()
    ensures |TilePool| == 19 && Count(TilePool, Desert) == 1
  {
    var others := TilePool[..18];
    assert TilePool == others + [Desert];
    assert forall i :: 0 <= i < |others| ==> others[i] != Desert;
    CountAbsent(others, Desert);
    CountAppend(others, [Desert], Desert);
  }

  /** The number pool holds one number for each tile that is not a desert. */
  lemma NumberPoolFitsTiles()
    ensures |NumberPool| == 18 == |TilePool| - Count(TilePool, Desert)
  {
    TilePoolHasOneDesert();
  }

  /** A total of two six-sided dice that produces resources. */
  predicate Rollable(n: nat)
  {
    2 <= n <= 12 && n != 7
  }

  /** Every number dealt is a two-dice total other than 7, so a 7 never produces. */
  lemma NumberPoolRollable()
    ensures forall i :: 0 <= i < |NumberPool| ==> Rollable(NumberPool[i])
    ensures 7 !in NumberPool
  {
  }

  lemma {:induction false} CountAbsent<X>(s: seq<X>, x: X)
    requires forall i :: 0 <= i < |s| ==> s[i] != x
    ensures Count(s, x) == 0
    decreases |s|
  {
    if |s| > 0 {
      CountAbsent(s[1..], x);
    }
  }

  lemma {:induction false} CountAppend<X>(a: seq<X>, b: seq<X>, x: X)
    ensures Count(a + b, x) == Count(a, x) + Count(b, x)
    decreases |a|
  {
    if |a| == 0 {
      assert a + b == b;
    } else {
      assert (a + b)[1..] == a[1..] + b;
      CountAppend(a[1..], b, x);
    }
  }
}
