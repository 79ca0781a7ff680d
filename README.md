# gridava in Dafny

A verified model of the integer core of **gridava**, a Rust library for games on
hexagonal and triangular grids, and of the rules in its `colony_game` example.

- **Hex coordinates** (`HexCoordinate`): axial coordinates `Axial(q, r)` with an implicit
  third cube component `s = -q - r`, and the six `HexDirection`s. Covered: arithmetic
  (Rust's truncating `/` for `Div`), swizzles, unit vectors, neighbours, cube distance,
  the disk enumeration `range`, reflection, rotation in 60-degree steps, and shape
  transforms applied to a coordinate. `src/hex/algorithms.rs` is an older copy of the
  same functions, so one definition serves both files.
- **Hex tiles** (`HexTile`): the six sides and six corners of a hexagon, and the corners
  that two or three hexagons share.
- **Triangle lattice** (`TriangleCoordinate`): triples `(x, y, z)`. The component sum gives
  the orientation (odd is down). Covered: normal forms, the six-case rotation table and
  rotation about a point, reflections, neighbours, L1 distance, `range`, and the exact
  line walk along a shared component.
- **Vertices and edges** (`HexVertex`, `HexEdge`): a vertex wraps a triangle-lattice
  triple and is a face when the sum is non-zero. Covered: the embedding of hexagons and
  its inverse, and the adjacency tables for spins and edges.
- **Shapes** (`ShapeInequality`, `ShapeConstructors`, `HexShapes`): the six-sided bounds
  of a point list and the hexagons that satisfy them. A shape is a 2-D tile array
  (`array2<Option<T>>`) plus a transform that `translate` and `rotate` update in place.
- **Transforms** (`CoreTransform`): `Float2D` pairs, modelled over integers, and
  `Transform` addition, negation and default.
- **Flood fill** (`CoreAlgorithms`): the span-stack fill of a 2-D array, in place.
- **Colony game** (`ColonyTypes`, `ColonyGame`):
  - the conversion tables, cost table and tile pools;
  - purchases that deduct a cost row from a player's stock;
  - house and road placement over maps keyed by vertex and edge;
  - resource collection after a dice roll.

`Prelude` holds `Option`, `Result`, and Rust's truncating division and remainder.

## Model

| member | source | states |
|---|---|---|
| HexCoordinate.DirectionToInt | src/hex/coordinate.rs:63-88 | the index of a direction is in 0..5, and converting it back gives the same direction |
| HexCoordinate.DirectionFromIntPeriodic | src/hex/coordinate.rs:63-75 | converting an integer depends only on its Euclidean remainder by 6: `from(k + 6) == from(k)`, and `into(from(k)) == k rem_euclid 6` |
| HexCoordinate.MulScalesLength | src/hex/coordinate.rs:710-712 | scaling by k multiplies the cube length by abs(k) |
| HexCoordinate.Div | src/hex/coordinate.rs:695-701 | division truncates each component toward zero: its magnitude is the Euclidean quotient of the magnitudes, its sign is that of the exact quotient, and the quotient times the divisor lies within abs(k) of the component without passing it; a zero divisor is excluded because the source panics |
| HexCoordinate.DivExample | src/hex/coordinate.rs:838-841 | the tested cases: (4, 2) / 2 is (2, 1) and (41, 23) / 6 is (6, 3) |
| HexCoordinate.DivUndoesMul | src/hex/coordinate.rs:695-712 | dividing by a non-zero k undoes multiplying by k |
| HexCoordinate.AddAssign | src/hex/coordinate.rs:674-678 | `+=` replaces the coordinate by the sum, which `-` undoes |
| HexCoordinate.SubAssign | src/hex/coordinate.rs:688-692 | `-=` replaces the coordinate by the difference, which `+` undoes |
| HexCoordinate.SubIsAddNeg | src/hex/coordinate.rs:666-721 | subtraction is addition of the negation; negation is an inverse and an involution |
| HexCoordinate.Distance | src/hex/coordinate.rs:436-439 | the distance is non-negative and is 0 exactly for equal coordinates |
| HexCoordinate.LengthIsMax | src/hex/coordinate.rs:436-439 | the halved sum of absolute cube components is exact and equals the largest absolute component |
| HexCoordinate.DistanceIsMax | src/hex/coordinate.rs:436-439 | the distance is the largest difference of cube components |
| HexCoordinate.DistanceSymmetric | src/hex/algorithms.rs:61-64 | the distance is symmetric |
| HexCoordinate.DistanceTriangle | src/hex/coordinate.rs:436-439 | the distance satisfies the triangle inequality |
| HexCoordinate.DistanceTranslate | src/hex/coordinate.rs:436-439 | translating both ends keeps the distance |
| HexCoordinate.MovementVector | src/hex/coordinate.rs:104-113 | every direction's vector is a non-zero vector with components in -1..1 |
| HexCoordinate.MovementVectorOpposite | src/hex/coordinate.rs:104-113 | directions three apart have opposite vectors |
| HexCoordinate.MovementVectorUnit | src/hex/coordinate.rs:104-113 | every movement vector has cube length 1 |
| HexCoordinate.SwizzleL | src/hex/coordinate.rs:158-160 | the left swizzle moves r to q and q to s |
| HexCoordinate.SwizzleR | src/hex/coordinate.rs:179-181 | the right swizzle undoes the left one and equals two left swizzles |
| HexCoordinate.SwizzleRoundTrip | src/hex/coordinate.rs:158-181 | right after left is the identity, and three left swizzles are the identity |
| HexCoordinate.MakeVector | src/hex/algorithms.rs:28-30 | the result is the start plus the unit vector of `rot_dir rem_euclid 6` times the magnitude, at distance abs(magnitude) from the start |
| HexCoordinate.Neighbor | src/hex/algorithms.rs:44-46 | the neighbour is the start plus the direction's unit vector, at distance 1 |
| HexCoordinate.Neighbors | src/hex/coordinate.rs:250-259 | six coordinates, each at distance 1 |
| HexCoordinate.NeighborsAtDistanceOne | src/hex/coordinate.rs:250-259 | a coordinate is listed exactly when it is at distance 1 |
| HexCoordinate.NeighborsDistinct | src/hex/coordinate.rs:250-259 | the six neighbours are distinct and come in direction order Front..FrontLeft |
| HexCoordinate.AreNeighbors | src/hex/coordinate.rs:275-284 | true exactly when every listed coordinate is at distance 1 (vacuously true for none) |
| HexCoordinate.RangeCount | src/hex/algorithms.rs:150-160 | a disk of radius n holds 3n²+3n+1 coordinates |
| HexCoordinate.AppendRow | src/hex/coordinate.rs:578-588 | one pass of the inner loop appends the disk's coordinates of one q in increasing r, keeping the list strictly ordered |
| HexCoordinate.Range | src/hex/coordinate.rs:578-588 | the result holds exactly the coordinates within distance n, in strict q-then-r order (so without repeats), 3n²+3n+1 of them, and none for negative n |
| HexCoordinate.ReflectVectorProperties | src/hex/coordinate.rs:611-621 | reflecting an offset twice gives it back and keeps its own-axis component |
| HexCoordinate.ReflectDistanceToCenter | src/hex/coordinate.rs:611-621 | reflection keeps the distance to the centre, so the centre is fixed |
| HexCoordinate.ReflectInvolution | src/hex/algorithms.rs:184-197 | reflecting twice across the same axis and centre is the identity |
| HexCoordinate.ReflectKeepsAxis | src/hex/coordinate.rs:611-621 | the reflection keeps the cube component of its axis |
| HexCoordinate.RotateCcw | src/hex/coordinate.rs:623-633 | a counter-clockwise step is undone by a clockwise step |
| HexCoordinate.RotateStepsInverse | src/hex/coordinate.rs:623-633 | clockwise then counter-clockwise is the identity, and three clockwise steps negate |
| HexCoordinate.RotateStepLength | src/hex/coordinate.rs:623-633 | a single step keeps the cube length |
| HexCoordinate.RotateRecursiveLength | src/hex/algorithms.rs:199-209 | any number of steps keeps the cube length |
| HexCoordinate.RotateIsCwPower | src/hex/coordinate.rs:651-663 | a rotation, whose step count is the truncating remainder, equals clockwise rotation by the Euclidean remainder by 6 |
| HexCoordinate.RotatePeriodic | src/hex/algorithms.rs:228-243 | rotation has period 6 in its step count |
| HexCoordinate.RotateInverse | src/hex/algorithms.rs:228-243 | rotating by -k about the same centre undoes rotating by k |
| HexCoordinate.RotateDistanceToCenter | src/hex/coordinate.rs:651-663 | rotation keeps the distance to the centre |
| HexCoordinate.RotateIsometry | src/hex/coordinate.rs:651-663 | rotation keeps the distance between any two coordinates |
| HexCoordinate.ApplyTransformRigid | src/hex/coordinate.rs:196-198 | applying a transform keeps distances; a transform with no rotation is a plain translation; rotation counts six apart act alike |
| HexTile.Edges | src/hex/coordinate.rs:337-346 | a hexagon has six sides |
| HexTile.EdgesSeparate | src/hex/coordinate.rs:337-346 | side i lies between the hexagon and its neighbour in direction i-1, and the six sides are distinct |
| HexTile.Vertices | src/hex/coordinate.rs:314-323 | the six corners are the corner conversion applied to directions 0..5 in order |
| HexTile.SharedCornersFollowDirection | src/hex/coordinate.rs:360-396 | the side towards direction k runs from corner k+1 to corner k+2 |
| HexTile.SharedPairAreCorners | src/hex/coordinate.rs:360-396 | both shared corners are adjacent corners of the hexagon |
| HexTile.SharedVertTwo | src/hex/coordinate.rs:360-396 | `None` exactly when the other hexagon is not at distance 1; otherwise the two corners on the side facing it |
| HexTile.SharedVertThree | src/hex/coordinate.rs:410-422 | `None` whenever the first two are not neighbours; otherwise the first shared corner that is also a corner of the third hexagon |
| HexVertex.DirectionToInt | src/hex/vertex.rs:50-75 | a corner direction's index is in 0..5, and converting it back gives the same direction |
| HexVertex.DirectionFromIntPeriodic | src/hex/vertex.rs:50-62 | converting an integer depends only on its Euclidean remainder by 6 |
| HexVertex.NegDirectionProperties | src/hex/vertex.rs:116-129 | the opposite corner has index (i+3) mod 6, and negating twice is the identity |
| HexVertex.ArithmeticLaws | src/hex/vertex.rs:291-353 | vertex `+` and `-` undo each other, subtraction is adding the negation, and negation is an involution |
| HexVertex.AddAssign | src/hex/vertex.rs:301-305 | `+=` replaces the vertex by the sum |
| HexVertex.SubAssign | src/hex/vertex.rs:317-321 | `-=` replaces the vertex by the difference |
| HexVertex.Distance | src/hex/vertex.rs:286-288 | the L1 distance of the triples is non-negative and 0 exactly for equal vertices |
| HexVertex.DistanceSymmetric | src/hex/vertex.rs:286-288 | the vertex distance is symmetric |
| HexVertex.TriToAxialRoundTrip | src/hex/vertex.rs:186-198 | converting back undoes the hexagon-to-vertex embedding of lines 131-145 for every hexagon (every halving is exact) |
| HexVertex.TryToAxial | src/hex/vertex.rs:200-223 | `None` exactly for triples that are not faces; the spin is Down exactly for up-oriented faces |
| HexVertex.AdjacentHexes | src/hex/vertex.rs:163-180 | `None` exactly for non-faces; otherwise three hexagons, the owning one first |
| HexVertex.AdjacentHexesNeighbors | src/hex/vertex.rs:163-180 | the three hexagons at a vertex are pairwise at distance 1 |
| HexVertex.AdjacentVertices | src/hex/vertex.rs:234-245 | `None` exactly for non-faces; otherwise the three triangle neighbours of the triple, in order |
| HexVertex.AdjacentVerticesSymmetric | src/hex/vertex.rs:234-245 | each neighbouring vertex is one step away and, when it is a face, lists the vertex back |
| HexVertex.AdjacentEdges | src/hex/vertex.rs:255-272 | `None` exactly for non-faces; otherwise three edges |
| HexVertex.AdjacentEdgesBetweenHexes | src/hex/vertex.rs:255-272 | both hexagons of each edge at a vertex are among the vertex's hexagons |
| HexVertex.EdgeDistance | src/hex/edge.rs:138-140 | the distance between edges is non-negative |
| HexVertex.EdgeDistanceProperties | src/hex/edge.rs:138-140 | an edge is at distance 0 from itself, and the edge distance is symmetric |
| HexEdge.AdjacentHexes | src/hex/edge.rs:77-83 | two hexagons, the naming hexagon (q, r) first, at distance 1 |
| HexEdge.DefaultEdge | src/hex/edge.rs:42-50 | the default edge separates the origin from its Back neighbour (the West side) |
| HexEdge.FromHexDirectionSeparates | src/hex/edge.rs:52-63 | the edge of direction d lies between the origin and the origin's neighbour in direction d |
| HexEdge.AdjacentEdges | src/hex/edge.rs:85-106 | four adjacent edges |
| HexEdge.AdjacentEdgesDistinct | src/hex/edge.rs:85-106 | the four are distinct and none is the edge itself |
| HexEdge.AdjacentEdgesShareOneHex | src/hex/edge.rs:85-106 | each adjacent edge borders exactly one of the edge's two hexagons |
| TriangleCoordinate.ComputeZVert | src/triangle/coordinate.rs:71-76 | keeps x and y and gives sum 0, which is not a face |
| TriangleCoordinate.ComputeZ | src/triangle/coordinate.rs:88-93 | keeps x and y and gives a face of the requested orientation, with sum 2 for Up and 1 for Down |
| TriangleCoordinate.Distance | src/triangle/coordinate.rs:395-398 | the L1 distance is non-negative and 0 exactly for equal triples |
| TriangleCoordinate.DistanceSymmetric | src/triangle/coordinate.rs:395-398 | the L1 distance is symmetric |
| TriangleCoordinate.DistanceTranslate | src/triangle/coordinate.rs:395-398 | translating both triples keeps the distance |
| TriangleCoordinate.RotatePeriodic | src/triangle/coordinate.rs:129-139 | rotation by 0 is the identity, and only `rot_dir rem_euclid 6` matters |
| TriangleCoordinate.RotateIsPow | src/triangle/coordinate.rs:129-139 | the six-case table is the k-th power of one sixth of a turn |
| TriangleCoordinate.RotateCompose | src/triangle/coordinate.rs:129-139 | rotating by a and then by b equals rotating by a+b |
| TriangleCoordinate.RotateInverse | src/triangle/coordinate.rs:129-139 | rotating by -k undoes rotating by k |
| TriangleCoordinate.RotateSum | src/triangle/coordinate.rs:129-139 | even rotations keep the component sum (faces stay faces); odd ones map sum s to 3-s |
| TriangleCoordinate.RotateSub | src/triangle/coordinate.rs:129-139 | rotation moves a difference by a cyclic permutation, negated for odd steps |
| TriangleCoordinate.RotateIsometry | src/triangle/coordinate.rs:129-139 | rotation keeps the L1 distance |
| TriangleCoordinate.RotateAboutIsometry | src/triangle/coordinate.rs:146-148 | rotation about a point keeps distances |
| TriangleCoordinate.RotateAboutCompose | src/triangle/coordinate.rs:146-148 | rotations about one point compose by adding step counts |
| TriangleCoordinate.RotateAboutInverse | src/triangle/coordinate.rs:146-148 | rotating about a point by -k undoes rotating by k |
| TriangleCoordinate.ReflectProperties | src/triangle/coordinate.rs:151-158 | both reflections are involutions; `reflect_x` keeps y and the sum; `reflect_y` maps sum s to 3-s |
| TriangleCoordinate.ReflectIsometry | src/triangle/coordinate.rs:151-158 | both reflections keep distances |
| TriangleCoordinate.Neighbors | src/triangle/coordinate.rs:374-380 | a face has three neighbours |
| TriangleCoordinate.NeighborProperties | src/triangle/coordinate.rs:360-371 | each neighbour is at distance 1, has the other orientation, and lists the face among its own neighbours |
| TriangleCoordinate.NeighborsDistinct | src/triangle/coordinate.rs:374-380 | the three neighbours are distinct |
| TriangleCoordinate.AreNeighbors | src/triangle/coordinate.rs:383-392 | true exactly when every listed triple is a neighbour |
| TriangleCoordinate.BallBounds | src/triangle/coordinate.rs:340-357 | every face within distance n has offsets inside the loop bounds of `range` |
| TriangleCoordinate.AppendCell | src/triangle/coordinate.rs:340-357 | the innermost loop appends the faces at offsets (dx, dy) and keeps the list strictly ordered |
| TriangleCoordinate.AppendColumn | src/triangle/coordinate.rs:340-357 | one pass of the outer loop appends the faces of the ball with x offset dx |
| TriangleCoordinate.Range | src/triangle/coordinate.rs:340-357 | exactly the faces with sum 1 or 2 within L1 distance n, strictly ordered by x, y, z, so without repeats |
| TriangleCoordinate.AxisSteps | src/triangle/coordinate.rs:277-317 | the step table of a walk has one step for up faces and one for down faces |
| TriangleCoordinate.WalkLine | src/triangle/coordinate.rs:277-317 | the loop produces `dist + 1` positions; the i-th is the walk after i steps, each step chosen by orientation |
| TriangleCoordinate.WalkUnitStep | src/triangle/coordinate.rs:277-317 | every step of an axis walk has length 1 |
| TriangleCoordinate.ForwardChoice | src/triangle/coordinate.rs:277-317 | between two faces on one axis line, the corrected direction test picks the direction towards the end |
| TriangleCoordinate.StepCloser | src/triangle/coordinate.rs:277-317 | from a face on the way, the step chosen by its orientation brings the walk one closer |
| TriangleCoordinate.WalkApproaches | src/triangle/coordinate.rs:277-317 | after i steps the corrected walk is still on the way and i closer to the end |
| TriangleCoordinate.LineAlongAxis | src/triangle/coordinate.rs:277-317 | `distance + 1` faces, starting at a, one step apart, ending at b when a and b are faces on one axis line |
| TriangleCoordinate.LineAlongAxisAsWritten | src/triangle/coordinate.rs:277-317 | the same walk with the strict direction comparisons the code writes |
| TriangleCoordinate.LineAsWrittenMissesEnd | src/triangle/coordinate.rs:286-292 | with the strict test, the walk from (0,0,2) to (0,0,1) ends at (0,-1,2) |
| TriangleCoordinate.WalkReverses | src/triangle/coordinate.rs:277-317 | for two faces on one axis line, the walk from a after i steps is where the walk from b is after `distance - i` steps |
| TriangleCoordinate.AxisWalkReverses | src/triangle/coordinate.rs:554-571 | for faces sharing a component, both directions pick the same axis, and the line from a is the line from b reversed |
| TriangleCoordinate.Line | src/triangle/coordinate.rs:324-336 | `[a]` when a == b; for a shared component, the walk along the first shared axis (x, then y, then z): `distance + 1` faces from a, one step apart, ending at b for faces, and equal to the line from b reversed, as the tests at coordinate.rs:554-571 expect; otherwise the diagonal construction with step 8 |
| CoreTransform.Splat | src/core/transform.rs:13-22 | the one-argument `float2d!` gives both components the same value |
| CoreTransform.Float2DLaws | src/core/transform.rs:41-55 | negation is an involution and an additive inverse, and addition commutes |
| CoreTransform.AddAssign | src/core/transform.rs:27-32 | `+=` adds component-wise, as `+` does |
| CoreTransform.MulAssign | src/core/transform.rs:34-39 | `*=` multiplies component-wise |
| CoreTransform.DefaultTransform | src/core/transform.rs:96-104 | the default has default translation, rotation 0 and scale (1, 1) |
| CoreTransform.NegTransformInvolution | src/core/transform.rs:123-136 | negating twice gives the transform back (when `* -1` twice does), and the rotation and scale of t and -t cancel |
| CoreTransform.AddTransformCommutes | src/core/transform.rs:107-120 | combining transforms commutes when the translation type's `+` does |
| ShapeInequality.BoundsOfContains | src/hex/shape_constructors.rs:44-72 | every point satisfies all six bounds |
| ShapeInequality.BoundsOfAttained | src/hex/shape_constructors.rs:44-72 | every bound is reached by some point, so the bounds are tightest |
| ShapeInequality.NewInequality | src/hex/shape_constructors.rs:44-72 | `EmptyInputArray` exactly for no points; otherwise the tightest bounds, found by the min/max loop from the `i32` extremes |
| ShapeInequality.RowMembers | src/hex/shape_constructors.rs:76-83 | one column of the solution holds exactly its shifted hexagons within the r and s bounds, in increasing r |
| ShapeInequality.SolveFromMembers | src/hex/shape_constructors.rs:76-83 | columns q..q_max hold exactly the shifted hexagons that satisfy the six bounds, in order |
| ShapeInequality.SolveMembers | src/hex/shape_constructors.rs:76-83 | `solve` holds exactly the shifted hexagons that satisfy the six bounds, ordered by q then r, without repeats |
| ShapeInequality.SolveWithinStrides | src/hex/shape_constructors.rs:85-95 | every solution element indexes inside a (q_stride+1) x (r_stride+1) array, and the largest stride bounds both |
| ShapeInequality.PointsInSolve | src/hex/shape_constructors.rs:76-83 | every input point, shifted by (-q_min, -r_min), is in the solution |
| ShapeConstructors.MakeShape | src/hex/shape_constructors.rs:115-141 | the default shape for no points; otherwise a square array of side largest_stride+1 whose solution cells hold the constructed tiles in order, all others default |
| ShapeConstructors.Line | src/hex/shape_constructors.rs:178-187 | the shape of the origin and the point `size` steps along `rot_dir` |
| ShapeConstructors.Triangle | src/hex/shape_constructors.rs:202-213 | the shape of the origin and the points `size` steps along `rot_dir` and `rot_dir + 1` |
| ShapeConstructors.Rhombus | src/hex/shape_constructors.rs:228-240 | the shape of the triangle's corners plus the parallelogram's fourth corner |
| HexShapes.IdentityTransform | src/hex/shape.rs:62-70 | a new shape's transform has no translation, rotation 0 and unit scale |
| HexShapes.BoxSize | src/hex/shape.rs:129-140 | the array covers both strides, and is square when `square_bb` is set |
| HexShapes.RotatedAboutUndo | src/hex/shape.rs:266-270 | rotating about a point and then back restores the transform; the translation keeps its distance to the point |
| HexShapes.LineLength | src/hex/shape.rs:166-175 | the line's end is `size` away from its start |
| HexShapes.LineBoxSide | src/hex/shape_constructors.rs:178-187 | a line of size n has largest stride n, so its square array is (n+1) x (n+1) |
| HexShapes.AdjacentUnitStep | src/hex/shape.rs:190-201 | the unit vector of direction k+2 is the step from the unit vector of k to that of k+1 |
| HexShapes.TriangleEquilateral | src/hex/shape.rs:190-201 | the triangle's three sides all have length `size` |
| HexShapes.RhombusParallelogram | src/hex/shape.rs:216-232 | the rhombus is a parallelogram whose sides have length `size` |
| HexShapes.LinePointsInI32 | src/hex/shape.rs:166-175 | the line's points fit `i32` for sizes up to `i32::MAX` |
| HexShapes.TrianglePointsInI32 | src/hex/shape.rs:190-201 | the triangle's points fit `i32` for sizes up to `i32::MAX` |
| HexShapes.RhombusPointsInI32 | src/hex/shape.rs:216-232 | the rhombus's points fit `i32` for sizes up to `i32::MAX / 2` |
| HexShapes.HexShape.constructor | src/hex/shape.rs:62-70 | absent parts take their defaults: an empty array and the identity transform |
| HexShapes.HexShape.FillCells | src/hex/shape.rs:142-148 | the k-th solution cell holds the k-th constructed tile and every other cell stays default |
| HexShapes.HexShape.MakeShape | src/hex/shape.rs:89-151 | the default shape for no points; otherwise an array of `BoxSize` whose solution cells hold constructed tiles, and the identity transform |
| HexShapes.HexShape.Line | src/hex/shape.rs:166-175 | the shape built from the line's two points |
| HexShapes.HexShape.Triangle | src/hex/shape.rs:190-201 | the shape built from the triangle's three points |
| HexShapes.HexShape.Rhombus | src/hex/shape.rs:216-232 | the shape built from the rhombus's four points |
| HexShapes.HexShape.Translate | src/hex/shape.rs:246-249 | the translation grows by the offset; rotation, scale and tiles are unchanged |
| HexShapes.HexShape.RotateAbout | src/hex/shape.rs:266-270 | the translation is rotated about the point and the rotation count grows by `rot_dir`; tiles unchanged |
| HexShapes.HexShape.RotateOptional | src/hex/shape.rs:286-294 | with a point it acts as `rotate_about`; without one only the rotation count changes |
| HexShapes.HexShape.GetHexes | src/hex/shape.rs:352-354 | the shape's own tile array is returned |
| CoreAlgorithms.FillLeft | src/core/algorithms.rs:91-94 | the left expansion writes `value` only into inside cells of row y, left of x, fills every column it passes, and, when `value` itself fails the predicate, strictly shrinks the set of inside cells when it writes |
| CoreAlgorithms.FillRight | src/core/algorithms.rs:102-105 | the right run writes only inside cells, fills the first cell when it is inside, stops at the first cell that is not inside, and, when `value` fails the predicate, strictly shrinks the inside set when it writes |
| CoreAlgorithms.ScanRow | src/core/algorithms.rs:101-118 | the span scan writes only inside cells, fills the span's first cell when inside, and, when `value` fails the predicate, pushes spans only after some cell was filled |
| CoreAlgorithms.FloodFill | src/core/algorithms.rs:50-121 | `InvalidSeed`, with the array unchanged, exactly when the seed is out of bounds; otherwise every cell keeps its value or was inside for the seed's original value and now holds `value`; the loop ends by itself when `value` fails the predicate, and the seed is filled when it is inside itself and the stack ran empty |
| ColonyTypes.ResourceFromTile | examples/colony_game/game_types.rs:83-96 | the conversion fails exactly for the desert |
| ColonyTypes.ResourceTileRoundTrip | examples/colony_game/game_types.rs:22-32 | resource to land and back gives the resource, and no resource comes from the desert |
| ColonyTypes.TileResourceRoundTrip | examples/colony_game/game_types.rs:83-96 | every non-desert land is the land of the resource it yields |
| ColonyTypes.ResourceToInt | examples/colony_game/game_types.rs:74-81 | every resource index is below 5 |
| ColonyTypes.ResourceIndexRoundTrip | examples/colony_game/game_types.rs:98-110 | `try_from(usize)` succeeds exactly below `RESOURCE_TYPE_NUM` and inverts `r as usize` |
| ColonyTypes.PurchaseToInt | examples/colony_game/game_types.rs:113-119 | every purchase index is below 4 |
| ColonyTypes.Cost | examples/colony_game/game_types.rs:121-126 | every cost row has one entry per resource |
| ColonyTypes.CostTableShape | examples/colony_game/game_types.rs:119-126 | `RESOURCE_TYPE_NUM == 5`, `PURCHASE_TYPE_NUM == 4`, and the cost table is 4 x 5 |
| ColonyTypes.TilePoolHasOneDesert | examples/colony_game/game_types.rs:134-154 | the tile pool has 19 entries with exactly one desert |
| ColonyTypes.NumberPoolFitsTiles | examples/colony_game/game_types.rs:134-156 | the 18 numbers match the 18 non-desert tiles |
| ColonyTypes.NumberPoolRollable | examples/colony_game/game_types.rs:156 | every number is a two-dice total other than 7, so 7 is not in the pool |
| ColonyGame.GameBoard.constructor | examples/colony_game/game_types.rs:65-71 | the default board is empty with the robber on the origin |
| ColonyGame.GameBoard.SetTile | examples/colony_game/main.rs:14-18 | storing a tile updates that one key and nothing else |
| ColonyGame.GameBoard.Perform | examples/colony_game/main.rs:202-211 | the board becomes the action's insertion applied to the old board |
| ColonyGame.Covers | examples/colony_game/main.rs:136-141 | the `all` over a cost row holds exactly when every amount is covered by the stock |
| ColonyGame.CanPurchase | examples/colony_game/main.rs:136-141 | true exactly when the player holds at least the cost in every resource |
| ColonyGame.RemoveResources | examples/colony_game/main.rs:144-151 | each resource decreases by exactly its cost, with no underflow given `can_purchase` |
| ColonyGame.Purchase | examples/colony_game/main.rs:156-167 | `Ok` exactly when the player can pay; then the cost is deducted and the action runs once; otherwise `NotEnoughResources` and nothing changes |
| ColonyGame.PlaceHouseGuardFinding | examples/colony_game/main.rs:198-200 | the written guard rejects an empty corner on the player's road, which the documented rule accepts |
| ColonyGame.AsWrittenAcceptsOnlyCrowded | examples/colony_game/main.rs:198-200 | every corner the written guard lets through has a developed neighbour, which the rule forbids |
| ColonyGame.PlaceHouse | examples/colony_game/main.rs:175-212 | `InvalidLocation` exactly when a neighbouring corner is developed or no road of the player arrives; otherwise a house purchase that inserts only a house of the player at the corner; errors change nothing |
| ColonyGame.HouseBlocksNeighbours | examples/colony_game/main.rs:169-174 | once a house stands at a corner, every neighbouring corner is rejected for anyone |
| ColonyGame.PlaceRoad | examples/colony_game/main.rs:222-257 | `InvalidLocation` exactly when neither an adjacent road nor an endpoint development of the player exists; otherwise a road purchase that inserts only the player's road; errors change nothing |
| ColonyGame.RoadExtends | examples/colony_game/main.rs:222-257 | a new road lets the same player build on every edge next to it |
| ColonyGame.CollectTile | examples/colony_game/main.rs:105-131 | each resource grows by exactly what one tile's six corners earn |
| ColonyGame.CollectResources | examples/colony_game/main.rs:98-133 | each resource grows by exactly the sum, over the board's tiles, of what each tile earns |
| ColonyGame.CornersYieldBound | examples/colony_game/main.rs:124-128 | a corner earns at most two (a city) |
| ColonyGame.TileYieldProperties | examples/colony_game/main.rs:98-133 | the robber tile, a tile with another number and the desert earn nothing; otherwise only the tile's own resource, at most 12 |
| ColonyGame.YieldPermutation | examples/colony_game/main.rs:98-133 | the earnings do not depend on the order in which the map's tiles are visited |
| ColonyGame.NoMatchNoYield | examples/colony_game/main.rs:98-133 | a roll that no tile carries earns nothing |

## Left out

- Floating-point code: `Axial::direction`, `round`, `lerp` and `line` (src/hex/coordinate.rs:441-566, src/hex/algorithms.rs:66-138). They are rounding and trigonometry over `f64`.
- Floating-point triangle code: `to_cartesian`, `nearest_tri_face`, `lerp`, `lerp_line`, `intersection`, `subline` and `smooth_line`. `TriangleCoordinate.Line` takes the diagonal construction as a function parameter.
- TriangleCoordinate.Line: the tests' claim that `a.line(b)` is `b.line(a)` reversed is proved only for faces that share a component. For faces sharing none it depends on the diagonal construction, which is a parameter here. For triples that are not normalised faces, neither the end point nor the reversal is stated.
- `HexShape::scale` (src/hex/shape.rs:307-339): `f32` resampling.
- The grid and rendering modules (world-to-hex float geometry, SVG output and file I/O). The benchmarks are also out.
- `main` and `generate_island` in examples/colony_game/main.rs: they use a random number generator and shuffling. The pools they deal from are modelled.
- `Edge::endpoints` (src/hex/edge.rs:120-135): its body uses a three-argument `vertex!` form that vertex.rs does not define, so the endpoint table is a function parameter.
- `Axial::vertex` (src/hex/coordinate.rs:298-300): it relies on a conversion from (Axial, VertexDirection) to Vertex that is not defined in these sources, so it is a function parameter (`vertexOf`). This affects `HexTile.Vertices`, `HexTile.SharedVertTwo`, `HexTile.SharedVertThree` and `ColonyGame.CollectResources`.
- `vertex!` passes two arguments to the three-argument `triangle!`, and vertex.rs calls `is_triangle_face` where the triangle code defines `is_tri_face`. The model takes the third component as 0 and the face test as `is_tri_face`.
- The vertex tests cannot be read against this model. With the third component 0, `vertex!(0, 0)` sums to 0 and is not a face, so `adjacent_vertices` and `adjacent_hexes` give `None` for it. The tests at src/hex/vertex.rs:395-428 unwrap results for such vertices. They assume a vertex encoding that these sources do not define.
- Vertex `Mul` and `Div` (src/hex/vertex.rs:324-345) are not modelled: nothing in the core uses them.
- The `constructor` closure (`FnMut`) of `make_shape` is modelled as a function from call number to tile: `tiles(k)` is the k-th call's result. `Tile<T>` is `Option<T>`.
- `Float2D` is modelled over unbounded integers, as its tests use it. The default scale `float2d!(1.0)` becomes (1, 1).
- HexShapes.HexShape.Line, Triangle and Rhombus, and ShapeConstructors.Line, Triangle and Rhombus, require `size` to fit `i32` (half of it for a rhombus). The source casts the `u32` size with `as i32`, which wraps, and a rhombus corner of twice the size would overflow `i32`. Those cases are not modelled.
- ShapeInequality.NewInequality requires every point to fit `i32`, the coordinate type of the source.
- Coordinates are unbounded integers everywhere else, and `i32` overflow is not modelled. This covers `+`, `-`, `*` and negation on `Axial`, `Triangle` and `Vertex`, `i32::abs` in the hex distance (which panics on `i32::MIN`), and the bound subtractions in `make_shape` such as `q_max - q_min` and `-q - s_max`. The source panics on overflow in debug builds and wraps in release builds; the model states neither.
- CoreAlgorithms.FloodFill takes a `fuel` bound that the source does not have. It is spent only when `value` itself satisfies the predicate against the seed's value, as in the `range_pred` test at src/core/algorithms.rs:205. Filled cells then stay inside and are filled again, and nothing in the source bounds the span loop, so its termination is not proved. After `fuel` pops the model stops and sets `stopped`, where the source would go on. When `value` fails the predicate, the fuel is never used and the loop is proved to end.
- CoreAlgorithms.FloodFill does not prove that exactly the 4-connected region of the seed is filled. It proves that only inside cells are written and that the seed is filled.
- ColonyGame.CollectResources: the stock is unbounded, so `u32` overflow of `+=` is not modelled. The map iteration order of `HashMap` is a parameter `order` that lists each tile once, and `YieldPermutation` shows the result does not depend on it.
- ColonyGame.Purchase: the `FnMut` closure is modelled as a board action (insert a vertex or an edge) that runs once, which is what `place_house` and `place_road` pass.
- ColonyGame.RemoveResources requires `can_purchase`. With less stock the source's `u32` subtraction would panic; `purchase` never calls it then.
- ColonyGame: main.rs reads `board.verts`, but `GameBoard` declares `vertices`; the model uses the declared field. main.rs iterates the `Option` returned by `adjacent_vertices` and `adjacent_edges`, which yields the whole array or nothing. The model tests every element of the array, and a non-face vertex has no neighbours.
- ColonyGame.Player: `resources` is an array of length `RESOURCE_TYPE_NUM` holding natural numbers in place of `u32`.

## Findings

| source | as written | input that shows it | evidently intended | confidence | as-written member | corrected member |
|---|---|---|---|---|---|---|
| src/triangle/coordinate.rs:286-306 | the walk heads forward only when both free components compare strictly (`self.y < b.y && self.z > b.z` on the X axis, and alike on Y and Z) | along X from the up face (0,0,2) to the down face (0,0,1): y is equal, so the walk takes the backward step and ends at (0,-1,2) instead of b | go forward when one free component may already agree, so every line along an axis ends at b | not executed | TriangleCoordinate.LineAlongAxisAsWritten, TriangleCoordinate.LineAsWrittenMissesEnd | TriangleCoordinate.LineAlongAxis |
| examples/colony_game/main.rs:198-200 | `if !is_house_adjacent \|\| !is_on_road` rejects unless a neighbouring corner is developed | vertex (1, 0) with the player's road on its first adjacent edge and no developments: rejected | reject when a neighbouring corner is developed or no road of the player arrives, as the doc comment at lines 169-174 says | not executed | ColonyGame.HouseRejectedAsWritten, ColonyGame.PlaceHouseGuardFinding | ColonyGame.HouseRejected, ColonyGame.PlaceHouse |
