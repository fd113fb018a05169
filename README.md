# Canvas animations: the particle field and its neighbour searches

A Dafny model of the core of `canvas-animations`, a set of canvas animation experiments. The core is the 2D particle field. It joins every pair of nearby particles with a line, and it can find those pairs in three ways:

- by brute force over all pairs;
- through a uniform grid of cells as large as the connection distance;
- through a point quad-tree queried with a square around each particle.

Around the search sit small stateful pieces, which are modelled too:

- the pointer, whose radius is clamped on one side per operation;
- the controller's start/stop/pause life cycle over animation-frame requests;
- its frames-per-second counter and its particle-count formula;
- the bouncing circle's reflect-then-advance update;
- the two canvas resize helpers.

Modules, one per source file:

| module | file | models |
|---|---|---|
| `Wrappers` | `wrappers.dfy` | `Option` and `Result` |
| `Points` | `points.dfy` | the particle record (identity and integer position) and the strict connection test `dx² + dy² < d²` |
| `QuadTrees` | `quad_tree.dfy` | `Rectangle.contains`/`intersects`, and the quad-tree as a value. `Insert` is a function returning the new tree and the flag. `Query` is a method with the accumulator loop. |
| `Grids` | `grid.dfy` | class `Grid` with its `cells` map, insertion, batch insertion, the 3×3 lookup and `clear` |
| `Pointers` | `pointer.dfy` | class `Pointer`: optional coordinates and a radius with one-sided clamps |
| `Bounce` | `circle_bounce.dfy` | class `CircleBounce` and the per-axis step, iterated |
| `Canvases` | `canvas.dfy` | classes `Canvas`/`Element`, `\| 0` as truncation plus 32-bit wrap, and the two resize helpers |
| `ParticleField` | `particles.dfy` | class `Particles`, the animation-frame host, the three strategies as the sequences of lines they stroke, the FPS counter and the particle count |

Each drawing strategy is specified by a function giving the lines it strokes: `NestedLines`, `GridLines` and `QuadLines`. A line is the pair of the identities of its two end particles. The methods that run the source's loops are proved equal to these functions. Lemmas then say exactly which pairs each function contains.

Behaviours of the code that a reader might not expect (the model follows the code; its numbers are exact, see "## Left out" for what IEEE doubles change):

- `pause` cancels the pending frame but leaves `running` true (`Particles.Pause`, `PauseResumeStop`). It is not a transition to the stopped state.
- The pointer radius is clamped only from above by `increaseRadius` and only from below by `reduceRadius`. The default `reduceRadius()` uses an argument of −1, so it grows the radius past `maxRadius` (`DefaultReductionGrows`, `DefaultPointerScenario`). Only non-negative arguments keep the radius within its bounds (`ChangesStayInRange`, `NegativeIncreaseLeavesRange`).
- `query` returns the accumulator unchanged when the range misses the node. It does not return false.
- The FPS counter uses the time difference as it is. Nothing clamps a large or negative elapsed time.
- The brute force tests pairs with i ≤ j and so also joins each particle to itself. The grid and quad-tree strategies skip the particle itself, test the other candidates from A's side, and draw a connected pair from both ends (`GridLinesBothWays`). For two distinct particles all three agree (`GridAgreesWithNested`, `QuadAgreesWithNested`). The quad-tree agreement holds only when every particle lies on the canvas, because the tree drops points outside its root.
- `start` on a running controller requests a second frame without cancelling the first. The first stays pending although nothing refers to it (`StartTwice`).
- A bouncing circle that is outside, and was outside one step ago, reverses on every update. It returns to its position every second update and never comes back in (`TrappedOutside`).
- A full quad-tree node hands a point it contains to the first of NE, NW, SE, SW that contains it. The quadrants cover the node (`QuadrantsCover`), so in exact arithmetic the fall-through after the four child calls, which returns `undefined`, is never reached when the capacity is at least 1. `InsertFull` states that such an insertion always succeeds. In doubles a rounded quadrant edge can miss a point of its parent (see `QuadTrees.QuadrantsCover` under "## Left out").
- With the FPS display on and no element to write to (the default options have none, and `showFPS` does not check), the first report throws after counting the frame and before the reset. The frame callback then never requests the next frame, so the animation stops although `running` stays true. The report time is never reset, so every later report throws again (`Particles.Tick`, `MissingElementKeepsThrowing`).
- A canvas's `width` and `height` are unsigned 32-bit attributes. A negative target, from a negative multiplier or from a product that `| 0` wraps, stores the default 300 × 150 instead. A second resize then reports a change again (`ResizeToDisplayTwice`).

## Model

| member | source | states |
|---|---|---|
| `QuadTrees.CornersContained` | src/classes/particles/quad-tree.ts:9-16 | the edges are inclusive: the four corners of a rectangle lie in it, and points one unit past an edge do not |
| `QuadTrees.Rectangle.Contains` | src/classes/particles/quad-tree.ts:9-16 | the inclusive box test; a rectangle with a negative extent contains nothing |
| `QuadTrees.ContainsCentred` | src/classes/particles/quad-tree.ts:9-16 | a rectangle holds exactly the points within its half-extents of its centre on both axes |
| `QuadTrees.Rectangle.Intersects` | src/classes/particles/quad-tree.ts:18-25 | the test that the other rectangle is not wholly beyond an edge; rectangles whose extents sum to a negative number never intersect |
| `QuadTrees.IntersectsCentred` | src/classes/particles/quad-tree.ts:18-25 | two rectangles intersect exactly when their centres are no farther apart on each axis than the sum of their half-extents |
| `QuadTrees.IntersectsSymmetric` | src/classes/particles/quad-tree.ts:18-25 | `intersects` does not depend on the order of the two rectangles |
| `QuadTrees.TouchingIntersects` | src/classes/particles/quad-tree.ts:18-25 | rectangles that only touch along an edge intersect |
| `QuadTrees.CommonPointIntersects` | src/classes/particles/quad-tree.ts:18-25 | two rectangles that share a point intersect |
| `QuadTrees.IntersectsIffCommonPoint` | src/classes/particles/quad-tree.ts:18-25 | for non-negative extents, `intersects` holds exactly when the rectangles share a point |
| `QuadTrees.Filter` | src/classes/particles/quad-tree.ts:91-95 | the points a range contains, in order: a point is in the result exactly when it is in the input and the range contains it |
| `QuadTrees.FilterCount` | src/classes/particles/quad-tree.ts:91-95 | filtering keeps every occurrence of a contained point and no occurrence of any other point |
| `QuadTrees.FilterConcat` | src/classes/particles/quad-tree.ts:91-103 | filtering a concatenation is concatenating the filtered parts, as the accumulator visits them |
| `QuadTrees.Empty` | src/classes/particles/quad-tree.ts:29-34 | a new node is valid, undivided and holds nothing |
| `QuadTrees.Subdivide` | src/classes/particles/quad-tree.ts:62-81 | the node becomes divided and keeps its boundary, capacity and points; each child is an empty node with the node's capacity on the matching quadrant |
| `QuadTrees.Quadrant` | src/classes/particles/quad-tree.ts:64-72 | each quadrant has half the parent's extents and spans from the parent's centre to its east or west edge and to its north or south edge, y growing downwards |
| `QuadTrees.SubdividePreserves` | src/classes/particles/quad-tree.ts:62-81 | subdividing keeps the node valid and its stored points; points already stored stay where they are |
| `QuadTrees.QuadrantWithin` | src/classes/particles/quad-tree.ts:62-72 | each quadrant lies within its parent |
| `QuadTrees.QuadrantsCover` | src/classes/particles/quad-tree.ts:62-72 | every point of the parent lies in its first-fit quadrant, so one of the four child insertions accepts it |
| `QuadTrees.Insert` | src/classes/particles/quad-tree.ts:37-59 | the result stays valid (own points at most the capacity, children on the quadrants); the flag is exactly "the boundary contains p"; a refused point leaves the tree unchanged; otherwise the stored points gain exactly p; a divided node stays divided; a node with room appends p to its own points; a full node keeps its points and p goes to the first-fit child only |
| `QuadTrees.Push` | src/classes/particles/quad-tree.ts:44-46 | a node with room appends p to its own points, stays valid and does not change shape |
| `QuadTrees.InsertFull` | src/classes/particles/quad-tree.ts:47-57 | a full node that contains p ends up divided, always accepts p, keeps its own points, and adds p to the first-fit child only |
| `QuadTrees.InsertFirst` | src/classes/particles/quad-tree.ts:54-57 | the child cascade accepts p exactly when some listed quadrant contains it; p goes to the first such quadrant and the other children are untouched |
| `QuadTrees.InsertIntoChild` | src/classes/particles/quad-tree.ts:54-57 | one child insertion succeeds exactly when the child's quadrant contains p and changes only that child |
| `QuadTrees.FirstInOrder` | src/classes/particles/quad-tree.ts:54-57 | the first quadrant in the order NE, NW, SE, SW that contains p is the first fit |
| `QuadTrees.ElementsWithin` | src/classes/particles/quad-tree.ts:39-41 | every point stored anywhere in a valid tree lies in its boundary |
| `QuadTrees.DisjointFilter` | src/classes/particles/quad-tree.ts:86-88 | a range that misses a node's boundary contains none of the points stored below it, so the early return loses nothing |
| `QuadTrees.QueryPoints` | src/classes/particles/quad-tree.ts:91-95 | the loop over a node's own points appends exactly those the range contains, in order |
| `QuadTrees.Query` | src/classes/particles/quad-tree.ts:84-106 | the result is the accumulator followed by exactly the stored points that the range contains, in the order own points, NW, NE, SW, SE; nothing is removed from the accumulator |
| `QuadTrees.QueryOfBuiltTree` | src/classes/particles/quad-tree.ts:84-106 | for a valid tree whose elements are the inserted points its boundary accepted, the filtered elements that `Query` returns from an empty accumulator hold each inserted point in both boundary and range as often as it was inserted, and nothing else |
| `Grids.KeyOf` | src/classes/particles/grid.ts:10-14 | the cell of (x, y) is the floor of each coordinate over the cell size |
| `Grids.Grid.constructor` | src/classes/particles/grid.ts:6-8 | a new grid has its cell size and no cells |
| `Grids.Grid.Insert` | src/classes/particles/grid.ts:16-21 | the particle is appended to the list of its cell, a missing cell is created with just it, and no other cell changes |
| `Grids.Grid.InsertParticles` | src/classes/particles/grid.ts:23-25 | the cells are those of inserting each particle in array order |
| `Grids.InCell` | src/classes/particles/grid.ts:16-25 | the particles of a batch that fall in a cell are exactly those whose key is that cell |
| `Grids.PutAllCell` | src/classes/particles/grid.ts:23-25 | after batch insertion each cell holds its old list followed by exactly the batch's particles in that cell, in order; a cell exists exactly when it existed or receives a particle |
| `Grids.PutAllStores` | src/classes/particles/grid.ts:16-25 | every inserted particle is stored in its own cell |
| `Grids.Grid.GetNearbyParticles` | src/classes/particles/grid.ts:27-42 | the result is the concatenation of the existing cells of the 3×3 block, column offset outer and row offset inner; missing cells add nothing and the grid is not changed |
| `Grids.NeighbourKeyOffsets` | src/classes/particles/grid.ts:32-34 | the loop's cell for offsets (dx, dy) is cell 3(dx+1) + (dy+1) of the block |
| `Grids.BlockMembership` | src/classes/particles/grid.ts:32-39 | a particle is in the first n block cells exactly when one of them stores it |
| `Grids.NeighbourhoodMembership` | src/classes/particles/grid.ts:27-42 | a particle is in the 3×3 result exactly when it is stored in a cell at most one column and one row away |
| `Grids.NeighbourhoodHoldsOwn` | src/classes/particles/grid.ts:27-41 | a particle stored in its own cell is among its own nearby particles, which is why the caller skips self-comparison |
| `Grids.FloorNeighbour` | src/classes/particles/grid.ts:10-14 | coordinates less than one cell size apart fall in the same or adjacent columns |
| `Grids.NeighbourhoodComplete` | src/classes/particles/grid.ts:27-41 | with cells as large as the connection distance, every stored particle connected to p is in p's 3×3 result |
| `Grids.NeighbourhoodSound` | src/classes/particles/grid.ts:27-41 | in a grid built from a batch, the 3×3 result holds only particles of that batch whose cell is adjacent |
| `Grids.Grid.Clear` | src/classes/particles/grid.ts:44-46 | no cells remain |
| `Grids.EmptyNeighbourhood` | src/classes/particles/grid.ts:44-46 | after clearing, every lookup returns nothing |
| `Points.DistanceSquared` | src/classes/particles/particles.ts:114-116 | the squared distance is dx² + dy² and is never negative |
| `Points.Connected` | src/classes/particles/particles.ts:114-119 | the strict test dx² + dy² < d²; with a connection distance of 0 nothing is connected |
| `Points.ConnectedAxes` | src/classes/particles/particles.ts:114-119 | a connected pair is closer than the connection distance along each axis |
| `Points.SelfConnected` | src/classes/particles/particles.ts:112-119 | the self pair has distance 0 and is connected for any non-zero connection distance |
| `Points.ConnectedSymmetric` | src/classes/particles/particles.ts:160-165 | the connection test does not depend on the order of the pair |
| `Pointers.Pointer.constructor` | src/classes/particles/pointer.ts:2-8 | by default no coordinates, radius 120, bounds 0 and 180 |
| `Pointers.Pointer.SetCoordinates` | src/classes/particles/pointer.ts:10-13 | sets both coordinates and leaves the radius and its bounds unchanged |
| `Pointers.Increased` | src/classes/particles/pointer.ts:15-18 | the radius becomes radius + v, or maxRadius when that is larger; there is no lower clamp |
| `Pointers.Pointer.IncreaseRadius` | src/classes/particles/pointer.ts:15-18 | the new radius is the clamped growth, nothing else changes |
| `Pointers.Reduced` | src/classes/particles/pointer.ts:20-23 | the radius becomes radius − v, or minRadius when that is smaller; there is no upper clamp |
| `Pointers.Pointer.ReduceRadius` | src/classes/particles/pointer.ts:20-23 | the new radius is the clamped reduction, nothing else changes |
| `Pointers.ChangesStayInRange` | src/classes/particles/pointer.ts:15-23 | from a radius within its bounds, any sequence of calls with non-negative arguments keeps it within them |
| `Pointers.NegativeIncreaseLeavesRange` | src/classes/particles/pointer.ts:15-18 | with a negative argument the radius passes below minRadius |
| `Pointers.DefaultReductionGrows` | src/classes/particles/pointer.ts:20-22 | the default reduction adds 1 to the radius, and from maxRadius it goes past maxRadius |
| `Pointers.DefaultPointerScenario` | src/classes/particles/pointer.ts:2-23 | a fresh pointer grown by 10, reduced by 2, grown to the cap and then reduced by default ends at 181, above maxRadius |
| `Bounce.Step` | src/classes/CircleBounce.ts:12-27 | the velocity along an axis is negated exactly when, before the move, the circle reaches past the far edge or before 0 (strict tests), and the position then advances by the new velocity |
| `Bounce.CircleBounce.constructor` | src/classes/CircleBounce.ts:7-9 | the circle starts with the given position, radius, colour and velocity, taken in that order |
| `Bounce.CircleBounce.Update` | src/classes/CircleBounce.ts:11-30 | each axis takes one step independently (both may flip at a corner); the radius and colour are unchanged |
| `Bounce.StepKeepsNearInside` | src/classes/CircleBounce.ts:12-27 | a circle inside, or inside one step ago, still is after an update |
| `Bounce.NearInsideSteps` | src/classes/CircleBounce.ts:12-27 | that property and the speed are kept by any number of updates |
| `Bounce.StepsStayNearInside` | src/classes/CircleBounce.ts:12-27 | a circle that starts inside never gets more than its speed beyond the inside, and keeps its speed |
| `Bounce.TrappedOutside` | src/classes/CircleBounce.ts:12-27 | a circle outside now and one step ago reverses and returns to where it was every second update |
| `Canvases.Truncate` | src/classes/particles/utility.ts:12-13 | rounds toward zero |
| `Canvases.ToInt32` | src/classes/particles/utility.ts:12-13 | the signed 32-bit value congruent modulo 2^32; values in range are kept |
| `Canvases.OrZero` | src/classes/particles/utility.ts:12-13 | `r \| 0` is a signed 32-bit value congruent to the truncation of r modulo 2^32 |
| `Canvases.OrZeroInRange` | src/classes/particles/utility.ts:12-13 | `r \| 0` is the floor of r for 0 ≤ r < 2^31 |
| `Canvases.OrZeroWraps` | src/classes/particles/utility.ts:12-13 | beyond 2^31 the size wraps to a negative number |
| `Canvases.OrZeroTarget` | src/classes/particles/utility.ts:12-13 | a multiplied client size in range is kept up to truncation |
| `Canvases.Target` | src/classes/particles/utility.ts:12-13 | the target is the truncated multiplied client size, and with the default multiplier 1 it is the client size itself |
| `Canvases.Stored` | src/classes/particles/utility.ts:15-16 | assigning a size stores it when it lies in [0, 2^31) and the attribute's default for a negative 32-bit value |
| `Canvases.StoredRoundTrip` | src/classes/particles/utility.ts:15-16 | a 32-bit size assigned is read back unchanged exactly when it is not negative |
| `Canvases.ApplySize` | src/classes/particles/utility.ts:14-19 | the result is true exactly when width or height differed from the target; then the canvas stores the target through the unsigned attribute; a false result means the canvas already had the target size and was not changed |
| `Canvases.ResizeCanvasToDisplaySize` | src/classes/particles/utility.ts:8-20 | returns true exactly when the canvas size differed from the target computed from its own client size; afterwards the canvas stores that target, which it has exactly when the target is not negative |
| `Canvases.ResizeCanvasToFitElement` | src/classes/particles/utility.ts:29-43 | the same with the parent's client size; a canvas without a parent fails as the property read throws, and is left unchanged |
| `Canvases.ResizeToDisplayTwice` | src/classes/particles/utility.ts:8-20 | with unchanged client size, a second call reports a change exactly when the target is negative, as the canvas then holds the default size |
| `Canvases.ResizeToFitTwice` | src/classes/particles/utility.ts:29-43 | with unchanged parent size, a second call succeeds and reports a change exactly when the target is negative |
| `ParticleField.Ceil` | src/classes/particles/particles.ts:264 | the least integer not below r |
| `ParticleField.ParticleCount` | src/classes/particles/particles.ts:262-264 | a configured count is used as is (0 included); without one the count is ⌈(width + height)/100 × factor⌉ |
| `ParticleField.DefaultCount` | src/classes/particles/particles.ts:262-264 | the default options give 168 particles on an 800 × 600 canvas |
| `ParticleField.ArrayLength` | src/classes/particles/particles.ts:265-268 | an array created with a non-negative length has it; a negative request gives none |
| `ParticleField.Spawned` | src/classes/particles/particles.ts:265-268 | the created particles number exactly the requested length, each identified by its index |
| `ParticleField.Particles.InitializeParticles` | src/classes/particles/particles.ts:259-269 | the particles become exactly the computed number of spawned particles, identified by index |
| `ParticleField.FpsStep` | src/classes/particles/particles.ts:66-79 | every call counts the frame; within the interval nothing else happens; once the interval has passed the reported rate times the elapsed seconds is the frame count, the count restarts at 0 and the report time becomes now |
| `ParticleField.FpsUpdateStep` | src/classes/particles/particles.ts:66-79 | the report throws exactly when the interval has passed and there is no element; it then leaves the frame counted and the report time as it was, and otherwise the step is the counter step |
| `ParticleField.MissingElementKeepsThrowing` | src/classes/particles/particles.ts:68-78 | after a throw the report time is unchanged, so every later call without an element throws again |
| `ParticleField.Particles.UpdateFpsCounter` | src/classes/particles/particles.ts:66-79 | the counter fields, the displayed rate and whether the write threw follow one guarded counter step |
| `ParticleField.FpsCountsWithinInterval` | src/classes/particles/particles.ts:66-70 | calls that all come within the interval only add to the frame count |
| `ParticleField.FpsCountBounded` | src/classes/particles/particles.ts:66-79 | the frame count never exceeds its start plus the number of calls |
| `ParticleField.LinksContents` | src/classes/particles/particles.ts:155-165 | a line goes from A to exactly each candidate that is connected to A and, where self-comparison is skipped, is not A |
| `ParticleField.LinksFrom` | src/classes/particles/particles.ts:155-165 | every line drawn in A's turn starts at A |
| `ParticleField.StrokesFrom` | src/classes/particles/particles.ts:155-176 | the inner loop, with `continue` on the self candidate, strokes exactly those lines, in candidate order |
| `ParticleField.Particles.DrawSceneNestedLoop` | src/classes/particles/particles.ts:100-137 | the lines stroked are those of the brute force, row by row |
| `ParticleField.NestedLinesRows` | src/classes/particles/particles.ts:109-112 | a brute-force line belongs to the row of the particle it starts at |
| `ParticleField.NestedRow` | src/classes/particles/particles.ts:112-119 | row i joins i to exactly the particles j ≥ i connected to it, i itself included |
| `ParticleField.NestedLinesPairs` | src/classes/particles/particles.ts:109-119 | the brute force draws (i, j) exactly when i ≤ j and the two are connected |
| `ParticleField.NestedLinesSelf` | src/classes/particles/particles.ts:112-119 | the brute force joins every particle to itself |
| `ParticleField.GridStrokes` | src/classes/particles/particles.ts:151-165 | the grid loop strokes exactly the grid strategy's lines over the current cells |
| `ParticleField.Particles.DrawSceneGrid` | src/classes/particles/particles.ts:139-184 | the grid is rebuilt from the particles alone, and the lines are those of the grid strategy over it |
| `ParticleField.GridLinesRows` | src/classes/particles/particles.ts:151-153 | a grid line belongs to the row of the particle it starts at |
| `ParticleField.GridRow` | src/classes/particles/particles.ts:153-165 | over the rebuilt grid, row i joins i to exactly the other particles connected to it |
| `ParticleField.GridLinesPairs` | src/classes/particles/particles.ts:151-165 | with cells as large as the connection distance, the grid strategy draws (i, j) exactly when i ≠ j and the two are connected |
| `ParticleField.GridLinesBothWays` | src/classes/particles/particles.ts:155-165 | a connected pair is drawn from both ends |
| `ParticleField.GridAgreesWithNested` | src/classes/particles/particles.ts:109-165 | for i < j the grid strategy and the brute force draw the same pairs |
| `ParticleField.ParticlePointRoundTrip` | src/classes/particles/particles.ts:195-196 | a particle stored as a quad-tree point is recovered unchanged |
| `ParticleField.CanvasBoundaryContains` | src/classes/particles/particles.ts:187-192 | the root rectangle holds exactly the particles on the canvas, edges included |
| `ParticleField.CanvasBoundary` | src/classes/particles/particles.ts:187-192 | the root rectangle holds exactly the points with 0 ≤ x ≤ width and 0 ≤ y ≤ height |
| `ParticleField.QueryRangeCovers` | src/classes/particles/particles.ts:210-217 | the query square of half-extent d around A contains every particle connected to A |
| `ParticleField.QueryRange` | src/classes/particles/particles.ts:211-216 | a square around A that holds A itself exactly when the connection distance is not negative |
| `ParticleField.QueryRangeContains` | src/classes/particles/particles.ts:211-216 | the query square holds exactly the particles at most the connection distance from A along each axis |
| `ParticleField.BuildTree` | src/classes/particles/particles.ts:194-196 | inserting the points in order gives a valid tree on the boundary holding exactly the inserted points the boundary contains |
| `ParticleField.BuildParticleTree` | src/classes/particles/particles.ts:187-196 | the build loop yields that tree with capacity 4 |
| `ParticleField.ParticleTreeHolds` | src/classes/particles/particles.ts:187-196 | the tree over the canvas holds exactly the points of the particles on the canvas |
| `ParticleField.QueryCandidatesJoined` | src/classes/particles/particles.ts:210-229 | a query candidate joined to A has identity j exactly when particle j is on the canvas, is not A and is connected to A |
| `ParticleField.QueryStrokesFrom` | src/classes/particles/particles.ts:210-229 | one particle's query and inner loop stroke exactly the lines to its joined candidates |
| `ParticleField.QueryStrokes` | src/classes/particles/particles.ts:207-240 | the outer loop strokes exactly the quad-tree strategy's lines |
| `ParticleField.QuadLinesRows` | src/classes/particles/particles.ts:207-210 | a quad-tree line belongs to the row of the particle it starts at |
| `ParticleField.QuadRow` | src/classes/particles/particles.ts:210-229 | row i joins i to exactly the other particles on the canvas that are connected to it |
| `ParticleField.QuadLinesPairs` | src/classes/particles/particles.ts:207-229 | over a tree holding the particles within a boundary, (i, j) is drawn exactly when i ≠ j, they are connected and j lies in the boundary |
| `ParticleField.QuadStrategyPairs` | src/classes/particles/particles.ts:186-248 | the quad-tree strategy draws (i, j) exactly when i ≠ j, the two are connected and j lies on the canvas |
| `ParticleField.QuadAgreesWithNested` | src/classes/particles/particles.ts:186-248 | with every particle on the canvas, for i < j the quad-tree strategy and the brute force draw the same pairs |
| `ParticleField.Particles.DrawSceneQuadTree` | src/classes/particles/particles.ts:186-248 | the lines are those of querying the canvas tree with capacity 4 for each particle |
| `ParticleField.AnimationFrames.Request` | src/classes/particles/particles.ts:289-292 | each request gets the next identity, which is not cancelled |
| `ParticleField.AnimationFrames.Cancel` | src/classes/particles/particles.ts:283-288 | a cancelled request is recorded as such |
| `ParticleField.Particles.constructor` | src/classes/particles/particles.ts:42-55 | a new controller is stopped with no pending frame and no particles, and its grid's cells are as large as the connection distance |
| `ParticleField.NewParticles` | src/classes/particles/particles.ts:46-47 | creation fails with "Canvas context not found" exactly when there is no 2D context |
| `ParticleField.Particles.Start` | src/classes/particles/particles.ts:289-292 | the controller runs and the new request is pending |
| `ParticleField.Particles.Stop` | src/classes/particles/particles.ts:283-288 | a stopped controller is left as it is; a running one stops, cancels its pending frame if any and forgets it |
| `ParticleField.Particles.Pause` | src/classes/particles/particles.ts:293-297 | with a pending frame it is cancelled and forgotten while the controller keeps running; otherwise nothing changes |
| `ParticleField.Particles.ShowFps` | src/classes/particles/particles.ts:299 | the FPS display is switched on and no other option changes |
| `ParticleField.Particles.HideFps` | src/classes/particles/particles.ts:300 | the FPS display is switched off and no other option changes |
| `ParticleField.Particles.Animate` | src/classes/particles/particles.ts:89-98 | the frame's lines are exactly the brute force over the moved particles |
| `ParticleField.Particles.Tick` | src/classes/particles/particles.ts:57-64 | a stopped controller does nothing; a running one animates and counts the frame when the display is on; it throws exactly when the display is on, has no element and the interval has passed, and then requests no next frame; otherwise a new request is pending |
| `ParticleField.StartTwice` | src/classes/particles/particles.ts:289-292 | starting twice leaves two distinct live requests |
| `ParticleField.PauseResumeStop` | src/classes/particles/particles.ts:283-297 | start, pause, start and stop leave the controller stopped with every request it made cancelled |
| `ParticleField.ShowFpsOnOne` | src/classes/particles/particles.ts:50 | switching the FPS display on for one controller leaves another controller's options as they were |

## Left out

- The quad-tree is modelled as a value. `Insert` returns the new tree instead of updating nodes in place, so node identity and aliasing between nodes are not captured. A model with heap nodes and footprints was too costly to verify.
- With capacity 0 the source's `insert` subdivides and calls `insert` on a child without end, until the call stack overflows with a RangeError. `QuadTrees.Insert` requires a capacity of at least 1, and the controller always uses 4.
- `QuadTree.draw`, every canvas drawing call, the colour strings and the line opacity `(1 − √(d²/c²)) × opacity` are left out. They are drawing side effects and floating-point square roots. A drawn line is modelled by its two end identities.
- The particle class (`./point`) is not part of this model. A particle is an identity and an integer position, and its `update`/`move`/`draw` are opaque: `Animate` and `Tick` take the moved particles as a parameter. Particle identity (`===`) is modelled as an identity equal to the array index.
- The mouse class (`./mouse`) is not part of this model. So animate's `mouse.reduceRadius(2)`, `onMouseMove` and `updateParticles` are left out. The pointer class itself is modelled.
- `requestAnimationFrame`/`cancelAnimationFrame` are modelled by a host class that hands out fresh identities from 1 upward and records cancellations. The frame callback is `Tick`, invoked by the caller.
- `performance.now()` is a parameter (`now`).
- The `canvas.getContext('2d')` result is the boolean `hasContext` of `NewParticles`.
- lodash `merge` is left out: `Options` are taken as already merged with the defaults. The source imports the `lodash/fp` variant, which does not mutate its arguments and returns a new object, so each controller has its own options (`ShowFpsOnOne`). The debounced `onResize` is also left out, because debouncing is timer behaviour.
- `Options` keeps only what the controller reads for its logic: the FPS flag, whether an FPS element is present, the connection distance, the count factor and the count. Colours and line width only affect drawing. The rate's `toFixed(1)` text is not modelled: `fpsText` holds the rate.
- `resizeCanvasToFitParent` and `init` are left out. They use `window.devicePixelRatio`, fall back to 800 × 600 without a parent, and assign a non-integer product to the canvas width, which the browser converts.
- Grid keys are the pair (column, row) rather than the string `"col:row"`. The spelling of two integers is injective, so the cells are the same.
- `Grids.KeyOf`: coordinates are integers and the cell size is a positive integer, so `/` is floor division. Fractional positions and a zero cell size (which would make keys from Infinity/NaN) are not modelled.
- `Grids.Grid.InsertParticles`: the growth of the total number of stored entries is not stated as a sum over the map. `PutAllCell` gives each cell's exact contents instead.
- `ParticleField.FpsStep`: requires a positive interval. With an interval of 0 the source divides by an elapsed time of 0 and shows Infinity, which the real-valued model cannot express.
- `ParticleField.Particles.Tick`: the FPS check reads `options.fps?.show`, which is modelled as the flag `showFps`. A missing `fps` object is not modelled.
- The inner loops of the drawing strategies and the quad-tree build loop are separate methods: `StrokesFrom`, `GridStrokes`, `QueryStrokes`, `QueryStrokesFrom`, `BuildParticleTree` and `QueryPoints`. The control flow is the same as the source's loops.
- Numbers are exact reals and integers, not IEEE doubles. The members below state exact-arithmetic results that rounding can change:
- `QuadTrees.QuadrantsCover`: with w = 449.49106478873813 around x = 495.43508709194094, the rounded left edge `(x − w/2) − w/2` of NW/SW lies just right of the point 45.944022303202814, which the parent contains. No child then accepts the point. Roots built from integer canvas sizes halve exactly.
- `QuadTrees.Insert`: on such an input the child cascade falls through to `undefined` and the point is lost, so the result flag is not "the boundary contains p".
- `QuadTrees.InsertFull`: on such an input the insertion does not succeed.
- `Canvases.Target`: the product is exact. In doubles 100 × 1.15 is 114.99999999999999, so `| 0` gives 114 where the model gives 115.
- `ParticleField.ParticleCount`: the product is exact. In doubles (440/100) × 12.5 is 55.00000000000001, so `Math.ceil` gives 56 where the model gives 55.
- The `Circle` base class (`./Circle`) is not part of this model. The constructor's parameter order is the one `useCircleBounce` passes (position, radius, colour, velocity).
- The WebGL code, the React hooks and the other animation toys are outside the modelled core.
