/**
 * The particle-field controller: its run/pause/stop life cycle over animation
 * frame requests, the frames-per-second counter, the particle count, and the
 * three strategies that choose which pairs of particles are drawn connected
 * (all pairs, the uniform grid's 3×3 neighbourhood, and a quad-tree range query).
 *
 * Drawing is modelled by the sequence of lines a frame strokes, each named by
 * the identities of its two end particles.
 */
module ParticleField {
  import opened Wrappers
  import opened Points
  import Grids
  import QuadTrees
  import Canvases

  /**
   * The options the controller reads: whether the FPS display is on, whether
   * it has an element to write to, and what decides the connections and the
   * particle count (colours and line width only affect drawing).
   */
  datatype Options = Options(
    showFps: bool,
    fpsElement: bool,
    connectionDistance: Grids.CellSize,
    particleCountFactor: real,
    particleCount: Option<int>)

  const Defaults: Options := Options(false, false, 120, 12.0, None)

  /** Capacity of each quad-tree node the quad-tree strategy builds. */
  const QuadTreeCapacity: nat := 4

  /** A stroke from the particle with identity `from` to the one with identity `to`. */
  datatype Line = Line(from: nat, to: nat)

  /** Each particle's identity is its index in the particle array. */
  predicate Indexed(ps: seq<Particle>) {
    forall i :: 0 <= i < |ps| ==> ps[i].id == i
  }

  // ---------------------------------------------------------------------------
  // Particle count

  /** The least integer not below `r`. */
  function Ceil(r: real): (n: int)
    ensures n as real - 1.0 < r <= n as real
  {
    -((-r).Floor)
  }

  /**
   * The number of particles to create: the configured count when there is one
   * (zero included), otherwise the canvas's width plus height over 100, times
   * the count factor, rounded up.
   */
  function ParticleCount(particleCount: Option<int>, width: int, height: int, factor: real): (n: int)
    ensures particleCount.Some? ==> n == particleCount.value
    ensures particleCount.None? ==> n as real - 1.0 < (width + height) as real / 100.0 * factor <= n as real
  {
    match particleCount
    case Some(c) => c
    case None => Ceil((width + height) as real / 100.0 * factor)
  }

  /** The length of an array created with a requested length: negative requests give an empty array. */
  function ArrayLength(n: int): (len: nat)
    ensures n >= 0 ==> len == n
    ensures n < 0 ==> len == 0
  {
    if n < 0 then 0 else n
  }

  /** With the default options an 800 × 600 canvas gets 168 particles. */
  lemma DefaultCount()
    ensures ParticleCount(Defaults.particleCount, 800, 600, Defaults.particleCountFactor) == 168
  {
    assert (800 + 600) as real / 100.0 * 12.0 == 168.0;
  }

  /** The particles created from the spawn positions, each identified by its index. */
  function Spawned(n: nat, spawn: nat -> (int, int)): (ps: seq<Particle>)
    ensures |ps| == n && Indexed(ps)
  {
    seq(n, k requires 0 <= k => Particle(k, spawn(k).0, spawn(k).1))
  }

  // ---------------------------------------------------------------------------
  // FPS counter

  /** The counter state: frames since the last report and the time of that report. */
  datatype FpsCounter = FpsCounter(frameCount: nat, previousFpsTime: real)

  /**
   * One call of the counter at time `now`: it counts the frame, and once at
   * least `interval` milliseconds have passed since the last report it reports
   * the average rate over that time and starts counting again from `now`.
   */
  function FpsStep(c: FpsCounter, now: real, interval: real): (r: (FpsCounter, Option<real>))
    requires interval > 0.0
    ensures now - c.previousFpsTime < interval ==> r == (FpsCounter(c.frameCount + 1, c.previousFpsTime), None)
    ensures now - c.previousFpsTime >= interval ==>
              && r.0 == FpsCounter(0, now)
              && r.1.Some?
              && r.1.value * ((now - c.previousFpsTime) / 1000.0) == (c.frameCount + 1) as real
  {
    var frames := c.frameCount + 1;
    if now - c.previousFpsTime < interval then (FpsCounter(frames, c.previousFpsTime), None)
    else
      var delta := (now - c.previousFpsTime) / 1000.0;
      (FpsCounter(0, now), Some(frames as real / delta))
  }

  /**
   * One call of the counter when the rate is written to an element that may
   * be missing. The frame is counted first. Without an element, the write at
   * the end of an interval throws: the count stays incremented and the reset
   * is never reached.
   */
  datatype FpsUpdate = FpsUpdate(counter: FpsCounter, report: Option<real>, threw: bool)

  function FpsUpdateStep(c: FpsCounter, now: real, interval: real, hasElement: bool): (r: FpsUpdate)
    requires interval > 0.0
    ensures r.threw <==> !hasElement && now - c.previousFpsTime >= interval
    ensures !r.threw ==> (r.counter, r.report) == FpsStep(c, now, interval)
    ensures r.threw ==> r.counter == FpsCounter(c.frameCount + 1, c.previousFpsTime) && r.report == None
  {
    if !hasElement && now - c.previousFpsTime >= interval then
      FpsUpdate(FpsCounter(c.frameCount + 1, c.previousFpsTime), None, true)
    else
      var s := FpsStep(c, now, interval);
      FpsUpdate(s.0, s.1, false)
  }

  /**
   * Once a call has thrown, the report time is never reset, so every later
   * call without an element, however many frames later, throws again.
   */
  lemma MissingElementKeepsThrowing(c: FpsCounter, now: real, later: real, interval: real)
    requires interval > 0.0 && FpsUpdateStep(c, now, interval, false).threw && later >= now
    ensures var d := FpsUpdateStep(c, now, interval, false).counter;
      && d.previousFpsTime == c.previousFpsTime
      && FpsUpdateStep(d, later, interval, false).threw
  {
  }

  /** The counter after calls at each of `times`, in order. */
  function FpsSteps(c: FpsCounter, times: seq<real>, interval: real): FpsCounter
    requires interval > 0.0
    decreases |times|
  {
    if times == [] then c else FpsSteps(FpsStep(c, times[0], interval).0, times[1..], interval)
  }

  /**
   * Calls that all come less than `interval` after the last report only count:
   * the frame count grows by the number of calls and the report time stays.
   */
  lemma {:induction false} FpsCountsWithinInterval(c: FpsCounter, times: seq<real>, interval: real)
    requires interval > 0.0
    requires forall k :: 0 <= k < |times| ==> times[k] - c.previousFpsTime < interval
    ensures FpsSteps(c, times, interval) == FpsCounter(c.frameCount + |times|, c.previousFpsTime)
    decreases |times|
  {
    if times != [] {
      var next := FpsStep(c, times[0], interval).0;
      assert next == FpsCounter(c.frameCount + 1, c.previousFpsTime);
      FpsCountsWithinInterval(next, times[1..], interval);
    }
  }

  /** The frame count never exceeds the number of calls since the counter was last at zero. */
  lemma {:induction false} FpsCountBounded(c: FpsCounter, times: seq<real>, interval: real)
    requires interval > 0.0
    ensures FpsSteps(c, times, interval).frameCount <= c.frameCount + |times|
    decreases |times|
  {
    if times != [] {
      FpsCountBounded(FpsStep(c, times[0], interval).0, times[1..], interval);
    }
  }

  // ---------------------------------------------------------------------------
  // Pair selection

  /** `a` is joined to candidate `b`: their distance is below the connection distance, and `b` is not `a` when self-pairs are skipped. */
  predicate Linked(a: Particle, b: Particle, cd: int, skipSelf: bool) {
    !(skipSelf && a.id == b.id) && Connected(a, b, cd)
  }

  /** The lines drawn from `a` to the candidates, in candidate order. */
  function Links(a: Particle, candidates: seq<Particle>, cd: int, skipSelf: bool): (r: seq<Line>)
    ensures |r| <= |candidates|
    decreases |candidates|
  {
    if candidates == [] then []
    else
      var b := candidates[|candidates| - 1];
      var rest := Links(a, candidates[..|candidates| - 1], cd, skipSelf);
      if Linked(a, b, cd, skipSelf) then rest + [Line(a.id, b.id)] else rest
  }

  /** A line is drawn from `a` exactly to each candidate joined to it. */
  lemma {:induction false} LinksContents(a: Particle, candidates: seq<Particle>, cd: int, skipSelf: bool, l: Line)
    ensures l in Links(a, candidates, cd, skipSelf) <==>
              l.from == a.id &&
              exists k :: 0 <= k < |candidates| && candidates[k].id == l.to && Linked(a, candidates[k], cd, skipSelf)
    decreases |candidates|
  {
    if candidates != [] {
      var previous := candidates[..|candidates| - 1];
      LinksContents(a, previous, cd, skipSelf, l);
      assert forall k :: 0 <= k < |previous| ==> previous[k] == candidates[k];
      if l.from == a.id && exists k :: 0 <= k < |candidates| && candidates[k].id == l.to && Linked(a, candidates[k], cd, skipSelf) {
        var k :| 0 <= k < |candidates| && candidates[k].id == l.to && Linked(a, candidates[k], cd, skipSelf);
        if k < |previous| {
          assert previous[k] == candidates[k];
        }
      }
    }
  }

  /** Every line drawn from `a` starts at `a`. */
  lemma {:induction false} LinksFrom(a: Particle, candidates: seq<Particle>, cd: int, skipSelf: bool, l: Line)
    requires l in Links(a, candidates, cd, skipSelf)
    ensures l.from == a.id
    decreases |candidates|
  {
    var previous := candidates[..|candidates| - 1];
    if l in Links(a, previous, cd, skipSelf) {
      LinksFrom(a, previous, cd, skipSelf, l);
    }
  }

  /** The lines of the brute-force strategy for the first `n` particles as A: each is tested against itself and every later particle. */
  function NestedLines(ps: seq<Particle>, cd: int, n: nat): seq<Line>
    requires n <= |ps|
  {
    if n == 0 then [] else NestedLines(ps, cd, n - 1) + Links(ps[n - 1], ps[n - 1..], cd, false)
  }

  /** The brute force draws the pair (i, j) exactly when i ≤ j and the two are connected. */
  lemma NestedLinesPairs(ps: seq<Particle>, cd: int, n: nat, i: nat, j: nat)
    requires Indexed(ps) && n <= |ps|
    ensures Line(i, j) in NestedLines(ps, cd, n) <==> i < n && i <= j < |ps| && Connected(ps[i], ps[j], cd)
  {
    NestedLinesRows(ps, cd, n, Line(i, j));
    if i < n {
      NestedRow(ps, cd, i, i, j);
    }
  }

  /** A line of the brute force for the first `n` particles is one of the row of the particle it starts at. */
  lemma {:induction false} NestedLinesRows(ps: seq<Particle>, cd: int, n: nat, l: Line)
    requires Indexed(ps) && n <= |ps|
    ensures l in NestedLines(ps, cd, n) <==> l.from < n && l in Links(ps[l.from], ps[l.from..], cd, false)
  {
    if n > 0 {
      var rest := NestedLines(ps, cd, n - 1);
      var row := Links(ps[n - 1], ps[n - 1..], cd, false);
      assert NestedLines(ps, cd, n) == rest + row;
      NestedLinesRows(ps, cd, n - 1, l);
      if l in row {
        LinksFrom(ps[n - 1], ps[n - 1..], cd, false, l);
      }
      assert l in rest + row <==> l in rest || l in row;
    }
  }

  /** The row of particle `r`: lines to itself and the later particles it is connected to. */
  lemma NestedRow(ps: seq<Particle>, cd: int, r: nat, i: nat, j: nat)
    requires Indexed(ps) && r < |ps|
    ensures Line(i, j) in Links(ps[r], ps[r..], cd, false) <==> i == r && r <= j < |ps| && Connected(ps[i], ps[j], cd)
  {
    var candidates := ps[r..];
    LinksContents(ps[r], candidates, cd, false, Line(i, j));
    if Line(i, j) in Links(ps[r], candidates, cd, false) {
      var k :| 0 <= k < |candidates| && candidates[k].id == j && Linked(ps[r], candidates[k], cd, false);
      assert candidates[k] == ps[r + k];
    }
    if i == r && r <= j < |ps| && Connected(ps[i], ps[j], cd) {
      assert candidates[j - r] == ps[j];
    }
  }

  /** The brute force joins every particle to itself: its distance to itself is 0. */
  lemma NestedLinesSelf(ps: seq<Particle>, cd: int, i: nat)
    requires Indexed(ps) && i < |ps| && cd != 0
    ensures Line(i, i) in NestedLines(ps, cd, |ps|)
  {
    SelfConnected(ps[i], cd);
    NestedLinesPairs(ps, cd, |ps|, i, i);
  }

  /** The lines of the grid strategy for the first `n` particles as A, over the neighbourhoods of `cells`. */
  function GridLines(ps: seq<Particle>, cells: Grids.Cells, cellSize: Grids.CellSize, cd: int, n: nat): seq<Line>
    requires n <= |ps|
  {
    if n == 0 then []
    else
      var a := ps[n - 1];
      GridLines(ps, cells, cellSize, cd, n - 1) + Links(a, Grids.Neighbourhood(cells, Grids.ParticleKey(a, cellSize)), cd, true)
  }

  /**
   * Over a grid built from the particles with cells as large as the connection
   * distance, the grid strategy draws (i, j) exactly when i ≠ j and the two
   * are connected: it misses nothing the brute force finds between distinct
   * particles.
   */
  lemma GridLinesPairs(ps: seq<Particle>, cs: Grids.CellSize, n: nat, i: nat, j: nat)
    requires Indexed(ps) && n <= |ps|
    ensures Line(i, j) in GridLines(ps, Grids.PutAll(map[], ps, cs), cs, cs, n) <==>
              i < n && j < |ps| && i != j && Connected(ps[i], ps[j], cs)
  {
    var cells := Grids.PutAll(map[], ps, cs);
    GridLinesRows(ps, cells, cs, cs, n, Line(i, j));
    if i < n {
      GridRow(ps, cells, cs, i, i, j);
    }
  }

  /** A line of the grid strategy for the first `n` particles is one of the row of the particle it starts at. */
  lemma {:induction false} GridLinesRows(ps: seq<Particle>, cells: Grids.Cells, cs: Grids.CellSize, cd: int, n: nat, l: Line)
    requires Indexed(ps) && n <= |ps|
    ensures l in GridLines(ps, cells, cs, cd, n) <==>
              l.from < n && l in Links(ps[l.from], Grids.Neighbourhood(cells, Grids.ParticleKey(ps[l.from], cs)), cd, true)
  {
    if n > 0 {
      var a := ps[n - 1];
      var rest := GridLines(ps, cells, cs, cd, n - 1);
      var row := Links(a, Grids.Neighbourhood(cells, Grids.ParticleKey(a, cs)), cd, true);
      assert GridLines(ps, cells, cs, cd, n) == rest + row;
      GridLinesRows(ps, cells, cs, cd, n - 1, l);
      if l in row {
        LinksFrom(a, Grids.Neighbourhood(cells, Grids.ParticleKey(a, cs)), cd, true, l);
      }
      if l.from == n - 1 {
        assert ps[l.from] == a;
      }
      assert l in rest + row <==> l in rest || l in row;
    }
  }

  /** The lines from particle `r` to its neighbourhood: to each other particle connected to it. */
  lemma GridRow(ps: seq<Particle>, cells: Grids.Cells, cs: Grids.CellSize, r: nat, i: nat, j: nat)
    requires Indexed(ps) && r < |ps| && cells == Grids.PutAll(map[], ps, cs)
    ensures Line(i, j) in Links(ps[r], Grids.Neighbourhood(cells, Grids.ParticleKey(ps[r], cs)), cs, true) <==>
              i == r && j < |ps| && i != j && Connected(ps[i], ps[j], cs)
  {
    var a := ps[r];
    var nearby := Grids.Neighbourhood(cells, Grids.ParticleKey(a, cs));
    LinksContents(a, nearby, cs, true, Line(i, j));
    if Line(i, j) in Links(a, nearby, cs, true) {
      var k :| 0 <= k < |nearby| && nearby[k].id == j && Linked(a, nearby[k], cs, true);
      Grids.NeighbourhoodSound(ps, cs, Grids.ParticleKey(a, cs), nearby[k]);
      var m :| 0 <= m < |ps| && ps[m] == nearby[k];
      assert m == j;
    }
    if i == r && j < |ps| && i != j && Connected(ps[i], ps[j], cs) {
      Grids.PutAllStores(map[], ps, cs, ps[j]);
      Grids.NeighbourhoodComplete(cells, cs, a, ps[j]);
      var k :| 0 <= k < |nearby| && nearby[k] == ps[j];
      assert Linked(a, nearby[k], cs, true);
    }
  }

  /** The grid strategy tests each unordered pair from both ends, so a connected pair is drawn twice. */
  lemma GridLinesBothWays(ps: seq<Particle>, cs: Grids.CellSize, i: nat, j: nat)
    requires Indexed(ps)
    requires Line(i, j) in GridLines(ps, Grids.PutAll(map[], ps, cs), cs, cs, |ps|)
    ensures Line(j, i) in GridLines(ps, Grids.PutAll(map[], ps, cs), cs, cs, |ps|)
  {
    GridLinesPairs(ps, cs, |ps|, i, j);
    GridLinesPairs(ps, cs, |ps|, j, i);
    ConnectedSymmetric(ps[i], ps[j], cs);
  }

  /** For two distinct particles, the grid strategy and the brute force draw the pair (i, j), i < j, alike. */
  lemma GridAgreesWithNested(ps: seq<Particle>, cs: Grids.CellSize, i: nat, j: nat)
    requires Indexed(ps) && i < j
    ensures Line(i, j) in GridLines(ps, Grids.PutAll(map[], ps, cs), cs, cs, |ps|) <==>
            Line(i, j) in NestedLines(ps, cs, |ps|)
  {
    GridLinesPairs(ps, cs, |ps|, i, j);
    NestedLinesPairs(ps, cs, |ps|, i, j);
  }

  // The quad-tree strategy stores each particle as a point with real coordinates.

  function PointOf(p: Particle): QuadTrees.Point {
    QuadTrees.Point(p.x as real, p.y as real, p.id)
  }

  function ParticleOfPoint(q: QuadTrees.Point): Particle {
    Particle(q.id, q.x.Floor, q.y.Floor)
  }

  lemma ParticlePointRoundTrip(p: Particle)
    ensures ParticleOfPoint(PointOf(p)) == p
  {
  }

  function PointsOf(ps: seq<Particle>): (qs: seq<QuadTrees.Point>)
    ensures |qs| == |ps| && forall k :: 0 <= k < |ps| ==> qs[k] == PointOf(ps[k])
  {
    seq(|ps|, k requires 0 <= k < |ps| => PointOf(ps[k]))
  }

  function ParticlesOf(qs: seq<QuadTrees.Point>): (ps: seq<Particle>)
    ensures |ps| == |qs| && forall k :: 0 <= k < |qs| ==> ps[k] == ParticleOfPoint(qs[k])
  {
    seq(|qs|, k requires 0 <= k < |qs| => ParticleOfPoint(qs[k]))
  }

  /** The root of the quad-tree strategy: the whole canvas, centred on its middle. */
  function CanvasBoundary(width: int, height: int): (r: QuadTrees.Rectangle)
    ensures forall q: QuadTrees.Point :: r.Contains(q) <==> 0.0 <= q.x <= width as real && 0.0 <= q.y <= height as real
  {
    QuadTrees.Rectangle(width as real / 2.0, height as real / 2.0, width as real / 2.0, height as real / 2.0)
  }

  /** The canvas root holds exactly the particles on the canvas, edges included. */
  lemma CanvasBoundaryContains(width: nat, height: nat, p: Particle)
    ensures CanvasBoundary(width, height).Contains(PointOf(p)) <==> 0 <= p.x <= width && 0 <= p.y <= height
  {
  }

  /** The query square around `a`: half-extent `cd` on both axes. */
  function QueryRange(a: Particle, cd: int): (r: QuadTrees.Rectangle)
    ensures cd >= 0 <==> r.Contains(PointOf(a))
    ensures r.w == r.h
  {
    QuadTrees.Rectangle(a.x as real, a.y as real, cd as real, cd as real)
  }

  /** The query square around `a` holds exactly the particles at most `cd` away from `a` along each axis. */
  lemma QueryRangeContains(a: Particle, b: Particle, cd: int)
    ensures QueryRange(a, cd).Contains(PointOf(b)) <==> Abs(b.x - a.x) <= cd && Abs(b.y - a.y) <= cd
  {
  }

  /** The query square around `a` contains every particle connected to `a`. */
  lemma QueryRangeCovers(a: Particle, b: Particle, cd: int)
    requires cd > 0 && Connected(a, b, cd)
    ensures QueryRange(a, cd).Contains(PointOf(b))
  {
    ConnectedAxes(a, b, cd);
  }

  /** The tree after inserting the first `n` of `pts` in order into an empty node with the given boundary. */
  function BuildTree(pts: seq<QuadTrees.Point>, n: nat, boundary: QuadTrees.Rectangle, capacity: nat): (t: QuadTrees.QuadTree)
    requires n <= |pts| && capacity >= 1
    ensures QuadTrees.Valid(t) && t.boundary == boundary && t.capacity == capacity
    ensures multiset(QuadTrees.Elements(t)) == multiset(QuadTrees.Filter(pts[..n], boundary))
  {
    if n == 0 then QuadTrees.Empty(boundary, capacity)
    else
      assert pts[..n][..n - 1] == pts[..n - 1];
      QuadTrees.Insert(BuildTree(pts, n - 1, boundary, capacity), pts[n - 1]).0
  }

  /** The quad-tree strategy's tree over the particles: the canvas root with capacity 4. */
  function ParticleTree(ps: seq<Particle>, width: int, height: int): QuadTrees.QuadTree {
    BuildTree(PointsOf(ps), |ps|, CanvasBoundary(width, height), QuadTreeCapacity)
  }

  /** The candidates the query square around `a` returns, as particles. */
  function QueryCandidates(tree: QuadTrees.QuadTree, cd: int, a: Particle): seq<Particle> {
    ParticlesOf(QuadTrees.Filter(QuadTrees.Elements(tree), QueryRange(a, cd)))
  }

  /** The lines of the quad-tree strategy for the first `n` particles as A, over the results of querying `tree`. */
  function QuadLines(ps: seq<Particle>, tree: QuadTrees.QuadTree, cd: int, n: nat): seq<Line>
    requires n <= |ps|
  {
    if n == 0 then []
    else
      var a := ps[n - 1];
      QuadLines(ps, tree, cd, n - 1) + Links(a, QueryCandidates(tree, cd, a), cd, true)
  }

  /** The tree holds exactly the points of the particles that lie in `boundary`. */
  ghost predicate HoldsParticles(tree: QuadTrees.QuadTree, ps: seq<Particle>, boundary: QuadTrees.Rectangle) {
    forall q :: q in QuadTrees.Elements(tree) <==> q in PointsOf(ps) && boundary.Contains(q)
  }

  /** The particle tree holds exactly the points of the particles on the canvas. */
  lemma ParticleTreeHolds(ps: seq<Particle>, width: int, height: int)
    ensures HoldsParticles(ParticleTree(ps, width, height), ps, CanvasBoundary(width, height))
  {
    var tree := ParticleTree(ps, width, height);
    var kept := QuadTrees.Filter(PointsOf(ps), CanvasBoundary(width, height));
    assert PointsOf(ps)[..|ps|] == PointsOf(ps);
    assert multiset(QuadTrees.Elements(tree)) == multiset(kept);
    forall q
      ensures q in QuadTrees.Elements(tree) <==> q in PointsOf(ps) && CanvasBoundary(width, height).Contains(q)
    {
      assert q in QuadTrees.Elements(tree) <==> q in multiset(QuadTrees.Elements(tree));
      assert q in kept <==> q in multiset(kept);
    }
  }

  /** Among the query candidates of `a`, one joined to `a` has identity `j` exactly when particle `j` is in the tree's boundary, is not `a`, and is connected to `a`. */
  lemma QueryCandidatesJoined(ps: seq<Particle>, tree: QuadTrees.QuadTree, boundary: QuadTrees.Rectangle,
                              cd: int, a: Particle, j: nat)
    requires Indexed(ps) && cd > 0 && HoldsParticles(tree, ps, boundary)
    ensures (exists k :: 0 <= k < |QueryCandidates(tree, cd, a)| &&
               QueryCandidates(tree, cd, a)[k].id == j &&
               Linked(a, QueryCandidates(tree, cd, a)[k], cd, true))
            <==>
            j < |ps| && a.id != j && Connected(a, ps[j], cd) && boundary.Contains(PointOf(ps[j]))
  {
    var found := QuadTrees.Filter(QuadTrees.Elements(tree), QueryRange(a, cd));
    var candidates := QueryCandidates(tree, cd, a);
    if exists k :: 0 <= k < |candidates| && candidates[k].id == j && Linked(a, candidates[k], cd, true) {
      var k :| 0 <= k < |candidates| && candidates[k].id == j && Linked(a, candidates[k], cd, true);
      var q := found[k];
      assert q in QuadTrees.Elements(tree);
      var m :| 0 <= m < |ps| && PointsOf(ps)[m] == q;
      assert candidates[k] == ps[m];
    }
    if j < |ps| && a.id != j && Connected(a, ps[j], cd) && boundary.Contains(PointOf(ps[j])) {
      var q := PointOf(ps[j]);
      assert PointsOf(ps)[j] == q;
      QueryRangeCovers(a, ps[j], cd);
      var k :| 0 <= k < |found| && found[k] == q;
      assert candidates[k] == ps[j];
    }
  }

  /** Over a tree holding the particles within `boundary`, the quad-tree lines for the first `n` particles as A. */
  lemma QuadLinesPairs(ps: seq<Particle>, tree: QuadTrees.QuadTree, boundary: QuadTrees.Rectangle,
                        cd: int, n: nat, i: nat, j: nat)
    requires Indexed(ps) && n <= |ps| && cd > 0 && HoldsParticles(tree, ps, boundary)
    ensures Line(i, j) in QuadLines(ps, tree, cd, n) <==>
              i < n && j < |ps| && i != j && Connected(ps[i], ps[j], cd) && boundary.Contains(PointOf(ps[j]))
  {
    QuadLinesRows(ps, tree, cd, n, Line(i, j));
    if i < n {
      QuadRow(ps, tree, boundary, cd, i, i, j);
    }
  }

  /** A line of the quad-tree strategy for the first `n` particles is one of the row of the particle it starts at. */
  lemma {:induction false} QuadLinesRows(ps: seq<Particle>, tree: QuadTrees.QuadTree, cd: int, n: nat, l: Line)
    requires Indexed(ps) && n <= |ps|
    ensures l in QuadLines(ps, tree, cd, n) <==>
              l.from < n && l in Links(ps[l.from], QueryCandidates(tree, cd, ps[l.from]), cd, true)
  {
    if n > 0 {
      var a := ps[n - 1];
      var rest := QuadLines(ps, tree, cd, n - 1);
      var row := Links(a, QueryCandidates(tree, cd, a), cd, true);
      assert QuadLines(ps, tree, cd, n) == rest + row;
      QuadLinesRows(ps, tree, cd, n - 1, l);
      if l in row {
        LinksFrom(a, QueryCandidates(tree, cd, a), cd, true, l);
      }
      if l.from == n - 1 {
        assert ps[l.from] == a;
      }
      assert l in rest + row <==> l in rest || l in row;
    }
  }

  /** The lines from particle `r` to its query candidates: to each other particle on the tree's boundary connected to it. */
  lemma QuadRow(ps: seq<Particle>, tree: QuadTrees.QuadTree, boundary: QuadTrees.Rectangle,
                cd: int, r: nat, i: nat, j: nat)
    requires Indexed(ps) && r < |ps| && cd > 0 && HoldsParticles(tree, ps, boundary)
    ensures Line(i, j) in Links(ps[r], QueryCandidates(tree, cd, ps[r]), cd, true) <==>
              i == r && j < |ps| && i != j && Connected(ps[i], ps[j], cd) && boundary.Contains(PointOf(ps[j]))
  {
    LinksContents(ps[r], QueryCandidates(tree, cd, ps[r]), cd, true, Line(i, j));
    QueryCandidatesJoined(ps, tree, boundary, cd, ps[r], j);
  }

  /**
   * The quad-tree strategy draws (i, j) exactly when i ≠ j, the two are
   * connected, and particle j lies on the canvas: particles that have left the
   * canvas are never candidates.
   */
  lemma QuadStrategyPairs(ps: seq<Particle>, width: int, height: int, cd: int, i: nat, j: nat)
    requires Indexed(ps) && cd > 0
    ensures Line(i, j) in QuadLines(ps, ParticleTree(ps, width, height), cd, |ps|) <==>
              && i < |ps| && j < |ps| && i != j && Connected(ps[i], ps[j], cd)
              && CanvasBoundary(width, height).Contains(PointOf(ps[j]))
  {
    ParticleTreeHolds(ps, width, height);
    QuadLinesPairs(ps, ParticleTree(ps, width, height), CanvasBoundary(width, height), cd, |ps|, i, j);
  }

  // ---------------------------------------------------------------------------
  // Animation frames

  /** With every particle on the canvas, the quad-tree strategy and the brute force draw the pair (i, j), i < j, alike. */
  lemma QuadAgreesWithNested(ps: seq<Particle>, width: int, height: int, cd: int, i: nat, j: nat)
    requires Indexed(ps) && cd > 0 && i < j
    requires forall k :: 0 <= k < |ps| ==> CanvasBoundary(width, height).Contains(PointOf(ps[k]))
    ensures Line(i, j) in QuadLines(ps, ParticleTree(ps, width, height), cd, |ps|) <==>
            Line(i, j) in NestedLines(ps, cd, |ps|)
  {
    QuadStrategyPairs(ps, width, height, cd, i, j);
    NestedLinesPairs(ps, cd, |ps|, i, j);
  }

  /**
   * The host's animation-frame requests: each request gets the next identity,
   * starting at 1, and a cancelled request never runs.
   */
  class AnimationFrames {
    var issued: nat
    var cancelled: set<nat>

    ghost predicate Valid()
      reads this
    {
      forall id :: id in cancelled ==> 1 <= id <= issued
    }

    constructor()
      ensures Valid() && issued == 0 && cancelled == {}
    {
      issued := 0;
      cancelled := {};
    }

    method Request() returns (id: nat)
      requires Valid()
      modifies this
      ensures Valid()
      ensures id == old(issued) + 1 && issued == id && cancelled == old(cancelled)
      ensures id !in cancelled
    {
      issued := issued + 1;
      id := issued;
    }

    method Cancel(id: nat)
      requires Valid() && 1 <= id <= issued
      modifies this
      ensures Valid()
      ensures issued == old(issued) && cancelled == old(cancelled) + {id}
    {
      cancelled := cancelled + {id};
    }
  }

  /** A request that was issued and has not been cancelled. */
  ghost predicate Live(frames: AnimationFrames, id: nat)
    reads frames
  {
    1 <= id <= frames.issued && id !in frames.cancelled
  }

  // ---------------------------------------------------------------------------
  // The controller

  class Particles {
    var running: bool
    var raf: Option<nat>
    var frameCount: nat
    var previousFpsTime: real
    var particles: seq<Particle>
    var options: Options
    const canvas: Canvases.Canvas
    const grid: Grids.Grid
    const quadTreeCapacity: nat
    const frames: AnimationFrames
    /** The lines stroked since the canvas was last cleared. */
    var lines: seq<Line>
    /** The last rate written to the FPS element. */
    var fpsText: Option<real>

    ghost predicate Valid()
      reads this, frames
    {
      && frames.Valid()
      && grid.cellSize == options.connectionDistance
      && quadTreeCapacity == QuadTreeCapacity
      && Indexed(particles)
      && (!running ==> raf == None)
      && (raf.Some? ==> Live(frames, raf.value))
    }

    /** A stopped controller with no particles; the grid's cells are as large as the connection distance. */
    constructor(canvas: Canvases.Canvas, options: Options, frames: AnimationFrames, now: real)
      requires frames.Valid()
      ensures Valid()
      ensures !running && raf == None && frameCount == 0 && previousFpsTime == now
      ensures particles == [] && lines == [] && fpsText == None
      ensures this.options == options && this.canvas == canvas && this.frames == frames
      ensures fresh(grid) && grid.cells == map[]
    {
      running := false;
      raf := None;
      frameCount := 0;
      previousFpsTime := now;
      particles := [];
      this.options := options;
      this.canvas := canvas;
      this.frames := frames;
      lines := [];
      fpsText := None;
      grid := new Grids.Grid(options.connectionDistance);
      quadTreeCapacity := 4;
    }

    method Start()
      requires Valid()
      modifies this`running, this`raf, frames
      ensures Valid()
      ensures running && raf == Some(old(frames.issued) + 1)
      ensures frames.issued == old(frames.issued) + 1 && frames.cancelled == old(frames.cancelled)
    {
      running := true;
      var id := frames.Request();
      raf := Some(id);
    }

    method Stop()
      requires Valid()
      modifies this`running, this`raf, frames
      ensures Valid()
      ensures !old(running) ==> running == old(running) && raf == old(raf) && unchanged(frames)
      ensures old(running) ==> !running && raf == None && frames.issued == old(frames.issued)
      ensures old(running) ==> frames.cancelled == old(frames.cancelled) + (if old(raf).Some? then {old(raf).value} else {})
    {
      if !running {
        return;
      }
      running := false;
      if raf.Some? {
        frames.Cancel(raf.value);
      }
      raf := None;
    }

    method Pause()
      requires Valid()
      modifies this`raf, frames
      ensures Valid() && running == old(running)
      ensures !old(running) || old(raf).None? ==> raf == old(raf) && unchanged(frames)
      ensures old(running) && old(raf).Some? ==>
                raf == None && frames.issued == old(frames.issued) && frames.cancelled == old(frames.cancelled) + {old(raf).value}
    {
      if !running || raf.None? {
        return;
      }
      frames.Cancel(raf.value);
      raf := None;
    }

    method ShowFps()
      modifies this`options
      ensures options == old(options).(showFps := true)
    {
      options := options.(showFps := true);
    }

    method HideFps()
      modifies this`options
      ensures options == old(options).(showFps := false)
    {
      options := options.(showFps := false);
    }

    /**
     * Counts a frame at time `now` and reports the rate once `interval`
     * milliseconds have passed; `threw` says that the report found no element
     * (`hasElement` false) to write to.
     */
    method UpdateFpsCounter(hasElement: bool, now: real, interval: real := 1000.0) returns (threw: bool)
      requires interval > 0.0
      modifies this`frameCount, this`previousFpsTime, this`fpsText
      ensures var r := FpsUpdateStep(FpsCounter(old(frameCount), old(previousFpsTime)), now, interval, hasElement);
        && threw == r.threw
        && FpsCounter(frameCount, previousFpsTime) == r.counter
        && fpsText == (if r.report.Some? then r.report else old(fpsText))
    {
      frameCount := frameCount + 1;
      if now - previousFpsTime < interval {
        return false;
      }
      var delta := (now - previousFpsTime) / 1000.0;
      var fps := frameCount as real / delta;
      if !hasElement {
        return true;
      }
      fpsText := Some(fps);
      previousFpsTime := now;
      frameCount := 0;
      threw := false;
    }

    /** The brute-force strategy: strokes every connected pair (i, j) with i ≤ j. */
    method DrawSceneNestedLoop()
      modifies this`lines
      ensures lines == old(lines) + NestedLines(particles, options.connectionDistance, |particles|)
    {
      var cd := options.connectionDistance;
      for i := 0 to |particles|
        invariant lines == old(lines) + NestedLines(particles, cd, i)
      {
        var strokes := StrokesFrom(particles[i], particles[i..], cd, false);
        lines := lines + strokes;
      }
    }

    /** The grid strategy: rebuilds the grid from the particles, then strokes A to each connected other particle of its neighbourhood. */
    method DrawSceneGrid()
      modifies this`lines, grid
      ensures grid.cells == Grids.PutAll(map[], particles, grid.cellSize)
      ensures lines == old(lines) + GridLines(particles, grid.cells, grid.cellSize, options.connectionDistance, |particles|)
    {
      grid.Clear();
      grid.InsertParticles(particles);
      var strokes := GridStrokes(particles, grid, options.connectionDistance);
      lines := lines + strokes;
    }

    /** The quad-tree strategy: builds a tree over the canvas, then strokes A to each connected other particle its query square returns. */
    method DrawSceneQuadTree()
      modifies this`lines
      ensures lines == old(lines) + QuadLines(particles, ParticleTree(particles, canvas.width, canvas.height),
                                              options.connectionDistance, |particles|)
    {
      var boundary := CanvasBoundary(canvas.width, canvas.height);
      var tree := BuildParticleTree(particles, boundary);
      var strokes := QueryStrokes(particles, tree, options.connectionDistance);
      lines := lines + strokes;
    }

    /**
     * One animation frame: clears the canvas, lets each particle move (the
     * new positions are `moved`), and draws with the brute-force strategy.
     */
    method Animate(moved: seq<Particle>)
      requires Valid() && |moved| == |particles| && Indexed(moved)
      modifies this`lines, this`particles
      ensures Valid()
      ensures particles == moved && lines == NestedLines(moved, options.connectionDistance, |moved|)
    {
      lines := [];
      particles := moved;
      DrawSceneNestedLoop();
    }

    /**
     * The frame callback: a stopped controller does nothing; a running one
     * animates, counts the frame when the FPS display is on, and requests the
     * next frame. When the FPS report throws for want of an element (`threw`),
     * no next frame is requested, so the loop ends while `running` stays true.
     */
    method Tick(now: real, moved: seq<Particle>) returns (threw: bool)
      requires Valid() && |moved| == |particles| && Indexed(moved)
      modifies this`lines, this`particles, this`raf, this`frameCount, this`previousFpsTime, this`fpsText, frames
      ensures Valid() && running == old(running)
      ensures threw <==> old(running) && options.showFps && !options.fpsElement && now - old(previousFpsTime) >= 1000.0
      ensures !old(running) ==>
                && lines == old(lines) && particles == old(particles) && raf == old(raf)
                && frameCount == old(frameCount) && previousFpsTime == old(previousFpsTime) && fpsText == old(fpsText)
                && unchanged(frames)
      ensures old(running) ==> particles == moved && lines == NestedLines(moved, options.connectionDistance, |moved|)
      ensures old(running) && !threw ==>
                && raf == Some(old(frames.issued) + 1)
                && frames.issued == old(frames.issued) + 1 && frames.cancelled == old(frames.cancelled)
      ensures threw ==> raf == old(raf) && unchanged(frames)
      ensures old(running) && options.showFps ==>
                var r := FpsUpdateStep(FpsCounter(old(frameCount), old(previousFpsTime)), now, 1000.0, options.fpsElement);
                && FpsCounter(frameCount, previousFpsTime) == r.counter
                && fpsText == (if r.report.Some? then r.report else old(fpsText))
      ensures old(running) && !options.showFps ==>
                frameCount == old(frameCount) && previousFpsTime == old(previousFpsTime) && fpsText == old(fpsText)
    {
      if !running {
        return false;
      }
      Animate(moved);
      threw := false;
      if options.showFps {
        threw := UpdateFpsCounter(options.fpsElement, now);
        if threw {
          return;
        }
      }
      var id := frames.Request();
      raf := Some(id);
    }

    /** Replaces the particles by a fresh set of the configured count, placed at the spawn positions. */
    method InitializeParticles(spawn: nat -> (int, int))
      requires Valid()
      modifies this`particles
      ensures Valid()
      ensures particles == Spawned(ArrayLength(ParticleCount(options.particleCount, canvas.width, canvas.height,
                                                             options.particleCountFactor)), spawn)
    {
      var width := canvas.width;
      var height := canvas.height;
      var count := match options.particleCount
        case Some(c) => c
        case None => Ceil((width + height) as real / 100.0 * options.particleCountFactor);
      particles := Spawned(ArrayLength(count), spawn);
    }
  }

  /**
   * The inner loop of the drawing strategies: tests `a` against each candidate
   * in turn, skipping `a` itself when `skipSelf`, and strokes a line to each
   * candidate closer than the connection distance.
   */
  method StrokesFrom(a: Particle, candidates: seq<Particle>, cd: int, skipSelf: bool) returns (strokes: seq<Line>)
    ensures strokes == Links(a, candidates, cd, skipSelf)
  {
    strokes := [];
    for j := 0 to |candidates|
      invariant strokes == Links(a, candidates[..j], cd, skipSelf)
    {
      var b := candidates[j];
      assert candidates[..j + 1][..j] == candidates[..j];
      if skipSelf && a.id == b.id {
        continue;
      }
      var dx := a.x - b.x;
      var dy := a.y - b.y;
      if dx * dx + dy * dy < cd * cd {
        strokes := strokes + [Line(a.id, b.id)];
      }
    }
    assert candidates[..|candidates|] == candidates;
  }

  /** The loop of the grid strategy over the particles as A: look up the block around A, then stroke to the candidates. */
  method GridStrokes(ps: seq<Particle>, grid: Grids.Grid, cd: int) returns (strokes: seq<Line>)
    ensures strokes == GridLines(ps, grid.cells, grid.cellSize, cd, |ps|)
  {
    strokes := [];
    for i := 0 to |ps|
      invariant strokes == GridLines(ps, grid.cells, grid.cellSize, cd, i)
    {
      var nearby := grid.GetNearbyParticles(ps[i]);
      var fromA := StrokesFrom(ps[i], nearby, cd, true);
      strokes := strokes + fromA;
    }
  }

  /** The loop of the quad-tree strategy over the particles as A: query the square around A, then stroke to the candidates. */
  method QueryStrokes(ps: seq<Particle>, tree: QuadTrees.QuadTree, cd: int) returns (strokes: seq<Line>)
    requires QuadTrees.Valid(tree)
    ensures strokes == QuadLines(ps, tree, cd, |ps|)
  {
    strokes := [];
    for i := 0 to |ps|
      invariant strokes == QuadLines(ps, tree, cd, i)
    {
      var fromA := QueryStrokesFrom(tree, cd, ps[i]);
      strokes := strokes + fromA;
    }
  }

  /** One particle as A in the quad-tree strategy: query the square around it, then stroke to the candidates. */
  method QueryStrokesFrom(tree: QuadTrees.QuadTree, cd: int, a: Particle) returns (strokes: seq<Line>)
    requires QuadTrees.Valid(tree)
    ensures strokes == Links(a, QueryCandidates(tree, cd, a), cd, true)
  {
    var nearby := QuadTrees.Query(tree, QueryRange(a, cd));
    assert ParticlesOf(nearby) == QueryCandidates(tree, cd, a);
    strokes := StrokesFrom(a, ParticlesOf(nearby), cd, true);
  }

  /** Inserts the particles in order into an empty tree with the given boundary and capacity 4. */
  method BuildParticleTree(ps: seq<Particle>, boundary: QuadTrees.Rectangle) returns (tree: QuadTrees.QuadTree)
    ensures tree == BuildTree(PointsOf(ps), |ps|, boundary, QuadTreeCapacity)
  {
    ghost var pts := PointsOf(ps);
    tree := QuadTrees.Empty(boundary, QuadTreeCapacity);
    for i := 0 to |ps|
      invariant tree == BuildTree(pts, i, boundary, QuadTreeCapacity)
    {
      var inserted := QuadTrees.Insert(tree, PointOf(ps[i]));
      tree := inserted.0;
    }
  }

  /** Creating a controller fails when the canvas has no 2D drawing context. */
  method NewParticles(canvas: Canvases.Canvas, hasContext: bool, options: Options, frames: AnimationFrames, now: real)
    returns (r: Result<Particles>)
    requires frames.Valid()
    ensures r.Failure? <==> !hasContext
    ensures r.Failure? ==> r.error == "Canvas context not found"
    ensures r.Success? ==>
              && fresh(r.value) && r.value.Valid() && !r.value.running && r.value.raf == None
              && r.value.particles == [] && r.value.options == options && r.value.previousFpsTime == now
  {
    if !hasContext {
      return Failure("Canvas context not found");
    }
    var p := new Particles(canvas, options, frames, now);
    return Success(p);
  }

  /**
   * Starting a running controller again issues a second request without
   * cancelling the first: the first stays live although the controller no
   * longer refers to it, so two frame callbacks are pending.
   */
  method StartTwice(p: Particles) returns (first: nat, second: nat)
    requires p.Valid() && !p.running
    modifies p, p.frames
    ensures Live(p.frames, first) && Live(p.frames, second) && first != second
    ensures p.raf == Some(second)
  {
    p.Start();
    first := p.raf.value;
    p.Start();
    second := p.raf.value;
  }

  /**
   * Pausing keeps the controller running with no frame pending, and starting
   * again resumes with a new request; stopping then leaves nothing pending.
   */
  method PauseResumeStop(p: Particles)
    requires p.Valid() && !p.running
    modifies p, p.frames
    ensures p.Valid() && !p.running && p.raf == None
    ensures forall id :: 1 <= id <= p.frames.issued && id !in old(p.frames.cancelled) && id > old(p.frames.issued) ==>
              id in p.frames.cancelled
  {
    p.Start();
    p.Pause();
    assert p.running && p.raf == None;
    p.Start();
    p.Stop();
  }

  /**
   * Each controller has its own options, as the merge with the defaults builds
   * a new object for each: switching the FPS display on for one controller
   * leaves another's options as they were.
   */
  method ShowFpsOnOne(p: Particles, q: Particles)
    requires p != q
    modifies p`options
    ensures p.options.showFps && q.options == old(q.options)
  {
    p.ShowFps();
  }
}
