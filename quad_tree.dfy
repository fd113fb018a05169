/**
 * The point quad-tree of the particle field: rectangles in centre/half-extent
 * form, and a capacity-bounded node that splits once into four quadrants.
 */
module QuadTrees {

  function AbsReal(r: real): real {
    if r < 0.0 then -r else r
  }

  /** A stored point. `id` stands for the identity of the object that was inserted. */
  datatype Point = Point(x: real, y: real, id: nat)

  /** A rectangle given by its centre (x, y) and its half-width w and half-height h. */
  datatype Rectangle = Rectangle(x: real, y: real, w: real, h: real) {

    /** The point lies within centre ± half-extent on both axes; the edges belong to the rectangle. */
    predicate Contains(p: Point)
      ensures Contains(p) ==> w >= 0.0 && h >= 0.0
    {
      p.x >= x - w && p.x <= x + w && p.y >= y - h && p.y <= y + h
    }

    /** False exactly when `range` lies wholly beyond one of the four edges of this rectangle. */
    predicate Intersects(range: Rectangle)
      ensures Intersects(range) ==> w + range.w >= 0.0 && h + range.h >= 0.0
    {
      !(range.x - range.w > x + w ||
        range.x + range.w < x - w ||
        range.y - range.h > y + h ||
        range.y + range.h < y - h)
    }
  }

  /** A rectangle holds exactly the points within its half-extents of its centre on both axes. */
  lemma ContainsCentred(r: Rectangle, p: Point)
    ensures r.Contains(p) <==> AbsReal(p.x - r.x) <= r.w && AbsReal(p.y - r.y) <= r.h
  {
  }

  /** Two rectangles intersect exactly when their centres are no farther apart on each axis than the sum of their half-extents. */
  lemma IntersectsCentred(a: Rectangle, b: Rectangle)
    ensures a.Intersects(b) <==> AbsReal(a.x - b.x) <= a.w + b.w && AbsReal(a.y - b.y) <= a.h + b.h
  {
  }

  /** The four quadrants, named as the source names its children (y grows downwards). */
  datatype Quad = NE | NW | SE | SW

  /** The rectangle of quadrant `q` of `b`: half the extents, centred on a corner of the inner cross. */
  function Quadrant(b: Rectangle, q: Quad): (r: Rectangle)
    ensures r.w == b.w / 2.0 && r.h == b.h / 2.0
    ensures q == NE || q == SE ==> r.x - r.w == b.x && r.x + r.w == b.x + b.w
    ensures q == NW || q == SW ==> r.x - r.w == b.x - b.w && r.x + r.w == b.x
    ensures q == NE || q == NW ==> r.y - r.h == b.y - b.h && r.y + r.h == b.y
    ensures q == SE || q == SW ==> r.y - r.h == b.y && r.y + r.h == b.y + b.h
  {
    var w := b.w / 2.0;
    var h := b.h / 2.0;
    match q
    case NE => Rectangle(b.x + w, b.y - h, w, h)
    case NW => Rectangle(b.x - w, b.y - h, w, h)
    case SE => Rectangle(b.x + w, b.y + h, w, h)
    case SW => Rectangle(b.x - w, b.y + h, w, h)
  }

  /** The quadrant a full node hands `p` to: the first of NE, NW, SE, SW that contains it. */
  function FirstFit(b: Rectangle, p: Point): Quad {
    if Quadrant(b, NE).Contains(p) then NE
    else if Quadrant(b, NW).Contains(p) then NW
    else if Quadrant(b, SE).Contains(p) then SE
    else SW
  }

  /** The points of `s` that `range` contains, in the order of `s`. */
  function Filter(s: seq<Point>, range: Rectangle): (r: seq<Point>)
    ensures forall q :: q in r <==> q in s && range.Contains(q)
    ensures |r| <= |s|
  {
    if s == [] then []
    else Filter(s[..|s| - 1], range) + (if range.Contains(s[|s| - 1]) then [s[|s| - 1]] else [])
  }

  /** Every point of `s` lies in `b`. */
  ghost predicate AllWithin(s: seq<Point>, b: Rectangle) {
    forall q :: q in s ==> b.Contains(q)
  }

  function Max(a: nat, b: nat): nat {
    if a < b then b else a
  }

  // ---------------------------------------------------------------- geometry

  /** Edges are inclusive: all four corners of a rectangle with non-negative extents lie in it. */
  lemma CornersContained(r: Rectangle, id: nat)
    requires r.w >= 0.0 && r.h >= 0.0
    ensures r.Contains(Point(r.x - r.w, r.y - r.h, id)) && r.Contains(Point(r.x + r.w, r.y - r.h, id))
    ensures r.Contains(Point(r.x - r.w, r.y + r.h, id)) && r.Contains(Point(r.x + r.w, r.y + r.h, id))
    ensures !r.Contains(Point(r.x + r.w + 1.0, r.y, id)) && !r.Contains(Point(r.x, r.y - r.h - 1.0, id))
  {
  }

  /** Intersection does not depend on the order of the two rectangles. */
  lemma IntersectsSymmetric(a: Rectangle, b: Rectangle)
    ensures a.Intersects(b) <==> b.Intersects(a)
  {
  }

  /** Rectangles that only touch along an edge intersect. */
  lemma TouchingIntersects(a: Rectangle, b: Rectangle)
    requires b.x - b.w == a.x + a.w && b.y == a.y
    requires a.w >= 0.0 && a.h >= 0.0 && b.w >= 0.0 && b.h >= 0.0
    ensures a.Intersects(b)
  {
  }

  /** A point that lies in both rectangles makes them intersect (whatever their extents). */
  lemma CommonPointIntersects(a: Rectangle, b: Rectangle, p: Point)
    requires a.Contains(p) && b.Contains(p)
    ensures a.Intersects(b)
  {
  }

  /** For rectangles with non-negative extents, intersecting means sharing a point. */
  lemma IntersectsIffCommonPoint(a: Rectangle, b: Rectangle)
    requires a.w >= 0.0 && a.h >= 0.0 && b.w >= 0.0 && b.h >= 0.0
    ensures a.Intersects(b) <==> exists p: Point :: a.Contains(p) && b.Contains(p)
  {
    if a.Intersects(b) {
      var px := if a.x - a.w < b.x - b.w then b.x - b.w else a.x - a.w;
      var py := if a.y - a.h < b.y - b.h then b.y - b.h else a.y - a.h;
      assert a.Contains(Point(px, py, 0)) && b.Contains(Point(px, py, 0));
    }
  }

  /** Each quadrant lies within its parent. */
  lemma QuadrantWithin(b: Rectangle, q: Quad, p: Point)
    requires Quadrant(b, q).Contains(p)
    ensures b.Contains(p)
  {
  }

  /** The four quadrants cover their parent: a point of the parent lies in its first-fit quadrant. */
  lemma QuadrantsCover(b: Rectangle, p: Point)
    requires b.Contains(p)
    ensures Quadrant(b, FirstFit(b, p)).Contains(p)
  {
  }

  // ---------------------------------------------------------------- Filter

  lemma {:induction false} FilterConcat(a: seq<Point>, b: seq<Point>, range: Rectangle)
    ensures Filter(a + b, range) == Filter(a, range) + Filter(b, range)
    decreases |b|
  {
    if b == [] {
      assert a + b == a;
    } else {
      var b' := b[..|b| - 1];
      assert (a + b)[..|a + b| - 1] == a + b';
      assert (a + b)[|a + b| - 1] == b[|b| - 1];
      FilterConcat(a, b', range);
    }
  }

  /** Filtering keeps every occurrence of a point the range contains, and no other point. */
  lemma {:induction false} FilterCount(s: seq<Point>, range: Rectangle, q: Point)
    ensures multiset(Filter(s, range))[q] == if range.Contains(q) then multiset(s)[q] else 0
    decreases |s|
  {
    if s != [] {
      var s' := s[..|s| - 1];
      assert s == s' + [s[|s| - 1]];
      FilterCount(s', range, q);
    }
  }

  lemma FilterNone(s: seq<Point>, range: Rectangle)
    requires forall q :: q in s ==> !range.Contains(q)
    ensures Filter(s, range) == []
  {
  }

  /** Multiset bookkeeping for a node's contents, kept out of the methods' proofs. */
  lemma MultisetOfParts(pts: seq<Point>, a: seq<Point>, b: seq<Point>, c: seq<Point>, d: seq<Point>)
    ensures multiset(pts + a + b + c + d)
            == multiset(pts) + multiset(a) + multiset(b) + multiset(c) + multiset(d)
  {
  }

  // ---------------------------------------------------------------- the tree

  /**
   * A node: its boundary, its capacity and the points it stores itself; once
   * divided it also owns one child per quadrant.
   */
  datatype QuadTree =
    | Leaf(boundary: Rectangle, capacity: nat, points: seq<Point>)
    | Divided(boundary: Rectangle, capacity: nat, points: seq<Point>,
              northeast: QuadTree, northwest: QuadTree, southeast: QuadTree, southwest: QuadTree)

  /** The child of a divided node for quadrant `q`. */
  function Child(t: QuadTree, q: Quad): QuadTree
    requires t.Divided?
  {
    match q
    case NE => t.northeast
    case NW => t.northwest
    case SE => t.southeast
    case SW => t.southwest
  }

  /**
   * The shape every node keeps: no more own points than its capacity, all of
   * them inside its boundary, and children that cover the four quadrants with
   * the same capacity.
   */
  ghost predicate Valid(t: QuadTree) {
    && |t.points| <= t.capacity
    && AllWithin(t.points, t.boundary)
    && (t.Divided? ==>
          && t.northeast.boundary == Quadrant(t.boundary, NE) && t.northeast.capacity == t.capacity
          && t.northwest.boundary == Quadrant(t.boundary, NW) && t.northwest.capacity == t.capacity
          && t.southeast.boundary == Quadrant(t.boundary, SE) && t.southeast.capacity == t.capacity
          && t.southwest.boundary == Quadrant(t.boundary, SW) && t.southwest.capacity == t.capacity
          && Valid(t.northeast) && Valid(t.northwest) && Valid(t.southeast) && Valid(t.southwest))
  }

  /** Every point stored in the tree, in the order a query visits them: own points, then NW, NE, SW, SE. */
  function Elements(t: QuadTree): seq<Point> {
    match t
    case Leaf(_, _, pts) => pts
    case Divided(_, _, pts, ne, nw, se, sw) =>
      pts + Elements(nw) + Elements(ne) + Elements(sw) + Elements(se)
  }

  /** How often an insertion may still recurse before it stores a point (the termination measure). */
  function Rank(t: QuadTree): nat {
    if |t.points| < t.capacity then 0
    else match t
      case Leaf(_, _, _) => 1
      case Divided(_, _, _, ne, nw, se, sw) => 1 + Max(Max(Rank(ne), Rank(nw)), Max(Rank(se), Rank(sw)))
  }

  /** A new node with nothing in it and no children. */
  function Empty(boundary: Rectangle, capacity: nat): (t: QuadTree)
    ensures Valid(t) && Elements(t) == [] && t.Leaf?
  {
    Leaf(boundary, capacity, [])
  }

  /** Gives an undivided node four empty children, one per quadrant, each with the node's capacity. */
  function Subdivide(t: QuadTree): (r: QuadTree)
    requires t.Leaf?
    ensures r.Divided? && r.boundary == t.boundary && r.capacity == t.capacity && r.points == t.points
    ensures forall q :: Child(r, q) == Empty(Quadrant(t.boundary, q), t.capacity)
  {
    var x := t.boundary.x;
    var y := t.boundary.y;
    var w := t.boundary.w / 2.0;
    var h := t.boundary.h / 2.0;
    Divided(t.boundary, t.capacity, t.points,
            Empty(Rectangle(x + w, y - h, w, h), t.capacity),
            Empty(Rectangle(x - w, y - h, w, h), t.capacity),
            Empty(Rectangle(x + w, y + h, w, h), t.capacity),
            Empty(Rectangle(x - w, y + h, w, h), t.capacity))
  }

  /** Subdividing keeps the node valid and stores the same points. */
  lemma SubdividePreserves(t: QuadTree)
    requires t.Leaf? && Valid(t)
    ensures Valid(Subdivide(t)) && Elements(Subdivide(t)) == Elements(t)
  {
    var r := Subdivide(t);
    assert Elements(r) == t.points + [] + [] + [] + [];
  }

  /** The node a full insertion works on: the node itself once divided, its subdivision before. */
  function Split(t: QuadTree): QuadTree {
    if t.Leaf? then Subdivide(t) else t
  }

  /** Splitting a valid node keeps it valid, keeps its elements and does not raise its rank. */
  lemma SplitPreserves(t: QuadTree)
    requires Valid(t) && t.capacity >= 1
    ensures && Valid(Split(t)) && Elements(Split(t)) == Elements(t) && Split(t).Divided?
            && Split(t).boundary == t.boundary && Split(t).capacity == t.capacity
            && Split(t).points == t.points && Rank(Split(t)) <= Rank(t)
  {
    if t.Leaf? {
      SubdividePreserves(t);
      var d := Subdivide(t);
      assert Rank(d.northeast) == 0 && Rank(d.northwest) == 0;
      assert Rank(d.southeast) == 0 && Rank(d.southwest) == 0;
    }
  }

  /** The children's ranks stay below a full, divided node's. */
  lemma ChildRank(t: QuadTree, q: Quad)
    requires t.Divided? && |t.points| >= t.capacity
    ensures Rank(Child(t, q)) < Rank(t)
  {
  }

  /** A divided node with the child for quadrant `q` replaced by `c`. */
  function WithChild(d: QuadTree, q: Quad, c: QuadTree): (r: QuadTree)
    requires d.Divided?
    ensures r.Divided? && r.boundary == d.boundary && r.capacity == d.capacity && r.points == d.points
    ensures Child(r, q) == c && forall q' :: q' != q ==> Child(r, q') == Child(d, q')
  {
    match q
    case NE => d.(northeast := c)
    case NW => d.(northwest := c)
    case SE => d.(southeast := c)
    case SW => d.(southwest := c)
  }

  /** Replacing a child by a valid one for the same quadrant that holds `added` more keeps the node valid and adds `added`. */
  lemma WithChildFacts(d: QuadTree, q: Quad, c: QuadTree, added: multiset<Point>)
    requires d.Divided? && Valid(d) && Valid(c)
    requires c.boundary == Child(d, q).boundary && c.capacity == Child(d, q).capacity
    requires multiset(Elements(c)) == multiset(Elements(Child(d, q))) + added
    ensures Valid(WithChild(d, q, c))
    ensures multiset(Elements(WithChild(d, q, c))) == multiset(Elements(d)) + added
  {
    WithChildValid(d, q, c);
    WithChildElements(d, q, c, added);
  }

  lemma WithChildValid(d: QuadTree, q: Quad, c: QuadTree)
    requires d.Divided? && Valid(d) && Valid(c)
    requires c.boundary == Child(d, q).boundary && c.capacity == Child(d, q).capacity
    ensures Valid(WithChild(d, q, c))
  {
    var r := WithChild(d, q, c);
    assert r.points == d.points && r.boundary == d.boundary && r.capacity == d.capacity;
  }

  lemma WithChildElements(d: QuadTree, q: Quad, c: QuadTree, added: multiset<Point>)
    requires d.Divided?
    requires multiset(Elements(c)) == multiset(Elements(Child(d, q))) + added
    ensures multiset(Elements(WithChild(d, q, c))) == multiset(Elements(d)) + added
  {
    var pts, ne, nw, se, sw := d.points, Elements(d.northeast), Elements(d.northwest),
                               Elements(d.southeast), Elements(d.southwest);
    assert Elements(d) == pts + nw + ne + sw + se;
    match q
    case NE =>
      assert Elements(WithChild(d, q, c)) == (pts + nw) + Elements(c) + (sw + se);
      assert Elements(d) == (pts + nw) + ne + (sw + se);
      ReplaceMiddle(pts + nw, ne, Elements(c), sw + se, added);
    case NW =>
      assert Elements(WithChild(d, q, c)) == pts + Elements(c) + (ne + sw + se);
      assert Elements(d) == pts + nw + (ne + sw + se);
      ReplaceMiddle(pts, nw, Elements(c), ne + sw + se, added);
    case SE =>
      assert Elements(WithChild(d, q, c)) == (pts + nw + ne + sw) + Elements(c) + [];
      assert Elements(d) == (pts + nw + ne + sw) + se + [];
      ReplaceMiddle(pts + nw + ne + sw, se, Elements(c), [], added);
    case SW =>
      assert Elements(WithChild(d, q, c)) == (pts + nw + ne) + Elements(c) + se;
      assert Elements(d) == (pts + nw + ne) + sw + se;
      ReplaceMiddle(pts + nw + ne, sw, Elements(c), se, added);
  }

  /** Replacing a block of a sequence by one holding `added` more adds `added` to the whole. */
  lemma ReplaceMiddle(x: seq<Point>, m: seq<Point>, m': seq<Point>, y: seq<Point>, added: multiset<Point>)
    requires multiset(m') == multiset(m) + added
    ensures multiset(x + m' + y) == multiset(x + m + y) + added
  {
    assert multiset(x + m' + y) == multiset(x) + multiset(m') + multiset(y);
    assert multiset(x + m + y) == multiset(x) + multiset(m) + multiset(y);
  }

  /**
   * Inserts `p`: refused outside the boundary; stored in the node itself while
   * it has room; otherwise the node is subdivided if need be and `p` goes to the
   * first child, in the order NE, NW, SE, SW, that accepts it. The flag says
   * whether `p` was stored; a child that refused leaves the tree as it was.
   */
  function Insert(t: QuadTree, p: Point): (r: (QuadTree, bool))
    requires Valid(t) && t.capacity >= 1
    decreases Rank(t), 6
    ensures Valid(r.0)
    ensures r.1 == t.boundary.Contains(p)
    ensures multiset(Elements(r.0)) == multiset(Elements(t)) + if r.1 then multiset{p} else multiset{}
    ensures !r.1 ==> r.0 == t
    ensures r.0.boundary == t.boundary && r.0.capacity == t.capacity
    ensures t.Divided? ==> r.0.Divided?
    ensures |t.points| < t.capacity ==> r.0.points == t.points + (if r.1 then [p] else [])
    ensures |t.points| < t.capacity ==> r.0.Leaf? == t.Leaf?
    ensures |t.points| >= t.capacity ==> r.0.points == t.points
    ensures r.1 && |t.points| >= t.capacity ==>
              && r.0.Divided? && Split(t).Divided?
              && multiset(Elements(Child(r.0, FirstFit(t.boundary, p))))
                 == multiset(Elements(Child(Split(t), FirstFit(t.boundary, p)))) + multiset{p}
              && forall q :: q != FirstFit(t.boundary, p) ==> Child(r.0, q) == Child(Split(t), q)
  {
    if !t.boundary.Contains(p) then (t, false)
    else if |t.points| < t.capacity then (Push(t, p), true)
    else InsertFull(t, p)
  }

  /** A node with room stores `p` with its own points, after those it already has. */
  function Push(t: QuadTree, p: Point): (r: QuadTree)
    requires Valid(t) && t.boundary.Contains(p) && |t.points| < t.capacity
    ensures Valid(r)
    ensures multiset(Elements(r)) == multiset(Elements(t)) + multiset{p}
    ensures r.boundary == t.boundary && r.capacity == t.capacity
    ensures r.points == t.points + [p] && r.Leaf? == t.Leaf?
  {
    match t
    case Leaf(b, c, pts) =>
      assert AllWithin(pts + [p], b);
      Leaf(b, c, pts + [p])
    case Divided(b, c, pts, ne, nw, se, sw) =>
      assert AllWithin(pts + [p], b);
      MultisetOfParts(pts, Elements(nw), Elements(ne), Elements(sw), Elements(se));
      MultisetOfParts(pts + [p], Elements(nw), Elements(ne), Elements(sw), Elements(se));
      Divided(b, c, pts + [p], ne, nw, se, sw)
  }

  /**
   * A full node that contains `p`: subdivide if need be, then offer `p` to the
   * children in the order NE, NW, SE, SW. It lands in the first quadrant that
   * contains it, and the other three children are left as they were.
   */
  function InsertFull(t: QuadTree, p: Point): (r: (QuadTree, bool))
    requires Valid(t) && t.capacity >= 1 && t.boundary.Contains(p) && |t.points| >= t.capacity
    decreases Rank(t), 5
    ensures Valid(r.0) && r.1 && r.0.Divided?
    ensures multiset(Elements(r.0)) == multiset(Elements(t)) + multiset{p}
    ensures r.0.boundary == t.boundary && r.0.capacity == t.capacity && r.0.points == t.points
    ensures Split(t).Divided?
    ensures multiset(Elements(Child(r.0, FirstFit(t.boundary, p))))
            == multiset(Elements(Child(Split(t), FirstFit(t.boundary, p)))) + multiset{p}
    ensures forall q :: q != FirstFit(t.boundary, p) ==> Child(r.0, q) == Child(Split(t), q)
  {
    SplitPreserves(t);
    QuadrantsCover(t.boundary, p);
    assert FirstFit(t.boundary, p) in InsertionOrder;
    FirstInOrder(t.boundary, p);
    InsertFirst(Split(t), InsertionOrder, p)
  }

  /** The order in which a full node offers a point to its children. */
  const InsertionOrder: seq<Quad> := [NE, NW, SE, SW]

  /** The first quadrant of `qs` whose rectangle contains `p`. */
  function FirstIn(b: Rectangle, qs: seq<Quad>, p: Point): (q: Quad)
    requires exists q :: q in qs && Quadrant(b, q).Contains(p)
    ensures q in qs && Quadrant(b, q).Contains(p)
  {
    if Quadrant(b, qs[0]).Contains(p) then qs[0]
    else
      assert forall q :: q in qs && q != qs[0] ==> q in qs[1..];
      FirstIn(b, qs[1..], p)
  }

  /** Over the insertion order, the first containing quadrant is the first fit. */
  lemma FirstInOrder(b: Rectangle, p: Point)
    requires exists q :: q in InsertionOrder && Quadrant(b, q).Contains(p)
    ensures FirstIn(b, InsertionOrder, p) == FirstFit(b, p)
  {
    assert InsertionOrder[1..] == [NW, SE, SW];
    assert [NW, SE, SW][1..] == [SE, SW];
    assert [SE, SW][1..] == [SW];
    if !Quadrant(b, NE).Contains(p) {
      assert FirstIn(b, InsertionOrder, p) == FirstIn(b, [NW, SE, SW], p);
      if !Quadrant(b, NW).Contains(p) {
        assert FirstIn(b, [NW, SE, SW], p) == FirstIn(b, [SE, SW], p);
        if !Quadrant(b, SE).Contains(p) {
          assert FirstIn(b, [SE, SW], p) == FirstIn(b, [SW], p);
        }
      }
    }
  }

  /** The cascade of a full node: offer `p` to the children of `qs` in turn until one accepts it. */
  function InsertFirst(d: QuadTree, qs: seq<Quad>, p: Point): (r: (QuadTree, bool))
    requires Valid(d) && d.Divided? && d.capacity >= 1 && |d.points| >= d.capacity
    decreases Rank(d), |qs|
    ensures Valid(r.0) && r.0.Divided?
    ensures r.0.boundary == d.boundary && r.0.capacity == d.capacity && r.0.points == d.points
    ensures r.1 <==> exists q :: q in qs && Quadrant(d.boundary, q).Contains(p)
    ensures !r.1 ==> r.0 == d
    ensures multiset(Elements(r.0)) == multiset(Elements(d)) + if r.1 then multiset{p} else multiset{}
    ensures r.1 ==> var f := FirstIn(d.boundary, qs, p);
              && multiset(Elements(Child(r.0, f))) == multiset(Elements(Child(d, f))) + multiset{p}
              && forall q :: q != f ==> Child(r.0, q) == Child(d, q)
  {
    if qs == [] then (d, false)
    else
      var (c, ok) := InsertIntoChild(d, qs[0], p);
      if ok then (c, true)
      else
        var r := InsertFirst(d, qs[1..], p);
        assert forall q :: q in qs <==> q == qs[0] || q in qs[1..];
        r
  }

  /** One step of a full node's insertion cascade: offer `p` to the child for quadrant `q`. */
  function InsertIntoChild(d: QuadTree, q: Quad, p: Point): (r: (QuadTree, bool))
    requires Valid(d) && d.Divided? && d.capacity >= 1 && |d.points| >= d.capacity
    decreases Rank(d), 0
    ensures Valid(r.0) && r.0.Divided?
    ensures r.0.boundary == d.boundary && r.0.capacity == d.capacity && r.0.points == d.points
    ensures r.1 == Quadrant(d.boundary, q).Contains(p)
    ensures !r.1 ==> r.0 == d
    ensures multiset(Elements(r.0)) == multiset(Elements(d)) + if r.1 then multiset{p} else multiset{}
    ensures r.1 ==> multiset(Elements(Child(r.0, q))) == multiset(Elements(Child(d, q))) + multiset{p}
    ensures forall q' :: q' != q ==> Child(r.0, q') == Child(d, q')
  {
    ChildRank(d, q);
    var (c, ok) := Insert(Child(d, q), p);
    if ok then
      WithChildFacts(d, q, c, multiset{p});
      (WithChild(d, q, c), true)
    else (d, false)
  }

  /** Every point stored anywhere in a valid tree lies in its boundary. */
  lemma {:induction false} ElementsWithin(t: QuadTree)
    requires Valid(t)
    ensures AllWithin(Elements(t), t.boundary)
  {
    if t.Divided? {
      forall q | q in Elements(t)
        ensures t.boundary.Contains(q)
      {
        if q in Elements(t.northeast) {
          ElementsWithin(t.northeast);
          QuadrantWithin(t.boundary, NE, q);
        } else if q in Elements(t.northwest) {
          ElementsWithin(t.northwest);
          QuadrantWithin(t.boundary, NW, q);
        } else if q in Elements(t.southeast) {
          ElementsWithin(t.southeast);
          QuadrantWithin(t.boundary, SE, q);
        } else if q in Elements(t.southwest) {
          ElementsWithin(t.southwest);
          QuadrantWithin(t.boundary, SW, q);
        }
      }
    }
  }

  /** Appending a filtered block to an accumulator that already holds a filtered prefix. */
  lemma FilterStep(found: seq<Point>, prefix: seq<Point>, next: seq<Point>, range: Rectangle)
    ensures found + Filter(prefix, range) + Filter(next, range) == found + Filter(prefix + next, range)
  {
    FilterConcat(prefix, next, range);
  }

  /** A range disjoint from a valid tree's boundary contains none of its points. */
  lemma DisjointFilter(t: QuadTree, range: Rectangle)
    requires Valid(t) && !t.boundary.Intersects(range)
    ensures Filter(Elements(t), range) == []
  {
    ElementsWithin(t);
    forall q | q in Elements(t)
      ensures !range.Contains(q)
    {
      if range.Contains(q) {
        CommonPointIntersects(t.boundary, range, q);
      }
    }
    FilterNone(Elements(t), range);
  }

  /** Appends to `found` the points of `pts` that `range` contains, in order. */
  method QueryPoints(pts: seq<Point>, range: Rectangle, found: seq<Point>) returns (result: seq<Point>)
    ensures result == found + Filter(pts, range)
  {
    result := found;
    for i := 0 to |pts|
      invariant result == found + Filter(pts[..i], range)
    {
      assert pts[..i + 1][..i] == pts[..i];
      if range.Contains(pts[i]) {
        result := result + [pts[i]];
      }
    }
    assert pts[..|pts|] == pts;
  }

  /**
   * Appends to `found` the points of the tree that `range` contains, in the
   * order own points, NW, NE, SW, SE, skipping every subtree whose boundary
   * does not intersect `range`.
   */
  method Query(t: QuadTree, range: Rectangle, found: seq<Point> := []) returns (result: seq<Point>)
    requires Valid(t)
    ensures result == found + Filter(Elements(t), range)
  {
    if !t.boundary.Intersects(range) {
      DisjointFilter(t, range);
      return found;
    }

    result := QueryPoints(t.points, range, found);

    if t.Divided? {
      var pts := t.points;
      result := Query(t.northwest, range, result);
      FilterStep(found, pts, Elements(t.northwest), range);
      pts := pts + Elements(t.northwest);
      result := Query(t.northeast, range, result);
      FilterStep(found, pts, Elements(t.northeast), range);
      pts := pts + Elements(t.northeast);
      result := Query(t.southwest, range, result);
      FilterStep(found, pts, Elements(t.southwest), range);
      pts := pts + Elements(t.southwest);
      result := Query(t.southeast, range, result);
      FilterStep(found, pts, Elements(t.southeast), range);
      pts := pts + Elements(t.southeast);
      assert pts == Elements(t);
    }
  }

  /**
   * For a tree that holds exactly the points of `inserted` that its boundary
   * accepted, the points a query from an empty accumulator returns (the
   * filtered elements, by `Query`'s postcondition) are each inserted point in
   * both the boundary and the range, as often as it was inserted, and nothing
   * else.
   */
  lemma QueryOfBuiltTree(t: QuadTree, inserted: seq<Point>, range: Rectangle, q: Point)
    requires Valid(t) && multiset(Elements(t)) == multiset(Filter(inserted, t.boundary))
    ensures multiset(Filter(Elements(t), range))[q]
            == if t.boundary.Contains(q) && range.Contains(q) then multiset(inserted)[q] else 0
  {
    FilterCount(Elements(t), range, q);
    FilterCount(inserted, t.boundary, q);
  }
}
