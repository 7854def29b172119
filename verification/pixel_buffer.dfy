/**
 * The pixel editor's image: gridSize * gridSize palette indices in row-major
 * order (cell (x, y) at index y * gridSize + x), and what each drawing tool
 * does to it, stated as functions of the image before the stroke.
 */
module PixelBuffer {
  import opened ShapeMask

  /** A grid cell (x, y); x grows to the right, y downwards. */
  type Cell = (int, int)

  /** The coordinate test the editor makes before touching a cell. */
  predicate InRange(n: nat, p: Cell) {
    0 <= p.0 < n && 0 <= p.1 < n
  }

  /** A cell of the grid together with its index in the image (IdxCell: the first implies the second). */
  predicate InGrid(n: nat, p: Cell) {
    InRange(n, p) && 0 <= Idx(n, p) < Mul(n, n)
  }

  /**
   * The index of cell p: p.1 * n + p.0. The product is spelled as Mul so that
   * proofs about many cells at once do not drown in nonlinear arithmetic;
   * MulProduct connects the two.
   */
  function Idx(n: nat, p: Cell): int {
    Mul(p.1, n) + p.0
  }

  /** y * n, by repeated addition. */
  function Mul(y: int, n: nat): int {
    if n == 0 then 0 else Mul(y, n - 1) + y
  }

  lemma {:induction false} MulProduct(y: int, n: nat)
    ensures Mul(y, n) == y * n
  {
    if n > 0 {
      MulProduct(y, n - 1);
    }
  }

  lemma IdxFormula(n: nat, p: Cell)
    ensures Idx(n, p) == p.1 * n + p.0
  {
    MulProduct(p.1, n);
  }

  /** The index the editor computes for cell p, y * gridSize + x. */
  function RowMajor(n: nat, p: Cell): (i: int)
    ensures i == Idx(n, p)
  {
    IdxFormula(n, p);
    p.1 * n + p.0
  }

  function CellOf(n: nat, i: int): Cell
    requires n > 0
  {
    (i % n, i / n)
  }

  /** An image of an n-by-n grid. */
  predicate IsImage(data: seq<int>, n: nat) {
    n >= 1 && |data| == Mul(n, n)
  }

  lemma MulMonotone(a: int, b: int, n: int)
    requires n > 0 && a <= b
    ensures a * n <= b * n
  {
  }

  /** A grid cell has an index inside the image. */
  lemma {:induction false} IdxBound(n: nat, p: Cell)
    requires n > 0 && InRange(n, p)
    ensures InGrid(n, p)
  {
    MulProduct(p.1, n);
    MulProduct(n, n);
    MulMonotone(p.1, n - 1, n);
  }

  /** Distinct grid cells have distinct indices. */
  lemma {:induction false} IdxDistinct(n: nat, p: Cell, q: Cell)
    requires n > 0 && InRange(n, p) && InRange(n, q) && p != q
    ensures Idx(n, p) != Idx(n, q)
  {
    IdxFormula(n, p);
    IdxFormula(n, q);
    if p.1 < q.1 {
      RowGap(p.1, q.1, n);
    } else if q.1 < p.1 {
      RowGap(q.1, p.1, n);
    }
  }

  /** A later row starts at least a whole row further on. */
  lemma RowGap(a: int, b: int, n: int)
    requires n > 0 && a < b
    ensures a * n + n <= b * n
  {
    MulMonotone(a + 1, b, n);
    assert (a + 1) * n == a * n + n;
  }

  /** The index of a grid cell leads back to the cell. */
  lemma {:induction false} IdxCell(n: nat, p: Cell)
    requires n > 0 && InRange(n, p)
    ensures InGrid(n, p)
    ensures CellOf(n, Idx(n, p)) == p
  {
    IdxBound(n, p);
    IdxFormula(n, p);
    DivModUnique(Idx(n, p), n, p.1, p.0);
  }

  /** A quotient and a remainder below the divisor are the ones / and % give. */
  lemma DivModUnique(i: int, n: int, q: int, r: int)
    requires n > 0 && 0 <= r < n && i == q * n + r
    ensures i / n == q && i % n == r
  {
    var q', r' := i / n, i % n;
    assert i == q' * n + r';
    if q' < q {
      RowGap(q', q, n);
    } else if q < q' {
      RowGap(q, q', n);
    }
  }

  /** Every index of the image belongs to exactly one grid cell. */
  lemma {:induction false} CellIdx(n: nat, i: int)
    requires n > 0 && 0 <= i < n * n
    ensures InGrid(n, CellOf(n, i))
    ensures Idx(n, CellOf(n, i)) == i
  {
    var q, r := i / n, i % n;
    assert i == q * n + r;
    if q >= n {
      MulMonotone(n, q, n);
    } else if q < 0 {
      MulMonotone(q, -1, n);
    }
    IdxFormula(n, (r, q));
    IdxBound(n, (r, q));
  }

  /** Distinct cells have distinct indices. */
  lemma IdxInjective(n: nat)
    requires n > 0
    ensures forall p, q :: InGrid(n, p) && InGrid(n, q) && Idx(n, p) == Idx(n, q) ==> p == q
  {
    forall p, q | InGrid(n, p) && InGrid(n, q) && Idx(n, p) == Idx(n, q)
      ensures p == q
    {
      if p != q {
        IdxDistinct(n, p, q);
      }
    }
  }

  // ---------------------------------------------------------------- setPixel

  /** setPixel writes a cell when it is on the grid and either erases or lies inside the shape. */
  predicate MayPaint(n: nat, shape: Shape, p: Cell, color: int)
    requires n >= 1
  {
    InGrid(n, p) && (color == 0 || InShape(shape, n, p.0, p.1))
  }

  function Paint(data: seq<int>, n: nat, shape: Shape, p: Cell, color: int): (r: seq<int>)
    requires IsImage(data, n)
    ensures IsImage(r, n)
  {
    if MayPaint(n, shape, p, color) then data[Idx(n, p) := color]
    else data
  }

  /** setPixel changes at most the one cell, and only where it may paint. */
  lemma {:induction false} PaintCells(data: seq<int>, n: nat, shape: Shape, p: Cell, color: int)
    requires IsImage(data, n)
    ensures forall q :: InGrid(n, q) ==>
      Paint(data, n, shape, p, color)[Idx(n, q)] ==
        if q == p && MayPaint(n, shape, p, color) then color else data[Idx(n, q)]
  {
    IdxInjective(n);
  }

  /** Painting the same cell twice with the same colour is the same as painting it once. */
  lemma PaintIdempotent(data: seq<int>, n: nat, shape: Shape, p: Cell, color: int)
    requires IsImage(data, n)
    ensures Paint(Paint(data, n, shape, p, color), n, shape, p, color) == Paint(data, n, shape, p, color)
  {
  }

  /** Outside the shape only erasing has an effect; erasing works on every grid cell. */
  lemma PaintMask(data: seq<int>, n: nat, shape: Shape, p: Cell, color: int)
    requires IsImage(data, n) && InGrid(n, p)
    ensures !InShape(shape, n, p.0, p.1) && color != 0 ==> Paint(data, n, shape, p, color) == data
    ensures color == 0 ==> Paint(data, n, shape, p, color)[Idx(n, p)] == 0
  {
  }

  // ---------------------------------------------------------------- drawBrush

  /** The 2x2 brush at (x, y) covers (x-1..x, y-1..y). */
  predicate UnderBrush(p: Cell, q: Cell) {
    p.0 - 1 <= q.0 <= p.0 && p.1 - 1 <= q.1 <= p.1
  }

  /** drawBrush: setPixel on the four cells, row by row. */
  function Brush(data: seq<int>, n: nat, shape: Shape, p: Cell, color: int): (r: seq<int>)
    requires IsImage(data, n)
    ensures IsImage(r, n)
  {
    var (x, y) := p;
    var d1 := Paint(data, n, shape, (x - 1, y - 1), color);
    var d2 := Paint(d1, n, shape, (x, y - 1), color);
    var d3 := Paint(d2, n, shape, (x - 1, y), color);
    Paint(d3, n, shape, (x, y), color)
  }

  /** The brush paints exactly the paintable cells of its 2x2 square. */
  lemma {:induction false} BrushCells(data: seq<int>, n: nat, shape: Shape, p: Cell, color: int)
    requires IsImage(data, n)
    ensures forall q :: InGrid(n, q) ==>
      Brush(data, n, shape, p, color)[Idx(n, q)] ==
        if UnderBrush(p, q) && MayPaint(n, shape, q, color) then color else data[Idx(n, q)]
  {
    var (x, y) := p;
    var d1 := Paint(data, n, shape, (x - 1, y - 1), color);
    var d2 := Paint(d1, n, shape, (x, y - 1), color);
    var d3 := Paint(d2, n, shape, (x - 1, y), color);
    PaintCells(data, n, shape, (x - 1, y - 1), color);
    PaintCells(d1, n, shape, (x, y - 1), color);
    PaintCells(d2, n, shape, (x - 1, y), color);
    PaintCells(d3, n, shape, (x, y), color);
  }

  // ---------------------------------------------------------------- shape stamps

  /** The two shape tools. */
  datatype StampKind = RectangleStamp | CircleStamp

  /** The bounding box of a drag from a to b: x0 <= x1 and y0 <= y1. */
  function Box(a: Cell, b: Cell): (box: (int, int, int, int))
    ensures box.0 <= box.2 && box.1 <= box.3
    ensures box.0 == a.0 || box.0 == b.0
    ensures box.1 == a.1 || box.1 == b.1
    ensures box.2 == a.0 || box.2 == b.0
    ensures box.3 == a.1 || box.3 == b.1
    ensures box.0 <= a.0 && box.0 <= b.0 && box.2 >= a.0 && box.2 >= b.0
    ensures box.1 <= a.1 && box.1 <= b.1 && box.3 >= a.1 && box.3 >= b.1
  {
    (if a.0 <= b.0 then a.0 else b.0, if a.1 <= b.1 then a.1 else b.1,
     if a.0 <= b.0 then b.0 else a.0, if a.1 <= b.1 then b.1 else a.1)
  }

  predicate InBox(box: (int, int, int, int), q: Cell) {
    box.0 <= q.0 <= box.2 && box.1 <= q.1 <= box.3
  }

  /**
   * The circle tool's test: distance from the box centre at most half the
   * larger side of the box.
   */
  predicate InStampCircle(box: (int, int, int, int), q: Cell) {
    var (x0, y0, x1, y1) := box;
    var cx := (x0 + x1) as real / 2.0;
    var cy := (y0 + y1) as real / 2.0;
    var radius := (if x1 - x0 >= y1 - y0 then x1 - x0 else y1 - y0) as real / 2.0;
    (q.0 as real - cx) * (q.0 as real - cx) + (q.1 as real - cy) * (q.1 as real - cy) <= radius * radius
  }

  /** Whether a stamp over the box writes cell q. */
  predicate Covered(kind: StampKind, n: nat, shape: Shape, box: (int, int, int, int), q: Cell)
    requires n >= 1
  {
    InBox(box, q) && (kind == RectangleStamp || InStampCircle(box, q)) &&
    InGrid(n, q) && InShape(shape, n, q.0, q.1)
  }

  /** The image after stamping the shape of a drag from a to b onto data. */
  function Stamp(data: seq<int>, n: nat, shape: Shape, kind: StampKind, a: Cell, b: Cell, color: int): (r: seq<int>)
    requires IsImage(data, n)
    ensures IsImage(r, n)
  {
    seq(|data|, i requires 0 <= i < |data| =>
      if Covered(kind, n, shape, Box(a, b), CellOf(n, i)) then color else data[i])
  }

  /** Cell by cell: covered cells take the colour, every other cell keeps its value. */
  lemma {:induction false} StampCells(data: seq<int>, n: nat, shape: Shape, kind: StampKind, a: Cell, b: Cell, color: int)
    requires IsImage(data, n)
    ensures forall q :: InGrid(n, q) ==>
      Stamp(data, n, shape, kind, a, b, color)[Idx(n, q)] ==
        if Covered(kind, n, shape, Box(a, b), q) then color else data[Idx(n, q)]
  {
    forall q | InGrid(n, q)
      ensures 0 <= Idx(n, q) < |data| && CellOf(n, Idx(n, q)) == q
    {
      IdxCell(n, q);
    }
  }

  /** Stamping twice with the same drag and colour is the same as stamping once. */
  lemma StampIdempotent(data: seq<int>, n: nat, shape: Shape, kind: StampKind, a: Cell, b: Cell, color: int)
    requires IsImage(data, n)
    ensures Stamp(Stamp(data, n, shape, kind, a, b, color), n, shape, kind, a, b, color) ==
      Stamp(data, n, shape, kind, a, b, color)
  {
  }

  /** Exact integer form of the circle tool's test. */
  lemma {:induction false} StampCircleInteger(box: (int, int, int, int), q: Cell)
    ensures var (x0, y0, x1, y1) := box;
      var d := if x1 - x0 >= y1 - y0 then x1 - x0 else y1 - y0;
      InStampCircle(box, q) <==>
        (2 * q.0 - x0 - x1) * (2 * q.0 - x0 - x1) + (2 * q.1 - y0 - y1) * (2 * q.1 - y0 - y1) <= d * d
  {
    var (x0, y0, x1, y1) := box;
    var d := if x1 - x0 >= y1 - y0 then x1 - x0 else y1 - y0;
    var u := (2 * q.0 - x0 - x1) as real;
    var v := (2 * q.1 - y0 - y1) as real;
    assert q.0 as real - (x0 + x1) as real / 2.0 == u / 2.0;
    assert q.1 as real - (y0 + y1) as real / 2.0 == v / 2.0;
    assert (u / 2.0) * (u / 2.0) + (v / 2.0) * (v / 2.0) == (u * u + v * v) / 4.0;
    assert (d as real / 2.0) * (d as real / 2.0) == (d * d) as real / 4.0;
  }

  /** The circle tool never paints a cell the rectangle tool would leave alone. */
  lemma CircleInsideRectangle(n: nat, shape: Shape, a: Cell, b: Cell, q: Cell)
    requires n >= 1
    ensures Covered(CircleStamp, n, shape, Box(a, b), q) ==> Covered(RectangleStamp, n, shape, Box(a, b), q)
  {
  }

  /** A drag of at least one cell leaves the corners of its box out of the circle. */
  lemma {:induction false} CircleMissesCorner(a: Cell, b: Cell)
    requires a.0 != b.0 && a.1 != b.1
    ensures !InStampCircle(Box(a, b), (Box(a, b).0, Box(a, b).1))
  {
    var box := Box(a, b);
    StampCircleInteger(box, (box.0, box.1));
    CornerOutside(box.0, box.1, box.2, box.3);
  }

  /** In integer form: the corner (x0, y0) is farther from the centre than the larger half-side. */
  lemma CornerOutside(x0: int, y0: int, x1: int, y1: int)
    requires x0 < x1 && y0 < y1
    ensures var d := if x1 - x0 >= y1 - y0 then x1 - x0 else y1 - y0;
      (2 * x0 - x0 - x1) * (2 * x0 - x0 - x1) + (2 * y0 - y0 - y1) * (2 * y0 - y0 - y1) > d * d
  {
    var dx, dy := x1 - x0, y1 - y0;
    assert (2 * x0 - x0 - x1) * (2 * x0 - x0 - x1) == dx * dx;
    assert (2 * y0 - y0 - y1) * (2 * y0 - y0 - y1) == dy * dy;
    MulMonotone(1, dx, dx);
    MulMonotone(1, dy, dy);
  }

  // ---------------------------------------------------------------- floodFill

  /** The cells inside the shape, as the predicate the fill consults. */
  function Mask(shape: Shape, n: nat): Cell -> bool {
    (p: Cell) => n >= 1 && InShape(shape, n, p.0, p.1)
  }

  /** The four cells the flood fill queues after filling p. */
  predicate Adjacent(p: Cell, q: Cell) {
    q == (p.0 + 1, p.1) || q == (p.0 - 1, p.1) || q == (p.0, p.1 + 1) || q == (p.0, p.1 - 1)
  }

  /** The colour under the start cell, when its index is inside the image. */
  function TargetColor(orig: seq<int>, n: nat, s: Cell): int {
    if 0 <= Idx(n, s) < |orig| then orig[Idx(n, s)] else 0
  }

  /** A cell the fill may enter: on the grid, of the target colour, inside the inside. */
  predicate Fillable(orig: seq<int>, n: nat, inside: Cell -> bool, target: int, q: Cell)
    requires n >= 1
  {
    InGrid(n, q) && 0 <= Idx(n, q) < |orig| && orig[Idx(n, q)] == target && inside(q)
  }

  /** A walk through fillable cells, each step to a neighbour. */
  predicate IsFillPath(orig: seq<int>, n: nat, inside: Cell -> bool, target: int, path: seq<Cell>)
    requires n >= 1
  {
    |path| >= 1 &&
    (forall k :: 0 <= k < |path| ==> Fillable(orig, n, inside, target, path[k])) &&
    (forall k :: 0 <= k < |path| - 1 ==> Adjacent(path[k], path[k + 1]))
  }

  /** The region the bucket tool fills: the cells a fill path from the start reaches. */
  ghost predicate Reachable(orig: seq<int>, n: nat, inside: Cell -> bool, s: Cell, q: Cell)
    requires n >= 1
  {
    exists path :: IsFillPath(orig, n, inside, TargetColor(orig, n, s), path) && path[0] == s && path[|path| - 1] == q
  }

  /** r is orig with the region reachable from s recoloured. */
  ghost predicate Flooded(orig: seq<int>, r: seq<int>, n: nat, shape: Shape, s: Cell, color: int)
    requires IsImage(orig, n)
  {
    |r| == |orig| &&
    forall q :: InGrid(n, q) ==>
      0 <= Idx(n, q) < |orig| &&
      r[Idx(n, q)] == if Reachable(orig, n, Mask(shape, n), s, q) then color else orig[Idx(n, q)]
  }

  /** Only fillable cells are reached: the fill never crosses another colour or the inside's edge. */
  lemma ReachedIsFillable(orig: seq<int>, n: nat, inside: Cell -> bool, s: Cell, q: Cell)
    requires n >= 1 && Reachable(orig, n, inside, s, q)
    ensures Fillable(orig, n, inside, TargetColor(orig, n, s), s)
    ensures Fillable(orig, n, inside, TargetColor(orig, n, s), q)
  {
  }

  /** A fillable start cell is always reached. */
  lemma StartReached(orig: seq<int>, n: nat, inside: Cell -> bool, s: Cell)
    requires n >= 1 && Fillable(orig, n, inside, TargetColor(orig, n, s), s)
    ensures Reachable(orig, n, inside, s, s)
  {
    assert IsFillPath(orig, n, inside, TargetColor(orig, n, s), [s]);
  }

  /** The region is closed: a fillable neighbour of a reached cell is reached too. */
  lemma {:induction false} ReachStep(orig: seq<int>, n: nat, inside: Cell -> bool, s: Cell, p: Cell, q: Cell)
    requires n >= 1 && Reachable(orig, n, inside, s, p)
    requires Adjacent(p, q) && Fillable(orig, n, inside, TargetColor(orig, n, s), q)
    ensures Reachable(orig, n, inside, s, q)
  {
    var target := TargetColor(orig, n, s);
    var path :| IsFillPath(orig, n, inside, target, path) && path[0] == s && path[|path| - 1] == p;
    var longer := path + [q];
    assert IsFillPath(orig, n, inside, target, longer);
    assert longer[0] == s && longer[|longer| - 1] == q;
  }

  /** With no fillable start cell nothing is reached. */
  lemma NothingReached(orig: seq<int>, n: nat, inside: Cell -> bool, s: Cell)
    requires n >= 1 && !Fillable(orig, n, inside, TargetColor(orig, n, s), s)
    ensures forall q :: !Reachable(orig, n, inside, s, q)
  {
  }

  /** The set of all grid cells. */
  function AllCells(n: nat): set<Cell> {
    set x: int, y: int | 0 <= x < n && 0 <= y < n :: (x, y)
  }

  /** A neighbour of a filled cell is filled, still waiting in the queue, or not fillable. */
  ghost predicate Handled(orig: seq<int>, n: nat, inside: Cell -> bool, target: int,
                          filled: set<Cell>, queue: seq<Cell>, q: Cell)
    requires n >= 1
  {
    q in filled || q in queue || !Fillable(orig, n, inside, target, q)
  }

  ghost predicate Closed(orig: seq<int>, n: nat, inside: Cell -> bool, target: int,
                         filled: set<Cell>, queue: seq<Cell>)
    requires n >= 1
  {
    forall p, q :: p in filled && Adjacent(p, q) ==> Handled(orig, n, inside, target, filled, queue, q)
  }

  /** Once the queue is empty, a closed set holding the start holds every reachable cell. */
  lemma {:induction false} ClosedHoldsPath(orig: seq<int>, n: nat, inside: Cell -> bool, target: int,
                                           filled: set<Cell>, path: seq<Cell>)
    requires n >= 1 && Closed(orig, n, inside, target, filled, [])
    requires IsFillPath(orig, n, inside, target, path) && path[0] in filled
    ensures path[|path| - 1] in filled
    decreases |path|
  {
    if |path| > 1 {
      var prefix := path[..|path| - 1];
      assert IsFillPath(orig, n, inside, target, prefix);
      ClosedHoldsPath(orig, n, inside, target, filled, prefix);
      var p := path[|path| - 2];
      assert Adjacent(p, path[|path| - 1]);
      assert Handled(orig, n, inside, target, filled, [], path[|path| - 1]);
    }
  }

  /** cur is orig with exactly the filled cells recoloured. */
  ghost predicate Recoloured(orig: seq<int>, n: nat, color: int, cur: seq<int>, filled: set<Cell>)
    requires IsImage(orig, n)
  {
    |cur| == |orig| &&
    forall q :: InGrid(n, q) ==> cur[Idx(n, q)] == if q in filled then color else orig[Idx(n, q)]
  }

  /**
   * q was queued by a filled neighbour that was filled before it. The
   * invariant over all filled cells is instantiated only where a proof names
   * this predicate, so that following parents does not run on by itself.
   */
  predicate HasParent(filled: set<Cell>, parent: map<Cell, Cell>, rank: map<Cell, nat>, q: Cell) {
    q in parent && q in rank && parent[q] in filled && parent[q] in rank &&
    Adjacent(parent[q], q) && rank[parent[q]] < rank[q]
  }

  /**
   * Ghost bookkeeping of the order of filling: each filled cell has a rank
   * (when it was filled), and each one but the start a parent (the filled
   * neighbour that queued it).
   */
  ghost predicate Ordered(s: Cell, filled: set<Cell>, parent: map<Cell, Cell>, rank: map<Cell, nat>) {
    parent.Keys == filled && rank.Keys == filled &&
    (forall q :: q in filled ==> rank[q] < |filled|) &&
    (forall q {:trigger HasParent(filled, parent, rank, q)} :: q in filled && q != s ==> HasParent(filled, parent, rank, q))
  }

  /** Each queued cell but the start was queued by the filled neighbour recorded beside it. */
  ghost predicate QueuedFrom(s: Cell, filled: set<Cell>, queue: seq<Cell>, from: seq<Cell>) {
    |from| == |queue| &&
    forall k :: 0 <= k < |queue| && queue[k] != s ==> from[k] in filled && Adjacent(from[k], queue[k])
  }

  /**
   * What holds between two steps of the fill: cur is orig with the filled
   * cells recoloured; filled cells are fillable and each one but the start was
   * queued by an earlier filled neighbour; every neighbour of a filled cell is
   * filled, queued or not fillable; and the start, when it is fillable, is
   * filled or queued.
   */
  ghost predicate FillState(orig: seq<int>, n: nat, inside: Cell -> bool, s: Cell, color: int,
                            cur: seq<int>, filled: set<Cell>, queue: seq<Cell>,
                            parent: map<Cell, Cell>, rank: map<Cell, nat>, from: seq<Cell>)
    requires IsImage(orig, n)
  {
    var target := TargetColor(orig, n, s);
    Recoloured(orig, n, color, cur, filled) &&
    filled <= AllCells(n) &&
    (forall q :: q in filled ==> Fillable(orig, n, inside, target, q)) &&
    Ordered(s, filled, parent, rank) &&
    QueuedFrom(s, filled, queue, from) &&
    Closed(orig, n, inside, target, filled, queue) &&
    (Fillable(orig, n, inside, target, s) ==> s in filled || s in queue)
  }

  /** The fill starts with nothing filled and the start cell queued. */
  lemma FillStart(orig: seq<int>, n: nat, inside: Cell -> bool, s: Cell, color: int)
    requires IsImage(orig, n)
    ensures FillState(orig, n, inside, s, color, orig, {}, [s], map[], map[], [s])
  {
  }

  /** Dropping the front of the queue keeps every other queued cell handled. */
  lemma {:induction false} HandledSkip(orig: seq<int>, n: nat, inside: Cell -> bool, target: int,
                                       filled: set<Cell>, queue: seq<Cell>, q: Cell)
    requires n >= 1 && |queue| > 0 && Handled(orig, n, inside, target, filled, queue, q)
    requires queue[0] in filled || !Fillable(orig, n, inside, target, queue[0])
    ensures Handled(orig, n, inside, target, filled, queue[1..], q)
  {
    if q in queue && q != queue[0] {
      var k :| 0 <= k < |queue| && queue[k] == q;
      assert queue[1..][k - 1] == q;
    }
  }

  /** Dropping a queued cell that is already filled or not fillable keeps the state. */
  lemma {:induction false} SkipStep(orig: seq<int>, n: nat, inside: Cell -> bool, s: Cell, color: int,
                                    cur: seq<int>, filled: set<Cell>, queue: seq<Cell>,
                                    parent: map<Cell, Cell>, rank: map<Cell, nat>, from: seq<Cell>)
    requires IsImage(orig, n) && FillState(orig, n, inside, s, color, cur, filled, queue, parent, rank, from)
    requires |queue| > 0
    requires queue[0] in filled || !Fillable(orig, n, inside, TargetColor(orig, n, s), queue[0])
    ensures FillState(orig, n, inside, s, color, cur, filled, queue[1..], parent, rank, from[1..])
  {
    var target := TargetColor(orig, n, s);
    var rest := queue[1..];
    forall k | 0 <= k < |rest| && rest[k] != s
      ensures from[1..][k] in filled && Adjacent(from[1..][k], rest[k])
    {
      assert rest[k] == queue[k + 1];
    }
    forall r, q | r in filled && Adjacent(r, q)
      ensures Handled(orig, n, inside, target, filled, rest, q)
    {
      HandledSkip(orig, n, inside, target, filled, queue, q);
    }
    if Fillable(orig, n, inside, target, s) {
      HandledSkip(orig, n, inside, target, filled, queue, s);
    }
  }

  /** The four neighbours, in the order the fill queues them. */
  function Neighbours(p: Cell): seq<Cell> {
    [(p.0 + 1, p.1), (p.0 - 1, p.1), (p.0, p.1 + 1), (p.0, p.1 - 1)]
  }

  /** Recolouring one more grid cell keeps the picture in step with the filled set. */
  lemma {:induction false} RecolourStep(orig: seq<int>, n: nat, color: int, cur: seq<int>, filled: set<Cell>, p: Cell)
    requires IsImage(orig, n) && Recoloured(orig, n, color, cur, filled) && InGrid(n, p)
    ensures Recoloured(orig, n, color, cur[Idx(n, p) := color], filled + {p})
  {
    var cur' := cur[Idx(n, p) := color];
    forall q | InGrid(n, q)
      ensures cur'[Idx(n, q)] == if q in filled + {p} then color else orig[Idx(n, q)]
    {
      if q != p {
        IdxDistinct(n, p, q);
      }
    }
  }

  /** Filling p, queued from the filled cell r (unless p is the start), extends the order. */
  lemma {:induction false} OrderStep(s: Cell, filled: set<Cell>, parent: map<Cell, Cell>, rank: map<Cell, nat>, p: Cell, r: Cell)
    requires Ordered(s, filled, parent, rank) && p !in filled
    requires p != s ==> r in filled && Adjacent(r, p)
    ensures Ordered(s, filled + {p}, parent[p := if p == s then p else r], rank[p := |filled|])
  {
    var filled', parent', rank' := filled + {p}, parent[p := if p == s then p else r], rank[p := |filled|];
    assert |filled'| == |filled| + 1;
    assert parent'.Keys == filled' && rank'.Keys == filled';
    forall q | q in filled'
      ensures rank'[q] < |filled'|
    {
      if q != p {
        assert rank'[q] == rank[q];
      }
    }
    forall q | q in filled' && q != s
      ensures HasParent(filled', parent', rank', q)
    {
      if q != p {
        assert HasParent(filled, parent, rank, q);
      }
    }
  }

  /** Taking the front of the queue and queueing its four neighbours keeps every queued cell's origin. */
  lemma {:induction false} QueueStep(s: Cell, filled: set<Cell>, queue: seq<Cell>, from: seq<Cell>)
    requires QueuedFrom(s, filled, queue, from) && |queue| > 0
    ensures QueuedFrom(s, filled + {queue[0]}, queue[1..] + Neighbours(queue[0]), from[1..] + [queue[0], queue[0], queue[0], queue[0]])
  {
    var p := queue[0];
    var queue', from' := queue[1..] + Neighbours(p), from[1..] + [p, p, p, p];
    forall k | 0 <= k < |queue'| && queue'[k] != s
      ensures from'[k] in filled + {p} && Adjacent(from'[k], queue'[k])
    {
      if k < |queue| - 1 {
        assert queue'[k] == queue[k + 1] && from'[k] == from[k + 1];
      } else {
        assert from'[k] == p;
      }
    }
  }

  /** Filling the front of the queue and queueing its neighbours keeps every handled cell handled. */
  lemma {:induction false} HandledFill(orig: seq<int>, n: nat, inside: Cell -> bool, target: int,
                                       filled: set<Cell>, queue: seq<Cell>, q: Cell)
    requires n >= 1 && |queue| > 0 && Handled(orig, n, inside, target, filled, queue, q)
    ensures Handled(orig, n, inside, target, filled + {queue[0]}, queue[1..] + Neighbours(queue[0]), q)
  {
    if q in queue && q != queue[0] {
      var k :| 0 <= k < |queue| && queue[k] == q;
      assert (queue[1..] + Neighbours(queue[0]))[k - 1] == q;
    }
  }

  /** Filling the front of the queue and queueing its neighbours keeps the filled set closed. */
  lemma {:induction false} ClosedStep(orig: seq<int>, n: nat, inside: Cell -> bool, target: int,
                                      filled: set<Cell>, queue: seq<Cell>)
    requires n >= 1 && |queue| > 0 && Closed(orig, n, inside, target, filled, queue)
    ensures Closed(orig, n, inside, target, filled + {queue[0]}, queue[1..] + Neighbours(queue[0]))
  {
    var p := queue[0];
    var queue' := queue[1..] + Neighbours(p);
    forall r, q | r in filled + {p} && Adjacent(r, q)
      ensures Handled(orig, n, inside, target, filled + {p}, queue', q)
    {
      if r != p {
        HandledFill(orig, n, inside, target, filled, queue, q);
      } else {
        var k := if q == (p.0 + 1, p.1) then 0 else if q == (p.0 - 1, p.1) then 1 else if q == (p.0, p.1 + 1) then 2 else 3;
        assert queue'[|queue| - 1 + k] == q;
      }
    }
  }

  /** Filling the queued cell at the front and queueing its neighbours keeps the state. */
  lemma {:induction false} FillStep(orig: seq<int>, n: nat, inside: Cell -> bool, s: Cell, color: int,
                                    cur: seq<int>, filled: set<Cell>, queue: seq<Cell>,
                                    parent: map<Cell, Cell>, rank: map<Cell, nat>, from: seq<Cell>)
    requires IsImage(orig, n) && FillState(orig, n, inside, s, color, cur, filled, queue, parent, rank, from)
    requires |queue| > 0
    requires queue[0] !in filled && Fillable(orig, n, inside, TargetColor(orig, n, s), queue[0])
    ensures var p := queue[0];
      InGrid(n, p) && p in AllCells(n) &&
      FillState(orig, n, inside, s, color, cur[Idx(n, p) := color], filled + {p}, queue[1..] + Neighbours(p),
                parent[p := if p == s then p else from[0]], rank[p := |filled|], from[1..] + [p, p, p, p])
  {
    var target := TargetColor(orig, n, s);
    var p := queue[0];
    RecolourStep(orig, n, color, cur, filled, p);
    OrderStep(s, filled, parent, rank, p, from[0]);
    QueueStep(s, filled, queue, from);
    ClosedStep(orig, n, inside, target, filled, queue);
    if Fillable(orig, n, inside, target, s) {
      HandledFill(orig, n, inside, target, filled, queue, s);
    }
  }

  /** Each filled cell is reached, by induction on the order of filling. */
  lemma {:induction false} FilledReached(orig: seq<int>, n: nat, inside: Cell -> bool, s: Cell, color: int,
                                         cur: seq<int>, filled: set<Cell>, queue: seq<Cell>, parent: map<Cell, Cell>, rank: map<Cell, nat>, from: seq<Cell>, q: Cell)
    requires IsImage(orig, n) && FillState(orig, n, inside, s, color, cur, filled, queue, parent, rank, from)
    requires q in filled
    ensures Reachable(orig, n, inside, s, q)
    decreases rank[q]
  {
    if q == s {
      StartReached(orig, n, inside, s);
    } else {
      assert HasParent(filled, parent, rank, q);
      var p := parent[q];
      FilledReached(orig, n, inside, s, color, cur, filled, queue, parent, rank, from, p);
      ReachStep(orig, n, inside, s, p, q);
    }
  }

  /** With the queue empty, the filled cells are exactly the reachable ones. */
  lemma {:induction false} FillDone(orig: seq<int>, n: nat, shape: Shape, s: Cell, color: int,
                                    cur: seq<int>, filled: set<Cell>, parent: map<Cell, Cell>, rank: map<Cell, nat>, from: seq<Cell>)
    requires IsImage(orig, n) && FillState(orig, n, Mask(shape, n), s, color, cur, filled, [], parent, rank, from)
    ensures Flooded(orig, cur, n, shape, s, color)
  {
    var inside := Mask(shape, n);
    var target := TargetColor(orig, n, s);
    forall q | InGrid(n, q) && Reachable(orig, n, inside, s, q)
      ensures q in filled
    {
      var path :| IsFillPath(orig, n, inside, target, path) && path[0] == s && path[|path| - 1] == q;
      ClosedHoldsPath(orig, n, inside, target, filled, path);
    }
    forall q | q in filled
      ensures Reachable(orig, n, inside, s, q)
    {
      FilledReached(orig, n, inside, s, color, cur, filled, [], parent, rank, from, q);
    }
  }

  /**
   * One turn of the fill loop that drops the front of the queue: it is off
   * the grid, no longer has the target colour, or lies outside the shape.
   */
  lemma {:induction false} SkipAt(orig: seq<int>, n: nat, shape: Shape, s: Cell, color: int,
                                  cur: seq<int>, filled: set<Cell>, queue: seq<Cell>,
                                  parent: map<Cell, Cell>, rank: map<Cell, nat>, from: seq<Cell>)
    requires IsImage(orig, n) && FillState(orig, n, Mask(shape, n), s, color, cur, filled, queue, parent, rank, from)
    requires |queue| > 0 && TargetColor(orig, n, s) != color
    requires !InGrid(n, queue[0]) || cur[Idx(n, queue[0])] != TargetColor(orig, n, s) ||
             !InShape(shape, n, queue[0].0, queue[0].1)
    ensures FillState(orig, n, Mask(shape, n), s, color, cur, filled, queue[1..], parent, rank, from[1..])
  {
    assert queue[0] in filled || !Fillable(orig, n, Mask(shape, n), TargetColor(orig, n, s), queue[0]);
    SkipStep(orig, n, Mask(shape, n), s, color, cur, filled, queue, parent, rank, from);
  }

  /**
   * One turn of the fill loop that recolours the front of the queue, a grid
   * cell of the target colour inside the shape, and queues its neighbours.
   */
  lemma {:induction false} FillAt(orig: seq<int>, n: nat, shape: Shape, s: Cell, color: int,
                                  cur: seq<int>, filled: set<Cell>, queue: seq<Cell>,
                                  parent: map<Cell, Cell>, rank: map<Cell, nat>, from: seq<Cell>)
    requires IsImage(orig, n) && FillState(orig, n, Mask(shape, n), s, color, cur, filled, queue, parent, rank, from)
    requires |queue| > 0 && TargetColor(orig, n, s) != color
    requires InGrid(n, queue[0]) && cur[Idx(n, queue[0])] == TargetColor(orig, n, s) &&
             InShape(shape, n, queue[0].0, queue[0].1)
    ensures var p := queue[0];
      p in AllCells(n) - filled &&
      FillState(orig, n, Mask(shape, n), s, color, cur[Idx(n, p) := color], filled + {p}, queue[1..] + Neighbours(p),
                parent[p := if p == s then p else from[0]], rank[p := |filled|], from[1..] + [p, p, p, p])
  {
    assert queue[0] !in filled;
    assert Fillable(orig, n, Mask(shape, n), TargetColor(orig, n, s), queue[0]);
    FillStep(orig, n, Mask(shape, n), s, color, cur, filled, queue, parent, rank, from);
  }

  /** One pixel write. */
  method Write(a: array<int>, i: int, color: int)
    requires 0 <= i < a.Length
    modifies a
    ensures a[..] == old(a[..])[i := color]
  {
    a[i] := color;
  }

  /**
   * One turn of the fill loop: cell p is recoloured exactly when it lies on
   * the grid, still has the target colour and is inside the shape.
   */
  method Visit(a: array<int>, n: nat, shape: Shape, p: Cell, target: int, color: int) returns (hit: bool)
    requires a.Length == Mul(n, n)
    modifies a
    ensures hit <==> InGrid(n, p) && old(a[..])[Idx(n, p)] == target && InShape(shape, n, p.0, p.1)
    ensures a[..] == if hit then old(a[..])[Idx(n, p) := color] else old(a[..])
  {
    var x, y := p.0, p.1;
    if x < 0 || x >= n || y < 0 || y >= n {
      return false;
    }
    IdxBound(n, p);
    var i := RowMajor(n, p);
    if a[i] != target || !InShape(shape, n, x, y) {
      return false;
    }
    Write(a, i, color);
    return true;
  }

  /**
   * floodFill: breadth-first from the start cell, through 4-neighbours of the
   * start cell's colour that lie inside the shape, recolouring as it goes.
   * Returns without a change when the start is outside the shape, its index is
   * outside the image, or it already has the new colour.
   */
  method FloodFill(a: array<int>, n: nat, shape: Shape, s: Cell, color: int)
    requires IsImage(a[..], n)
    modifies a
    ensures Flooded(old(a[..]), a[..], n, shape, s, color)
  {
    ghost var orig := a[..];
    ghost var inside := Mask(shape, n);
    if !InShape(shape, n, s.0, s.1) {
      NothingReached(orig, n, inside, s);
      return;
    }
    var t := RowMajor(n, s);
    if t < 0 || t >= a.Length {
      if InRange(n, s) {
        IdxBound(n, s);
      }
      NothingReached(orig, n, inside, s);
      return;
    }
    var target := a[t];
    assert target == TargetColor(orig, n, s);
    if target == color {
      forall q | InGrid(n, q) && Reachable(orig, n, inside, s, q)
        ensures orig[Idx(n, q)] == color
      {
        ReachedIsFillable(orig, n, inside, s, q);
      }
      return;
    }
    var queue := [s];
    ghost var filled: set<Cell> := {};
    ghost var parent: map<Cell, Cell>, rank: map<Cell, nat>, from := map[], map[], [s];
    FillStart(orig, n, Mask(shape, n), s, color);
    while |queue| > 0
      invariant a.Length == |orig|
      invariant FillState(orig, n, Mask(shape, n), s, color, a[..], filled, queue, parent, rank, from)
      decreases AllCells(n) - filled, |queue|
    {
      var p := queue[0];
      ghost var cur := a[..];
      var hit := Visit(a, n, shape, p, target, color);
      if !hit {
        SkipAt(orig, n, shape, s, color, cur, filled, queue, parent, rank, from);
        queue, from := queue[1..], from[1..];
        continue;
      }
      FillAt(orig, n, shape, s, color, cur, filled, queue, parent, rank, from);
      parent, rank, from := parent[p := if p == s then p else from[0]], rank[p := |filled|], from[1..] + [p, p, p, p];
      filled := filled + {p};
      queue := queue[1..] + Neighbours(p);
    }
    FillDone(orig, n, shape, s, color, a[..], filled, parent, rank, from);
  }
}
