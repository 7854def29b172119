/**
 * The pixel editor's canvas shapes. Every cell of the n-by-n grid is mapped to
 * normalised coordinates in [-1, 1] and tested against the current shape;
 * cells outside the shape can only be erased and are drawn under a dark overlay.
 * Arithmetic here is exact (real numbers), not IEEE doubles.
 */
module ShapeMask {

  /** The canvas shapes; any other name (for instance from a loaded file) behaves as a square. */
  datatype Shape = Square | Circle | Heart | Octagon | Other(name: string)

  /** The names the shape buttons and saved projects use. */
  function ShapeOf(name: string): (s: Shape)
    ensures s.Other? <==> name !in {"square", "circle", "heart", "octagon"}
  {
    if name == "square" then Square
    else if name == "circle" then Circle
    else if name == "heart" then Heart
    else if name == "octagon" then Octagon
    else Other(name)
  }

  function NameOf(s: Shape): string {
    match s
    case Square => "square"
    case Circle => "circle"
    case Heart => "heart"
    case Octagon => "octagon"
    case Other(name) => name
  }

  /** Saving a shape by name and reading the name back gives the same shape. */
  lemma ShapeNameRoundTrip(s: Shape)
    requires s.Other? ==> s.name !in {"square", "circle", "heart", "octagon"}
    ensures ShapeOf(NameOf(s)) == s
  {
  }

  lemma NameShapeRoundTrip(name: string)
    ensures NameOf(ShapeOf(name)) == name
  {
  }

  /** Corner cut of the octagon, in normalised units. */
  const CornerCut: real := 0.35

  /** Grid coordinate g of an n-cell axis (n > 1) mapped to [-1, 1]: 0 goes to -1 and n - 1 to 1. */
  function Norm(g: int, n: int): real
    requires n > 1
  {
    (g as real / (n - 1) as real) * 2.0 - 1.0
  }

  /** The heart curve (x^2 + y^2 - 1)^3 - x^2 y^3 at a normalised point, after the scale-and-shift. */
  function HeartValue(xNorm: real, yNorm: real): real {
    var x := xNorm * 1.3;
    var y := -yNorm * 1.3 + 0.3;
    var left := x * x + y * y - 1.0;
    left * left * left - x * x * y * y * y
  }

  /** Whether the octagon cuts the cell away: it lies in one of the four corner squares. */
  predicate InCorner(xNorm: real, yNorm: real) {
    (xNorm > 1.0 - CornerCut && yNorm > 1.0 - CornerCut) ||
    (xNorm < -1.0 + CornerCut && yNorm > 1.0 - CornerCut) ||
    (xNorm > 1.0 - CornerCut && yNorm < -1.0 + CornerCut) ||
    (xNorm < -1.0 + CornerCut && yNorm < -1.0 + CornerCut)
  }

  /**
   * isPixelInShape. On a one-cell grid the normalised coordinates are 0/0
   * (NaN): every comparison is false, so the circle and the heart exclude the
   * cell and the octagon keeps it.
   */
  predicate InShape(shape: Shape, n: nat, gx: int, gy: int)
    requires n >= 1
  {
    match shape
    case Square => true
    case Other(_) => true
    case Circle => n > 1 && Norm(gx, n) * Norm(gx, n) + Norm(gy, n) * Norm(gy, n) <= 1.0
    case Heart => n > 1 && HeartValue(Norm(gx, n), Norm(gy, n)) <= 0.0
    case Octagon => n == 1 || !InCorner(Norm(gx, n), Norm(gy, n))
  }

  /** Shapes that cut nothing away. */
  lemma SquareCoversAll(shape: Shape, n: nat, gx: int, gy: int)
    requires n >= 1 && (shape.Square? || shape.Other?)
    ensures InShape(shape, n, gx, gy)
  {
  }

  // Real-arithmetic steps the solver does not take on its own.

  lemma ExactQuotient(x: real, y: real, d: real)
    requires d > 0.0 && x == y * d
    ensures x / d == y
  {
  }

  lemma ScaleAtMostOne(x: real, e: real)
    requires e > 0.0
    ensures x <= 1.0 <==> x * e <= e
  {
  }

  lemma QuotientAbove(x: real, d: real, c: real)
    requires d > 0.0
    ensures x / d > c <==> x > c * d
  {
  }

  lemma QuotientBelow(x: real, d: real, c: real)
    requires d > 0.0
    ensures x / d < c <==> x < c * d
  {
  }

  lemma PositiveSquare(d: real)
    requires d > 0.0
    ensures d * d > 0.0
  {
  }

  /** Norm as one quotient: (2g - (n - 1)) / (n - 1). */
  lemma {:induction false} NormQuotient(g: int, n: nat)
    requires n > 1
    ensures Norm(g, n) == (2 * g - (n - 1)) as real / (n - 1) as real
  {
    var d := (n - 1) as real;
    var q := g as real / d;
    assert q * d == g as real;
    assert (2 * g - (n - 1)) as real == (2.0 * q - 1.0) * d;
    ExactQuotient((2 * g - (n - 1)) as real, 2.0 * q - 1.0, d);
  }

  /** Exact integer form of the circle test: the cell centre lies within the inscribed circle. */
  lemma {:induction false} CircleInteger(n: nat, gx: int, gy: int)
    requires n > 1
    ensures InShape(Circle, n, gx, gy) <==>
      (2 * gx - (n - 1)) * (2 * gx - (n - 1)) + (2 * gy - (n - 1)) * (2 * gy - (n - 1)) <= (n - 1) * (n - 1)
  {
    var d := (n - 1) as real;
    var a := (2 * gx - (n - 1)) as real;
    var b := (2 * gy - (n - 1)) as real;
    NormQuotient(gx, n);
    NormQuotient(gy, n);
    var p := a / d;
    var r := b / d;
    assert p * d == a && r * d == b;
    assert a * a + b * b == (p * p + r * r) * (d * d);
    PositiveSquare(d);
    ScaleAtMostOne(p * p + r * r, d * d);
  }

  /** Exact integer form of the octagon's corner thresholds (0.65 = 1 - 0.35). */
  lemma {:induction false} OctagonThresholds(n: nat, g: int)
    requires n > 1
    ensures Norm(g, n) > 1.0 - CornerCut <==> 40 * g > 33 * (n - 1)
    ensures Norm(g, n) < -1.0 + CornerCut <==> 40 * g < 7 * (n - 1)
  {
    var d := (n - 1) as real;
    var a := (2 * g - (n - 1)) as real;
    NormQuotient(g, n);
    QuotientAbove(a, d, 0.65);
    QuotientBelow(a, d, -0.65);
  }

  /** Mirroring a coordinate across the grid negates its normalised value. */
  lemma {:induction false} NormMirror(n: nat, g: int)
    requires n > 1
    ensures Norm(n - 1 - g, n) == -Norm(g, n)
  {
    var d := (n - 1) as real;
    var a := (2 * g - (n - 1)) as real;
    NormQuotient(g, n);
    NormQuotient(n - 1 - g, n);
    assert (2 * (n - 1 - g) - (n - 1)) as real == -a;
    var q := a / d;
    assert q * d == a;
    ExactQuotient(-a, -q, d);
  }

  /** The heart curve only sees the square of its horizontal coordinate. */
  lemma {:induction false} HeartMirror(xNorm: real, yNorm: real)
    ensures HeartValue(-xNorm, yNorm) == HeartValue(xNorm, yNorm)
  {
    var x := xNorm * 1.3;
    assert (-xNorm) * 1.3 == -x;
    assert (-x) * (-x) == x * x;
  }

  /** Every shape is left-right symmetric. */
  lemma {:induction false} MirrorX(shape: Shape, n: nat, gx: int, gy: int)
    requires n >= 1
    ensures InShape(shape, n, n - 1 - gx, gy) == InShape(shape, n, gx, gy)
  {
    if n > 1 {
      NormMirror(n, gx);
      var xn := Norm(gx, n);
      match shape
      case Heart =>
        HeartMirror(xn, Norm(gy, n));
      case Circle =>
        assert (-xn) * (-xn) == xn * xn;
      case _ =>
    }
  }

  /** The circle and the octagon are also top-bottom symmetric and symmetric in the diagonal. */
  lemma {:induction false} MirrorYAndTranspose(shape: Shape, n: nat, gx: int, gy: int)
    requires n >= 1 && shape != Heart
    ensures InShape(shape, n, gx, n - 1 - gy) == InShape(shape, n, gx, gy)
    ensures InShape(shape, n, gy, gx) == InShape(shape, n, gx, gy)
  {
    if n > 1 {
      NormMirror(n, gy);
    }
  }

  /** On grids of two or more cells the circle and the octagon cut the corner cells off. */
  lemma {:induction false} CornersCut(n: nat)
    requires n > 1
    ensures !InShape(Circle, n, 0, 0) && !InShape(Octagon, n, 0, 0)
    ensures !InShape(Circle, n, n - 1, n - 1) && !InShape(Octagon, n, n - 1, n - 1)
  {
    CircleInteger(n, 0, 0);
    CircleInteger(n, n - 1, n - 1);
    OctagonThresholds(n, 0);
    OctagonThresholds(n, n - 1);
  }

  /** The middle cell of an odd grid is inside every shape. */
  lemma {:induction false} CentreInside(shape: Shape, n: nat)
    requires n > 1 && n % 2 == 1
    ensures InShape(shape, n, n / 2, n / 2)
  {
    assert Norm(n / 2, n) == 0.0 by {
      assert 2 * (n / 2) == n - 1;
      assert (n / 2) as real / (n - 1) as real == 0.5;
    }
  }
}
