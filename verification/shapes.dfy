/** The polygon hierarchy as one closed datatype. In heranca_poo.py the
    abstract base `Poligono` declares `calcular_area` and raises
    NotImplementedError; here every kind of polygon supplies its own area,
    so that base case cannot arise. */
module Shapes {
  import opened Results
  import opened Measures
  import Poligono
  import Triangulo
  import TrianguloRetangulo
  import Retangulo
  import Trapezio

  /** The four concrete classes. */
  datatype Kind = Triangle | RightTriangle | Rectangle | Trapezoid {
    predicate IsTriangular() {
      Triangle? || RightTriangle?
    }
  }

  /** A polygon: its class and its current side list. The list is not tied
      to the number of sides of the class: the source never checks it. */
  datatype Polygon = Polygon(kind: Kind, sides: seq<real>)

  /** `nome`, as each initialiser sets it. */
  function Name(k: Kind): string {
    match k
    case Triangle => "Triângulo"
    case RightTriangle => "Triângulo Retângulo"
    case Rectangle => "Retângulo"
    case Trapezoid => "Trapézio"
  }

  /** The four classes carry four different names, even though
      `TrianguloRetangulo` first runs the `Triangulo` initialiser. */
  lemma NamesDistinct(k1: Kind, k2: Kind)
    ensures Name(k1) == Name(k2) <==> k1 == k2
  {
  }

  /** `numero_de_lados`, as each initialiser passes it to `Poligono`. */
  function SideCount(k: Kind): (n: nat)
    ensures n == 3 <==> k.IsTriangular()
    ensures n == 4 <==> !k.IsTriangular()
  {
    if k.IsTriangular() then 3 else 4
  }

  /** A freshly constructed polygon: `lados = [0 for _ in range(n)]`. */
  function New(k: Kind): (p: Polygon)
    ensures p.kind == k
    ensures |p.sides| == SideCount(k)
    ensures forall i :: 0 <= i < |p.sides| ==> p.sides[i] == 0.0
  {
    Polygon(k, seq(SideCount(k), _ => 0.0))
  }

  /** `calcular_perimetro`, shared by all kinds. */
  function Perimeter(p: Polygon): real {
    Poligono.Perimeter(p.sides)
  }

  /** `eh_regular`, shared by all kinds. */
  predicate IsRegular(p: Polygon) {
    Poligono.IsRegular(p.sides)
  }

  /** `numero_de_diagonais`: it reads the class's side count, never the side
      list, so it is 0 for both triangles and 2 for both quadrilaterals, and
      it equals the number of pairs of non-adjacent vertices. */
  function Diagonals(p: Polygon): (d: int)
    ensures d == Poligono.NonAdjacentPairs(SideCount(p.kind))
    ensures d == if p.kind.IsTriangular() then 0 else 2
  {
    Poligono.DiagonalCountIsNonAdjacentPairs(SideCount(p.kind));
    Poligono.DiagonalCount(SideCount(p.kind))
  }

  /** `calcular_area`, dispatched on the kind. A right triangle uses the
      triangle's Heron formula; only a rectangle's area is exact. The
      exception each kind raises on a malformed side list is kept. */
  function Area(p: Polygon): (r: Result<Measure>)
    ensures p.kind.IsTriangular() ==> (r.Success? <==> |p.sides| == 3)
    ensures p.kind.IsTriangular() && r.Failure? ==> r.error == ValueError
    ensures p.kind == Rectangle ==> (r.Success? <==> |p.sides| >= 2)
    ensures p.kind == Trapezoid ==> (r.Success? <==> |p.sides| >= 4)
    ensures !p.kind.IsTriangular() && r.Failure? ==> r.error == IndexError
    ensures r.Success? ==> (r.value.Exact? <==> p.kind == Rectangle)
  {
    match p.kind
    case Triangle => Triangulo.Area(p.sides)
    case RightTriangle => Triangulo.Area(p.sides)
    case Rectangle =>
      var a :- Retangulo.Area(p.sides);
      Success(Exact(a))
    case Trapezoid => Trapezio.Area(p.sides)
  }

  /** A freshly constructed polygon of any kind is regular: all its sides
      are 0, so the set of side lengths has one element. */
  lemma NewIsRegular(k: Kind)
    ensures IsRegular(New(k))
  {
    Poligono.RegularIffAllEqual(New(k).sides);
  }

  /** For a triangle of either class whose sides pass `eh_triangulo`, the
      area is a positive real number, and it does not depend on the order
      in which the sides are listed. */
  lemma ValidTriangleArea(p: Polygon, q: Polygon)
    requires p.kind.IsTriangular() && q.kind.IsTriangular()
    requires Triangulo.IsTriangle(p.sides) == Success(true)
    requires multiset(p.sides) == multiset(q.sides)
    ensures Area(p).Success? && 0.0 < Area(p).value.radicand
    ensures Area(p) == Area(q)
  {
    Triangulo.ValidRadicandPositive(p.sides[0], p.sides[1], p.sides[2]);
    Triangulo.AreaPermutation(p.sides, q.sides);
  }

  /** Perimeter and regularity do not depend on the order of the sides. */
  lemma SharedOperationsIgnoreOrder(p: Polygon, q: Polygon)
    requires multiset(p.sides) == multiset(q.sides)
    ensures Perimeter(p) == Perimeter(q)
    ensures IsRegular(p) == IsRegular(q)
  {
    Poligono.PerimeterPermutation(p.sides, q.sides);
    Poligono.RegularPermutation(p.sides, q.sides);
  }

  // ---------------------------------------------------------------------------
  // The documented examples
  // ---------------------------------------------------------------------------

  /** A triangle with sides `[3, 4, 5]`: valid, not regular, scalene, area
      6 (the root of 36), perimeter 12, no diagonals. */
  lemma TriangleExample()
    ensures var p := Polygon(Triangle, [3.0, 4.0, 5.0]);
      && Name(p.kind) == "Triângulo"
      && Triangulo.IsTriangle(p.sides) == Success(true)
      && !IsRegular(p)
      && Triangulo.Classify(p.sides) == Success(Triangulo.Scalene)
      && Area(p) == Success(SqrtOf(36.0))
      && Denotes(Area(p).value, 6.0)
      && Perimeter(p) == 12.0
      && Diagonals(p) == 0
  {
    var s := [3.0, 4.0, 5.0];
    Poligono.DifferentSidesNotRegular(s, 0, 1);
    Triangulo.SemiperimeterIsHalfPerimeter(3.0, 4.0, 5.0);
  }

  /** The same sides as a right triangle: the Pythagorean check also holds,
      and the inherited operations give the triangle's values. */
  lemma RightTriangleExample()
    ensures var p := Polygon(RightTriangle, [3.0, 4.0, 5.0]);
      && Name(p.kind) == "Triângulo Retângulo"
      && TrianguloRetangulo.IsRightTriangle(p.sides) == Success(true)
      && Triangulo.IsTriangle(p.sides) == Success(true)
      && !IsRegular(p)
      && Triangulo.Classify(p.sides) == Success(Triangulo.Scalene)
      && Area(p) == Success(SqrtOf(36.0))
      && Denotes(Area(p).value, 6.0)
      && Perimeter(p) == 12.0
      && Diagonals(p) == 0
  {
    var s := [3.0, 4.0, 5.0];
    Poligono.DifferentSidesNotRegular(s, 0, 1);
    Triangulo.SemiperimeterIsHalfPerimeter(3.0, 4.0, 5.0);
  }

  /** The rectangle example stores only `[3, 4]`: area 12, diagonal 5 (the
      root of 25), perimeter 7 (the list is summed as stored), 2 diagonals,
      not regular. */
  lemma RectangleExample()
    ensures var p := Polygon(Rectangle, [3.0, 4.0]);
      && Area(p) == Success(Exact(12.0))
      && Retangulo.DiagonalSquared(p.sides) == Success(25.0)
      && Denotes(Retangulo.Diagonal(p.sides).value, 5.0)
      && Perimeter(p) == 7.0
      && Diagonals(p) == 2
      && !IsRegular(p)
  {
    var s := [3.0, 4.0];
    Poligono.DifferentSidesNotRegular(s, 0, 1);
    assert s[..1] == [3.0] && [3.0][..0] == [];
  }

  /** The trapezoid `[3, 4, 5, 6]`: the radicand is `9 * 6 * 5 * 4 * 3 = 3240`
      and the height's square is `4 * 3240 / 7^2`; 2 diagonals, not regular. */
  lemma TrapezoidExample(sqrt: real -> real)
    requires IsSqrt(sqrt(3240.0), 3240.0)
    ensures var p := Polygon(Trapezoid, [3.0, 4.0, 5.0, 6.0]);
      && Area(p) == Success(SqrtOf(3240.0))
      && Trapezio.Height(p.sides, sqrt).Success?
      && Trapezio.Height(p.sides, sqrt).value * Trapezio.Height(p.sides, sqrt).value == 12960.0 / 49.0
      && Diagonals(p) == 2
      && !IsRegular(p)
  {
    var s := [3.0, 4.0, 5.0, 6.0];
    Poligono.DifferentSidesNotRegular(s, 0, 1);
    Trapezio.HeightSquared(s, sqrt);
  }

  /** `[5, 5, 5]`: regular, equilateral and a valid triangle. */
  lemma EquilateralExample()
    ensures var p := Polygon(Triangle, [5.0, 5.0, 5.0]);
      && IsRegular(p)
      && Triangulo.Classify(p.sides) == Success(Triangulo.Equilateral)
      && Triangulo.IsTriangle(p.sides) == Success(true)
  {
    Triangulo.EquilateralIffRegular([5.0, 5.0, 5.0]);
  }

  /** `[1, 1, 10]` fails `eh_triangulo`, and its radicand `6 * 5 * 5 * (-4)`
      is negative: no real number is its area. */
  lemma InvalidTriangleExample(v: real)
    ensures var p := Polygon(Triangle, [1.0, 1.0, 10.0]);
      && Triangulo.IsTriangle(p.sides) == Success(false)
      && Area(p) == Success(SqrtOf(-600.0))
      && !Denotes(Area(p).value, v)
  {
    NoSqrtOfNegative(v, -600.0);
  }
}
