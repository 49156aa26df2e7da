/** The rectangle (`Retangulo` in heranca_poo.py). Its input routine stores a
    width and a height as the list `[width, height, width, height]`; the
    area and the diagonal read only the first two entries. */
module Retangulo {
  import opened Results
  import opened Measures
  import Poligono
  import Triangulo
  import TrianguloRetangulo

  /** The side list `obter_lados` builds from a width and a height. */
  function Sides(width: real, height: real): (s: seq<real>)
    ensures |s| == 4
    ensures multiset(s) == multiset{width, width, height, height}
  {
    [width, height, width, height]
  }

  /** `calcular_area`: `lados[0] * lados[1]`. A list shorter than two raises
      IndexError; longer lists are not checked. */
  function Area(sides: seq<real>): (r: Result<real>)
    ensures r.Success? <==> |sides| >= 2
    ensures r.Failure? ==> r.error == IndexError
    ensures r.Success? && 0.0 <= sides[0] && 0.0 <= sides[1] ==> 0.0 <= r.value
  {
    if |sides| < 2 then Failure(IndexError) else Success(sides[0] * sides[1])
  }

  /** The square of `calcular_diagonal`: `lados[0] ** 2 + lados[1] ** 2`. It is
      never negative, so the diagonal is always a real number, and it is zero
      only for a rectangle with no width and no height. */
  function DiagonalSquared(sides: seq<real>): (r: Result<real>)
    ensures r.Success? <==> |sides| >= 2
    ensures r.Failure? ==> r.error == IndexError
    ensures r.Success? ==> 0.0 <= r.value
    ensures r.Success? ==> (r.value == 0.0 <==> sides[0] == 0.0 && sides[1] == 0.0)
  {
    if |sides| < 2 then Failure(IndexError)
    else
      SquaresSumZero(sides[0], sides[1]);
      Success(sides[0] * sides[0] + sides[1] * sides[1])
  }

  lemma SquaresSumZero(x: real, y: real)
    ensures 0.0 <= x * x + y * y
    ensures x * x + y * y == 0.0 <==> x == 0.0 && y == 0.0
  {
    assert 0.0 <= x * x && 0.0 <= y * y;
    if x * x + y * y == 0.0 {
      ZeroProduct(x, x);
      ZeroProduct(y, y);
    }
  }

  /** `calcular_diagonal`: the square root of `DiagonalSquared`. */
  function Diagonal(sides: seq<real>): (r: Result<Measure>)
    ensures r.Success? <==> |sides| >= 2
    ensures r.Failure? ==> r.error == IndexError
    ensures r.Success? ==> r.value.SqrtOf? && 0.0 <= r.value.radicand
  {
    var d :- DiagonalSquared(sides);
    Success(SqrtOf(d))
  }

  /** On the list built from a width and a height: the area is their
      product, the perimeter twice their sum, and the rectangle is regular
      exactly when it is a square. */
  lemma SidesMeasures(width: real, height: real)
    ensures Area(Sides(width, height)).Success?
    ensures Area(Sides(width, height)).value == width * height
    ensures Poligono.Perimeter(Sides(width, height)) == 2.0 * (width + height)
    ensures Poligono.IsRegular(Sides(width, height)) <==> width == height
  {
    var s := Sides(width, height);
    assert s[0] == width && s[1] == height;
    Poligono.RegularIffAllEqual(s);
    assert s[..3] == [width, height, width];
    assert s[..3][..2] == [width, height];
    assert s[..3][..2][..1] == [width];
    assert [width][..0] == [];
    assert Poligono.Sum([width]) == width;
    assert Poligono.Sum([width, height]) == width + height;
    assert Poligono.Sum([width, height, width]) == 2.0 * width + height;
  }

  /** The diagonal cuts a rectangle with non-negative sides into two right
      triangles `[width, height, diagonal]`, each of half the rectangle's
      area by the triangle's own Heron formula. */
  lemma DiagonalMakesRightTriangles(width: real, height: real, diagonal: real)
    requires 0.0 <= width && 0.0 <= height
    requires Denotes(Diagonal(Sides(width, height)).value, diagonal)
    ensures TrianguloRetangulo.IsRightTriangle([width, height, diagonal]) == Success(true)
    ensures Denotes(Triangulo.Area([width, height, diagonal]).value, Area(Sides(width, height)).value / 2.0)
  {
    TrianguloRetangulo.RightTriangleArea(width, height, diagonal);
  }

  /** The diagonal is at least as long as either side. */
  lemma DiagonalAtLeastSides(width: real, height: real, diagonal: real)
    requires 0.0 <= width && 0.0 <= height
    requires Denotes(Diagonal(Sides(width, height)).value, diagonal)
    ensures width <= diagonal && height <= diagonal
  {
    assert diagonal * diagonal == width * width + height * height;
    AtMostRoot(width, diagonal, height);
    AtMostRoot(height, diagonal, width);
  }

  lemma AtMostRoot(x: real, root: real, y: real)
    requires 0.0 <= x && 0.0 <= root
    requires root * root == x * x + y * y
    ensures x <= root
  {
    if x * x < root * root {
      TrianguloRetangulo.SquareLess(x, root);
    } else {
      assert y * y == 0.0;
      SqrtUnique(x, root, x * x);
    }
  }
}
