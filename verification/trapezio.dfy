/** The trapezoid (`Trapezio` in heranca_poo.py). Its side list is
    positional: `[long base, short base, leg 1, leg 2]`. The area is the
    square root of a five-factor product over the semiperimeter of all four
    sides, and the height is derived from that area. */
module Trapezio {
  import opened Results
  import opened Measures
  import Poligono

  /** The side list `obter_lados` builds. */
  function Sides(longBase: real, shortBase: real, leg1: real, leg2: real): seq<real> {
    [longBase, shortBase, leg1, leg2]
  }

  /** `semiperimetro`: half the sum of the four sides. */
  function Semiperimeter(longBase: real, shortBase: real, leg1: real, leg2: real): real {
    (longBase + shortBase + leg1 + leg2) / 2.0
  }

  /** `p * (p - B) * (p - b) * (p - l1) * (p - l2)`. */
  function RadicandOf(longBase: real, shortBase: real, leg1: real, leg2: real): real {
    var p := Semiperimeter(longBase, shortBase, leg1, leg2);
    p * (p - longBase) * (p - shortBase) * (p - leg1) * (p - leg2)
  }

  /** The number whose square root `calcular_area` returns. Reading
      `lados[3]` raises IndexError on a list shorter than four. */
  function Radicand(sides: seq<real>): (r: Result<real>)
    ensures r.Success? <==> |sides| >= 4
    ensures r.Failure? ==> r.error == IndexError
  {
    if |sides| < 4 then Failure(IndexError)
    else Success(RadicandOf(sides[0], sides[1], sides[2], sides[3]))
  }

  /** `calcular_area`. */
  function Area(sides: seq<real>): (r: Result<Measure>)
    ensures r.Success? <==> |sides| >= 4
    ensures r.Failure? ==> r.error == IndexError
    ensures r.Success? ==> r.value.SqrtOf?
  {
    var x :- Radicand(sides);
    Success(SqrtOf(x))
  }

  /** `altura`: `calcular_area() * 2 / (B + b)`. The square root is the
      operation `sqrt` supplied by the caller. The area is computed first, so
      a short list raises IndexError before the bases are added; bases that
      sum to zero raise ZeroDivisionError. Whatever `sqrt` returns, the
      height satisfies `area = height * (B + b) / 2`. */
  function Height(sides: seq<real>, sqrt: real -> real): (r: Result<real>)
    ensures |sides| < 4 ==> r == Failure(IndexError)
    ensures |sides| >= 4 && sides[0] + sides[1] == 0.0 ==> r == Failure(ZeroDivisionError)
    ensures r.Success? <==> |sides| >= 4 && sides[0] + sides[1] != 0.0
    ensures r.Success? ==>
      r.value * (sides[0] + sides[1]) / 2.0 == sqrt(RadicandOf(sides[0], sides[1], sides[2], sides[3]))
  {
    var area :- Area(sides);
    var bases := sides[0] + sides[1];
    if bases == 0.0 then Failure(ZeroDivisionError)
    else Success((sqrt(area.radicand) * 2.0) / bases)
  }

  /** When `sqrt` really returns the square root of the radicand, the height
      squared times the squared sum of the bases is four times the radicand. */
  lemma HeightSquared(sides: seq<real>, sqrt: real -> real)
    requires |sides| >= 4
    requires Height(sides, sqrt).Success?
    requires IsSqrt(sqrt(Radicand(sides).value), Radicand(sides).value)
    ensures var h, bases := Height(sides, sqrt).value, sides[0] + sides[1];
      h * h * (bases * bases) == 4.0 * Radicand(sides).value
  {
    var h, bases := Height(sides, sqrt).value, sides[0] + sides[1];
    var a := sqrt(Radicand(sides).value);
    assert h * bases == 2.0 * a;
    assert h * h * (bases * bases) == (h * bases) * (h * bases);
  }

  /** The formula treats the four sides alike: exchanging the bases, the
      legs, or a base with a leg leaves the radicand unchanged. These three
      exchanges generate every reordering of the four sides, so the area
      cannot tell bases from legs; only the height can. */
  lemma RadicandSymmetric(longBase: real, shortBase: real, leg1: real, leg2: real)
    ensures RadicandOf(longBase, shortBase, leg1, leg2) == RadicandOf(shortBase, longBase, leg1, leg2)
    ensures RadicandOf(longBase, shortBase, leg1, leg2) == RadicandOf(longBase, shortBase, leg2, leg1)
    ensures RadicandOf(longBase, shortBase, leg1, leg2) == RadicandOf(leg1, shortBase, longBase, leg2)
  {
    var p := Semiperimeter(longBase, shortBase, leg1, leg2);
    var x, y, z, w := p - longBase, p - shortBase, p - leg1, p - leg2;
    assert p * x * y * z * w == p * y * x * z * w;
    assert p * x * y * z * w == p * x * y * w * z;
    assert p * x * y * z * w == p * z * y * x * w;
  }

  /** When every side is shorter than the sum of the other three (each is
      below the semiperimeter), all five factors are positive and the area
      is a positive real number. */
  lemma RadicandPositive(longBase: real, shortBase: real, leg1: real, leg2: real)
    requires var p := Semiperimeter(longBase, shortBase, leg1, leg2);
      longBase < p && shortBase < p && leg1 < p && leg2 < p
    ensures 0.0 < RadicandOf(longBase, shortBase, leg1, leg2)
  {
    var p := Semiperimeter(longBase, shortBase, leg1, leg2);
    var x, y, z, w := p - longBase, p - shortBase, p - leg1, p - leg2;
    assert 0.0 < p;
    MulPos(p, x);
    MulPos(p * x, y);
    MulPos(p * x * y, z);
    MulPos(p * x * y * z, w);
  }

  /** On the list built from bases and legs: the area reads them in their
      roles, the height exists exactly when the bases do not sum to zero,
      and the perimeter is twice the semiperimeter of the formula. */
  lemma SidesMeasures(longBase: real, shortBase: real, leg1: real, leg2: real, sqrt: real -> real)
    ensures Area(Sides(longBase, shortBase, leg1, leg2))
      == Success(SqrtOf(RadicandOf(longBase, shortBase, leg1, leg2)))
    ensures Height(Sides(longBase, shortBase, leg1, leg2), sqrt).Success? <==> longBase + shortBase != 0.0
    ensures Poligono.Perimeter(Sides(longBase, shortBase, leg1, leg2))
      == 2.0 * Semiperimeter(longBase, shortBase, leg1, leg2)
  {
    var s := Sides(longBase, shortBase, leg1, leg2);
    assert s[..3] == [longBase, shortBase, leg1];
    assert s[..3][..2] == [longBase, shortBase];
    assert s[..3][..2][..1] == [longBase];
    assert [longBase][..0] == [];
    assert Poligono.Sum([longBase]) == longBase;
    assert Poligono.Sum([longBase, shortBase]) == longBase + shortBase;
    assert Poligono.Sum([longBase, shortBase, leg1]) == longBase + shortBase + leg1;
  }

  /** The formula is not the geometric area of a trapezoid. The isosceles
      trapezoid with bases 8 and 2, legs 5 and height 4 has area
      `4 * (8 + 2) / 2 = 20`, but the radicand is 4000, whose root is not 20;
      the height derived from it is therefore not 4 either. */
  lemma NotTheGeometricArea(sqrt: real -> real)
    requires IsSqrt(sqrt(4000.0), 4000.0)
    ensures Radicand(Sides(8.0, 2.0, 5.0, 5.0)) == Success(4000.0)
    ensures !Denotes(Area(Sides(8.0, 2.0, 5.0, 5.0)).value, 4.0 * (8.0 + 2.0) / 2.0)
    ensures Height(Sides(8.0, 2.0, 5.0, 5.0), sqrt).value != 4.0
  {
    var h := Height(Sides(8.0, 2.0, 5.0, 5.0), sqrt).value;
    assert h * 10.0 / 2.0 == sqrt(4000.0);
  }
}
