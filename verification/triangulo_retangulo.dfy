/** The right triangle (`TrianguloRetangulo` in heranca_poo.py): a triangle
    with one more predicate, the Pythagorean relation in any of the three
    orders. Its area is the inherited Heron formula. Sides are compared as
    mathematical reals, with no rounding. */
module TrianguloRetangulo {
  import opened Results
  import opened Measures
  import Triangulo

  /** Some side squared equals the sum of the squares of the other two. */
  predicate Pythagorean(a: real, b: real, c: real) {
    a * a == b * b + c * c || b * b == a * a + c * c || c * c == a * a + b * b
  }

  /** `eh_triangulo_retangulo`. */
  function IsRightTriangle(sides: seq<real>): (r: Result<bool>)
    ensures r.Success? <==> |sides| == 3
    ensures r.Failure? ==> r.error == ValueError
  {
    var t :- Triangulo.Unpack(sides);
    Success(Pythagorean(t.0, t.1, t.2))
  }

  /** The right-triangle check does not depend on the order of the sides. */
  lemma IsRightTrianglePermutation(s: seq<real>, t: seq<real>)
    requires multiset(s) == multiset(t)
    ensures IsRightTriangle(s) == IsRightTriangle(t)
  {
    assert |s| == |multiset(s)| == |multiset(t)| == |t|;
    if |s| == 3 {
      Triangulo.PermutationIsReordering(s, t);
      var a, b, c := s[0], s[1], s[2];
      PythagoreanSymmetric(a, b, c);
      PythagoreanSymmetric(b, c, a);
      PythagoreanSymmetric(c, a, b);
    }
  }

  lemma PythagoreanSymmetric(a: real, b: real, c: real)
    ensures Pythagorean(a, b, c) == Pythagorean(a, c, b) == Pythagorean(b, a, c)
  {
  }

  /** For non-negative reals, comparing squares compares the values. */
  lemma SquareLess(u: real, v: real)
    requires 0.0 <= u && 0.0 <= v && u * u < v * v
    ensures u < v
  {
    assert (v - u) * (v + u) == v * v - u * u;
  }

  /** Positive legs and a hypotenuse with `z^2 = x^2 + y^2` satisfy the
      triangle inequality. */
  lemma HypotenuseValid(x: real, y: real, z: real)
    requires 0.0 < x && 0.0 < y && 0.0 <= z
    requires z * z == x * x + y * y
    ensures Triangulo.Valid(x, y, z)
  {
    assert z * z < (x + y) * (x + y);
    SquareLess(z, x + y);
    SquareLess(x, z);
    SquareLess(y, z);
  }

  /** Positive sides in a Pythagorean relation always form a triangle. */
  lemma RightImpliesValid(a: real, b: real, c: real)
    requires 0.0 < a && 0.0 < b && 0.0 < c
    requires Pythagorean(a, b, c)
    ensures Triangulo.Valid(a, b, c)
  {
    if a * a == b * b + c * c {
      HypotenuseValid(b, c, a);
    } else if b * b == a * a + c * c {
      HypotenuseValid(a, c, b);
    } else {
      HypotenuseValid(a, b, c);
    }
  }

  /** The positivity above is needed: `[0, 1, 1]` passes the Pythagorean
      check but not `eh_triangulo`. */
  lemma DegenerateRightTriangle()
    ensures IsRightTriangle([0.0, 1.0, 1.0]) == Success(true)
    ensures Triangulo.IsTriangle([0.0, 1.0, 1.0]) == Success(false)
  {
  }

  /** For a right triangle Heron's radicand is the square of half the
      product of the legs, so the inherited `calcular_area` agrees with the
      legs formula `a * b / 2`. */
  lemma RightHeronIsHalfLegProduct(a: real, b: real, c: real)
    requires c * c == a * a + b * b
    ensures Triangulo.HeronRadicand(a, b, c) == (a * b / 2.0) * (a * b / 2.0)
  {
    var p := Triangulo.Semiperimeter(a, b, c);
    assert p * (p - c) == ((a + b) * (a + b) - c * c) / 4.0;
    assert p * (p - c) == a * b / 2.0;
    assert (p - a) * (p - b) == (c * c - (a - b) * (a - b)) / 4.0;
    assert (p - a) * (p - b) == a * b / 2.0;
    assert Triangulo.HeronRadicand(a, b, c) == (p * (p - c)) * ((p - a) * (p - b));
  }

  /** With non-negative legs, `a * b / 2` is the area the Heron formula
      denotes for a right triangle. */
  lemma RightTriangleArea(a: real, b: real, c: real)
    requires 0.0 <= a && 0.0 <= b
    requires c * c == a * a + b * b
    ensures Triangulo.Area([a, b, c]) == Success(SqrtOf(Triangulo.HeronRadicand(a, b, c)))
    ensures Denotes(Triangulo.Area([a, b, c]).value, a * b / 2.0)
  {
    RightHeronIsHalfLegProduct(a, b, c);
  }
}
