/** The triangle (`Triangulo` in heranca_poo.py): validity by the triangle
    inequality, classification by equal sides, and Heron's formula. Every
    method starts by unpacking `a, b, c = self.lados`, which raises
    ValueError unless the list has exactly three entries. */
module Triangulo {
  import opened Results
  import opened Measures
  import Poligono

  /** `a, b, c = self.lados`. */
  function Unpack(sides: seq<real>): (r: Result<(real, real, real)>)
    ensures r.Success? <==> |sides| == 3
    ensures r.Failure? ==> r.error == ValueError
    ensures r.Success? ==> [r.value.0, r.value.1, r.value.2] == sides
  {
    if |sides| == 3 then Success((sides[0], sides[1], sides[2]))
    else Failure(ValueError)
  }

  // ---------------------------------------------------------------------------
  // Reorderings of three sides
  // ---------------------------------------------------------------------------

  /** `t` lists the same three sides as `s`, in one of the six orders. */
  predicate IsReordering(s: seq<real>, t: seq<real>)
    requires |s| == 3
  {
    || t == [s[0], s[1], s[2]] || t == [s[0], s[2], s[1]]
    || t == [s[1], s[0], s[2]] || t == [s[1], s[2], s[0]]
    || t == [s[2], s[0], s[1]] || t == [s[2], s[1], s[0]]
  }

  lemma CancelOne(a: real, y: real, v: real)
    requires multiset{a, y} == multiset{a, v}
    ensures y == v
  {
    assert multiset{y} == multiset{a, y} - multiset{a};
    assert multiset{v} == multiset{a, v} - multiset{a};
    assert y in multiset{v};
  }

  lemma CancelFromThree(a: real, x: real, y: real, u: real, v: real)
    requires multiset{a, x, y} == multiset{a, u, v}
    ensures multiset{x, y} == multiset{u, v}
  {
    assert multiset{x, y} == multiset{a, x, y} - multiset{a};
    assert multiset{u, v} == multiset{a, u, v} - multiset{a};
  }

  /** Two values with the same multiset as `u, v` are `u, v` in some order. */
  lemma TwoReordered(x: real, y: real, u: real, v: real)
    requires multiset{x, y} == multiset{u, v}
    ensures (x == u && y == v) || (x == v && y == u)
  {
    assert x in multiset{u, v};
    if x == u {
      CancelOne(x, y, v);
    } else {
      assert multiset{x, y} == multiset{x, u};
      CancelOne(x, y, u);
    }
  }

  /** Three values with the same multiset as `x0, x1, x2` are those values
      in one of the six orders. */
  lemma ThreeReordered(x0: real, x1: real, x2: real, y0: real, y1: real, y2: real)
    requires multiset{x0, x1, x2} == multiset{y0, y1, y2}
    ensures || (y0 == x0 && ((y1 == x1 && y2 == x2) || (y1 == x2 && y2 == x1)))
            || (y0 == x1 && ((y1 == x0 && y2 == x2) || (y1 == x2 && y2 == x0)))
            || (y0 == x2 && ((y1 == x0 && y2 == x1) || (y1 == x1 && y2 == x0)))
  {
    assert y0 in multiset{x0, x1, x2};
    if y0 == x0 {
      CancelFromThree(x0, x1, x2, y1, y2);
      TwoReordered(y1, y2, x1, x2);
    } else if y0 == x1 {
      assert multiset{x0, x1, x2} == multiset{x1, x0, x2};
      CancelFromThree(x1, x0, x2, y1, y2);
      TwoReordered(y1, y2, x0, x2);
    } else {
      assert multiset{x0, x1, x2} == multiset{x2, x0, x1};
      CancelFromThree(x2, x0, x1, y1, y2);
      TwoReordered(y1, y2, x0, x1);
    }
  }

  lemma ThreeElementMultiset(s: seq<real>)
    requires |s| == 3
    ensures multiset(s) == multiset{s[0], s[1], s[2]}
  {
    assert s == [s[0]] + [s[1]] + [s[2]];
  }

  /** Any list with the same multiset of three sides is one of the six
      orders of those sides. */
  lemma PermutationIsReordering(s: seq<real>, t: seq<real>)
    requires |s| == 3 && multiset(s) == multiset(t)
    ensures IsReordering(s, t)
  {
    assert |t| == |multiset(t)| == |multiset(s)| == 3;
    ThreeElementMultiset(s);
    ThreeElementMultiset(t);
    ThreeReordered(s[0], s[1], s[2], t[0], t[1], t[2]);
    assert t == [t[0], t[1], t[2]];
  }

  // ---------------------------------------------------------------------------
  // Validity
  // ---------------------------------------------------------------------------

  /** The strict triangle inequality on all three sides. */
  predicate Valid(a: real, b: real, c: real) {
    a + b > c && a + c > b && b + c > a
  }

  /** `eh_triangulo`. */
  function IsTriangle(sides: seq<real>): (r: Result<bool>)
    ensures r.Success? <==> |sides| == 3
    ensures r.Failure? ==> r.error == ValueError
  {
    var t :- Unpack(sides);
    Success(Valid(t.0, t.1, t.2))
  }

  /** Every side of a valid triangle is positive and shorter than half the
      perimeter. */
  lemma ValidSidesPositive(a: real, b: real, c: real)
    requires Valid(a, b, c)
    ensures 0.0 < a && 0.0 < b && 0.0 < c
    ensures a < Semiperimeter(a, b, c) && b < Semiperimeter(a, b, c) && c < Semiperimeter(a, b, c)
  {
  }

  function Abs(x: real): real {
    if x < 0.0 then -x else x
  }

  /** The rule as `eh_triangulo` documents it: each side lies strictly
      between the difference and the sum of the other two. It is equivalent
      to the three inequalities the method evaluates. */
  lemma ValidIffAbsRule(a: real, b: real, c: real)
    ensures Valid(a, b, c) <==>
      && Abs(b - c) < a < b + c
      && Abs(a - c) < b < a + c
      && Abs(a - b) < c < a + b
  {
  }

  /** Validity does not depend on the order of the sides. */
  lemma IsTrianglePermutation(s: seq<real>, t: seq<real>)
    requires multiset(s) == multiset(t)
    ensures IsTriangle(s) == IsTriangle(t)
  {
    assert |s| == |multiset(s)| == |multiset(t)| == |t|;
    if |s| == 3 {
      PermutationIsReordering(s, t);
    }
  }

  // ---------------------------------------------------------------------------
  // Classification by sides
  // ---------------------------------------------------------------------------

  /** The three answers of `determinar_tipo_triangulo_lados`. */
  datatype SideKind = Equilateral | Isosceles | Scalene

  /** The label the source returns for each kind. */
  function Label(k: SideKind): string {
    match k
    case Equilateral => "equilátero"
    case Isosceles => "isósceles"
    case Scalene => "escaleno"
  }

  /** The three strings differ, so the returned string tells the kinds
      apart. */
  lemma LabelsDistinct(k1: SideKind, k2: SideKind)
    ensures Label(k1) == Label(k2) <==> k1 == k2
  {
  }

  /** Exactly one label applies: all sides equal, some but not all equal,
      or all pairwise different. */
  function ClassifySides(a: real, b: real, c: real): (k: SideKind)
    ensures k == Equilateral <==> a == b == c
    ensures k == Isosceles <==> (a == b || b == c || a == c) && !(a == b == c)
    ensures k == Scalene <==> a != b && b != c && a != c
  {
    if a == b && b == c && c == a then Equilateral
    else if a == b || b == c || c == a then Isosceles
    else Scalene
  }

  /** `determinar_tipo_triangulo_lados`. It does not look at validity. */
  function Classify(sides: seq<real>): (r: Result<SideKind>)
    ensures r.Success? <==> |sides| == 3
    ensures r.Failure? ==> r.error == ValueError
  {
    var t :- Unpack(sides);
    Success(ClassifySides(t.0, t.1, t.2))
  }

  /** The classification does not depend on the order of the sides. */
  lemma ClassifyPermutation(s: seq<real>, t: seq<real>)
    requires multiset(s) == multiset(t)
    ensures Classify(s) == Classify(t)
  {
    assert |s| == |multiset(s)| == |multiset(t)| == |t|;
    if |s| == 3 {
      PermutationIsReordering(s, t);
    }
  }

  /** For three sides, "equilateral" and "regular polygon" coincide. */
  lemma EquilateralIffRegular(sides: seq<real>)
    requires |sides| == 3
    ensures Classify(sides) == Success(Equilateral) <==> Poligono.IsRegular(sides)
  {
    Poligono.RegularIffAllEqual(sides);
  }

  // ---------------------------------------------------------------------------
  // Heron's formula
  // ---------------------------------------------------------------------------

  /** `p = (a + b + c) / 2`. */
  function Semiperimeter(a: real, b: real, c: real): real {
    (a + b + c) / 2.0
  }

  /** The semiperimeter is half of what `calcular_perimetro` returns for the
      same three sides. */
  lemma SemiperimeterIsHalfPerimeter(a: real, b: real, c: real)
    ensures 2.0 * Semiperimeter(a, b, c) == Poligono.Perimeter([a, b, c])
  {
    assert [a, b, c][..2] == [a, b];
    assert [a, b][..1] == [a];
    assert [a][..0] == [];
    assert Poligono.Sum([a]) == a;
    assert Poligono.Sum([a, b]) == a + b;
  }

  /** `p * (p - a) * (p - b) * (p - c)`, the number whose square root
      `calcular_area` returns. */
  function HeronRadicand(a: real, b: real, c: real): real {
    var p := Semiperimeter(a, b, c);
    p * (p - a) * (p - b) * (p - c)
  }

  /** `calcular_area`: the square root of Heron's radicand. */
  function Area(sides: seq<real>): (r: Result<Measure>)
    ensures r.Success? <==> |sides| == 3
    ensures r.Failure? ==> r.error == ValueError
    ensures r.Success? ==> r.value.SqrtOf?
  {
    var t :- Unpack(sides);
    Success(SqrtOf(HeronRadicand(t.0, t.1, t.2)))
  }

  /** Each Heron factor of a valid triangle is positive, so its radicand is
      positive and its area a real number. */
  lemma ValidRadicandPositive(a: real, b: real, c: real)
    requires Valid(a, b, c)
    ensures var p := Semiperimeter(a, b, c); 0.0 < p - a && 0.0 < p - b && 0.0 < p - c
    ensures 0.0 < HeronRadicand(a, b, c)
  {
    var p := Semiperimeter(a, b, c);
    MulPos(p, p - a);
    MulPos(p * (p - a), p - b);
    MulPos(p * (p - a) * (p - b), p - c);
  }

  /** For non-negative sides the radicand is positive exactly when the sides
      form a triangle: otherwise at least one Heron factor is non-positive
      and the others are non-negative, so `calcular_area` has no positive
      real result. */
  lemma RadicandPositiveIffValid(a: real, b: real, c: real)
    requires 0.0 <= a && 0.0 <= b && 0.0 <= c
    ensures 0.0 < HeronRadicand(a, b, c) <==> Valid(a, b, c)
  {
    var p := Semiperimeter(a, b, c);
    var x, y, z := p - a, p - b, p - c;
    assert HeronRadicand(a, b, c) == p * x * y * z;
    if Valid(a, b, c) {
      ValidRadicandPositive(a, b, c);
    } else if x <= 0.0 {
      assert 0.0 <= y && 0.0 <= z;
      MulNonnegNonpos(p, x);
      MulNonposNonneg(p * x, y);
      MulNonposNonneg(p * x * y, z);
    } else if y <= 0.0 {
      assert 0.0 <= z;
      MulPos(p, x);
      MulNonnegNonpos(p * x, y);
      MulNonposNonneg(p * x * y, z);
    } else {
      assert 0.0 < y && z <= 0.0;
      MulPos(p, x);
      MulPos(p * x, y);
      MulNonnegNonpos(p * x * y, z);
    }
  }

  /** Heron's radicand is a symmetric function of the three sides. */
  lemma HeronSymmetric(a: real, b: real, c: real)
    ensures HeronRadicand(a, b, c) == HeronRadicand(a, c, b) == HeronRadicand(b, a, c)
  {
    var p := Semiperimeter(a, b, c);
    assert Semiperimeter(a, c, b) == p == Semiperimeter(b, a, c);
    assert p * (p - a) * (p - b) * (p - c) == p * (p - a) * (p - c) * (p - b);
    assert p * (p - a) * (p - b) * (p - c) == p * (p - b) * (p - a) * (p - c);
  }

  /** The area does not depend on the order of the sides. */
  lemma AreaPermutation(s: seq<real>, t: seq<real>)
    requires multiset(s) == multiset(t)
    ensures Area(s) == Area(t)
  {
    assert |s| == |multiset(s)| == |multiset(t)| == |t|;
    if |s| == 3 {
      PermutationIsReordering(s, t);
      var a, b, c := s[0], s[1], s[2];
      HeronSymmetric(a, b, c);
      HeronSymmetric(b, c, a);
      HeronSymmetric(c, a, b);
      HeronSymmetric(b, a, c);
    }
  }
}
