/** The operations every polygon shares (`Poligono` in heranca_poo.py):
    regularity, perimeter and the number of diagonals. They work on the raw
    side list, whatever its length: the source never checks that the list has
    `numero_de_lados` entries. */
module Poligono {

  // ---------------------------------------------------------------------------
  // Perimeter
  // ---------------------------------------------------------------------------

  /** `sum(lados)`: starts from 0 and adds the sides from left to right. */
  function Sum(s: seq<real>): real {
    if |s| == 0 then 0.0 else Sum(s[..|s| - 1]) + s[|s| - 1]
  }

  /** `calcular_perimetro`: the plain sum of the side list. */
  function Perimeter(sides: seq<real>): (r: real)
    ensures (forall i :: 0 <= i < |sides| ==> 0.0 <= sides[i]) ==> 0.0 <= r
  {
    SumNonNegative(sides);
    Sum(sides)
  }

  lemma {:induction false} SumNonNegative(s: seq<real>)
    ensures (forall i :: 0 <= i < |s| ==> 0.0 <= s[i]) ==> 0.0 <= Sum(s)
  {
    if |s| > 0 {
      SumNonNegative(s[..|s| - 1]);
    }
  }

  /** Taking out the entry at `i` lowers the sum by that entry. */
  lemma {:induction false} SumRemove(s: seq<real>, i: int)
    requires 0 <= i < |s|
    ensures Sum(s) == Sum(s[..i] + s[i + 1..]) + s[i]
    decreases |s|
  {
    var last := |s| - 1;
    var init := s[..last];
    if i == last {
      assert s[..i] + s[i + 1..] == init;
    } else {
      SumRemove(init, i);
      var rest := s[..i] + s[i + 1..];
      assert rest[..|rest| - 1] == init[..i] + init[i + 1..];
      assert rest[|rest| - 1] == s[last];
    }
  }

  /** Taking out the entry at `i` removes one occurrence of it. */
  lemma MultisetRemove(s: seq<real>, i: int)
    requires 0 <= i < |s|
    ensures multiset(s[..i] + s[i + 1..]) == multiset(s) - multiset{s[i]}
  {
    assert s == s[..i] + [s[i]] + s[i + 1..];
  }

  /** The perimeter does not depend on the order in which the sides are
      listed: any rearrangement of the same lengths has the same sum. */
  lemma {:induction false} PerimeterPermutation(a: seq<real>, b: seq<real>)
    requires multiset(a) == multiset(b)
    ensures Perimeter(a) == Perimeter(b)
    decreases |a|
  {
    assert |a| == |multiset(a)| == |multiset(b)| == |b|;
    if |a| > 0 {
      var last := |a| - 1;
      var x := a[last];
      assert x in multiset(b);
      var i :| 0 <= i < |b| && b[i] == x;
      MultisetRemove(a, last);
      MultisetRemove(b, i);
      assert a[..last] + a[last + 1..] == a[..last];
      PerimeterPermutation(a[..last], b[..i] + b[i + 1..]);
      SumRemove(b, i);
    }
  }

  /** Each non-negative side is at most the perimeter. */
  lemma {:induction false} SideAtMostPerimeter(sides: seq<real>, i: int)
    requires forall j :: 0 <= j < |sides| ==> 0.0 <= sides[j]
    requires 0 <= i < |sides|
    ensures sides[i] <= Perimeter(sides)
  {
    var last := |sides| - 1;
    var init := sides[..last];
    assert forall j :: 0 <= j < |init| ==> 0.0 <= init[j];
    if i < last {
      SideAtMostPerimeter(init, i);
    } else {
      SumNonNegative(init);
    }
  }

  // ---------------------------------------------------------------------------
  // Regularity
  // ---------------------------------------------------------------------------

  /** `set(lados)`: the distinct side lengths. */
  function Distinct(sides: seq<real>): set<real> {
    set x | x in sides
  }

  /** `eh_regular`: the side list holds exactly one distinct length. */
  predicate IsRegular(sides: seq<real>) {
    |Distinct(sides)| == 1
  }

  /** A polygon is regular exactly when it has at least one side and all its
      sides are equal; in particular the empty side list is not regular. */
  lemma RegularIffAllEqual(sides: seq<real>)
    ensures IsRegular(sides) <==>
      |sides| > 0 && forall i :: 0 <= i < |sides| ==> sides[i] == sides[0]
  {
    if |sides| > 0 && forall i :: 0 <= i < |sides| ==> sides[i] == sides[0] {
      assert Distinct(sides) == {sides[0]};
    }
    if IsRegular(sides) {
      if |sides| > 0 {
        var d := Distinct(sides);
        assert sides[0] in d;
        assert |d - {sides[0]}| == 0;
        assert d == {sides[0]};
        forall i | 0 <= i < |sides|
          ensures sides[i] == sides[0]
        {
          assert sides[i] in d;
        }
      }
    }
  }

  /** Two different side lengths make a polygon irregular. */
  lemma DifferentSidesNotRegular(sides: seq<real>, i: int, j: int)
    requires 0 <= i < |sides| && 0 <= j < |sides|
    requires sides[i] != sides[j]
    ensures !IsRegular(sides)
  {
    RegularIffAllEqual(sides);
  }

  /** Regularity does not depend on the order of the sides. */
  lemma RegularPermutation(a: seq<real>, b: seq<real>)
    requires multiset(a) == multiset(b)
    ensures IsRegular(a) == IsRegular(b)
  {
    assert forall x :: x in a <==> x in multiset(a);
    assert forall x :: x in b <==> x in multiset(b);
    assert Distinct(a) == Distinct(b);
  }

  // ---------------------------------------------------------------------------
  // Diagonals
  // ---------------------------------------------------------------------------

  /** `numero_de_diagonais`: `n * (n - 3) // 2`. Python's `//` rounds toward
      minus infinity; for the positive divisor 2 this agrees with Dafny's
      Euclidean `/`. The division never rounds, because one of `n` and
      `n - 3` is even, and the count is negative only for one or two sides. */
  function DiagonalCount(n: int): (d: int)
    ensures 2 * d == n * (n - 3)
    ensures d < 0 <==> n == 1 || n == 2
  {
    ProductIsEven(n);
    (n * (n - 3)) / 2
  }

  lemma ProductIsEven(n: int)
    ensures (n * (n - 3)) % 2 == 0
  {
    var k := n / 2;
    if n % 2 == 0 {
      assert n * (n - 3) == 2 * (k * (n - 3));
    } else {
      assert n - 3 == 2 * (k - 1);
      assert n * (n - 3) == 2 * (n * (k - 1));
    }
  }

  /** Vertices `i < j` of an `n`-gon are joined by a side. */
  predicate Adjacent(n: int, i: int, j: int) {
    j == i + 1 || (i == 0 && j == n - 1)
  }

  /** Number of vertices `j' >= j` (below `n`) not adjacent to vertex `i`. */
  function CountRow(n: int, i: int, j: int): nat
    decreases n - j
  {
    if j >= n then 0
    else (if Adjacent(n, i, j) then 0 else 1) + CountRow(n, i, j + 1)
  }

  /** Number of pairs `i' < j` with `i' >= i` of non-adjacent vertices. */
  function CountFrom(n: int, i: int): nat
    decreases n - i
  {
    if i >= n then 0 else CountRow(n, i, i + 1) + CountFrom(n, i + 1)
  }

  /** The diagonals of an `n`-gon, counted one by one: every pair of
      vertices that is not joined by a side. */
  function NonAdjacentPairs(n: int): nat {
    CountFrom(n, 0)
  }

  lemma {:induction false} CountRowTail(n: int, i: int, j: int)
    requires 0 <= i && i + 2 <= j <= n
    ensures CountRow(n, i, j) == if i == 0 && j < n then n - 1 - j else n - j
    decreases n - j
  {
    if j < n {
      CountRowTail(n, i, j + 1);
    }
  }

  lemma {:induction false} CountFromTail(n: int, i: int)
    requires 1 <= i < n
    ensures 2 * CountFrom(n, i) == (n - i - 1) * (n - i - 2)
    decreases n - i
  {
    if i + 1 < n {
      CountRowTail(n, i, i + 2);
      assert CountRow(n, i, i + 1) == n - i - 2;
      CountFromTail(n, i + 1);
      var m := n - i - 2;
      assert 2 * CountFrom(n, i) == 2 * m + m * (m - 1);
      assert 2 * m + m * (m - 1) == (m + 1) * m;
    } else {
      assert CountRow(n, i, i + 1) == 0;
    }
  }

  /** The closed formula counts exactly the pairs of non-adjacent vertices:
      0 for a triangle, 2 for a quadrilateral, never negative. */
  lemma DiagonalCountIsNonAdjacentPairs(n: int)
    requires n >= 3
    ensures DiagonalCount(n) == NonAdjacentPairs(n)
  {
    CountRowTail(n, 0, 2);
    assert CountRow(n, 0, 1) == n - 3;
    CountFromTail(n, 1);
    assert 2 * NonAdjacentPairs(n) == 2 * (n - 3) + (n - 2) * (n - 3);
    assert 2 * (n - 3) + (n - 2) * (n - 3) == n * (n - 3);
  }
}
