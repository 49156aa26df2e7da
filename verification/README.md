# Polygon hierarchy — a Dafny model

This project models the polygon classes of `src/nome_projeto/heranca_poo.py`:
the abstract `Poligono` with its shared operations (regularity, perimeter,
number of diagonals) and the four concrete classes `Triangulo`,
`TrianguloRetangulo`, `Retangulo` and `Trapezio` with their validity tests,
side classification and area formulas.

The model works over Dafny's mathematical `real`s, where the program
computes with IEEE doubles; rounding and overflow are listed under
"Left out". Each Python class is a
module (`Poligono`, `Triangulo`, `TrianguloRetangulo`, `Retangulo`,
`Trapezio`) whose operations take the side list `lados` as a `seq<real>`.
The module `Shapes` replaces the abstract base class by a closed datatype
`Polygon(kind, sides)`: every kind supplies its own area, so the base
`calcular_area` that raises `NotImplementedError` has no counterpart.

Conventions:

- **Exceptions.** The Python methods never check the side list. A list of
  the wrong shape makes them raise a built-in exception, which the model
  returns as `Results.Result`: unpacking `a, b, c = self.lados` gives
  `ValueError` unless there are exactly three sides; `Retangulo` gives
  `IndexError` below two sides, `Trapezio` below four; `altura` gives
  `ZeroDivisionError` when the two bases sum to zero.
- **Square roots.** `x ** 0.5` is floating-point and is not computed.
  `Measures.IsSqrt(r, x)` says `r` is the non-negative root of `x`, and an
  area is a `Measure`: `Exact(v)` for the rectangle's product, `SqrtOf(x)` for
  the Heron-style formulas. `Trapezio.Height` receives the square root as a
  function parameter `sqrt`, since `altura` calls `calcular_area`.
- **Side count.** The code does not enforce `len(lados) == numero_de_lados`:
  the rectangle example stores only `[3, 4]` and reports perimeter 7. The
  model follows the code: the perimeter sums the list as stored, the number of
  diagonals reads the class's side count, and only the unpacking and indexing
  errors above arise.
- **Labels.** `determinar_tipo_triangulo_lados` returns strings; the model
  returns `Triangulo.SideKind` and maps it with `Triangulo.Label` to
  `equilátero`, `isósceles` and `escaleno`. `Shapes.Name` gives each class's
  `nome`.

Observation: the trapezoid "area" `sqrt(p(p-B)(p-b)(p-l1)(p-l2))` is not the
geometric area of a trapezoid. It has one factor more than Brahmagupta's
formula and treats bases and legs alike (`Trapezio.RadicandSymmetric`). For
the isosceles trapezoid with bases 8 and 2, legs 5 and height 4, the area is
20 but the radicand is 4000 (`Trapezio.NotTheGeometricArea`). The height that
`altura` derives from it is wrong too. The model keeps the formula as written,
because the documented results (`56.92…`, `16.26…`) come from it.

## Model

| member | source | states |
|---|---|---|
| Poligono.Perimeter | src/nome_projeto/heranca_poo.py:66-72 | the perimeter of non-negative sides is non-negative |
| Poligono.PerimeterPermutation | src/nome_projeto/heranca_poo.py:72 | any rearrangement of the same side lengths (same multiset) has the same perimeter |
| Poligono.SideAtMostPerimeter | src/nome_projeto/heranca_poo.py:72 | with non-negative sides, no side exceeds the perimeter |
| Poligono.RegularIffAllEqual | src/nome_projeto/heranca_poo.py:30-39 | a side list is regular iff it is non-empty and all its sides are equal; the empty list is not regular |
| Poligono.DifferentSidesNotRegular | src/nome_projeto/heranca_poo.py:39 | two different side lengths make the polygon irregular |
| Poligono.RegularPermutation | src/nome_projeto/heranca_poo.py:39 | regularity does not depend on the order of the sides |
| Poligono.DiagonalCount | src/nome_projeto/heranca_poo.py:74-84 | the floor division `n*(n-3)//2` never rounds, and the count is negative only for one or two sides |
| Poligono.DiagonalCountIsNonAdjacentPairs | src/nome_projeto/heranca_poo.py:74-84 | for n >= 3 the closed formula equals the number of vertex pairs not joined by a side, counted one by one |
| Triangulo.Unpack | src/nome_projeto/heranca_poo.py:140 | unpacking succeeds exactly for three sides, returns them in order, and raises ValueError otherwise |
| Triangulo.IsTriangle | src/nome_projeto/heranca_poo.py:123-143 | `eh_triangulo` answers exactly for three sides and raises ValueError for any other length |
| Triangulo.ValidSidesPositive | src/nome_projeto/heranca_poo.py:126-143 | sides passing the triangle inequality are positive and each is below half the perimeter |
| Triangulo.ValidIffAbsRule | src/nome_projeto/heranca_poo.py:126-143 | the documented rule "each side strictly between the difference and the sum of the other two" holds iff the three inequalities `eh_triangulo` evaluates hold |
| Triangulo.IsTrianglePermutation | src/nome_projeto/heranca_poo.py:140-143 | validity does not depend on the order of the sides |
| Triangulo.ClassifySides | src/nome_projeto/heranca_poo.py:156-161 | exactly one label: equilateral iff all equal, isosceles iff some pair but not all equal, scalene iff pairwise different |
| Triangulo.LabelsDistinct | src/nome_projeto/heranca_poo.py:156-161 | the strings `Triangulo.Label` returns (`equilátero`, `isósceles`, `escaleno`) are pairwise different, so the returned string identifies the kind |
| Triangulo.Classify | src/nome_projeto/heranca_poo.py:145-161 | the classification answers for any three sides, valid or not, and raises ValueError for other lengths |
| Triangulo.ClassifyPermutation | src/nome_projeto/heranca_poo.py:156-161 | the label does not depend on the order of the sides |
| Triangulo.EquilateralIffRegular | src/nome_projeto/heranca_poo.py:156-158 | for three sides, the label equilateral coincides with `eh_regular` |
| Triangulo.SemiperimeterIsHalfPerimeter | src/nome_projeto/heranca_poo.py:175-177 | Heron's `p` is half of what `calcular_perimetro` returns for the same sides |
| Triangulo.Area | src/nome_projeto/heranca_poo.py:163-178 | the area is a square root, produced exactly for three sides, ValueError otherwise |
| Triangulo.ValidRadicandPositive | src/nome_projeto/heranca_poo.py:175-178 | for a valid triangle `p-a`, `p-b`, `p-c` are positive and so is the radicand |
| Triangulo.RadicandPositiveIffValid | src/nome_projeto/heranca_poo.py:175-178 | for non-negative sides the radicand is positive iff the sides pass `eh_triangulo` |
| Triangulo.HeronSymmetric | src/nome_projeto/heranca_poo.py:175-178 | the radicand is unchanged by exchanging any two sides |
| Triangulo.AreaPermutation | src/nome_projeto/heranca_poo.py:175-178 | in exact arithmetic, the area does not depend on the order of the sides |
| TrianguloRetangulo.IsRightTriangle | src/nome_projeto/heranca_poo.py:224-238 | the Pythagorean check answers exactly for three sides and raises ValueError otherwise |
| TrianguloRetangulo.IsRightTrianglePermutation | src/nome_projeto/heranca_poo.py:233-238 | the Pythagorean check does not depend on the order of the sides |
| TrianguloRetangulo.RightImpliesValid | src/nome_projeto/heranca_poo.py:233-238 | positive sides in a Pythagorean relation always pass `eh_triangulo` |
| TrianguloRetangulo.DegenerateRightTriangle | src/nome_projeto/heranca_poo.py:233-238 | `[0, 1, 1]` passes the Pythagorean check but is not a triangle, so positivity is needed above |
| TrianguloRetangulo.RightHeronIsHalfLegProduct | src/nome_projeto/heranca_poo.py:175-178 | for a right triangle the inherited Heron radicand is `(a*b/2)^2` |
| TrianguloRetangulo.RightTriangleArea | src/nome_projeto/heranca_poo.py:175-178 | with non-negative legs, the inherited area is the legs formula `a*b/2` |
| Retangulo.Sides | src/nome_projeto/heranca_poo.py:279-283 | the stored list has four entries, each of width and height twice |
| Retangulo.Area | src/nome_projeto/heranca_poo.py:285-298 | the area is produced for at least two sides, IndexError below; non-negative sides give a non-negative area |
| Retangulo.DiagonalSquared | src/nome_projeto/heranca_poo.py:300-309 | the squared diagonal is never negative and is zero only for width and height both zero; IndexError below two sides |
| Retangulo.Diagonal | src/nome_projeto/heranca_poo.py:309 | the diagonal is the root of a non-negative number, so always real |
| Retangulo.SidesMeasures | src/nome_projeto/heranca_poo.py:281-283 | on `[w, h, w, h]`: area `w*h`, perimeter `2*(w+h)`, regular iff `w == h` |
| Retangulo.DiagonalMakesRightTriangles | src/nome_projeto/heranca_poo.py:300-309 | width, height and diagonal pass the right-triangle check, and that triangle's Heron area is half the rectangle's area |
| Retangulo.DiagonalAtLeastSides | src/nome_projeto/heranca_poo.py:309 | the diagonal is at least as long as the width and the height |
| Trapezio.Radicand | src/nome_projeto/heranca_poo.py:367-378 | the radicand is produced for at least four sides, IndexError below |
| Trapezio.Area | src/nome_projeto/heranca_poo.py:355-378 | the area is a square root, IndexError below four sides |
| Trapezio.Height | src/nome_projeto/heranca_poo.py:380-395 | IndexError below four sides, ZeroDivisionError for bases summing to zero, otherwise `area == height*(B+b)/2` |
| Trapezio.HeightSquared | src/nome_projeto/heranca_poo.py:390-395 | with a true square root, `height^2 * (B+b)^2 == 4 * radicand` |
| Trapezio.SidesMeasures | src/nome_projeto/heranca_poo.py:347-353 | on the list `Trapezio.Sides` builds, `[B, b, l1, l2]`: the area is the root of the formula over the sides in their roles, the height exists iff `B + b != 0`, and the perimeter is twice the semiperimeter |
| Trapezio.RadicandSymmetric | src/nome_projeto/heranca_poo.py:367-378 | exchanging bases, legs, or a base with a leg leaves the radicand unchanged |
| Trapezio.RadicandPositive | src/nome_projeto/heranca_poo.py:371-378 | when every side is below the semiperimeter the radicand is positive |
| Trapezio.NotTheGeometricArea | src/nome_projeto/heranca_poo.py:355-378 | for the isosceles trapezoid 8, 2, 5, 5 of height 4 the formula gives neither area 20 nor height 4 |
| Shapes.NewIsRegular | src/nome_projeto/heranca_poo.py:19-28 | a freshly constructed polygon (`Shapes.New`: its class's side count of zeros) is regular, for every class |
| Shapes.Diagonals | src/nome_projeto/heranca_poo.py:74-84 | the diagonal count reads the side count each initialiser passes (`Shapes.SideCount`: 3 at :121, 4 at :277 and :345), not the list: it is 0 for both triangle classes and 2 for both quadrilaterals, and equals the number of non-adjacent vertex pairs |
| Shapes.Area | src/nome_projeto/heranca_poo.py:48-64 | every class has an area; each raises its own exception on a malformed list; only the rectangle's is exact |
| Shapes.NamesDistinct | src/nome_projeto/heranca_poo.py:218-222 | the four names `Shapes.Name` gives are pairwise different: the right triangle overrides the name the triangle initialiser set |
| Shapes.ValidTriangleArea | src/nome_projeto/heranca_poo.py:175-178 | in exact arithmetic, a valid triangle of either class has a positive real area, independent of side order |
| Shapes.SharedOperationsIgnoreOrder | src/nome_projeto/heranca_poo.py:30-72 | perimeter and regularity of any class ignore the order of the sides |
| Shapes.TriangleExample | src/nome_projeto/heranca_poo.py:98-114 | `[3, 4, 5]`: valid, irregular, scalene, area 6, perimeter 12, no diagonals |
| Shapes.RightTriangleExample | src/nome_projeto/heranca_poo.py:197-215 | `[3, 4, 5]` as a right triangle passes the Pythagorean and triangle checks, is irregular and scalene, has area 6, perimeter 12 and no diagonals |
| Shapes.RectangleExample | src/nome_projeto/heranca_poo.py:256-270 | `[3, 4]`: area 12, diagonal 5, perimeter 7, 2 diagonals, irregular |
| Shapes.TrapezoidExample | src/nome_projeto/heranca_poo.py:326-338 | `[3, 4, 5, 6]`: radicand 3240, squared height `12960/49`, 2 diagonals, irregular |
| Shapes.EquilateralExample | src/nome_projeto/heranca_poo.py:156-158 | `[5, 5, 5]` is regular, equilateral and valid |
| Shapes.InvalidTriangleExample | src/nome_projeto/heranca_poo.py:140-143 | `[1, 1, 10]` is not a triangle and its radicand -600 has no real root |

## Left out

- `obter_lados` of every class: interactive `input()` and `float` parsing. The model starts from the side list it produces (`Retangulo.Sides`, `Trapezio.Sides`).
- `__str__`, `__repr__` and `main`: text formatting and printing only.
- The floating-point square roots and the printed values `56.92099788303083` and `16.26314225229452`; the model states the squares of these quantities instead.
- Floating-point rounding: `obter_lados` stores every side as a `float`, so the program computes in IEEE doubles throughout. The model computes every float operation exactly — the sums, the Heron and trapezoid products, and the comparisons of `eh_triangulo`, `eh_triangulo_retangulo` and `determinar_tipo_triangulo_lados` — so, for example, `Triangulo.Valid(1e16, 1.0, 1e16)` holds although `1e16 + 1.0` rounds to `1e16` in doubles.
- Floating-point overflow: infinite sums and products, and the `OverflowError` that `x ** 2` raises on a float above about `1.34e154` (`eh_triangulo_retangulo`, `calcular_diagonal`), are not modelled; `Results.Error` holds only the exceptions of a malformed side list.
- Triangulo.AreaPermutation: the area is order-independent in exact arithmetic only; in doubles `(a + b + c) / 2` and the Heron product round differently for different orders (for `[0.3, 0.4, 0.5]` the results differ in the last digits).
- Shapes.ValidTriangleArea: the positive radicand and the order-independence hold in exact arithmetic, not for the rounded double results.
- The `ABC`/`abstractmethod` machinery and its `NotImplementedError`: the closed datatype has no abstract case.
- The complex number Python returns for `x ** 0.5` with a negative `x`; the model only states that no real number is then the area.
- The distinction between Python `int` and `float` results (`12` versus `12.0`); all sides are reals.
- Trapezio.Height: the square root is a parameter, so its contract relates the height to `sqrt(radicand)` rather than to a computed root.
