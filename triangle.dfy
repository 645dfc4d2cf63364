/**
 * The triangle calculator: the area from base and height, or, from three
 * sides, the area by Heron's formula, the perimeter, the angles by the law
 * of cosines and the kind of triangle.  A side that does not parse (NaN)
 * fails every comparison, so it is an absent input here.
 */
module TriangleCalculator {
  import opened Common
  import opened JsMath

  datatype Angles = Angles(a: real, b: real, c: real)

  /** The area mode sets only the area; the sides mode sets every field. */
  datatype TriangleResult =
    | AreaOnly(area: real)
    | Solved(area: real, perimeter: real, angles: Angles, kind: string)

  /** The area mode: a result exactly when base and height are positive. */
  function AreaFromBase(b: Option<real>, h: Option<real>): (r: Option<TriangleResult>)
    ensures r.Some? <==> b.Some? && h.Some? && b.value > 0.0 && h.value > 0.0
    ensures r.Some? ==>
      && r.value.AreaOnly? && 2.0 * r.value.area == b.value * h.value
      && r.value.area > 0.0
  {
    if b.Some? && h.Some? && b.value > 0.0 && h.value > 0.0 then
      Some(AreaOnly((b.value * h.value) / 2.0))
    else None
  }

  /** Positive sides satisfying the strict triangle inequality. */
  predicate IsTriangle(a: real, b: real, c: real)
  {
    a > 0.0 && b > 0.0 && c > 0.0 && a + b > c && b + c > a && a + c > b
  }

  function Semiperimeter(a: real, b: real, c: real): real
  {
    (a + b + c) / 2.0
  }

  /** The value under Heron's square root. */
  function Radicand(a: real, b: real, c: real): real
  {
    var s := Semiperimeter(a, b, c);
    s * (s - a) * (s - b) * (s - c)
  }

  lemma ProductPositive(w: real, x: real, y: real, z: real)
    requires w > 0.0 && x > 0.0 && y > 0.0 && z > 0.0
    ensures w * x * y * z > 0.0
  {
    MulStrict(w, x, 0.0);
    MulStrict(w * x, y, 0.0);
    MulStrict(w * x * y, z, 0.0);
  }

  /** For a triangle the semiperimeter exceeds every side, so Heron's radicand is positive. */
  lemma RadicandPositive(a: real, b: real, c: real)
    requires IsTriangle(a, b, c)
    ensures var s := Semiperimeter(a, b, c); s > a && s > b && s > c
    ensures Radicand(a, b, c) > 0.0
  {
    var s := Semiperimeter(a, b, c);
    ProductPositive(s, s - a, s - b, s - c);
  }

  /** The cosine the law of cosines gives for the angle opposite a. */
  function Cosine(a: real, b: real, c: real): real
    requires b > 0.0 && c > 0.0
  {
    (b * b + c * c - a * a) / (2.0 * b * c)
  }

  /** For a triangle every law-of-cosines argument lies strictly inside acos's domain. */
  lemma CosineInRange(a: real, b: real, c: real)
    requires IsTriangle(a, b, c)
    ensures -1.0 < Cosine(a, b, c) < 1.0
  {
    var d := 2.0 * b * c;
    MulStrict(2.0 * b, c, 0.0);
    // b² + c² − a² − 2bc = (b − c)² − a² < 0 and b² + c² − a² + 2bc = (b + c)² − a² > 0
    var lo := b - c;
    var hi := b + c;
    SquareBelow(lo, a);
    SquareBelow(a, hi);
    assert b * b + c * c - a * a == lo * lo - a * a + d;
    assert b * b + c * c - a * a == hi * hi - a * a - d;
    QuotientInside(b * b + c * c - a * a, d);
  }

  /** |x| < y makes x² < y². */
  lemma SquareBelow(x: real, y: real)
    requires -y < x < y
    ensures x * x < y * y
  {
    assert y * y - x * x == (y - x) * (y + x);
    MulStrict(y - x, y + x, 0.0);
  }

  lemma QuotientInside(n: real, d: real)
    requires d > 0.0 && -d < n < d
    ensures -1.0 < n / d < 1.0
  {
  }

  /** The three sides in ascending order (the comparator x - y of the page). */
  function Sort3(a: real, b: real, c: real): (r: seq<real>)
    ensures |r| == 3 && r[0] <= r[1] <= r[2]
  {
    if a <= b then
      if b <= c then [a, b, c] else if a <= c then [a, c, b] else [c, a, b]
    else
      if a <= c then [b, a, c] else if b <= c then [b, c, a] else [c, b, a]
  }

  /** The sorted sides are the three sides, rearranged. */
  lemma Sort3Permutation(a: real, b: real, c: real)
    ensures multiset(Sort3(a, b, c)) == multiset{a, b, c}
  {
    if a <= b {
      if b <= c { Displayed(a, b, c); }
      else if a <= c { Displayed(a, c, b); SwapTail(a, b, c); }
      else { Displayed(c, a, b); Rotate(c, a, b); }
    } else {
      if a <= c { Displayed(b, a, c); SwapHead(a, b, c); }
      else if b <= c { Displayed(b, c, a); Rotate(a, b, c); }
      else { Displayed(c, b, a); SwapTail(c, a, b); Rotate(c, a, b); }
    }
  }

  /** A sequence of three values holds those three values. */
  lemma Displayed(x: real, y: real, z: real)
    ensures multiset([x, y, z]) == multiset{x, y, z}
  {
  }

  /** Three values in any order are the same three values. */
  lemma Rotate(x: real, y: real, z: real)
    ensures multiset{y, z, x} == multiset{x, y, z}
  {
  }

  lemma SwapTail(x: real, y: real, z: real)
    ensures multiset{x, z, y} == multiset{x, y, z}
  {
  }

  lemma SwapHead(x: real, y: real, z: real)
    ensures multiset{y, x, z} == multiset{x, y, z}
  {
  }

  /** Sorting does not depend on the order the sides come in. */
  lemma Sort3Symmetric(a: real, b: real, c: real)
    ensures Sort3(a, b, c) == Sort3(b, a, c) == Sort3(a, c, b)
  {
  }

  /** The right-angle test: the two shorter sides' squares add up to the longest's within 0.001. */
  predicate IsRight(a: real, b: real, c: real)
  {
    NearlyPythagorean(Sort3(a, b, c))
  }

  predicate NearlyPythagorean(s: seq<real>)
    requires |s| == 3
  {
    Abs(s[0] * s[0] + s[1] * s[1] - s[2] * s[2]) < 0.001
  }

  /** The kind by equal sides alone. */
  function SidesKind(a: real, b: real, c: real): string
  {
    if a == b && b == c then "Equilateral"
    else if a == b || b == c || a == c then "Isosceles"
    else "Scalene"
  }

  /** The kind shown: by equal sides, then " Right" when the right-angle test holds. */
  function KindOf(a: real, b: real, c: real): string
  {
    SidesKind(a, b, c) + (if IsRight(a, b, c) then " Right" else "")
  }

  /** The handler's steps: a kind by equal sides, then " Right" appended. */
  method TriangleType(a: real, b: real, c: real) returns (kind: string)
    ensures kind == KindOf(a, b, c)
  {
    kind := EqualSidesKind(a, b, c);
    ghost var byEquality := kind;
    var sides := Sort3(a, b, c);
    var right := NearlyPythagorean(sides);
    KindParts(a, b, c, byEquality, right);
    if right {
      kind := kind + " Right";
    } else {
      assert kind + "" == kind;
    }
  }

  /** The handler's first step: "Scalene", replaced by Equilateral or Isosceles when sides are equal. */
  method EqualSidesKind(a: real, b: real, c: real) returns (kind: string)
    ensures kind == SidesKind(a, b, c)
  {
    kind := "Scalene";
    if a == b && b == c {
      kind := "Equilateral";
    } else if a == b || b == c || a == c {
      kind := "Isosceles";
    }
  }

  /** The kind shown is the kind by equal sides, followed by " Right" when the test holds. */
  lemma KindParts(a: real, b: real, c: real, byEquality: string, right: bool)
    requires byEquality == SidesKind(a, b, c)
    requires right == NearlyPythagorean(Sort3(a, b, c))
    ensures KindOf(a, b, c) == byEquality + (if right then " Right" else "")
  {
  }

  /**
   * The kind is one of six names: Equilateral exactly when all sides are
   * equal, Isosceles exactly when some but not all are, Scalene otherwise,
   * each followed by " Right" exactly when the right-angle test holds.  It
   * does not depend on the order of the sides.
   */
  lemma KindNames(a: real, b: real, c: real)
    ensures var k := KindOf(a, b, c);
      && (k == "Equilateral" || k == "Equilateral Right" <==> a == b == c)
      && (k == "Isosceles" || k == "Isosceles Right" <==> (a == b || b == c || a == c) && !(a == b == c))
      && (k == "Scalene" || k == "Scalene Right" <==> a != b && b != c && a != c)
      && (k == "Equilateral Right" || k == "Isosceles Right" || k == "Scalene Right" <==> IsRight(a, b, c))
    ensures KindOf(a, b, c) == KindOf(b, a, c) == KindOf(a, c, b)
  {
    Sort3Symmetric(a, b, c);
    var s := SidesKind(a, b, c);
    assert s == "Equilateral" || s == "Isosceles" || s == "Scalene";
    if IsRight(a, b, c) {
      assert "Equilateral" + " Right" == "Equilateral Right";
      assert "Isosceles" + " Right" == "Isosceles Right";
      assert "Scalene" + " Right" == "Scalene Right";
    } else {
      assert s + "" == s;
    }
  }

  /**
   * The right-angle tolerance is absolute, so a small enough equilateral
   * triangle passes it: sides 0.01 give 0.0001 < 0.001.
   */
  lemma TinyEquilateralRight()
    ensures KindOf(0.01, 0.01, 0.01) == "Equilateral Right"
  {
    assert Sort3(0.01, 0.01, 0.01) == [0.01, 0.01, 0.01];
    assert IsRight(0.01, 0.01, 0.01);
    assert "Equilateral" + " Right" == "Equilateral Right";
  }

  /** The sides mode: nothing unless the sides form a triangle. */
  function Solve(a: Option<real>, b: Option<real>, c: Option<real>, lib: RealLib): (r: Option<TriangleResult>)
    ensures r.Some? <==> a.Some? && b.Some? && c.Some? && IsTriangle(a.value, b.value, c.value)
  {
    if a.Some? && b.Some? && c.Some? && IsTriangle(a.value, b.value, c.value) then
      var x, y, z := a.value, b.value, c.value;
      var angleA := lib.acos(Cosine(x, y, z)) * (180.0 / PI);
      var angleB := lib.acos(Cosine(y, x, z)) * (180.0 / PI);
      Some(Solved(lib.sqrt(Radicand(x, y, z)), x + y + z,
                  Angles(angleA, angleB, 180.0 - angleA - angleB), KindOf(x, y, z)))
    else None
  }

  /** A solved triangle: perimeter the sum of the sides, angles summing to 180, and the kind above. */
  lemma SolvedTriangle(a: real, b: real, c: real, lib: RealLib)
    requires IsTriangle(a, b, c)
    ensures var r := Solve(Some(a), Some(b), Some(c), lib).value;
      && r.perimeter == a + b + c > 0.0
      && r.angles.a + r.angles.b + r.angles.c == 180.0
      && r.area == lib.sqrt(Radicand(a, b, c)) && Radicand(a, b, c) > 0.0
      && r.kind == KindOf(a, b, c)
  {
    RadicandPositive(a, b, c);
  }

  /** The sides branch of the handler, step by step. */
  method SolveSides(sideA: Option<real>, sideB: Option<real>, sideC: Option<real>, lib: RealLib)
    returns (r: Option<TriangleResult>)
    ensures r == Solve(sideA, sideB, sideC, lib)
  {
    r := None;
    if sideA.Some? && sideB.Some? && sideC.Some? {
      var a, b, c := sideA.value, sideB.value, sideC.value;
      if a > 0.0 && b > 0.0 && c > 0.0 {
        if a + b > c && b + c > a && a + c > b {
          var area := lib.sqrt(Radicand(a, b, c));
          var angleA := lib.acos(Cosine(a, b, c)) * (180.0 / PI);
          var angleB := lib.acos(Cosine(b, a, c)) * (180.0 / PI);
          var angleC := 180.0 - angleA - angleB;
          var kind := TriangleType(a, b, c);
          r := Some(Solved(area, a + b + c, Angles(angleA, angleB, angleC), kind));
        }
      }
    }
  }

  /** Sides 3, 4, 5: perimeter 12, a right scalene triangle, and radicand 36 (area 6). */
  lemma ThreeFourFive(lib: RealLib)
    ensures var r := Solve(Some(3.0), Some(4.0), Some(5.0), lib).value;
      r.perimeter == 12.0 && r.kind == "Scalene Right" && r.area == lib.sqrt(36.0)
  {
    assert Sort3(3.0, 4.0, 5.0) == [3.0, 4.0, 5.0];
    assert IsRight(3.0, 4.0, 5.0);
    assert "Scalene" + " Right" == "Scalene Right";
    assert Radicand(3.0, 4.0, 5.0) == 36.0;
  }

  /** Sides 1, 1, 1: an equilateral triangle that is not right. */
  lemma UnitEquilateral(lib: RealLib)
    ensures Solve(Some(1.0), Some(1.0), Some(1.0), lib).value.kind == "Equilateral"
  {
    assert Sort3(1.0, 1.0, 1.0) == [1.0, 1.0, 1.0];
    assert !IsRight(1.0, 1.0, 1.0);
    assert "Equilateral" + "" == "Equilateral";
  }

  /** The page: the chosen mode and the last result. */
  class TrianglePage {
    var calculationType: string
    var results: Option<TriangleResult>

    constructor ()
      ensures calculationType == "area" && results == None
    {
      calculationType := "area";
      results := None;
    }

    method SetCalculationType(t: string)
      modifies this
      ensures calculationType == t && results == old(results)
    {
      calculationType := t;
    }

    /** The Calculate button; a refused input, or an unknown mode, changes nothing. */
    method CalculateTriangle(base: Option<real>, height: Option<real>,
                             sideA: Option<real>, sideB: Option<real>, sideC: Option<real>, lib: RealLib)
      modifies this
      ensures calculationType == old(calculationType)
      ensures var r := if calculationType == "area" then AreaFromBase(base, height)
                       else if calculationType == "sides" then Solve(sideA, sideB, sideC, lib)
                       else None;
        results == if r.Some? then r else old(results)
    {
      if calculationType == "area" {
        if base.Some? && height.Some? && base.value > 0.0 && height.value > 0.0 {
          var area := (base.value * height.value) / 2.0;
          assert AreaFromBase(base, height).value == AreaOnly(area);
          results := Some(AreaOnly(area));
        }
      } else if calculationType == "sides" {
        var r := SolveSides(sideA, sideB, sideC, lib);
        if r.Some? {
          results := r;
        }
      }
    }
  }
}
