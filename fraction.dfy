/** The fraction calculator: two integer fractions, one of four operations, and the
    result reduced by Euclid's algorithm (calculator-net-clone/app/fraction-calculator/page.tsx). */
module FractionCalculator {
  import opened Common

  function Sign(x: int): int
  {
    if x > 0 then 1 else if x < 0 then -1 else 0
  }

  /** JavaScript's `%` on integers: the magnitude is |a| mod |b| and the sign is that of
      the dividend, unlike Dafny's Euclidean `%`. */
  function TruncRem(a: int, b: int): (r: int)
    requires b != 0
    ensures IntAbs(r) < IntAbs(b)
    ensures r != 0 ==> (r < 0 <==> a < 0)
    ensures a == TruncQuot(a, b) * b + r
  {
    if a >= 0 then a % IntAbs(b) else -((-a) % IntAbs(b))
  }

  /** The quotient of JavaScript's truncating division, the partner of TruncRem. */
  function TruncQuot(a: int, b: int): int
    requires b != 0
  {
    if a >= 0 then (a / IntAbs(b)) * Sign(b) else -((-a) / IntAbs(b)) * Sign(b)
  }

  /** The source's recursive gcd, with JavaScript's truncating remainder. */
  function Gcd(a: int, b: int): nat
    decreases IntAbs(b)
  {
    if b == 0 then IntAbs(a) else Gcd(b, TruncRem(a, b))
  }

  function Mul(a: int, b: int): int
  {
    a * b
  }

  /** d divides n. */
  ghost predicate Divides(d: int, n: int)
  {
    exists k: int :: Mul(d, k) == n
  }

  /** g is a greatest common divisor of a and b: a common divisor that every common
      divisor divides. */
  ghost predicate IsGcd(g: int, a: int, b: int)
  {
    && Divides(g, a) && Divides(g, b)
    && forall d: int :: Divides(d, a) && Divides(d, b) ==> Divides(d, g)
  }

  lemma DividesLinear(g: int, b: int, r: int, q: int)
    requires Divides(g, b) && Divides(g, r)
    ensures Divides(g, q * b + r)
  {
    var k1 :| Mul(g, k1) == b;
    var k2 :| Mul(g, k2) == r;
    assert Mul(g, q * k1 + k2) == q * b + r;
  }

  lemma DividesNegLinear(g: int, b: int, a: int, q: int)
    requires Divides(g, b) && Divides(g, a)
    ensures Divides(g, a - q * b)
  {
    var k1 :| Mul(g, k1) == b;
    var k2 :| Mul(g, k2) == a;
    assert Mul(g, k2 - q * k1) == a - q * b;
  }

  lemma DividesAbs(g: int, a: int)
    requires Divides(g, a)
    ensures Divides(g, IntAbs(a))
  {
    var k :| Mul(g, k) == a;
    if a < 0 {
      assert Mul(g, -k) == IntAbs(a);
    }
  }

  lemma DividesSelf(g: int)
    ensures Divides(g, g) && Divides(g, 0)
  {
    assert Mul(g, 1) == g;
    assert Mul(g, 0) == 0;
  }

  /** The gcd divides both arguments. */
  lemma {:induction false} GcdDividesBoth(a: int, b: int)
    ensures Divides(Gcd(a, b), a) && Divides(Gcd(a, b), b)
    decreases IntAbs(b)
  {
    var g := Gcd(a, b);
    if b == 0 {
      DividesSelf(IntAbs(a));
      if a < 0 {
        assert Mul(g, -1) == a;
      } else {
        assert Mul(g, 1) == a;
      }
    } else {
      var r := TruncRem(a, b);
      GcdDividesBoth(b, r);
      DividesLinear(g, b, r, TruncQuot(a, b));
    }
  }

  /** Every common divisor of the arguments divides the gcd. */
  lemma {:induction false} GcdGreatest(a: int, b: int, d: int)
    requires Divides(d, a) && Divides(d, b)
    ensures Divides(d, Gcd(a, b))
    decreases IntAbs(b)
  {
    if b == 0 {
      DividesAbs(d, a);
    } else {
      var r := TruncRem(a, b);
      DividesNegLinear(d, b, a, TruncQuot(a, b));
      GcdGreatest(b, r, d);
    }
  }

  /** The source's gcd, with its truncating remainder, is the greatest common divisor. */
  lemma GcdIsGcd(a: int, b: int)
    ensures IsGcd(Gcd(a, b), a, b)
  {
    GcdDividesBoth(a, b);
    forall d: int | Divides(d, a) && Divides(d, b)
      ensures Divides(d, Gcd(a, b))
    {
      GcdGreatest(a, b, d);
    }
  }

  lemma DividesBound(d: nat, n: nat)
    requires Divides(d, n) && n > 0
    ensures d <= n
  {
    var k :| Mul(d, k) == n;
    assert k >= 1;
    assert d * k >= d * 1;
  }

  /** There is only one non-negative greatest common divisor: the gcd of |a| and |b|
      does not depend on how it is computed. */
  lemma GcdUnique(g1: nat, g2: nat, a: int, b: int)
    requires IsGcd(g1, a, b) && IsGcd(g2, a, b)
    ensures g1 == g2
  {
    assert Divides(g1, g2) && Divides(g2, g1);
    if g1 == 0 || g2 == 0 {
      var k1 :| Mul(g1, k1) == g2;
      var k2 :| Mul(g2, k2) == g1;
    } else {
      DividesBound(g1, g2);
      DividesBound(g2, g1);
    }
  }

  /** gcd(a, 0) = |a|, the result is never negative, and it is 0 only for gcd(0, 0). */
  lemma GcdBasics(a: int, b: int)
    ensures Gcd(a, 0) == IntAbs(a)
    ensures Gcd(a, b) == 0 <==> a == 0 && b == 0
  {
    GcdDividesBoth(a, b);
    if Gcd(a, b) == 0 {
      var k1 :| Mul(0, k1) == a;
      var k2 :| Mul(0, k2) == b;
    }
    if a == 0 && b == 0 {
      DividesSelf(0);
      GcdGreatest(a, b, 0);
      var k :| Mul(0, k) == Gcd(a, b);
    }
  }

  lemma ExactDiv(n: int, g: int, k: int)
    requires g > 0 && n == g * k
    ensures n / g == k
  {
    var q, r := n / g, n % g;
    assert n == g * q + r && 0 <= r < g;
    MultipleBelow(g, k - q, r);
  }

  lemma MultipleBelow(g: int, t: int, r: int)
    requires g > 0 && g * t == r && 0 <= r < g
    ensures t == 0
  {
  }

  lemma DividesScaled(c: int, x: int, g: int)
    requires Divides(c, x)
    ensures Divides(Mul(g, c), Mul(g, x))
  {
    var k :| Mul(c, k) == x;
    assert Mul(Mul(g, c), k) == Mul(g, x);
  }

  /** A fraction: an integer numerator over an integer denominator (possibly 0). */
  datatype Frac = Frac(num: int, den: int)

  /** The rational number a fraction with a non-zero denominator stands for. */
  function Value(f: Frac): real
    requires f.den != 0
  {
    (f.num as real) / (f.den as real)
  }

  /** simplifyFraction: numerator and denominator divided by their gcd. For 0/0 the gcd is 0
      and the source divides by it, producing NaN parts; that is `None` here. */
  function SimplifyFraction(num: int, den: int): (r: Option<Frac>)
    ensures r.None? <==> num == 0 && den == 0
  {
    GcdBasics(num, den);
    var g := Gcd(num, den);
    if g == 0 then None else Some(Frac(num / g, den / g))
  }

  /** The simplified pair is the input divided exactly by the gcd, so it stands for the same
      value: simplified.num · den = num · simplified.den. */
  lemma SimplifySameValue(num: int, den: int)
    requires !(num == 0 && den == 0)
    ensures var f := SimplifyFraction(num, den).value;
      && num == Gcd(num, den) * f.num && den == Gcd(num, den) * f.den
      && f.num * den == num * f.den
  {
    GcdBasics(num, den);
    GcdDividesBoth(num, den);
    var g := Gcd(num, den);
    var k1 :| Mul(g, k1) == num;
    var k2 :| Mul(g, k2) == den;
    ExactDiv(num, g, k1);
    ExactDiv(den, g, k2);
    assert SimplifyFraction(num, den).value == Frac(k1, k2);
    CrossMultiply(g, k1, k2, num, den);
  }

  lemma CrossMultiply(g: int, k1: int, k2: int, n: int, d: int)
    requires n == g * k1 && d == g * k2
    ensures k1 * d == n * k2
  {
  }

  /** The simplified denominator has the sign of the unreduced one: it is not normalised
      to be positive. */
  lemma SimplifyKeepsDenominatorSign(num: int, den: int)
    requires !(num == 0 && den == 0)
    ensures Sign(SimplifyFraction(num, den).value.den) == Sign(den)
  {
    SimplifySameValue(num, den);
    GcdBasics(num, den);
    SignOfMultiple(Gcd(num, den), SimplifyFraction(num, den).value.den, den);
  }

  lemma SignOfMultiple(g: int, k: int, n: int)
    requires g > 0 && n == g * k
    ensures Sign(k) == Sign(n)
  {
    if k > 0 {
      ProductPositive(g, k);
    } else if k < 0 {
      ProductPositive(g, -k);
      assert n == -(g * -k);
    }
  }

  lemma ProductPositive(a: int, b: int)
    requires a > 0 && b > 0
    ensures a * b > 0
  {
  }

  /** The simplified pair is in lowest terms: its gcd is 1. */
  lemma SimplifyReduced(num: int, den: int)
    requires !(num == 0 && den == 0)
    ensures Gcd(SimplifyFraction(num, den).value.num, SimplifyFraction(num, den).value.den) == 1
  {
    SimplifySameValue(num, den);
    GcdBasics(num, den);
    var g := Gcd(num, den);
    var f := SimplifyFraction(num, den).value;
    SignOfMultiple(g, f.num, num);
    SignOfMultiple(g, f.den, den);
    GcdBasics(f.num, f.den);
    var c := Gcd(f.num, f.den);
    GcdDividesBoth(f.num, f.den);
    DividesScaled(c, f.num, g);
    DividesScaled(c, f.den, g);
    GcdGreatest(num, den, Mul(g, c));
    DividesBound(Mul(g, c), g);
    FactorOne(g, c);
  }

  lemma FactorOne(g: int, c: int)
    requires g > 0 && c > 0 && Mul(g, c) <= g
    ensures c == 1
  {
    assert g * (c - 1) == Mul(g, c) - g;
  }

  /** Simplifying a simplified fraction changes nothing. */
  lemma SimplifyIdempotent(num: int, den: int)
    requires !(num == 0 && den == 0)
    ensures SimplifyFraction(SimplifyFraction(num, den).value.num, SimplifyFraction(num, den).value.den)
            == SimplifyFraction(num, den)
  {
    SimplifyReduced(num, den);
    var f := SimplifyFraction(num, den).value;
    assert f.num / 1 == f.num && f.den / 1 == f.den;
  }

  /** The record the page displays: the unreduced result, its decimal value and the
      simplified fraction. */
  datatype FractionResult = FractionResult(result: Frac, decimal: Option<real>, simplified: Option<Frac>)

  /** resultNum / resultDen as a number; a 0 denominator gives ±Infinity or NaN in the
      source, which is `None` here. */
  function Decimal(f: Frac): Option<real>
  {
    if f.den == 0 then None else Some(Value(f))
  }

  /** The operation switch: the unreduced fraction of each operation, `None` for a name
      the switch does not know. */
  function Combine(n1: int, d1: int, n2: int, d2: int, operation: string): Option<Frac>
  {
    if operation == "add" then Some(Frac(n1 * d2 + n2 * d1, d1 * d2))
    else if operation == "subtract" then Some(Frac(n1 * d2 - n2 * d1, d1 * d2))
    else if operation == "multiply" then Some(Frac(n1 * n2, d1 * d2))
    else if operation == "divide" then Some(Frac(n1 * d2, d1 * n2))
    else None
  }

  /** calculateFraction: no result for a zero input denominator or an unknown operation;
      otherwise the unreduced result, its decimal value, and its simplification. */
  function CalculateFraction(n1: int, d1: int, n2: int, d2: int, operation: string): (r: Option<FractionResult>)
    ensures r.Some? <==> d1 != 0 && d2 != 0 && operation in {"add", "subtract", "multiply", "divide"}
    ensures r.Some? ==> Combine(n1, d1, n2, d2, operation) == Some(r.value.result)
    ensures r.Some? ==> r.value.simplified == SimplifyFraction(r.value.result.num, r.value.result.den)
    ensures r.Some? ==> (r.value.decimal.None? <==> r.value.result.den == 0)
    ensures r.Some? && r.value.result.den != 0 ==> r.value.decimal.value == Value(r.value.result)
  {
    if d1 == 0 || d2 == 0 then None
    else match Combine(n1, d1, n2, d2, operation)
      case None => None
      case Some(f) => Some(FractionResult(f, Decimal(f), SimplifyFraction(f.num, f.den)))
  }

  lemma CastMul(a: int, b: int)
    ensures (a * b) as real == (a as real) * (b as real)
  {
  }

  lemma AddValues(a: real, b: real, c: real, d: real)
    requires b != 0.0 && d != 0.0
    ensures (a * d + c * b) / (b * d) == a / b + c / d
    ensures (a * d - c * b) / (b * d) == a / b - c / d
    ensures (a * c) / (b * d) == (a / b) * (c / d)
  {
  }

  lemma DivideValues(a: real, b: real, c: real, d: real)
    requires b != 0.0 && d != 0.0 && c != 0.0
    ensures (a * d) / (b * c) == (a / b) / (c / d)
  {
  }

  /** Each operation's unreduced result (CalculateFraction's `result`) stands for the exact rational sum, difference,
      product or quotient of the two inputs (the quotient when the divisor is not 0). */
  lemma CalculateFractionValue(n1: int, d1: int, n2: int, d2: int)
    requires d1 != 0 && d2 != 0
    ensures var f := Combine(n1, d1, n2, d2, "add").value;
      f.den != 0 && Value(f) == Value(Frac(n1, d1)) + Value(Frac(n2, d2))
    ensures var f := Combine(n1, d1, n2, d2, "subtract").value;
      f.den != 0 && Value(f) == Value(Frac(n1, d1)) - Value(Frac(n2, d2))
    ensures var f := Combine(n1, d1, n2, d2, "multiply").value;
      f.den != 0 && Value(f) == Value(Frac(n1, d1)) * Value(Frac(n2, d2))
    ensures n2 != 0 ==> var f := Combine(n1, d1, n2, d2, "divide").value;
      f.den != 0 && Value(f) == Value(Frac(n1, d1)) / Value(Frac(n2, d2))
  {
    var a, b, c, d := n1 as real, d1 as real, n2 as real, d2 as real;
    CastMul(n1, d2); CastMul(n2, d1); CastMul(d1, d2); CastMul(n1, n2); CastMul(d1, n2);
    SumValue(n1 * d2, n2 * d1, d1 * d2, a, b, c, d);
    DifferenceValue(n1 * d2, n2 * d1, d1 * d2, a, b, c, d);
    ProductValue(n1 * n2, d1 * d2, a, b, c, d);
    if n2 != 0 {
      QuotientValue(n1 * d2, d1 * n2, a, b, c, d);
    }
  }

  lemma SumValue(p: int, q: int, s: int, a: real, b: real, c: real, d: real)
    requires b != 0.0 && d != 0.0
    requires p as real == a * d && q as real == c * b && s as real == b * d
    ensures s != 0 && Value(Frac(p + q, s)) == a / b + c / d
  {
    AddValues(a, b, c, d);
  }

  lemma DifferenceValue(p: int, q: int, s: int, a: real, b: real, c: real, d: real)
    requires b != 0.0 && d != 0.0
    requires p as real == a * d && q as real == c * b && s as real == b * d
    ensures s != 0 && Value(Frac(p - q, s)) == a / b - c / d
  {
    AddValues(a, b, c, d);
  }

  lemma ProductValue(p: int, s: int, a: real, b: real, c: real, d: real)
    requires b != 0.0 && d != 0.0
    requires p as real == a * c && s as real == b * d
    ensures s != 0 && Value(Frac(p, s)) == (a / b) * (c / d)
  {
    AddValues(a, b, c, d);
  }

  lemma QuotientValue(p: int, s: int, a: real, b: real, c: real, d: real)
    requires b != 0.0 && d != 0.0 && c != 0.0
    requires p as real == a * d && s as real == b * c
    ensures s != 0 && Value(Frac(p, s)) == (a / b) / (c / d)
  {
    DivideValues(a, b, c, d);
  }

  /** Dividing by a fraction whose numerator is 0 is not guarded: the page still shows a
      result, with denominator 0 and no finite decimal value. */
  lemma DivideByZeroNumerator(n1: int, d1: int, d2: int)
    requires d1 != 0 && d2 != 0
    ensures var r := CalculateFraction(n1, d1, 0, d2, "divide");
      r.Some? && r.value.result == Frac(n1 * d2, 0) && r.value.decimal.None?
  {
  }

  /*
   * The page parses its four fields with parseInt, so each one is an integer
   * or NaN: `Some(n)` or `None` below. NaN propagates through every product,
   * sum and remainder, and fails `=== 0`, so the zero-denominator guard lets
   * it through.
   */

  function NMul(a: Option<int>, b: Option<int>): Option<int>
  {
    if a.Some? && b.Some? then Some(a.value * b.value) else None
  }

  function NAdd(a: Option<int>, b: Option<int>): Option<int>
  {
    if a.Some? && b.Some? then Some(a.value + b.value) else None
  }

  function NSub(a: Option<int>, b: Option<int>): Option<int>
  {
    if a.Some? && b.Some? then Some(a.value - b.value) else None
  }

  /** A fraction whose parts may be NaN. */
  datatype NFrac = NFrac(num: Option<int>, den: Option<int>)

  /** The operation switch on parsed fields; `None` for a name the switch does not know. */
  function CombineFields(n1: Option<int>, d1: Option<int>, n2: Option<int>, d2: Option<int>,
                         operation: string): Option<NFrac>
  {
    if operation == "add" then Some(NFrac(NAdd(NMul(n1, d2), NMul(n2, d1)), NMul(d1, d2)))
    else if operation == "subtract" then Some(NFrac(NSub(NMul(n1, d2), NMul(n2, d1)), NMul(d1, d2)))
    else if operation == "multiply" then Some(NFrac(NMul(n1, n2), NMul(d1, d2)))
    else if operation == "divide" then Some(NFrac(NMul(n1, d2), NMul(d1, n2)))
    else None
  }

  /** JavaScript's `%` on numbers that may be NaN; `x % 0` is NaN as well. */
  function JsRem(a: Option<int>, b: Option<int>): Option<int>
  {
    if a.Some? && b.Some? && b.value != 0 then Some(TruncRem(a.value, b.value)) else None
  }

  /** The arguments of gcd after n recursive calls, stopping early at the base case b === 0. */
  function GcdCalls(a: Option<int>, b: Option<int>, n: nat): (Option<int>, Option<int>)
    decreases n
  {
    if n == 0 || b == Some(0) then (a, b) else GcdCalls(b, JsRem(a, b), n - 1)
  }

  /**
   * With a NaN second argument, or a NaN first argument and a non-zero
   * second, gcd never reaches its base case: after any number of calls the
   * second argument is still not 0, so the recursion overflows the stack.
   */
  lemma {:induction false} GcdNaNNeverEnds(a: Option<int>, b: Option<int>, n: nat)
    requires b.None? || (a.None? && b != Some(0))
    ensures GcdCalls(a, b, n).1 != Some(0)
    decreases n
  {
    if n > 0 {
      GcdNaNNeverEnds(b, JsRem(a, b), n - 1);
    }
  }

  /** Once the recursion has reached its base case, more calls change nothing. */
  lemma {:induction false} GcdCallsSettled(a: Option<int>, b: Option<int>, n: nat, m: nat)
    requires n <= m && GcdCalls(a, b, n).1 == Some(0)
    ensures GcdCalls(a, b, m) == GcdCalls(a, b, n)
    decreases n
  {
    if n > 0 && b != Some(0) {
      GcdCallsSettled(b, JsRem(a, b), n - 1, m - 1);
    }
  }

  /**
   * With integer arguments the recursion reaches b === 0 within |b| + 1
   * calls, and the first argument is then, up to sign, Gcd(a, b).
   */
  lemma {:induction false} GcdCallsFinite(a: int, b: int)
    ensures var s := GcdCalls(Some(a), Some(b), IntAbs(b) + 1);
      s.1 == Some(0) && s.0.Some? && IntAbs(s.0.value) == Gcd(a, b)
    decreases IntAbs(b)
  {
    if b != 0 {
      var r := TruncRem(a, b);
      GcdCallsFinite(b, r);
      GcdCallsSettled(Some(b), Some(r), IntAbs(r) + 1, IntAbs(b));
    }
  }

  /**
   * The outcome of one call of the source's gcd: `Some(g)` when it returns g
   * (NaN for `Math.abs(NaN)` when the second argument is 0), `None` when, by
   * GcdNaNNeverEnds, it never returns.
   */
  function GcdCall(a: Option<int>, b: Option<int>): Option<Option<int>>
  {
    if b == Some(0) then Some(if a.Some? then Some(IntAbs(a.value)) else None)
    else if a.Some? && b.Some? then Some(Some(Gcd(a.value, b.value)))
    else None
  }

  /**
   * What the page can show: a record of finite parts, or the record of a NaN
   * numerator over denominator 0, whose decimal is NaN and whose simplified
   * parts are NaN over NaN.
   */
  datatype Display = Computed(r: FractionResult) | NaNResult

  /**
   * calculateFraction on parsed fields: nothing for a zero denominator, an
   * unknown operation, or a gcd call that overflows the stack; otherwise the
   * record the page stores.
   */
  function CalculateFields(n1: Option<int>, d1: Option<int>, n2: Option<int>, d2: Option<int>,
                           operation: string): (r: Option<Display>)
    ensures n1.Some? && d1.Some? && n2.Some? && d2.Some? ==>
      var c := CalculateFraction(n1.value, d1.value, n2.value, d2.value, operation);
      (r.Some? <==> c.Some?) && (c.Some? ==> r == Some(Computed(c.value)))
    ensures r == Some(NaNResult) <==>
      operation == "divide" && n2 == Some(0) && d1.Some? && d1.value != 0 && d2 != Some(0)
      && (n1.None? || d2.None?)
    ensures (n1.None? || d1.None? || n2.None? || d2.None?) ==> r.None? || r == Some(NaNResult)
  {
    if d1 == Some(0) || d2 == Some(0) then None
    else match CombineFields(n1, d1, n2, d2, operation)
      case None => None
      case Some(f) =>
        match GcdCall(f.num, f.den)
          case None => None
          case Some(_) =>
            if f.num.Some? && f.den.Some? then
              var e := Frac(f.num.value, f.den.value);
              Some(Computed(FractionResult(e, Decimal(e), SimplifyFraction(e.num, e.den))))
            else Some(NaNResult)
  }

  /** The page: the last result, which a refused or failed calculation leaves as it was. */
  class FractionPage {
    var results: Option<Display>

    constructor ()
      ensures results == None
    {
      results := None;
    }

    /** The Calculate button, with the four parsed fields and the operation. */
    method Calculate(n1: Option<int>, d1: Option<int>, n2: Option<int>, d2: Option<int>, operation: string)
      modifies this
      ensures CalculateFields(n1, d1, n2, d2, operation).None? ==> results == old(results)
      ensures CalculateFields(n1, d1, n2, d2, operation).Some? ==>
        results == CalculateFields(n1, d1, n2, d2, operation)
    {
      var r := CalculateFields(n1, d1, n2, d2, operation);
      if r.Some? {
        results := r;
      }
    }
  }
}
