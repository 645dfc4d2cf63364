/**
 * The scientific calculator widget: a key-driven state machine over a text
 * display, a pending left operand and a pending binary operator.
 *
 * Numbers follow JavaScript's number semantics closely enough for the keys
 * the widget offers: an exact real, NaN, or a signed infinity.  Rounding and
 * the sign of zero are not modelled (zero is always +0).
 */
module ScientificCalculator {
  import opened Common

  /** A JavaScript number: finite (exact), NaN, or an infinity (neg = -Infinity). */
  datatype Num = Real(v: real) | NaN | Inf(neg: bool)

  function Neg(a: Num): (r: Num)
    ensures a.Real? ==> r == Real(-a.v)
    ensures a.NaN? <==> r.NaN?
  {
    match a
    case Real(x) => Real(-x)
    case NaN => NaN
    case Inf(n) => Inf(!n)
  }

  /** JavaScript `+` on numbers. */
  function Add(a: Num, b: Num): (r: Num)
    ensures a.Real? && b.Real? ==> r == Real(a.v + b.v)
    ensures a.NaN? || b.NaN? ==> r.NaN?
    ensures a.Inf? && b.Inf? ==> (r.NaN? <==> a.neg != b.neg)
  {
    match (a, b)
    case (NaN, _) => NaN
    case (_, NaN) => NaN
    case (Inf(p), Inf(q)) => if p == q then Inf(p) else NaN
    case (Inf(p), Real(_)) => Inf(p)
    case (Real(_), Inf(q)) => Inf(q)
    case (Real(x), Real(y)) => Real(x + y)
  }

  /** JavaScript `-` on numbers: adding the negation. */
  function Sub(a: Num, b: Num): (r: Num)
    ensures a.Real? && b.Real? ==> r == Real(a.v - b.v)
    ensures a.NaN? || b.NaN? ==> r.NaN?
  {
    Add(a, Neg(b))
  }

  /** The sign of a non-NaN, non-zero operand: true when negative. */
  function Negative(a: Num): bool
  {
    match a
    case Real(x) => x < 0.0
    case NaN => false
    case Inf(n) => n
  }

  /** JavaScript `*` on numbers. */
  function Mul(a: Num, b: Num): (r: Num)
    ensures a.Real? && b.Real? ==> r == Real(a.v * b.v)
    ensures a.NaN? || b.NaN? ==> r.NaN?
    ensures a.Inf? && b == Real(0.0) ==> r.NaN?
  {
    if a.NaN? || b.NaN? then NaN
    else if a.Real? && b.Real? then Real(a.v * b.v)
    else if a.Inf? && b.Inf? then Inf(a.neg != b.neg)
    else if a.Inf? then (if b.v == 0.0 then NaN else Inf(a.neg != (b.v < 0.0)))
    else if a.v == 0.0 then NaN
    else Inf(b.neg != (a.v < 0.0))
  }

  /** JavaScript `/` on numbers (a zero divisor is +0). */
  function Div(a: Num, b: Num): (r: Num)
    ensures a.Real? && b.Real? && b.v != 0.0 ==> r == Real(a.v / b.v)
    ensures a.Real? && b == Real(0.0) ==>
      r == (if a.v == 0.0 then NaN else Inf(a.v < 0.0))
    ensures a.Real? && b.Inf? ==> r == Real(0.0)
    ensures a.NaN? || b.NaN? ==> r.NaN?
  {
    match (a, b)
    case (NaN, _) => NaN
    case (_, NaN) => NaN
    case (Real(x), Real(y)) =>
      if y != 0.0 then Real(x / y)
      else if x == 0.0 then NaN
      else Inf(x < 0.0)
    case (Inf(_), Inf(_)) => NaN
    case (Inf(p), Real(y)) => Inf(p != (y < 0.0))
    case (Real(_), Inf(_)) => Real(0.0)
  }

  /** `x || 0`: the falsy numbers NaN and 0 become 0, every other number is kept (so 0 stays 0). */
  function Truthy(a: Num): (r: Num)
    ensures a.NaN? || a == Real(0.0) ==> r == Real(0.0)
    ensures !a.NaN? ==> r == a
    ensures !r.NaN?
  {
    if a.NaN? then Real(0.0) else a
  }

  /** The binary operator keys; "=" and any other operator yield the second operand. */
  function Calculate(first: Num, second: Num, operation: string): (r: Num)
    ensures operation !in {"+", "-", "×", "÷"} ==> r == second
  {
    if operation == "+" then Add(first, second)
    else if operation == "-" then Sub(first, second)
    else if operation == "×" then Mul(first, second)
    else if operation == "÷" then Div(first, second)
    else second
  }

  /** On finite operands the four operators are exact real arithmetic. */
  lemma CalculateFinite(x: real, y: real)
    ensures Calculate(Real(x), Real(y), "+") == Real(x + y)
    ensures Calculate(Real(x), Real(y), "-") == Real(x - y)
    ensures Calculate(Real(x), Real(y), "×") == Real(x * y)
    ensures y != 0.0 ==> Calculate(Real(x), Real(y), "÷") == Real(x / y)
    ensures Calculate(Real(x), Real(y), "=") == Real(y)
  {
  }

  /** Dividing by zero gives an infinity with the dividend's sign, or NaN for 0/0. */
  lemma DivideByZero(x: real)
    ensures x > 0.0 ==> Calculate(Real(x), Real(0.0), "÷") == Inf(false)
    ensures x < 0.0 ==> Calculate(Real(x), Real(0.0), "÷") == Inf(true)
    ensures Calculate(Real(0.0), Real(0.0), "÷") == NaN
  {
  }

  function Fact(k: nat): (r: nat)
    ensures r >= 1
  {
    if k <= 1 then 1 else k * Fact(k - 1)
  }

  /**
   * What the factorial key computes.  A negative number (or -Infinity) gives
   * NaN; NaN passes both guards and skips the loop, giving 1; a non-negative
   * finite x gives the product 2 * 3 * ... * floor(x).
   */
  function FactorialOf(n: Num): (r: Num)
    requires n != Inf(false)
  {
    match n
    case NaN => Real(1.0)
    case Inf(_) => NaN
    case Real(x) => if x < 0.0 then NaN else Real(Fact(x.Floor) as real)
  }

  /** The factorial helper: the two guards, then the accumulator loop. */
  method Factorial(n: Num) returns (r: Num)
    requires n != Inf(false)
    ensures r == FactorialOf(n)
  {
    if Negative(n) {
      return NaN;
    }
    if n == Real(0.0) || n == Real(1.0) {
      return Real(1.0);
    }
    if n.NaN? {
      r := Real(1.0);
    } else {
      r := ProductUpTo(n.v);
    }
  }

  /** The accumulator loop: result = 2 * 3 * ... while i <= x. */
  method ProductUpTo(x: real) returns (r: Num)
    requires x >= 0.0
    ensures r == Real(Fact(x.Floor) as real)
  {
    var result: nat := 1;
    var i: int := 2;
    while (i as real) <= x
      invariant 2 <= i <= (if x.Floor + 1 > 2 then x.Floor + 1 else 2)
      invariant result == Fact(i - 1)
      decreases x.Floor - i
    {
      result := result * i;
      i := i + 1;
    }
    assert i - 1 == x.Floor || (x.Floor == 0 && i == 2);
    r := Real(result as real);
  }

  /** The factorial's recurrence and its guards. */
  lemma FactorialRecurrence(n: nat)
    ensures FactorialOf(Real(0.0)) == Real(1.0) && FactorialOf(Real(1.0)) == Real(1.0)
    ensures n >= 2 ==> FactorialOf(Real(n as real)) == Mul(Real(n as real), FactorialOf(Real((n - 1) as real)))
  {
    assert (n as real).Floor == n;
    if n >= 1 {
      assert ((n - 1) as real).Floor == n - 1;
    }
  }

  lemma FactorialGuards(x: real)
    ensures x < 0.0 ==> FactorialOf(Real(x)).NaN?
    ensures FactorialOf(Inf(true)).NaN?
    ensures FactorialOf(NaN) == Real(1.0)
    ensures x >= 0.0 ==> FactorialOf(Real(x)).Real? && FactorialOf(Real(x)).v >= 1.0
  {
  }

  /** The library functions the unary keys call, and the two constants. */
  datatype NumLib = NumLib(
    sin: Num -> Num, cos: Num -> Num, tan: Num -> Num,
    asin: Num -> Num, acos: Num -> Num, atan: Num -> Num,
    ln: Num -> Num, log10: Num -> Num, sqrt: Num -> Num, cbrt: Num -> Num,
    exp: Num -> Num, pow: (Num, Num) -> Num,
    pi: real, e: real,
    /** Number.parseFloat of the display text */
    parse: string -> Num,
    /** String(number), the text the display shows */
    show: Num -> string)

  const FunctionKeys: set<string> :=
    {"sin", "cos", "tan", "sin⁻¹", "cos⁻¹", "tan⁻¹", "ln", "log", "x²", "x³",
     "√", "∛", "x!", "1/x", "e^x", "10^x", "%", "π", "e"}

  /** Degrees to radians as the trigonometric keys compute it: (v * PI) / 180. */
  function ToRadians(value: Num, isRadians: bool, lib: NumLib): Num
  {
    if isRadians then value else Div(Mul(value, Real(lib.pi)), Real(180.0))
  }

  /** Radians to degrees as the inverse keys compute it: (a * 180) / PI. */
  function FromRadians(angle: Num, isRadians: bool, lib: NumLib): Num
  {
    if isRadians then angle else Div(Mul(angle, Real(180.0)), Real(lib.pi))
  }

  /** The unary key switch; None for a key it does not know. */
  function FunctionResult(func: string, value: Num, isRadians: bool, lib: NumLib): (r: Option<Num>)
    requires func == "x!" ==> value != Inf(false)
    ensures r.Some? <==> func in FunctionKeys
    ensures func == "x!" ==> r == Some(FactorialOf(value))
  {
    if func == "sin" then Some(lib.sin(ToRadians(value, isRadians, lib)))
    else if func == "cos" then Some(lib.cos(ToRadians(value, isRadians, lib)))
    else if func == "tan" then Some(lib.tan(ToRadians(value, isRadians, lib)))
    else if func == "sin⁻¹" then Some(FromRadians(lib.asin(value), isRadians, lib))
    else if func == "cos⁻¹" then Some(FromRadians(lib.acos(value), isRadians, lib))
    else if func == "tan⁻¹" then Some(FromRadians(lib.atan(value), isRadians, lib))
    else if func == "ln" then Some(lib.ln(value))
    else if func == "log" then Some(lib.log10(value))
    else if func == "x²" then Some(Mul(value, value))
    else if func == "x³" then Some(Mul(Mul(value, value), value))
    else if func == "√" then Some(lib.sqrt(value))
    else if func == "∛" then Some(lib.cbrt(value))
    else if func == "x!" then Some(FactorialOf(value))
    else if func == "1/x" then Some(Div(Real(1.0), value))
    else if func == "e^x" then Some(lib.exp(value))
    else if func == "10^x" then Some(lib.pow(Real(10.0), value))
    else if func == "%" then Some(Div(value, Real(100.0)))
    else if func == "π" then Some(Real(lib.pi))
    else if func == "e" then Some(Real(lib.e))
    else None
  }

  /** The arithmetic keys on a finite display value. */
  lemma ArithmeticKeys(v: real, isRadians: bool, lib: NumLib)
    ensures FunctionResult("x²", Real(v), isRadians, lib) == Some(Real(v * v))
    ensures FunctionResult("x³", Real(v), isRadians, lib) == Some(Real(v * v * v))
    ensures FunctionResult("%", Real(v), isRadians, lib) == Some(Real(v / 100.0))
    ensures v != 0.0 ==> FunctionResult("1/x", Real(v), isRadians, lib) == Some(Real(1.0 / v))
    ensures FunctionResult("1/x", Real(0.0), isRadians, lib) == Some(Inf(false))
  {
    SquareKey(v, isRadians, lib);
    CubeKey(v, isRadians, lib);
    PercentKey(v, isRadians, lib);
    ReciprocalKey(v, isRadians, lib);
    ReciprocalKey(0.0, isRadians, lib);
  }

  lemma SquareKey(v: real, isRadians: bool, lib: NumLib)
    ensures FunctionResult("x²", Real(v), isRadians, lib) == Some(Real(v * v))
  {
    assert Mul(Real(v), Real(v)) == Real(v * v);
  }

  lemma CubeKey(v: real, isRadians: bool, lib: NumLib)
    ensures FunctionResult("x³", Real(v), isRadians, lib) == Some(Real(v * v * v))
  {
    assert Mul(Mul(Real(v), Real(v)), Real(v)) == Real(v * v * v);
  }

  lemma PercentKey(v: real, isRadians: bool, lib: NumLib)
    ensures FunctionResult("%", Real(v), isRadians, lib) == Some(Real(v / 100.0))
  {
  }

  lemma ReciprocalKey(v: real, isRadians: bool, lib: NumLib)
    ensures FunctionResult("1/x", Real(v), isRadians, lib) == Some(Div(Real(1.0), Real(v)))
  {
  }

  /** In degree mode the trigonometric keys see the angle scaled by PI/180. */
  lemma DegreeMode(v: real, lib: NumLib)
    ensures FunctionResult("sin", Real(v), false, lib) == Some(lib.sin(Real(v * lib.pi / 180.0)))
    ensures FunctionResult("sin", Real(v), true, lib) == Some(lib.sin(Real(v)))
  {
    assert Mul(Real(v), Real(lib.pi)) == Real(v * lib.pi);
  }

  class Calculator {
    var display: string
    var previousValue: Option<Num>
    var operation: Option<string>
    var waitingForOperand: bool
    var isRadians: bool
    const lib: NumLib

    /** A pending left operand always comes with a pending operator. */
    predicate Valid()
      reads this
    {
      previousValue.Some? ==> operation.Some?
    }

    constructor (lib: NumLib)
      ensures display == "0" && previousValue == None && operation == None
      ensures !waitingForOperand && !isRadians && this.lib == lib
      ensures Valid()
    {
      display := "0";
      previousValue := None;
      operation := None;
      waitingForOperand := false;
      isRadians := false;
      this.lib := lib;
    }

    /** A digit or "." key. */
    method InputNumber(num: string)
      requires Valid()
      modifies this
      ensures Valid()
      ensures old(waitingForOperand) ==> display == num && !waitingForOperand
      ensures !old(waitingForOperand) ==>
        display == (if old(display) == "0" then num else old(display) + num) && !waitingForOperand
      ensures previousValue == old(previousValue) && operation == old(operation)
      ensures isRadians == old(isRadians)
    {
      if waitingForOperand {
        display := num;
        waitingForOperand := false;
      } else {
        display := if display == "0" then num else display + num;
      }
    }

    /** A binary operator key (including "="). */
    method InputOperation(nextOperation: string)
      requires Valid()
      modifies this
      ensures Valid()
      ensures old(previousValue).None? ==>
        previousValue == Some(lib.parse(old(display))) && display == old(display)
      ensures old(previousValue).Some? && old(operation).Some? && old(operation).value != "" ==>
        var newValue := Calculate(Truthy(old(previousValue).value), lib.parse(old(display)), old(operation).value);
        display == lib.show(newValue) && previousValue == Some(newValue)
      ensures old(previousValue).Some? && old(operation) == Some("") ==>
        display == old(display) && previousValue == old(previousValue)
      ensures waitingForOperand && operation == Some(nextOperation)
      ensures isRadians == old(isRadians)
    {
      var inputValue := lib.parse(display);
      if previousValue.None? {
        previousValue := Some(inputValue);
      } else if operation.Some? && operation.value != "" {
        var newValue := Calculate(Truthy(previousValue.value), inputValue, operation.value);
        display, previousValue := lib.show(newValue), Some(newValue);
      }
      waitingForOperand, operation := true, Some(nextOperation);
    }

    /** A unary function key; an unknown key changes nothing. */
    method PerformFunction(func: string)
      requires Valid()
      requires func == "x!" ==> lib.parse(display) != Inf(false)
      modifies this
      ensures Valid()
      ensures func !in FunctionKeys ==>
        display == old(display) && waitingForOperand == old(waitingForOperand)
      ensures func in FunctionKeys ==>
        display == lib.show(FunctionResult(func, lib.parse(old(display)), isRadians, lib).value)
        && waitingForOperand
      ensures previousValue == old(previousValue) && operation == old(operation)
      ensures isRadians == old(isRadians)
    {
      var value := lib.parse(display);
      var result: Num;
      if func == "x!" {
        result := Factorial(value);
      } else {
        var r := FunctionResult(func, value, isRadians, lib);
        if r.None? {
          return;
        }
        result := r.value;
      }
      display := lib.show(result);
      waitingForOperand := true;
    }

    /** The angle-mode button flips between degrees and radians. */
    method ToggleRadians()
      requires Valid()
      modifies this
      ensures Valid()
      ensures isRadians == !old(isRadians)
      ensures display == old(display) && previousValue == old(previousValue)
      ensures operation == old(operation) && waitingForOperand == old(waitingForOperand)
    {
      isRadians := !isRadians;
    }

    /** "C": back to the initial state, except that the angle mode is kept. */
    method Clear()
      modifies this
      ensures Valid()
      ensures display == "0" && previousValue == None && operation == None && !waitingForOperand
      ensures isRadians == old(isRadians)
    {
      display := "0";
      previousValue := None;
      operation := None;
      waitingForOperand := false;
    }

    /** "CE": only the display is reset. */
    method ClearEntry()
      requires Valid()
      modifies this
      ensures Valid()
      ensures display == "0"
      ensures previousValue == old(previousValue) && operation == old(operation)
      ensures waitingForOperand == old(waitingForOperand) && isRadians == old(isRadians)
    {
      display := "0";
    }
  }

  /** A key sequence on a fresh calculator: "." on "0" gives ".", then 2 + 3 =. */
  method KeySequence(lib: NumLib) returns (afterDot: string, afterEquals: string)
    requires lib.parse("2") == Real(2.0) && lib.parse("3") == Real(3.0)
    ensures afterDot == "." && afterEquals == lib.show(Real(5.0))
  {
    var c := new Calculator(lib);
    c.InputNumber(".");
    afterDot := c.display;
    c.Clear();
    c.InputNumber("2");
    assert c.display == "2";
    c.InputOperation("+");
    assert c.previousValue == Some(Real(2.0)) && c.waitingForOperand;
    c.InputNumber("3");
    assert c.display == "3";
    c.InputOperation("=");
    assert c.previousValue == Some(Real(5.0));
    afterEquals := c.display;
  }
}
