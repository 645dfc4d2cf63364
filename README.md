# Calculator pages, modelled in Dafny

This project models the logic of a website of calculator pages. The site has a home page with a searchable,
grouped catalogue of calculators. Each calculator page reads a few input fields, guards them, and stores one
result record for display. The model covers these pages:

- fraction arithmetic;
- a scientific calculator driven by key presses;
- a password generator;
- a random number generator;
- a GPA course list;
- an age calculator and a date calculator;
- a triangle solver;
- the three percentage sections;
- the mortgage, auto loan, loan and interest pages;
- the BMI, body fat, ideal weight and calorie pages.

Each page is a class. Its fields are the page's state and each button is a method. A method that `modifies this`
states the page's whole new state. On a refused input it leaves the state as it was. What a handler computes is a
pure function. The handler's loops, if-chains and switches are also written as methods, each proved equal to that
function. The properties of the pages are lemmas about those functions.

Inputs arrive already parsed. A numeric field that does not parse (JavaScript's NaN) is `None`. `Some(x)` is a
finite number. A few notes on how the model reads JavaScript:

- NaN fails every comparison, so it passes the pages' `x <= 0` guards. The model carries it through to the results
  the page would show: `NaNResult`, `NaNInterest`, `NaNWeights`, a `None` BMI, or the `Ext.NaN` body-fat value.
- JavaScript's `%` truncates toward zero. The fraction page's gcd uses it through `TruncRem`.
- Dates follow the Gregorian calendar, with months numbered from 0 as in JavaScript. `new Date(y, m, d)` overflows
  out-of-range days into the next or previous month, as section 21.4 of ECMA-262 specifies. It also reads a year
  from 0 to 99 as 1900 + y (`Calendar.NewDate`); `setFullYear` and `setDate` take the year as given
  (`Calendar.MakeDate`).
- A date field left empty gives an invalid `Date`, which the age and date pages do not refuse. It is `None` there.
- `Math.random` is replaced by a sequence of draws in [0, 1).
- `Math.sqrt`, `Math.acos`, `Math.log10`, `Math.pow` with a real exponent, and the scientific keys' library calls
  are uninterpreted function fields (`JsMath.RealLib`, `ScientificCalculator.NumLib`).
- `Math.pow` with a natural exponent is the exact power `JsMath.Pow`.

Modules: `Common`, `JsMath`, `Calendar` and `Amortization` are shared. There is one module per page.

## Model

| member | source | states |
|---|---|---|
| Common.OrZero | calculator-net-clone/app/auto-loan-calculator/page.tsx:26-29 | `x \|\| 0` on a parsed number: a missing value becomes 0, any other value is kept |
| Common.Abs | app/percentage-calculator/page.tsx:49 | Math.abs: non-negative, and either x or -x |
| Common.IntAbs | calculator-net-clone/app/fraction-calculator/page.tsx:24 | Math.abs on integers: a natural number equal to x or -x |
| Common.DrawIndex | calculator-net-clone/app/password-generator/page.tsx:44 | Math.floor(r * n) for a draw r in [0, 1) is an index below n |
| JsMath.MathPow | app/interest-calculator/page.tsx:41 | Math.pow is the exact natural power whenever the exponent is a whole number |
| JsMath.PowPositive | calculator-net-clone/app/mortgage-calculator/page.tsx:29-31 | a positive base has a positive power |
| JsMath.PowAboveOneNat | calculator-net-clone/app/mortgage-calculator/page.tsx:29-31 | the growth factor (1 + r)^n exceeds 1 for r > 0 and n >= 1, so the payment's denominator is not 0 |
| JsMath.Bernoulli | app/interest-calculator/page.tsx:41-42 | Bernoulli's inequality (1 + h)^n >= 1 + n·h for h >= -1, proved by induction |
| JsMath.PowGrowthBound | calculator-net-clone/app/mortgage-calculator/page.tsx:29-34 | x^n - 1 < n·(x - 1)·x^n for x > 1, n >= 1: the bound behind "the payments exceed the principal" |
| JsMath.GrowthProducts | calculator-net-clone/app/mortgage-calculator/page.tsx:29-31 | the product identities the growth bound step rests on: multiplying the power by x = 1 + h distributes over the bound |
| Calendar.DaysInMonth | calculator-net-clone/app/age-calculator/page.tsx:39-40 | month lengths lie in 28..31 and February has 29 days exactly in leap years |
| Calendar.DaysBeforeMonth | calculator-net-clone/app/age-calculator/page.tsx:49 | the days before a month in its year are never negative |
| Calendar.YearStep | calculator-net-clone/app/age-calculator/page.tsx:49 | consecutive years lie a year's length apart on the day line |
| Calendar.WithinYear | calculator-net-clone/app/age-calculator/page.tsx:49 | a valid date's day number lies inside its year and inside its month |
| Calendar.BeforeOrdersDayNumbers | calculator-net-clone/app/age-calculator/page.tsx:30-49 | an earlier date has a smaller day number |
| Calendar.DayNumberInjective | app/date-calculator/page.tsx:57-58 | distinct valid dates have distinct day numbers |
| Calendar.DayNumberOrder | calculator-net-clone/app/age-calculator/page.tsx:30 | comparing day numbers is comparing dates in calendar order, in both directions |
| Calendar.NextDayNumber | app/date-calculator/page.tsx:36 | the next calendar day is valid and one day number later |
| Calendar.PrevDayNumber | app/date-calculator/page.tsx:38 | the previous calendar day is valid and one day number earlier |
| Calendar.AddDays | app/date-calculator/page.tsx:35-39 | moving a date by n days gives a valid date |
| Calendar.AddDaysNumber | app/date-calculator/page.tsx:35-39 | moving by n days changes the day number by exactly n |
| Calendar.AddDaysUnique | app/date-calculator/page.tsx:35-39 | the moved date is the only valid date with that day number |
| Calendar.AddDaysInverse | app/date-calculator/page.tsx:35-39 | moving forward n days and back n days returns to the start |
| Calendar.AddDaysForward | app/date-calculator/page.tsx:35-36 | moving a valid date n days forward adds exactly n to its day number |
| Calendar.AddDaysBackward | app/date-calculator/page.tsx:35-38 | moving a valid date n days back subtracts exactly n from its day number |
| Calendar.MakeDate | calculator-net-clone/app/age-calculator/page.tsx:56 | a date with its year taken as given, as `setFullYear` sets it: a valid date d - 1 days after the first of month m of year y, so an out-of-range day overflows |
| Calendar.ConstructorYear | calculator-net-clone/app/age-calculator/page.tsx:54 | the `Date` constructor reads a year from 0 to 99 as 1900 + y and keeps any other year |
| Calendar.NewDate | calculator-net-clone/app/age-calculator/page.tsx:54 | `new Date(y, m, d)` is a valid date d - 1 days after the first of month m of the constructor's year, and agrees with MakeDate outside years 0 to 99 |
| Calendar.MakeDateExact | calculator-net-clone/app/age-calculator/page.tsx:54 | a day that exists in its month is kept unchanged |
| Calendar.MakeDateDayZero | calculator-net-clone/app/age-calculator/page.tsx:39-40 | day 0 of a month is the last day of the month before it |
| Calendar.MakeDateLeapDay | calculator-net-clone/app/age-calculator/page.tsx:54-56 | 29 February in a common year overflows to 1 March |
| Calendar.SetDateShift | app/date-calculator/page.tsx:36-38 | `setDate(getDate() + n)` moves the date by exactly n days |
| Calendar.FirstOfMonth | app/date-calculator/page.tsx:36-38 | the first of a valid date's month is valid and lies day - 1 days before it |
| FractionCalculator.TruncRem | calculator-net-clone/app/fraction-calculator/page.tsx:24 | JavaScript's `%`: smaller in magnitude than the divisor, with the dividend's sign, and a = q·b + r for the truncated quotient |
| FractionCalculator.GcdDividesBoth | calculator-net-clone/app/fraction-calculator/page.tsx:23-25 | the recursive gcd with truncating remainder divides both arguments |
| FractionCalculator.GcdGreatest | calculator-net-clone/app/fraction-calculator/page.tsx:23-25 | every common divisor of the arguments divides the gcd |
| FractionCalculator.GcdIsGcd | calculator-net-clone/app/fraction-calculator/page.tsx:23-25 | the source's gcd is a greatest common divisor of its arguments |
| FractionCalculator.GcdUnique | calculator-net-clone/app/fraction-calculator/page.tsx:23-25 | there is one non-negative greatest common divisor, so the result is the gcd of \|a\| and \|b\| |
| FractionCalculator.GcdBasics | calculator-net-clone/app/fraction-calculator/page.tsx:23-25 | gcd(a, 0) = \|a\|, and the gcd is 0 exactly for gcd(0, 0) |
| FractionCalculator.SignOfMultiple | calculator-net-clone/app/fraction-calculator/page.tsx:27-33 | dividing by a positive divisor keeps the sign, so simplifying keeps the sign of numerator and denominator |
| FractionCalculator.FactorOne | calculator-net-clone/app/fraction-calculator/page.tsx:27-33 | a factor c > 0 with g·c <= g is 1: the divisor cannot leave a common factor behind |
| FractionCalculator.SimplifyFraction | calculator-net-clone/app/fraction-calculator/page.tsx:27-33 | simplification has no result exactly for 0/0, where the divisor is 0 |
| FractionCalculator.SimplifySameValue | calculator-net-clone/app/fraction-calculator/page.tsx:27-33 | the gcd divides both parts exactly, and the simplified pair cross-multiplies to the input |
| FractionCalculator.SimplifyKeepsDenominatorSign | calculator-net-clone/app/fraction-calculator/page.tsx:27-33 | the simplified denominator keeps the sign of the unreduced one; it is not normalised |
| FractionCalculator.SimplifyReduced | calculator-net-clone/app/fraction-calculator/page.tsx:27-33 | the simplified pair has gcd 1 |
| FractionCalculator.SimplifyIdempotent | calculator-net-clone/app/fraction-calculator/page.tsx:27-33 | simplifying a simplified pair returns it unchanged |
| FractionCalculator.CalculateFraction | calculator-net-clone/app/fraction-calculator/page.tsx:35-75 | a result exactly when both denominators are non-zero and the operation is one of the four; the result is the switch's fraction, its simplification and its decimal, which is NaN or infinite only for a 0 denominator |
| FractionCalculator.CalculateFractionValue | calculator-net-clone/app/fraction-calculator/page.tsx:46-65 | each operation's unreduced result stands for the exact rational sum, difference, product or quotient of the inputs |
| FractionCalculator.DivideByZeroNumerator | calculator-net-clone/app/fraction-calculator/page.tsx:41-61 | dividing by a fraction with numerator 0 is not refused and gives result denominator 0 |
| FractionCalculator.FractionPage.constructor | calculator-net-clone/app/fraction-calculator/page.tsx:17-21 | no result at first |
| FractionCalculator.GcdNaNNeverEnds | calculator-net-clone/app/fraction-calculator/page.tsx:23-25 | with a NaN second argument, or a NaN first argument and a non-zero second, no number of recursive calls reaches `b === 0` |
| FractionCalculator.GcdCallsSettled | calculator-net-clone/app/fraction-calculator/page.tsx:23-25 | once the recursion reaches `b === 0` it stops, so more calls give the same arguments |
| FractionCalculator.GcdCallsFinite | calculator-net-clone/app/fraction-calculator/page.tsx:23-25 | with integer arguments the recursion reaches `b === 0` within \|b\| + 1 calls, with Gcd(a, b) as the magnitude of its first argument |
| FractionCalculator.CalculateFields | calculator-net-clone/app/fraction-calculator/page.tsx:35-75 | on integer fields, the same record as CalculateFraction; a NaN field stores a result only when dividing by numerator 0 with a NaN in n1 or d2, which gives NaN over 0; any other NaN field makes gcd recurse without end, so nothing is stored |
| FractionCalculator.FractionPage.Calculate | calculator-net-clone/app/fraction-calculator/page.tsx:35-75 | a refused calculation, or one whose gcd never returns, leaves the results; otherwise they become the record CalculateFields gives |
| ScientificCalculator.Neg | components/scientific-calculator.tsx:44-45 | unary minus on a JavaScript number: exact on finite values, NaN stays NaN |
| ScientificCalculator.Add | components/scientific-calculator.tsx:42-43 | `+`: exact on finite values, NaN absorbing, and opposite infinities give NaN |
| ScientificCalculator.Sub | components/scientific-calculator.tsx:44-45 | `-`: exact on finite values, NaN absorbing |
| ScientificCalculator.Mul | components/scientific-calculator.tsx:46-47 | `*`: exact on finite values, NaN absorbing, and infinity times 0 is NaN |
| ScientificCalculator.Div | components/scientific-calculator.tsx:48-49 | `/`: exact for a non-zero divisor, a signed infinity or NaN for a zero divisor, 0 for an infinite divisor |
| ScientificCalculator.Truthy | components/scientific-calculator.tsx:29 | `previousValue \|\| 0`: NaN and 0 become 0, any other number is kept |
| ScientificCalculator.Calculate | components/scientific-calculator.tsx:40-55 | "=" and any unknown operator give the second operand |
| ScientificCalculator.CalculateFinite | components/scientific-calculator.tsx:40-55 | on finite operands the four operators are exact real arithmetic and "=" gives the second operand |
| ScientificCalculator.DivideByZero | components/scientific-calculator.tsx:48-49 | x ÷ 0 is an infinity with x's sign, and 0 ÷ 0 is NaN |
| ScientificCalculator.Fact | components/scientific-calculator.tsx:127-135 | the mathematical factorial is at least 1 |
| ScientificCalculator.Factorial | components/scientific-calculator.tsx:127-135 | the accumulator loop computes the factorial function |
| ScientificCalculator.ProductUpTo | components/scientific-calculator.tsx:130-134 | the accumulator loop 2·3·…·i while i <= x gives the factorial of floor(x) |
| ScientificCalculator.FactorialRecurrence | components/scientific-calculator.tsx:127-135 | factorial(0) = factorial(1) = 1, and factorial(n) = n · factorial(n - 1) for n >= 2 |
| ScientificCalculator.FactorialGuards | components/scientific-calculator.tsx:127-135 | a negative number or -Infinity gives NaN, NaN gives 1 (the loop never runs), and a non-negative number gives at least 1 |
| ScientificCalculator.FunctionResult | components/scientific-calculator.tsx:57-121 | the unary switch has a result exactly for its known keys, and "x!" is the factorial |
| ScientificCalculator.ArithmeticKeys | components/scientific-calculator.tsx:86-112 | x² = v·v, x³ = v·v·v, % = v/100, 1/x = 1/v, and 1/0 = +Infinity |
| ScientificCalculator.SquareKey | components/scientific-calculator.tsx:86-112 | the x² key gives v·v |
| ScientificCalculator.CubeKey | components/scientific-calculator.tsx:86-112 | the x³ key gives v·v·v |
| ScientificCalculator.PercentKey | components/scientific-calculator.tsx:86-112 | the % key gives v / 100 |
| ScientificCalculator.ReciprocalKey | components/scientific-calculator.tsx:86-112 | the 1/x key is the division 1 / v, with its NaN and infinity cases |
| ScientificCalculator.DegreeMode | components/scientific-calculator.tsx:62-64 | in degree mode sin sees the angle scaled by π/180; in radian mode it sees the value as it is |
| ScientificCalculator.Calculator.constructor | components/scientific-calculator.tsx:8-12 | display "0", nothing pending, not waiting, degree mode |
| ScientificCalculator.Calculator.InputNumber | components/scientific-calculator.tsx:14-21 | while waiting the key replaces the display and clears the flag; otherwise "0" is replaced and any other display is appended to |
| ScientificCalculator.Calculator.InputOperation | components/scientific-calculator.tsx:23-38 | with nothing pending the display's value becomes pending; with a pending operator both pending value and display become the calculated value; always waiting, with the new operator; the invariant "pending value implies pending operator" is kept |
| ScientificCalculator.Calculator.PerformFunction | components/scientific-calculator.tsx:57-125 | an unknown key changes nothing; a known key shows its result and sets waiting, leaving pending value and operator |
| ScientificCalculator.Calculator.ToggleRadians | components/scientific-calculator.tsx:173 | the angle-mode button flips the mode and nothing else |
| ScientificCalculator.Calculator.Clear | components/scientific-calculator.tsx:137-142 | resets display, pending value, operator and flag, but keeps the angle mode |
| ScientificCalculator.KeySequence | components/scientific-calculator.tsx:14-38 | on a fresh calculator "." displays ".", and after C, the keys 2 + 3 = display the value 5 |
| ScientificCalculator.Calculator.ClearEntry | components/scientific-calculator.tsx:144-146 | resets only the display |
| PasswordGenerator.RemoveSimilar | calculator-net-clone/app/password-generator/page.tsx:36-38 | removing look-alikes never lengthens the text |
| PasswordGenerator.RemoveSimilarMembers | calculator-net-clone/app/password-generator/page.tsx:37 | a character survives exactly when it was present and is not one of "il1Lo0O" |
| PasswordGenerator.RemoveSimilarAppend | calculator-net-clone/app/password-generator/page.tsx:37 | removal works piece by piece, so the kept characters stay in order |
| PasswordGenerator.RemoveSimilarKeeps | calculator-net-clone/app/password-generator/page.tsx:37 | text without look-alikes is left unchanged |
| PasswordGenerator.BuildCharset | calculator-net-clone/app/password-generator/page.tsx:29-38 | the `+=` steps build the enabled classes in order upper, lower, digits, symbols, with look-alikes stripped when asked |
| PasswordGenerator.CharsetMembers | calculator-net-clone/app/password-generator/page.tsx:29-38 | a character is in the set exactly when its class is enabled and, if asked, it is not a look-alike |
| PasswordGenerator.CharsetEmpty | calculator-net-clone/app/password-generator/page.tsx:40 | the set is empty, and nothing is generated, exactly when no class is enabled |
| PasswordGenerator.DrawPassword | calculator-net-clone/app/password-generator/page.tsx:42-45 | the password has exactly `length` characters, the i-th being the character the i-th draw picks from the set |
| PasswordGenerator.CalculateStrength | calculator-net-clone/app/password-generator/page.tsx:51-86 | the step-by-step scoring and the label chain compute the strength function |
| PasswordGenerator.ScorePoints | calculator-net-clone/app/password-generator/page.tsx:52-63 | the points added test by test equal the strength score |
| PasswordGenerator.LabelFor | calculator-net-clone/app/password-generator/page.tsx:65-83 | the label and colour cascade is the band of the score |
| PasswordGenerator.ScoreBounds | calculator-net-clone/app/password-generator/page.tsx:52-63 | the score is at most 7, and 7 exactly for 16 or more characters with all four classes |
| PasswordGenerator.LabelBands | calculator-net-clone/app/password-generator/page.tsx:65-83 | each label belongs to exactly one band of scores (>= 6, 5, 4, 3, 2, <= 1) |
| PasswordGenerator.PasswordPage.constructor | calculator-net-clone/app/password-generator/page.tsx:20-26 | no password and no strength at first |
| PasswordGenerator.PasswordPage.GeneratePassword | calculator-net-clone/app/password-generator/page.tsx:28-49 | an empty set changes nothing; otherwise the new password is drawn from the set and its strength is stored with it |
| PasswordGenerator.NoSimilarDrawn | calculator-net-clone/app/password-generator/page.tsx:36-45 | with look-alikes excluded, no character of the password is one |
| RandomNumberGenerator.Prefix | app/random-number-generator/page.tsx:45 | pushing numbers in front of a batch keeps both parts in order |
| RandomNumberGenerator.GenerateBatch | app/random-number-generator/page.tsx:30-46 | the loop with its inner do-while computes the batch function |
| RandomNumberGenerator.DrawNumber | app/random-number-generator/page.tsx:35-43 | one pass of the loop: when the draws run out the batch cannot be made; otherwise the number drawn heads the rest of the batch, and is marked used exactly when repeats are not allowed |
| RandomNumberGenerator.DrawUnused | app/random-number-generator/page.tsx:39-42 | the do-while: the number found is unused, is the last draw taken, and heads the rest of the batch with itself marked used |
| RandomNumberGenerator.RepeatStep | app/random-number-generator/page.tsx:36-37 | with repeats allowed the draw is taken as it comes |
| RandomNumberGenerator.RejectStep | app/random-number-generator/page.tsx:39-41 | without repeats a draw already used is skipped and changes nothing |
| RandomNumberGenerator.AcceptStep | app/random-number-generator/page.tsx:39-42 | without repeats a fresh draw is taken and becomes used |
| RandomNumberGenerator.GenerateShape | app/random-number-generator/page.tsx:33-46 | a batch has exactly count numbers, each in [min, min + range - 1] |
| RandomNumberGenerator.GenerateDistinct | app/random-number-generator/page.tsx:38-43 | without repeats the batch is pairwise distinct and avoids every number already used |
| RandomNumberGenerator.GenerateEnoughDraws | app/random-number-generator/page.tsx:36-37 | with repeats allowed, count draws always suffice |
| RandomNumberGenerator.PushHistory | app/random-number-generator/page.tsx:49 | the history becomes the batch followed by the first nine older batches in order, at most ten in all |
| RandomNumberGenerator.RandomPage.constructor | app/random-number-generator/page.tsx:17-18 | no numbers and no history at first |
| RandomNumberGenerator.RandomPage.GenerateNumbers | app/random-number-generator/page.tsx:20-50 | refused when min >= max, the count is not positive, or the range is too small for no repeats, leaving the state; otherwise the batch becomes the results and is pushed onto the history |
| RandomNumberGenerator.AcceptedBatch | app/random-number-generator/page.tsx:25-46 | an accepted batch has count numbers in [min, max], pairwise distinct when repeats are off |
| GpaCalculator.GradeTable | app/gpa-calculator/page.tsx:28-59 | the two scales know the same grades and differ only on "A+" (4.0 against 5.0); every point value lies between 0 and the scale's maximum |
| GpaCalculator.LookupKeys | app/gpa-calculator/page.tsx:83-84 | a table lookup succeeds exactly for the grades the table lists |
| GpaCalculator.LookupBound | app/gpa-calculator/page.tsx:83-84 | a lookup gives one of the table's values, so it obeys any bound they all obey |
| GpaCalculator.TableLetters | app/gpa-calculator/page.tsx:28-59 | both scales list the thirteen letter grades, in the same order |
| GpaCalculator.TableBounds | app/gpa-calculator/page.tsx:28-59 | every value of a scale's table lies between 0 and the scale's maximum |
| GpaCalculator.PointsInRange | app/gpa-calculator/page.tsx:28-59 | every grade a scale knows is worth 0 to the scale's maximum |
| GpaCalculator.Totals | app/gpa-calculator/page.tsx:76-91| the accumulation loop over any grade table computes the total points and the total credits of the counted courses |
| GpaCalculator.TotalsStep | app/gpa-calculator/page.tsx:80-91 | one loop pass adds the course's points·credits and credits when it is counted, and nothing otherwise |
| GpaCalculator.Gpa | app/gpa-calculator/page.tsx:93-96 | a result exactly when the counted credits are positive, with gpa = points / credits |
| GpaCalculator.TotalsBound | app/gpa-calculator/page.tsx:80-91| with every table value in [0, m] and non-negative credits, both totals are non-negative and the points are at most m times the credits |
| GpaCalculator.NonNegativeInit | app/gpa-calculator/page.tsx:80-91 | non-negative credits hold for every prefix of the courses and for the last course |
| GpaCalculator.LastCourseBound | app/gpa-calculator/page.tsx:87-88 | adding one counted course keeps the points between 0 and m times the credits |
| GpaCalculator.GpaBounds | app/gpa-calculator/page.tsx:93-96 | with non-negative credits the GPA lies between 0 and the scale's maximum |
| GpaCalculator.MaxId | app/gpa-calculator/page.tsx:62 | the largest id of the list: an upper bound that some course has |
| GpaCalculator.RemoveId | app/gpa-calculator/page.tsx:68 | the filter keeps exactly the courses with another id |
| GpaCalculator.RemoveIdLength | app/gpa-calculator/page.tsx:66-70 | with unique ids, removal takes away at most one course and keeps the ids unique |
| GpaCalculator.NoneRemoved | app/gpa-calculator/page.tsx:68 | removing an id that no course has keeps the whole list |
| GpaCalculator.UpdateId | app/gpa-calculator/page.tsx:72-74 | same length; the matching course gets the new field value, every other course is unchanged |
| GpaCalculator.GpaPage.constructor | app/gpa-calculator/page.tsx:20-26 | one empty course with id 1, the 4.0 scale, no result |
| GpaCalculator.GpaPage.AddCourse | app/gpa-calculator/page.tsx:61-64 | appends an empty course with id max + 1, keeping ids unique and the list non-empty |
| GpaCalculator.GpaPage.RemoveCourse | app/gpa-calculator/page.tsx:66-70 | filters out the id only when more than one course exists, so the list is never empty |
| GpaCalculator.GpaPage.UpdateCourse | app/gpa-calculator/page.tsx:72-74 | the list becomes the updated list; ids stay unique |
| GpaCalculator.GpaPage.SetGradeScale | app/gpa-calculator/page.tsx:21 | changes only the scale |
| GpaCalculator.GpaPage.CalculateGpa | app/gpa-calculator/page.tsx:76-97 | without positive counted credits nothing changes; otherwise the result is stored |
| AgeCalculator.PreviousMonthLength | calculator-net-clone/app/age-calculator/page.tsx:39-40 | `new Date(y, m, 0).getDate()` is a month length, 28 to 31 |
| AgeCalculator.PreviousMonthOwnYear | calculator-net-clone/app/age-calculator/page.tsx:39-40 | the month borrowed is the one before the target's month in the target's own year, except in March of year 0, where the constructor's 1900 gives 28 days for year 0's 29 |
| AgeCalculator.LeapCentury | calculator-net-clone/app/age-calculator/page.tsx:39 | a year from 1 to 99 is a leap year exactly when 1900 more is |
| AgeCalculator.ComputeNextBirthday | calculator-net-clone/app/age-calculator/page.tsx:54-57 | `new Date` in the target's year, then `setFullYear` to the next year when that is not after the target, computes NextBirthday |
| AgeCalculator.Borrow | calculator-net-clone/app/age-calculator/page.tsx:33-46 | after the borrowing steps, years and months are the quotient and remainder of the whole months lived by 12 |
| AgeCalculator.AgeInSteps | calculator-net-clone/app/age-calculator/page.tsx:30-59 | the values the handler computes one by one are, field by field, the age |
| AgeCalculator.ComputeAge | calculator-net-clone/app/age-calculator/page.tsx:30-59 | the handler's steps compute the age function |
| AgeCalculator.AgeDefined | calculator-net-clone/app/age-calculator/page.tsx:30 | a result exactly when the birth date is not after the target |
| AgeCalculator.AgeBounds | calculator-net-clone/app/age-calculator/page.tsx:33-59 | years >= 0, months in 0..11, total days the day distance (>= 0), weeks its floor by 7, total months = years·12 + months, at least one day until the next birthday, and at most 366 unless the target's year is from 0 to 99 |
| AgeCalculator.AgeDaysBorrow | calculator-net-clone/app/age-calculator/page.tsx:35-41 | a short day borrows the length of the month before the target's month |
| AgeCalculator.AgeNegativeDays | calculator-net-clone/app/age-calculator/page.tsx:35-41 | born 31 January and measured on 1 March of a common year, the day component is -2 |
| AgeCalculator.OneYearOn | calculator-net-clone/app/age-calculator/page.tsx:56 | a birthday moved on a year by setFullYear lands in the next year, at most 366 days later |
| AgeCalculator.NextBirthdayAhead | calculator-net-clone/app/age-calculator/page.tsx:54-59 | the next birthday is strictly after the target; for a target year from 0 to 99 it is the constructor's date in year 1900 + y; otherwise it is in the target's year or the next, within 366 days |
| AgeCalculator.BirthdayToCome | calculator-net-clone/app/age-calculator/page.tsx:54-57 | when this year's birthday is after the target it is the next birthday, in the constructor's year, within 366 days unless the year has two digits |
| AgeCalculator.BirthdayPassed | calculator-net-clone/app/age-calculator/page.tsx:54-57 | when this year's birthday is not after the target, the target's year is not from 0 to 99, and the birthday moved on a year lies in the next year, after the target and within 366 days |
| AgeCalculator.NextBirthdayIsLater | calculator-net-clone/app/age-calculator/page.tsx:55-57 | a birthday already passed is moved on by one year with setFullYear |
| AgeCalculator.LaterWithinYear | calculator-net-clone/app/age-calculator/page.tsx:56 | a date of the target's year, not after it, moved on a year lands after the target and within 366 days |
| AgeCalculator.BirthdayYear | calculator-net-clone/app/age-calculator/page.tsx:54-56 | `new Date(y, month, day)` for a valid birthday lies in the constructor's year, and setFullYear(y) in year y, the leap day included |
| AgeCalculator.ThisYearBirthday | calculator-net-clone/app/age-calculator/page.tsx:54-56 | the birthday placed by setFullYear in year y, or by `new Date` in the constructor's year, stays in that year: itself, or 1 March for 29 February of a common year |
| AgeCalculator.PlacedBirthday | calculator-net-clone/app/age-calculator/page.tsx:54-56 | the birthday placed in year y with the year as given is itself, or 1 March for 29 February of a common year |
| AgeCalculator.NextBirthdayDate | calculator-net-clone/app/age-calculator/page.tsx:54-57 | apart from 29 February, the next birthday has the birth month and day |
| AgeCalculator.LeapDayBirthday | calculator-net-clone/app/age-calculator/page.tsx:54-57 | for a 29 February birth and a target in a common year from 100 on: before 1 March the next birthday is 1 March of that year, and from 1 March on it is 1 March of the next year, even when that year is a leap year |
| AgeCalculator.AgePage.constructor | calculator-net-clone/app/age-calculator/page.tsx:13-22 | no result at first |
| AgeCalculator.AgePage.CalculateAge | calculator-net-clone/app/age-calculator/page.tsx:24-71 | an empty birth date or a birth after the target changes nothing; an empty target date stores the NaN record; otherwise the age is stored |
| DateCalculator.Shift | app/date-calculator/page.tsx:35-39 | a valid date n days after the start for "add", and n days before it for any other operation |
| DateCalculator.SetDateIsShift | app/date-calculator/page.tsx:35-39 | both branches of the handler, setDate(getDate() + n) and setDate(getDate() - n), land on the shifted date |
| DateCalculator.SubtractIsAddNegated | app/date-calculator/page.tsx:35-39 | subtracting n days is adding -n days |
| DateCalculator.ShiftRoundTrip | app/date-calculator/page.tsx:35-39 | adding n days and then subtracting n days returns the start date |
| DateCalculator.ComputeDifference | app/date-calculator/page.tsx:57-80 | the handler's absolute differences and borrow steps compute the difference function |
| DateCalculator.DifferenceDays | app/date-calculator/page.tsx:57-59 | days and weeks do not depend on the order of the dates; days >= 0, weeks is the floor by 7, and days is 0 exactly for equal dates |
| DateCalculator.DifferenceMonths | app/date-calculator/page.tsx:62-74 | the reported month total is 12·years plus a component in 0..11 |
| DateCalculator.YearsAndMonths | app/date-calculator/page.tsx:62-72 | the years and months computed field by field make up the month count, with 0 <= months < 12 |
| DateCalculator.NegativeYears | app/date-calculator/page.tsx:62-72 | years is -1 exactly when both dates share year and month and the second day is smaller; it is never below -1 |
| DateCalculator.LeapYearExample | app/date-calculator/page.tsx:57-80 | 1 January 2024 to 1 March 2024: 60 days, 8 weeks, 2 months, 0 years |
| DateCalculator.DatePage.constructor | app/date-calculator/page.tsx:17-27 | nothing shown at first |
| DateCalculator.DatePage.CalculateDateAddSubtract | app/date-calculator/page.tsx:29-49 | a day count that does not parse changes nothing; otherwise an empty start date shows "Invalid Date" and a start date shows the shifted date |
| DateCalculator.DatePage.CalculateDateDifference | app/date-calculator/page.tsx:51-82 | a missing date changes nothing; otherwise the difference is shown |
| Catalog.Lower | app/page.tsx:265 | toLowerCase keeps the length and lowercases each character |
| Catalog.LowerIdempotent | app/page.tsx:265-270 | lowercasing twice is lowercasing once |
| Catalog.IncludesContains | app/page.tsx:268-270 | the includes scan finds a substring exactly when it occurs |
| Catalog.TrimStart | app/page.tsx:263 | trimming the front leaves a suffix that does not start with space |
| Catalog.TrimEnd | app/page.tsx:263 | trimming the back leaves a prefix that does not end with space |
| Catalog.TrimEmpty | app/page.tsx:263-275 | trimming leaves nothing exactly when the text is all space |
| Catalog.Select | app/page.tsx:266 | filtering never lengthens the list |
| Catalog.SelectMembers | app/page.tsx:266 | the filter keeps exactly the entries that satisfy the predicate, as an order-preserving sub-list |
| Catalog.FilterMembers | app/page.tsx:266-271 | the matching entries are exactly those whose name, category or some keyword contains the query, in catalogue order |
| Catalog.SearchResults | app/page.tsx:262-272| over any catalogue: a blank query gives no results; otherwise the results are the order-preserving sub-list of entries whose lowercased name, category or keyword contains the lowercased, untrimmed query |
| Catalog.SearchIgnoresCase | app/page.tsx:265| over any catalogue, capitals in the query make no difference |
| Catalog.InCategoryMembers | app/page.tsx:291-300 | a category's entries are exactly the entries of that category, in catalogue order |
| Catalog.NoneInCategory | app/page.tsx:294-296 | a category that no entry has gets no group |
| Catalog.GroupStep | app/page.tsx:293-298 | grouping one more entry appends it to its category's group, creating the group when needed |
| Catalog.Push | app/page.tsx:293-298 | the entry's category group is created when missing and the entry appended to it; no other group changes |
| Catalog.GroupByCategory | app/page.tsx:291-300 | the forEach/push loop computes the grouping |
| Catalog.GroupMembers | app/page.tsx:291-300 | every entry is in its own category's group and in no other; groups are non-empty and keep catalogue order |
| Catalog.GroupSizes | app/page.tsx:291-300 | the group sizes add up to the number of entries |
| Catalog.HomePage.constructor | app/page.tsx:259-260 | empty query, results hidden |
| Catalog.HomePage.SetSearchQuery | app/page.tsx:259 | typing changes only the query |
| Catalog.HomePage.HandleSearch | app/page.tsx:274-278 | shows the results only for a query that is not blank; otherwise nothing changes |
| Catalog.HomePage.HandleKeyPress | app/page.tsx:285-289 | Enter searches; any other key does nothing |
| Catalog.HomePage.ClearSearch | app/page.tsx:280-283 | empties the query and hides the results |
| TriangleCalculator.AreaFromBase | app/triangle-calculator/page.tsx:26-31 | a result exactly when base and height are positive, with area b·h/2 |
| TriangleCalculator.RadicandPositive | app/triangle-calculator/page.tsx:41-42 | for a triangle the semiperimeter exceeds every side, so Heron's radicand is positive |
| TriangleCalculator.CosineInRange | app/triangle-calculator/page.tsx:45-46 | for a triangle every law-of-cosines argument lies strictly inside acos's domain (-1, 1) |
| TriangleCalculator.Sort3 | app/triangle-calculator/page.tsx:55 | the sort gives three sides in ascending order |
| TriangleCalculator.Sort3Permutation | app/triangle-calculator/page.tsx:55 | the sorted sides are the three sides, rearranged |
| TriangleCalculator.Sort3Symmetric | app/triangle-calculator/page.tsx:55 | the sort does not depend on the order the sides come in |
| TriangleCalculator.TriangleType | app/triangle-calculator/page.tsx:49-58 | the reassignment of `type` and the " Right" append compute the kind function |
| TriangleCalculator.EqualSidesKind | app/triangle-calculator/page.tsx:50-52 | "Scalene", replaced by "Equilateral" or "Isosceles" exactly as the sides are equal |
| TriangleCalculator.KindParts | app/triangle-calculator/page.tsx:50-58 | the shown kind is the kind by equal sides followed by " Right" exactly when the sorted sides pass the Pythagorean test |
| TriangleCalculator.KindNames | app/triangle-calculator/page.tsx:50-58 | "Equilateral" when all sides are equal, "Isosceles" when exactly some pair is, otherwise "Scalene", with " Right" exactly when the right-angle test holds; the kind does not depend on side order |
| TriangleCalculator.TinyEquilateralRight | app/triangle-calculator/page.tsx:56 | the absolute tolerance of 0.001 labels the 0.01-sided equilateral triangle "Equilateral Right" |
| TriangleCalculator.Solve | app/triangle-calculator/page.tsx:32-67 | a result exactly when all three sides parse, are positive and satisfy the strict triangle inequality |
| TriangleCalculator.SolvedTriangle | app/triangle-calculator/page.tsx:41-64 | perimeter a + b + c, angles adding up to 180, and the kind above |
| TriangleCalculator.SolveSides | app/triangle-calculator/page.tsx:33-66 | the sides branch, step by step, computes the solve function |
| TriangleCalculator.ThreeFourFive | app/triangle-calculator/page.tsx:41-64 | sides 3, 4, 5: perimeter 12, "Scalene Right", radicand 36 |
| TriangleCalculator.UnitEquilateral | app/triangle-calculator/page.tsx:50-52 | sides 1, 1, 1 give "Equilateral" |
| TriangleCalculator.TrianglePage.constructor | app/triangle-calculator/page.tsx:12-23 | area mode and no result at first |
| TriangleCalculator.TrianglePage.SetCalculationType | app/triangle-calculator/page.tsx:12 | changes only the mode |
| TriangleCalculator.TrianglePage.CalculateTriangle | app/triangle-calculator/page.tsx:25-69 | the mode picks the area or the sides computation; a refused input or an unknown mode changes nothing |
| PercentageCalculator.PercentOf | app/percentage-calculator/page.tsx:27-33 | a result exactly when both inputs parse, with 100·r = percent·value |
| PercentageCalculator.WhatPercent | app/percentage-calculator/page.tsx:35-41 | a result exactly when both parse and the total is not 0, with r·total = 100·value |
| PercentageCalculator.QuarterOfTwoHundred | app/percentage-calculator/page.tsx:27-33 | 25% of 200 is 50 |
| PercentageCalculator.PercentRoundTrip | app/percentage-calculator/page.tsx:27-41 | the first two sections undo each other: v is WhatPercent(v, t) percent of t |
| PercentageCalculator.PercentChange | app/percentage-calculator/page.tsx:43-53 | a result exactly when both parse and the old value is not 0; the change is the absolute raw change, and increase holds exactly when the raw change is >= 0 |
| PercentageCalculator.ChangeSize | app/percentage-calculator/page.tsx:47-49 | the reported change times \|old\| is 100·\|new - old\| |
| PercentageCalculator.IncreasePositiveBase | app/percentage-calculator/page.tsx:47-50 | for a positive old value, increase holds exactly when the new value is not smaller |
| PercentageCalculator.NoChange | app/percentage-calculator/page.tsx:47-50 | equal values report a 0% increase |
| PercentageCalculator.NegativeBaseIncrease | app/percentage-calculator/page.tsx:47-50 | with a negative old value the flag inverts: -10 to -5 reports a 50% decrease |
| PercentageCalculator.PercentagePage.constructor | app/percentage-calculator/page.tsx:15-25 | the three results are empty at first |
| PercentageCalculator.PercentagePage.CalculatePercentageOf | app/percentage-calculator/page.tsx:27-33 | sets only its own result, and only when it is defined |
| PercentageCalculator.PercentagePage.CalculateWhatPercent | app/percentage-calculator/page.tsx:35-41 | sets only its own result, and only when it is defined |
| PercentageCalculator.PercentagePage.CalculatePercentageChange | app/percentage-calculator/page.tsx:43-53 | sets only its own result, and only when it is defined |
| Amortization.Amortize | calculator-net-clone/app/mortgage-calculator/page.tsx:29-34 | the payment formula, the total as n payments, and the interest as the total's excess over the principal |
| Amortization.PaymentPositive | calculator-net-clone/app/mortgage-calculator/page.tsx:29-31 | a positive principal at a positive rate has a positive payment |
| Amortization.BalanceClosed | calculator-net-clone/app/mortgage-calculator/page.tsx:29-31 | closed form of the balance after n periods of growth and payment, proved by induction |
| Amortization.BalanceStart | calculator-net-clone/app/mortgage-calculator/page.tsx:29-31 | the closed form of the balance holds before any payment |
| Amortization.BalanceStep | calculator-net-clone/app/mortgage-calculator/page.tsx:29-31 | one period of interest and payment carries the closed form to the next balance |
| Amortization.BalanceClosedStep | calculator-net-clone/app/mortgage-calculator/page.tsx:29-31 | the closed form of the balance after n - 1 periods gives the closed form after n |
| Amortization.PaidOff | calculator-net-clone/app/mortgage-calculator/page.tsx:29-33 | the formula's payment, made k times, pays the loan off exactly |
| Amortization.TotalExceedsPrincipal | calculator-net-clone/app/mortgage-calculator/page.tsx:29-34 | at a positive rate, k >= 1 payments add up to more than the principal, so the interest is positive |
| Amortization.SinglePayment | calculator-net-clone/app/loan-calculator/page.tsx:38-40 | a single payment is the principal with one period's interest |
| MortgageCalculator.Mortgage | calculator-net-clone/app/mortgage-calculator/page.tsx:22-41 | refused unless principal = price - down, the monthly rate and term·12 are positive; NaN for an input that did not parse; otherwise the amortised result over term·12 months at rate/100/12 |
| MortgageCalculator.MortgageRepaid | calculator-net-clone/app/mortgage-calculator/page.tsx:29-34 | an accepted mortgage has a positive payment that repays the principal exactly, with positive total interest |
| MortgageCalculator.EmptyRate | calculator-net-clone/app/mortgage-calculator/page.tsx:24-27 | an empty rate field passes the guard and gives NaN results |
| MortgageCalculator.MortgagePage.constructor | calculator-net-clone/app/mortgage-calculator/page.tsx:16-20 | no result at first |
| MortgageCalculator.MortgagePage.CalculateMortgage | calculator-net-clone/app/mortgage-calculator/page.tsx:22-41 | a refused input changes nothing; otherwise the result is stored |
| AutoLoanCalculator.AutoLoan | calculator-net-clone/app/auto-loan-calculator/page.tsx:25-49 | empty price, down payment, trade-in and tax count as 0 but the rate does not; refused unless the amount financed, the rate and the months are positive; otherwise the amortised result |
| AutoLoanCalculator.AutoLoanRepaid | calculator-net-clone/app/auto-loan-calculator/page.tsx:38-41 | an accepted loan with a rate has a positive payment that repays the amount in the stated months, with positive interest |
| AutoLoanCalculator.EmptyFieldsRefused | calculator-net-clone/app/auto-loan-calculator/page.tsx:26-36 | with all amount fields empty nothing is financed and the input is refused |
| AutoLoanCalculator.FinancedExample | calculator-net-clone/app/auto-loan-calculator/page.tsx:33-34 | a 20000 car with 5% tax, 2000 down and a 3000 trade-in finances 16000 |
| AutoLoanCalculator.AutoLoanPage.constructor | calculator-net-clone/app/auto-loan-calculator/page.tsx:18-23 | no result at first |
| AutoLoanCalculator.AutoLoanPage.CalculateAutoLoan | calculator-net-clone/app/auto-loan-calculator/page.tsx:25-49 | a refused input changes nothing; otherwise the result is stored |
| LoanCalculator.PaymentsPerYear | calculator-net-clone/app/loan-calculator/page.tsx:27-31 | payments per year is one of 52, 26, 12, 4, 1; it is 12 for "monthly" and 1 exactly for "annually" |
| LoanCalculator.Frequency | calculator-net-clone/app/loan-calculator/page.tsx:27-31 | the if-chain computes the payments-per-year function |
| LoanCalculator.Loan | calculator-net-clone/app/loan-calculator/page.tsx:22-50 | refused exactly when the principal, the periodic rate or the number of payments is a number at or below 0; NaN exactly when an accepted input did not parse |
| LoanCalculator.PowAbove | calculator-net-clone/app/loan-calculator/page.tsx:39-40 | the growth factor exceeds 1, so the formula's denominator is not 0 |
| LoanCalculator.LoanPaymentPositive | calculator-net-clone/app/loan-calculator/page.tsx:38-40 | every accepted loan with parsed inputs has a positive payment |
| LoanCalculator.PeriodicRatePositive | calculator-net-clone/app/loan-calculator/page.tsx:33-36 | a positive annual percentage gives a positive rate per period, so the guard on it passes |
| LoanCalculator.WholePayments | calculator-net-clone/app/loan-calculator/page.tsx:33-43 | with a whole number of payments the loan is repaid exactly and the interest is positive |
| LoanCalculator.WholeLoan | calculator-net-clone/app/loan-calculator/page.tsx:33-40 | with a whole number k of payments the handler amortises over k periods with the exact power |
| LoanCalculator.OneAnnualPayment | calculator-net-clone/app/loan-calculator/page.tsx:38-40 | one annual payment repays the amount with one year's interest |
| LoanCalculator.LoanPage.constructor | calculator-net-clone/app/loan-calculator/page.tsx:15-20 | monthly payments and no result at first |
| LoanCalculator.LoanPage.SetPaymentFrequency | calculator-net-clone/app/loan-calculator/page.tsx:15 | changes only the frequency |
| LoanCalculator.LoanPage.CalculateLoan | calculator-net-clone/app/loan-calculator/page.tsx:22-50 | a refused input changes nothing; otherwise the result is stored |
| InterestCalculator.CompoundsPerYear | app/interest-calculator/page.tsx:36-39 | the count is one of 1, 4, 12, 365, and 1 exactly for a frequency other than monthly, quarterly, daily |
| InterestCalculator.Frequency | app/interest-calculator/page.tsx:36-39 | the if-chain computes the compounding count |
| InterestCalculator.CalculateInterest | app/interest-calculator/page.tsx:24-50 | refused exactly when the principal, rate or time is a number at or below 0; NaN exactly when an accepted input did not parse; simple interest = p·rate·t/100, and each total is the principal plus its interest |
| InterestCalculator.BernoulliStrict | app/interest-calculator/page.tsx:41 | (1 + h)^k > 1 + k·h for h > 0 and k >= 2 |
| InterestCalculator.CompoundBeatsSimple | app/interest-calculator/page.tsx:32-42 | with a whole number k of periods the compound total is at least the simple total, so the additional earnings are >= 0, and > 0 from two periods on |
| InterestCalculator.WholeInterest | app/interest-calculator/page.tsx:32-42 | with k = n·t whole periods the result holds the simple figures and the compound total p·(1 + r/n)^k |
| InterestCalculator.GrowthBeatsSimple | app/interest-calculator/page.tsx:32-42 | k = n·t periods at r/n grow by at least 1 + r·t, and strictly more from two periods on |
| InterestCalculator.InterestComparison | app/interest-calculator/page.tsx:32-42 | a growth of at least 1 + r·t makes the compound total at least the simple one and the additional earnings non-negative, positive when the growth is strictly larger |
| InterestCalculator.PeriodsTimesRate | app/interest-calculator/page.tsx:36-41 | n·t periods at the rate r/n add up to the rate r over t years |
| InterestCalculator.ExtraEarnings | app/interest-calculator/page.tsx:32-42 | the additional earnings are p·(g − (1 + r·t)) for the growth g |
| InterestCalculator.OneYearAnnually | app/interest-calculator/page.tsx:36-42 | annual compounding for one year earns exactly the simple interest |
| InterestCalculator.EmptyTime | app/interest-calculator/page.tsx:27-29 | an empty time field passes the guard and gives NaN results |
| InterestCalculator.InterestPage.constructor | app/interest-calculator/page.tsx:16-22 | annual compounding and no result at first |
| InterestCalculator.InterestPage.SetCompoundFrequency | app/interest-calculator/page.tsx:16 | changes only the frequency |
| InterestCalculator.InterestPage.Calculate | app/interest-calculator/page.tsx:24-50 | a refused input changes nothing; otherwise the result is stored |
| BmiCalculator.BmiCategory | app/bmi-calculator/page.tsx:23-28 | each category holds exactly on its band (< 18.5, < 25, < 30, the rest); NaN falls through to "Obese" |
| BmiCalculator.CategoryMonotone | app/bmi-calculator/page.tsx:23-28 | a larger BMI never has a lower category |
| BmiCalculator.ColorsDistinct | app/bmi-calculator/page.tsx:24-27 | two results share a colour exactly when they share a category |
| BmiCalculator.Times | app/bmi-calculator/page.tsx:35-40 | scaling a parsed number; NaN stays NaN |
| BmiCalculator.HeightInMeters | app/bmi-calculator/page.tsx:34-39 | metric: centimetres / 100; imperial: (feet·12 + inches)·0.0254, NaN when either part did not parse |
| BmiCalculator.WeightInKg | app/bmi-calculator/page.tsx:36-40 | metric: as entered; imperial: pounds·0.453592 |
| BmiCalculator.Quetelet | app/bmi-calculator/page.tsx:45 | bmi·height² = weight, and a positive weight gives a positive BMI |
| BmiCalculator.Bmi | app/bmi-calculator/page.tsx:45 | defined exactly when both height and weight parse, with the Quetelet index |
| BmiCalculator.CalculateBmi | app/bmi-calculator/page.tsx:30-53 | refused exactly when the converted height or weight is a number at or below 0; otherwise the BMI and its category, the BMI being positive when it is a number |
| BmiCalculator.UnitsAgree | app/bmi-calculator/page.tsx:34-41 | imperial inputs give the metric result for the same height in centimetres and weight in kilograms |
| BmiCalculator.BoundaryExample | app/bmi-calculator/page.tsx:25-45 | 180 cm and 81 kg give exactly 25, which belongs to "Overweight" |
| BmiCalculator.NormalExample | app/bmi-calculator/page.tsx:25-45 | 175 cm and 70 kg give a BMI between 22.857 and 22.858, "Normal weight" |
| BmiCalculator.EmptyHeightIsObese | app/bmi-calculator/page.tsx:27-46 | an empty height field gives a NaN BMI, labelled "Obese" |
| BmiCalculator.BmiPage.constructor | app/bmi-calculator/page.tsx:16-21 | metric units and no result at first |
| BmiCalculator.BmiPage.SetUnit | app/bmi-calculator/page.tsx:16 | changes only the unit system |
| BmiCalculator.BmiPage.Calculate | app/bmi-calculator/page.tsx:30-53 | a refused input changes nothing; otherwise the result is stored |
| BodyFatCalculator.Log10 | app/body-fat-calculator/page.tsx:59-62 | Math.log10: finite exactly for a positive number, -Infinity exactly for 0, NaN otherwise |
| BodyFatCalculator.Denominator | app/body-fat-calculator/page.tsx:59-62 | the formula's denominator: NaN exactly when a logarithm is NaN, an infinity opposite to the waist logarithm's, or the finite sum |
| BodyFatCalculator.Percent | app/body-fat-calculator/page.tsx:59-62 | 495 / d - 450: an infinite d gives -450, a zero d gives +Infinity, and otherwise (r + 450)·d = 495 |
| BodyFatCalculator.BodyFatCategory | app/body-fat-calculator/page.tsx:28-42 | each category holds exactly on its band for the gender (men 6/14/18/25, anyone else 14/21/25/32); NaN and +Infinity fall through to "Obese" |
| BodyFatCalculator.CategoryMonotone | app/body-fat-calculator/page.tsx:28-42 | a larger percentage never has a lower category |
| BodyFatCalculator.FemaleRanksLower | app/body-fat-calculator/page.tsx:28-42 | for the same percentage the female band is never later than the male band |
| BodyFatCalculator.FatMass | app/body-fat-calculator/page.tsx:66 | 100·fat mass = percentage·weight, with infinities and NaN carried through |
| BodyFatCalculator.LeanMass | app/body-fat-calculator/page.tsx:67 | lean mass + fat mass = weight |
| BodyFatCalculator.CalculateBodyFat | app/body-fat-calculator/page.tsx:44-76 | refused exactly by the two guards (a female also needs a positive hip); otherwise the percentage by the gender's formula (waist - neck for men, waist + hip - neck otherwise), its category and the mass split |
| BodyFatCalculator.MaleIgnoresHip | app/body-fat-calculator/page.tsx:52-59 | for a man the hip field makes no difference |
| BodyFatCalculator.WaistEqualsNeck | app/body-fat-calculator/page.tsx:59-67 | a man with waist equal to neck gets -450%, "Essential Fat", and a fat mass of -4.5 times the weight |
| BodyFatCalculator.WaistBelowNeck | app/body-fat-calculator/page.tsx:59-67 | a man with waist below neck gets NaN figures, labelled "Obese" |
| BodyFatCalculator.BodyFatPage.constructor | app/body-fat-calculator/page.tsx:13-26 | male and no result at first |
| BodyFatCalculator.BodyFatPage.SetGender | app/body-fat-calculator/page.tsx:13 | changes only the gender |
| BodyFatCalculator.BodyFatPage.Calculate | app/body-fat-calculator/page.tsx:44-76 | a refused input changes nothing; otherwise the result is stored |
| IdealWeightCalculator.HeightInCm | app/ideal-weight-calculator/page.tsx:29-34 | metric: as entered; imperial: (feet·12 + inches)·2.54, NaN when either part did not parse |
| IdealWeightCalculator.CalculateIdealWeight | app/ideal-weight-calculator/page.tsx:26-84 | refused exactly for a height at or below 0 cm; NaN exactly when the height did not parse; otherwise the four formulas at the height in inches and 18.5·m², 24.9·m² at the height in metres |
| IdealWeightCalculator.FiveFeet | app/ideal-weight-calculator/page.tsx:38-70 | at 152.4 cm every formula gives its base weight |
| IdealWeightCalculator.TallerHeavier | app/ideal-weight-calculator/page.tsx:40-70 | every formula gives a taller person of the same gender more weight |
| IdealWeightCalculator.DevineGap | app/ideal-weight-calculator/page.tsx:58-62 | Devine's female weight is the male weight minus 4.5 kg at every height |
| IdealWeightCalculator.MaleAboveFemale | app/ideal-weight-calculator/page.tsx:40-70 | from five feet up, every formula gives a man more than a woman of the same height |
| IdealWeightCalculator.ImperialInches | app/ideal-weight-calculator/page.tsx:32-38 | converting to centimetres and back returns the total inches |
| IdealWeightCalculator.HealthyRangeIsNormalBmi | app/ideal-weight-calculator/page.tsx:72-75 | the healthy minimum and maximum have BMI exactly 18.5 and 24.9 on the BMI page, both "Normal weight", and min < max |
| IdealWeightCalculator.IdealWeightPage.constructor | app/ideal-weight-calculator/page.tsx:13-24 | male, metric and no result at first |
| IdealWeightCalculator.IdealWeightPage.SetGender | app/ideal-weight-calculator/page.tsx:13 | changes only the gender |
| IdealWeightCalculator.IdealWeightPage.SetUnit | app/ideal-weight-calculator/page.tsx:17 | changes only the unit system |
| IdealWeightCalculator.IdealWeightPage.Calculate | app/ideal-weight-calculator/page.tsx:26-84 | a refused input changes nothing; otherwise the result is stored |
| CalorieCalculator.Bmr | calculator-net-clone/app/calorie-calculator/page.tsx:35-39 | Mifflin-St Jeor: 10w + 6.25h - 5a, plus 5 for "male" and minus 161 otherwise |
| CalorieCalculator.Multiplier | calculator-net-clone/app/calorie-calculator/page.tsx:42-50 | a multiplier exactly for the five levels, between 1.2 and 1.9 |
| CalorieCalculator.Tdee | calculator-net-clone/app/calorie-calculator/page.tsx:42-50 | the daily expenditure is defined exactly when the BMR is and the level is known, and is the BMR times the level's multiplier |
| CalorieCalculator.MultipliersIncrease | calculator-net-clone/app/calorie-calculator/page.tsx:42-48 | each level's multiplier exceeds the one before |
| CalorieCalculator.GoalAdjustment | calculator-net-clone/app/calorie-calculator/page.tsx:53-73 | -250, -500, +250, +500 with their descriptions for the four goals; 0 and "Maintain current weight" for any other |
| CalorieCalculator.ApplyGoal | calculator-net-clone/app/calorie-calculator/page.tsx:53-73 | the switch computes the goal intake and description; NaN stays NaN |
| CalorieCalculator.CalculateCalories | calculator-net-clone/app/calorie-calculator/page.tsx:26-81 | refused exactly when age, height or weight is a number at or below 0; otherwise BMR, TDEE = BMR·multiplier and the goal intake, each NaN exactly when an input it needs is |
| CalorieCalculator.CalculatedInSteps | calculator-net-clone/app/calorie-calculator/page.tsx:26-81 | the BMR, expenditure, goal and description computed one by one are the handler's result |
| CalorieCalculator.GenderGap | calculator-net-clone/app/calorie-calculator/page.tsx:35-39 | a man's BMR exceeds a woman's by 166 kcal |
| CalorieCalculator.BmrSlopes | calculator-net-clone/app/calorie-calculator/page.tsx:36-38 | one kilogram adds 10, one centimetre 6.25, one year takes away 5 |
| CalorieCalculator.MoreActiveHigherTdee | calculator-net-clone/app/calorie-calculator/page.tsx:42-50 | with a positive BMR, a more active level has a higher expenditure |
| CalorieCalculator.GoalDirection | calculator-net-clone/app/calorie-calculator/page.tsx:56-73 | losing goals are below the expenditure and gaining goals above it |
| CalorieCalculator.Example | calculator-net-clone/app/calorie-calculator/page.tsx:31-80 | a 30-year-old man of 180 cm and 80 kg, sedentary, losing slowly: 1780, 2136, 1886 |
| CalorieCalculator.UnknownActivity | calculator-net-clone/app/calorie-calculator/page.tsx:50 | an activity level without a multiplier keeps the BMR and makes the rest NaN |
| CalorieCalculator.CaloriePage.constructor | calculator-net-clone/app/calorie-calculator/page.tsx:14-24 | male, sedentary, maintain and no result at first |
| CalorieCalculator.CaloriePage.SetGender | calculator-net-clone/app/calorie-calculator/page.tsx:14 | changes only the gender |
| CalorieCalculator.CaloriePage.SetActivityLevel | calculator-net-clone/app/calorie-calculator/page.tsx:17 | changes only the activity level |
| CalorieCalculator.CaloriePage.SetGoal | calculator-net-clone/app/calorie-calculator/page.tsx:18 | changes only the goal |
| CalorieCalculator.CaloriePage.Calculate | calculator-net-clone/app/calorie-calculator/page.tsx:26-81 | a refused input changes nothing; otherwise the BMR, TDEE and goal switch are stored |

## Left out

- Rendering and everything that only decides what is drawn: JSX, styling, icons, links, tabs, sliders.
- Display formatting (`toFixed`, `toLocaleString`, `toLocaleDateString`, `String(number)` in the calculator display beyond an uninterpreted function). Results are kept as exact values.
- Text parsing: `Number.parseFloat` and `Number.parseInt` are not modelled. Inputs arrive already parsed, and a field that does not parse is `None`. The scientific calculator's `parseFloat(display)` is an uninterpreted function.
- IEEE-754 rounding, signed zero and infinite inputs. Numbers are exact reals, so equalities such as the triangle's `a === b` hold exactly rather than after rounding.
- Time zones, daylight saving time and millisecond time values. Dates are Gregorian (year, month, day) triples with a day number.
- Clipboard access in the password page (asynchronous browser I/O).
- The distribution of `Math.random`. It is a sequence of draws; fairness is not modelled.
- RandomNumberGenerator.RandomPage.GenerateNumbers: when the rejection loop would need more draws than the sequence holds, the model gives up without changing the page. The source would keep drawing.
- RandomNumberGenerator.RandomPage.GenerateNumbers: the min and max fields are taken as parsed integers. A non-numeric min or max, which the guard does not refuse in the source, is not modelled.
- ScientificCalculator.Calculator.PerformFunction: requires a display value other than +Infinity for "x!", because the source's factorial loop never ends there.
- ScientificCalculator.NumLib: sin, cos, tan, their inverses, ln, log, √, ∛, e^x, 10^x and the constants π and e are uninterpreted.
- TriangleCalculator.Solve: Math.sqrt and Math.acos are uninterpreted, so the area and angle values themselves are not computed. What is proved is that their arguments are in range and that the angles sum to 180.
- BodyFatCalculator.Log10: Math.log10 is uninterpreted, so the percentage is exact only in the cases where the logarithm's value does not matter.
- BodyFatCalculator.CalculateBodyFat: the age field is read by the page but no formula uses it, so it is not an input of the model.
- InterestCalculator.CalculateInterest: when n·t is not a whole number, Math.pow is uninterpreted; the comparison with simple interest is proved only for whole numbers of periods.
- LoanCalculator.Loan: when the number of payments is not a whole number, Math.pow is uninterpreted. It is assumed to exceed 1 for a base above 1 and a positive exponent (the `PowAboveOne` precondition).
- BmiCalculator.CalculateBmi: no dimensional scaling lemma (the BMI of a scaled body) is stated.
- CalorieCalculator.Multiplier: an activity level that names a property of JavaScript's object prototype (such as "toString") is modelled as having no multiplier. That gives NaN, as it does in the source.
- GpaCalculator.GpaPage.UpdateCourse: editing the "id" field is not modelled. The inputs only edit name, grade and credits.
- GpaCalculator.GradePoints: a grade scale other than "4.0" and "5.0" cannot be selected, so it is not modelled.
- Catalog.Lower: ASCII lowercasing only; Unicode case mapping is not modelled.
- Catalog: the routes of entries whose pages are not in the repository, and the order in which the home page displays the groups (groups are a map).
- React specifics: setter batching and closures. Each handler is a sequential method on the page's state.
