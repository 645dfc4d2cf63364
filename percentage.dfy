/**
 * The percentage calculator: X% of Y, X as a percentage of Y, and the
 * percentage change from an old to a new value.  An input that does not
 * parse is None.
 */
module PercentageCalculator {
  import opened Common

  /** X% of Y: (X / 100) * Y whenever both parse. */
  function PercentOf(percent: Option<real>, value: Option<real>): (r: Option<real>)
    ensures r.Some? <==> percent.Some? && value.Some?
    ensures r.Some? ==> 100.0 * r.value == percent.value * value.value
  {
    if percent.Some? && value.Some? then Some((percent.value / 100.0) * value.value) else None
  }

  /** X as a percentage of Y: refused for a total of 0. */
  function WhatPercent(value: Option<real>, total: Option<real>): (r: Option<real>)
    ensures r.Some? <==> value.Some? && total.Some? && total.value != 0.0
    ensures r.Some? ==> r.value * total.value == 100.0 * value.value
  {
    if value.Some? && total.Some? && total.value != 0.0 then
      Some((value.value / total.value) * 100.0)
    else None
  }

  /** 25% of 200 is 50. */
  lemma QuarterOfTwoHundred()
    ensures PercentOf(Some(25.0), Some(200.0)) == Some(50.0)
  {
  }

  /** The two first sections undo each other: v is WhatPercent(v, t) percent of t. */
  lemma PercentRoundTrip(v: real, t: real)
    requires t != 0.0
    ensures PercentOf(WhatPercent(Some(v), Some(t)), Some(t)) == Some(v)
  {
    var p := WhatPercent(Some(v), Some(t)).value;
    assert p * t == 100.0 * v;
    assert PercentOf(Some(p), Some(t)).value == v;
  }

  datatype Change = Change(change: real, increase: bool)

  /** The signed change in percent before its absolute value is taken. */
  function RawChange(oldVal: real, newVal: real): real
    requires oldVal != 0.0
  {
    ((newVal - oldVal) / oldVal) * 100.0
  }

  /** The change section: refused for an old value of 0; the size of the change and its sign. */
  function PercentChange(oldVal: Option<real>, newVal: Option<real>): (r: Option<Change>)
    ensures r.Some? <==> oldVal.Some? && newVal.Some? && oldVal.value != 0.0
    ensures r.Some? ==>
      && r.value.change >= 0.0
      && r.value.increase == (RawChange(oldVal.value, newVal.value) >= 0.0)
      && r.value.change * Abs(oldVal.value) == 100.0 * Abs(newVal.value - oldVal.value)
  {
    if oldVal.Some? && newVal.Some? && oldVal.value != 0.0 then
      var change := RawChange(oldVal.value, newVal.value);
      ChangeSize(oldVal.value, newVal.value);
      Some(Change(Abs(change), change >= 0.0))
    else None
  }

  lemma ChangeSize(o: real, n: real)
    requires o != 0.0
    ensures Abs(RawChange(o, n)) * Abs(o) == 100.0 * Abs(n - o)
  {
    var q := (n - o) / o;
    assert q * o == n - o;
    if o > 0.0 {
      if q >= 0.0 {
        assert Abs(q * 100.0) * Abs(o) == q * o * 100.0;
      } else {
        assert Abs(q * 100.0) * Abs(o) == -(q * o) * 100.0;
      }
    } else {
      if q >= 0.0 {
        assert Abs(q * 100.0) * Abs(o) == -(q * o) * 100.0;
      } else {
        assert Abs(q * 100.0) * Abs(o) == q * o * 100.0;
      }
    }
  }

  /** For a positive old value the change is an increase exactly when the new value is not smaller. */
  lemma IncreasePositiveBase(o: real, n: real)
    requires o > 0.0
    ensures PercentChange(Some(o), Some(n)).value.increase <==> n >= o
  {
    var q := (n - o) / o;
    assert q * o == n - o;
  }

  /** Equal values report a 0% increase. */
  lemma NoChange(o: real)
    requires o != 0.0
    ensures PercentChange(Some(o), Some(o)) == Some(Change(0.0, true))
  {
  }

  /**
   * For a negative old value the sign is inverted: from -10 to -5 the value
   * rises, yet the change is 50% with increase false.
   */
  lemma NegativeBaseIncrease()
    ensures PercentChange(Some(-10.0), Some(-5.0)) == Some(Change(50.0, false))
  {
    assert RawChange(-10.0, -5.0) == -50.0;
  }

  /** The page: one result per section. */
  class PercentagePage {
    var result1: Option<real>
    var result2: Option<real>
    var result3: Option<Change>

    constructor ()
      ensures result1 == None && result2 == None && result3 == None
    {
      result1, result2, result3 := None, None, None;
    }

    method CalculatePercentageOf(percent: Option<real>, value: Option<real>)
      modifies this
      ensures result1 == if PercentOf(percent, value).Some? then PercentOf(percent, value) else old(result1)
      ensures result2 == old(result2) && result3 == old(result3)
    {
      if percent.Some? && value.Some? {
        var r := (percent.value / 100.0) * value.value;
        assert PercentOf(percent, value).value == r;
        result1 := Some(r);
      }
    }

    method CalculateWhatPercent(value: Option<real>, total: Option<real>)
      modifies this
      ensures result2 == if WhatPercent(value, total).Some? then WhatPercent(value, total) else old(result2)
      ensures result1 == old(result1) && result3 == old(result3)
    {
      if value.Some? && total.Some? && total.value != 0.0 {
        var r := (value.value / total.value) * 100.0;
        assert WhatPercent(value, total).value == r;
        result2 := Some(r);
      }
    }

    method CalculatePercentageChange(oldVal: Option<real>, newVal: Option<real>)
      modifies this
      ensures result3 == if PercentChange(oldVal, newVal).Some? then PercentChange(oldVal, newVal) else old(result3)
      ensures result1 == old(result1) && result2 == old(result2)
    {
      if oldVal.Some? && newVal.Some? && oldVal.value != 0.0 {
        var change := ((newVal.value - oldVal.value) / oldVal.value) * 100.0;
        assert PercentChange(oldVal, newVal).value == Change(Abs(change), change >= 0.0);
        result3 := Some(Change(Abs(change), change >= 0.0));
      }
    }
  }
}
