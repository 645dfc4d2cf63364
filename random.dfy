/**
 * The random number generator: a batch of integers in [min, max], optionally
 * without repeats (a rejection loop redraws a number already used), and a
 * history of the last ten batches.  Math.random() is replaced by a sequence
 * of draws in [0, 1); a rejection loop that would need more draws than the
 * sequence holds makes the model give up without changing anything.
 */
module RandomNumberGenerator {
  import opened Common

  /** r with xs put in front of its batch. */
  function Prefix(xs: seq<int>, r: Option<seq<int>>): (p: Option<seq<int>>)
    ensures p.Some? <==> r.Some?
    ensures p.Some? ==>
      |p.value| == |xs| + |r.value| && p.value[..|xs|] == xs && p.value[|xs|..] == r.value
  {
    if r.Some? then Some(xs + r.value) else None
  }

  lemma PrefixPrefix(a: seq<int>, b: seq<int>, r: Option<seq<int>>)
    ensures Prefix(a, Prefix(b, r)) == Prefix(a + b, r)
  {
    if r.Some? {
      assert a + (b + r.value) == (a + b) + r.value;
    }
  }

  /**
   * The batch the draws produce: each accepted draw gives floor(r * range) + min;
   * without repeats, a number already in used is rejected and the next draw tried.
   * None when the draws run out before count numbers are accepted.
   */
  function Generate(min: int, range: nat, count: nat, allowDuplicates: bool,
                    draws: seq<real>, used: set<int>): Option<seq<int>>
    requires range > 0 && forall i :: 0 <= i < |draws| ==> 0.0 <= draws[i] < 1.0
    decreases |draws|
  {
    if count == 0 then Some([])
    else if draws == [] then None
    else
      var x := DrawIndex(draws[0], range) + min;
      if allowDuplicates then
        Prefix([x], Generate(min, range, count - 1, true, draws[1..], used))
      else if x in used then
        Generate(min, range, count, false, draws[1..], used)
      else
        Prefix([x], Generate(min, range, count - 1, false, draws[1..], used + {x}))
  }

  /** The generation loop, with its inner do-while for the no-repeat case. */
  method GenerateBatch(min: int, range: nat, count: nat, allowDuplicates: bool, draws: seq<real>)
    returns (r: Option<seq<int>>)
    requires range > 0 && forall i :: 0 <= i < |draws| ==> 0.0 <= draws[i] < 1.0
    ensures r == Generate(min, range, count, allowDuplicates, draws, {})
  {
    var newNumbers: seq<int> := [];
    var used: set<int> := {};
    var k := 0;
    var i := 0;
    ghost var whole := Generate(min, range, count, allowDuplicates, draws, {});
    while i < count
      invariant 0 <= i <= count && 0 <= k <= |draws|
      invariant allowDuplicates ==> used == {}
      invariant whole == Prefix(newNumbers, Generate(min, range, count - i, allowDuplicates, draws[k..], used))
      decreases count - i
    {
      var found, x, next, after := DrawNumber(min, range, count - i, allowDuplicates, draws, k, used);
      if !found {
        return None;
      }
      PrefixPrefix(newNumbers, [x], Generate(min, range, count - i - 1, allowDuplicates, draws[next..], after));
      newNumbers, k, used := newNumbers + [x], next, after;
      i := i + 1;
    }
    assert newNumbers + [] == newNumbers;
    r := Some(newNumbers);
  }

  /**
   * One pass of the loop: a single draw when repeats are allowed, the
   * do-while otherwise, which also marks the number used.  Not found when
   * the draws run out, which is when the rest of the batch cannot be made.
   */
  method DrawNumber(min: int, range: nat, c: nat, allowDuplicates: bool, draws: seq<real>, k: nat, used: set<int>)
    returns (found: bool, x: int, next: nat, after: set<int>)
    requires range > 0 && forall i :: 0 <= i < |draws| ==> 0.0 <= draws[i] < 1.0
    requires c > 0 && k <= |draws|
    ensures !found ==> Generate(min, range, c, allowDuplicates, draws[k..], used) == None
    ensures found ==> k < next <= |draws| && after == if allowDuplicates then used else used + {x}
    ensures found ==>
      Generate(min, range, c, allowDuplicates, draws[k..], used)
        == Prefix([x], Generate(min, range, c - 1, allowDuplicates, draws[next..], after))
  {
    if k == |draws| {
      assert draws[k..] == [];
      return false, 0, k, used;
    }
    if allowDuplicates {
      x := DrawIndex(draws[k], range) + min;
      RepeatStep(min, range, c, allowDuplicates, draws, k, used);
      found, next, after := true, k + 1, used;
    } else {
      found, x, next := DrawUnused(min, range, c, draws, k, used);
      after := used + {x};
    }
  }

  /**
   * The do-while of the no-repeat case: draws from position k until a number
   * not in used comes up, and reports where the next draw starts.  Not found
   * when the draws run out, which is when the rest of the batch cannot be made.
   */
  method DrawUnused(min: int, range: nat, c: nat, draws: seq<real>, k: nat, used: set<int>)
    returns (found: bool, x: int, next: nat)
    requires range > 0 && forall i :: 0 <= i < |draws| ==> 0.0 <= draws[i] < 1.0
    requires c > 0 && k < |draws|
    ensures !found ==> Generate(min, range, c, false, draws[k..], used) == None
    ensures found ==> k < next <= |draws| && x !in used && x == DrawIndex(draws[next - 1], range) + min
    ensures found ==>
      Generate(min, range, c, false, draws[k..], used)
        == Prefix([x], Generate(min, range, c - 1, false, draws[next..], used + {x}))
  {
    next := k;
    x := DrawIndex(draws[next], range) + min;
    while x in used
      invariant k <= next < |draws|
      invariant x == DrawIndex(draws[next], range) + min
      invariant Generate(min, range, c, false, draws[k..], used) == Generate(min, range, c, false, draws[next..], used)
      decreases |draws| - next
    {
      RejectStep(min, range, c, draws, next, used);
      next := next + 1;
      if next == |draws| {
        assert draws[next..] == [];
        return false, x, next;
      }
      x := DrawIndex(draws[next], range) + min;
    }
    AcceptStep(min, range, c, draws, next, used);
    next := next + 1;
    found := true;
  }

  /** With repeats allowed, the draw at j is taken. */
  lemma RepeatStep(min: int, range: nat, c: nat, allowDuplicates: bool, draws: seq<real>, j: nat, used: set<int>)
    requires range > 0 && forall i :: 0 <= i < |draws| ==> 0.0 <= draws[i] < 1.0
    requires c > 0 && j < |draws| && allowDuplicates
    ensures Generate(min, range, c, allowDuplicates, draws[j..], used)
      == Prefix([DrawIndex(draws[j], range) + min], Generate(min, range, c - 1, allowDuplicates, draws[j + 1..], used))
  {
    assert draws[j..][1..] == draws[j + 1..];
  }

  /** Without repeats, a draw at j already used is rejected. */
  lemma RejectStep(min: int, range: nat, c: nat, draws: seq<real>, j: nat, used: set<int>)
    requires range > 0 && forall i :: 0 <= i < |draws| ==> 0.0 <= draws[i] < 1.0
    requires c > 0 && j < |draws| && DrawIndex(draws[j], range) + min in used
    ensures Generate(min, range, c, false, draws[j..], used) == Generate(min, range, c, false, draws[j + 1..], used)
  {
    assert draws[j..][1..] == draws[j + 1..];
  }

  /** Without repeats, a fresh draw at j is taken and becomes used. */
  lemma AcceptStep(min: int, range: nat, c: nat, draws: seq<real>, j: nat, used: set<int>)
    requires range > 0 && forall i :: 0 <= i < |draws| ==> 0.0 <= draws[i] < 1.0
    requires c > 0 && j < |draws| && DrawIndex(draws[j], range) + min !in used
    ensures var x := DrawIndex(draws[j], range) + min;
      Generate(min, range, c, false, draws[j..], used)
        == Prefix([x], Generate(min, range, c - 1, false, draws[j + 1..], used + {x}))
  {
    assert draws[j..][1..] == draws[j + 1..];
  }

  /** A batch has exactly count numbers, each in [min, min + range - 1]. */
  lemma {:induction false} GenerateShape(min: int, range: nat, count: nat, allowDuplicates: bool,
                                         draws: seq<real>, used: set<int>)
    requires range > 0 && forall i :: 0 <= i < |draws| ==> 0.0 <= draws[i] < 1.0
    requires Generate(min, range, count, allowDuplicates, draws, used).Some?
    ensures var b := Generate(min, range, count, allowDuplicates, draws, used).value;
      |b| == count && forall j :: 0 <= j < |b| ==> min <= b[j] <= min + range - 1
    decreases |draws|
  {
    if count > 0 {
      var x := DrawIndex(draws[0], range) + min;
      if allowDuplicates {
        GenerateShape(min, range, count - 1, true, draws[1..], used);
      } else if x in used {
        GenerateShape(min, range, count, false, draws[1..], used);
      } else {
        GenerateShape(min, range, count - 1, false, draws[1..], used + {x});
      }
    }
  }

  /** Without repeats, the batch is pairwise distinct and avoids every number already used. */
  lemma {:induction false} GenerateDistinct(min: int, range: nat, count: nat,
                                            draws: seq<real>, used: set<int>)
    requires range > 0 && forall i :: 0 <= i < |draws| ==> 0.0 <= draws[i] < 1.0
    requires Generate(min, range, count, false, draws, used).Some?
    ensures var b := Generate(min, range, count, false, draws, used).value;
      (forall j :: 0 <= j < |b| ==> b[j] !in used)
      && (forall j, l :: 0 <= j < l < |b| ==> b[j] != b[l])
    decreases |draws|
  {
    if count > 0 {
      var x := DrawIndex(draws[0], range) + min;
      if x in used {
        GenerateDistinct(min, range, count, draws[1..], used);
      } else {
        GenerateDistinct(min, range, count - 1, draws[1..], used + {x});
        var rest := Generate(min, range, count - 1, false, draws[1..], used + {x}).value;
        var b := [x] + rest;
        assert forall j :: 1 <= j < |b| ==> b[j] == rest[j - 1];
      }
    }
  }

  /** With repeats allowed, count draws always suffice. */
  lemma {:induction false} GenerateEnoughDraws(min: int, range: nat, count: nat,
                                               draws: seq<real>, used: set<int>)
    requires range > 0 && forall i :: 0 <= i < |draws| ==> 0.0 <= draws[i] < 1.0
    requires |draws| >= count
    ensures Generate(min, range, count, true, draws, used).Some?
    decreases count
  {
    if count > 0 {
      GenerateEnoughDraws(min, range, count - 1, draws[1..], used);
    }
  }

  /** The handler's guards: refused when min >= max, count <= 0, or too few values for no repeats. */
  predicate Refused(minNum: int, maxNum: int, countNum: Option<int>, allowDuplicates: bool)
  {
    minNum >= maxNum
    || (countNum.Some? && countNum.value <= 0)
    || (!allowDuplicates && countNum.Some? && countNum.value > maxNum - minNum + 1)
  }

  /** The history after a batch: the batch, then the first nine older batches in order. */
  function PushHistory(batch: seq<int>, history: seq<seq<int>>): (r: seq<seq<int>>)
    ensures |r| == (if |history| < 9 then |history| else 9) + 1 && |r| <= 10
    ensures r[0] == batch
    ensures forall j :: 1 <= j < |r| ==> r[j] == history[j - 1]
  {
    [batch] + history[..if |history| < 9 then |history| else 9]
  }

  /** The page: the current batch and the history of batches. */
  class RandomPage {
    var results: seq<int>
    var history: seq<seq<int>>

    constructor ()
      ensures results == [] && history == []
    {
      results := [];
      history := [];
    }

    /**
     * The Generate button.  A count that does not parse passes the guards and
     * gives an empty batch.
     */
    method GenerateNumbers(minNum: int, maxNum: int, countNum: Option<int>, allowDuplicates: bool,
                           draws: seq<real>)
      requires forall i :: 0 <= i < |draws| ==> 0.0 <= draws[i] < 1.0
      modifies this
      ensures Refused(minNum, maxNum, countNum, allowDuplicates) ==>
        results == old(results) && history == old(history)
      ensures !Refused(minNum, maxNum, countNum, allowDuplicates) ==>
        var count := if countNum.Some? then countNum.value else 0;
        var batch := Generate(minNum, maxNum - minNum + 1, count, allowDuplicates, draws, {});
        if batch.None? then results == old(results) && history == old(history)
        else results == batch.value && history == PushHistory(batch.value, old(history))
    {
      if minNum >= maxNum || (countNum.Some? && countNum.value <= 0) {
        return;
      }
      var range := maxNum - minNum + 1;
      if !allowDuplicates && countNum.Some? && countNum.value > range {
        return;
      }
      var count := if countNum.Some? then countNum.value else 0;
      var batch := GenerateBatch(minNum, range, count, allowDuplicates, draws);
      if batch.None? {
        return;
      }
      results := batch.value;
      history := PushHistory(batch.value, history);
    }
  }

  /** Every accepted batch has count numbers in [min, max], distinct when repeats are off. */
  lemma AcceptedBatch(minNum: int, maxNum: int, count: nat, allowDuplicates: bool, draws: seq<real>)
    requires minNum < maxNum && forall i :: 0 <= i < |draws| ==> 0.0 <= draws[i] < 1.0
    requires Generate(minNum, maxNum - minNum + 1, count, allowDuplicates, draws, {}).Some?
    ensures var b := Generate(minNum, maxNum - minNum + 1, count, allowDuplicates, draws, {}).value;
      && |b| == count
      && (forall j :: 0 <= j < |b| ==> minNum <= b[j] <= maxNum)
      && (!allowDuplicates ==> forall j, l :: 0 <= j < l < |b| ==> b[j] != b[l])
  {
    GenerateShape(minNum, maxNum - minNum + 1, count, allowDuplicates, draws, {});
    if !allowDuplicates {
      GenerateDistinct(minNum, maxNum - minNum + 1, count, draws, {});
    }
  }
}
