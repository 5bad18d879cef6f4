/**
 Multiplicative adjustment passes. Both UK pathways adjust a score with a
 fixed sequence of `if (flag) score *= factor` steps; an unset flag is the
 factor 1. This module models such a pass as a left-to-right fold over the
 step factors and relates it to the product of the factors.
 */
module Factors {
  import opened JsSemantics

  /** A flag's factor: `factor` when the flag is set, 1 otherwise. */
  function FlagFactor(isSet: bool, factor: real): real {
    if isSet then factor else 1.0
  }

  /** A percentage bonus's factor: 1 + bonus/100 when the bonus is truthy,
      1 otherwise. */
  function BonusFactor(bonus: Option<real>): real {
    if Truthy(bonus) then 1.0 + bonus.value / 100.0 else 1.0
  }

  /** The product of a sequence of factors (1 for no factors). */
  function Product(factors: seq<real>): real
    decreases |factors|
  {
    if factors == [] then 1.0 else factors[0] * Product(factors[1..])
  }

  /** `score *= f` for each factor `f`, in order. */
  function ApplyInOrder(score: real, factors: seq<real>): real
    decreases |factors|
  {
    if factors == [] then score else ApplyInOrder(score * factors[0], factors[1..])
  }

  /** Applying the steps in order multiplies the score by their product. */
  lemma {:induction false} ApplyInOrderIsProduct(score: real, factors: seq<real>)
    ensures ApplyInOrder(score, factors) == score * Product(factors)
    decreases |factors|
  {
    if factors != [] {
      ApplyInOrderIsProduct(score * factors[0], factors[1..]);
      assert (score * factors[0]) * Product(factors[1..]) == score * (factors[0] * Product(factors[1..]));
    }
  }

  /** Turning one step that was the identity into the factor `x` multiplies
      the product by `x`, wherever the step is. */
  lemma {:induction false} ProductReplaceOne(factors: seq<real>, i: nat, x: real)
    requires i < |factors| && factors[i] == 1.0
    ensures Product(factors[i := x]) == x * Product(factors)
    decreases i
  {
    if i == 0 {
      assert factors[i := x][1..] == factors[1..];
    } else {
      assert factors[i := x][1..] == factors[1..][i - 1 := x];
      ProductReplaceOne(factors[1..], i - 1, x);
      assert factors[i := x][0] == factors[0];
      assert factors[0] * (x * Product(factors[1..])) == x * (factors[0] * Product(factors[1..]));
    }
  }

  /** A product of positive factors is positive. */
  lemma {:induction false} ProductOfPositivesIsPositive(factors: seq<real>)
    requires forall i :: 0 <= i < |factors| ==> factors[i] > 0.0
    ensures Product(factors) > 0.0
    decreases |factors|
  {
    if factors != [] {
      ProductOfPositivesIsPositive(factors[1..]);
      assert factors[0] > 0.0;
    }
  }

  /** Products of non-negative factors are monotone in every factor: a
      sequence squeezed elementwise between two others has its product
      squeezed between theirs. */
  lemma ProductBetween(lo: seq<real>, factors: seq<real>, hi: seq<real>)
    requires |lo| == |factors| == |hi|
    requires forall i :: 0 <= i < |factors| ==> 0.0 <= lo[i] <= factors[i] <= hi[i]
    ensures 0.0 <= Product(lo) <= Product(factors) <= Product(hi)
  {
    ProductMonotone(lo, factors);
    ProductMonotone(factors, hi);
  }

  /** A product of non-negative factors grows when every factor does. */
  lemma {:induction false} ProductMonotone(lo: seq<real>, hi: seq<real>)
    requires |lo| == |hi|
    requires forall i :: 0 <= i < |lo| ==> 0.0 <= lo[i] <= hi[i]
    ensures 0.0 <= Product(lo) <= Product(hi)
    decreases |lo|
  {
    if lo != [] {
      var lo', hi' := lo[1..], hi[1..];
      forall i | 0 <= i < |lo'|
        ensures 0.0 <= lo'[i] <= hi'[i]
      {
        assert lo'[i] == lo[i + 1] && hi'[i] == hi[i + 1];
      }
      ProductMonotone(lo', hi');
      MultiplyMonotone(lo[0], hi[0], Product(lo'), Product(hi'));
    }
  }

  /** Multiplying two non-negative bounds gives a bound. */
  lemma MultiplyMonotone(a: real, b: real, x: real, y: real)
    requires 0.0 <= a <= b && 0.0 <= x <= y
    ensures 0.0 <= a * x <= b * y
  {
    ScaleMonotone(a, 0.0, x);
    calc {
      a * x;
    <= { ScaleRight(a, b, x); }
      b * x;
    <= { ScaleMonotone(b, x, y); }
      b * y;
    }
  }

  /** Multiplying by a non-negative number keeps an inequality. */
  lemma ScaleMonotone(k: real, x: real, y: real)
    requires k >= 0.0 && x <= y
    ensures k * x <= k * y
  {
    assert k * y - k * x == k * (y - x);
  }

  /** The same, with the non-negative number on the right. */
  lemma ScaleRight(x: real, y: real, k: real)
    requires k >= 0.0 && x <= y
    ensures x * k <= y * k
  {
    assert y * k - x * k == (y - x) * k;
  }

  /** A non-negative score passed through steps whose product lies between
      two bounds ends between the score scaled by each bound. */
  lemma ApplyInOrderBetween(score: real, factors: seq<real>, lo: real, hi: real)
    requires score >= 0.0 && lo <= Product(factors) <= hi
    ensures score * lo <= ApplyInOrder(score, factors) <= score * hi
  {
    var product := Product(factors);
    calc {
      score * lo;
    <= { ScaleMonotone(score, lo, product); }
      score * product;
    == { ApplyInOrderIsProduct(score, factors); }
      ApplyInOrder(score, factors);
    }
    calc {
      ApplyInOrder(score, factors);
    == { ApplyInOrderIsProduct(score, factors); }
      score * product;
    <= { ScaleMonotone(score, product, hi); }
      score * hi;
    }
  }

  /** Steps that are all positive keep the sign of the score. */
  lemma ApplyInOrderKeepsSign(score: real, factors: seq<real>)
    requires forall i :: 0 <= i < |factors| ==> factors[i] > 0.0
    ensures score > 0.0 ==> ApplyInOrder(score, factors) > 0.0
    ensures score == 0.0 ==> ApplyInOrder(score, factors) == 0.0
    ensures score < 0.0 ==> ApplyInOrder(score, factors) < 0.0
  {
    ApplyInOrderIsProduct(score, factors);
    ProductOfPositivesIsPositive(factors);
  }

  /** A product of factors that are all 1 is 1. */
  lemma {:induction false} ProductOfOnes(factors: seq<real>)
    requires forall i :: 0 <= i < |factors| ==> factors[i] == 1.0
    ensures Product(factors) == 1.0
    decreases |factors|
  {
    if factors != [] {
      ProductOfOnes(factors[1..]);
    }
  }

  /** A pass whose steps differ from another's in one place, identity
      versus `x`, ends at `x` times the other's result. */
  lemma ApplyInOrderReplaceOne(score: real, factors: seq<real>, i: nat, x: real)
    requires i < |factors| && factors[i] == 1.0
    ensures ApplyInOrder(score, factors[i := x]) == x * ApplyInOrder(score, factors)
  {
    ApplyInOrderIsProduct(score, factors);
    ApplyInOrderIsProduct(score, factors[i := x]);
    ProductReplaceOne(factors, i, x);
    assert score * (x * Product(factors)) == x * (score * Product(factors));
  }
}
