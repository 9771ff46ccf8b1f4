/** Exact-output sizing from exact-input quotes: double an upper bound until it
    reaches the target, then bisect down to the smallest input that does. */
module ExactOutput {
  import opened Common

  /** Inputs are below this: 256 bits. */
  const UINT256_LIMIT: nat := 0x1_0000_0000_0000_0000_0000_0000_0000_0000_0000_0000_0000_0000_0000_0000_0000_0000

  ghost predicate Monotone(quote: nat -> nat) {
    forall x: nat, y: nat :: x <= y ==> quote(x) <= quote(y)
  }

  /** The smallest positive input whose quote reaches target. */
  ghost predicate LeastInput(quote: nat -> nat, target: nat, x: nat) {
    x > 0 && quote(x) >= target && forall y: nat :: 0 < y < x ==> quote(y) < target
  }

  function Doubled(x: nat, times: nat): nat {
    if times == 0 then x else 2 * Doubled(x, times - 1)
  }

  lemma {:induction false} DoubledGrows(x: nat, times: nat)
    requires x > 0
    ensures Doubled(x, times) >= x + times
  {
    if times > 0 { DoubledGrows(x, times - 1); }
  }

  lemma {:induction false} DoubledMonotone(x: nat, i: nat, j: nat)
    requires i <= j
    ensures Doubled(x, i) <= Doubled(x, j)
  {
    if i < j { DoubledMonotone(x, i, j - 1); }
  }

  /** The doubling reaches the target at this step without leaving 256 bits. */
  ghost predicate ReachedAt(quote: nat -> nat, target: nat, initial: nat, times: nat) {
    (times == 0 || Doubled(initial, times) < UINT256_LIMIT) && quote(Doubled(initial, times)) >= target
  }

  /** Double the bound until it reaches the target. low is the last bound that
      did not, or zero. */
  method Bracket(quote: nat -> nat, target: nat, initial: nat) returns (r: Option<(nat, nat)>)
    requires initial > 0
    ensures r.Some? ==> r.value.0 < r.value.1 && quote(r.value.1) >= target && (r.value.0 == 0 || quote(r.value.0) < target)
    ensures r.Some? <==> exists k: nat :: ReachedAt(quote, target, initial, k)
  {
    var low: nat, high: nat := 0, initial;
    ghost var k: nat := 0;
    while quote(high) < target
      invariant low < high && (low == 0 || quote(low) < target)
      invariant high == Doubled(initial, k) && (k == 0 || high < UINT256_LIMIT)
      invariant forall j: nat :: j < k ==> !ReachedAt(quote, target, initial, j)
      decreases if high < UINT256_LIMIT then UINT256_LIMIT - high else 0
    {
      low := high;
      high := 2 * high;
      k := k + 1;
      if high >= UINT256_LIMIT {
        forall j: nat ensures !ReachedAt(quote, target, initial, j) {
          if j >= k { DoubledMonotone(initial, k, j); }
        }
        return None;
      }
    }
    assert ReachedAt(quote, target, initial, k);
    return Some((low, high));
  }

  /** Narrow a bracket to two neighbours. */
  method Bisect(quote: nat -> nat, target: nat, from: nat, to: nat) returns (high: nat)
    requires from < to && quote(to) >= target && (from == 0 || quote(from) < target)
    ensures from < high <= to && quote(high) >= target && (high == 1 || quote(high - 1) < target)
  {
    var low := from;
    high := to;
    while high - low > 1
      invariant from <= low < high <= to
      invariant quote(high) >= target && (low == 0 || quote(low) < target)
    {
      var middle := (low + high) / 2;
      if quote(middle) >= target {
        high := middle;
      } else {
        low := middle;
      }
    }
  }

  /** The search. It fails only on an empty request or when no doubled bound
      within 256 bits reaches the target. */
  method MinimumInputForOutput(quote: nat -> nat, target: nat, initialHigh: nat) returns (r: Option<(nat, nat)>)
    ensures r.Some? <==> target > 0 && initialHigh > 0 && exists k: nat :: ReachedAt(quote, target, initialHigh, k)
    ensures r.Some? ==> r.value.0 > 0 && r.value.1 == quote(r.value.0) >= target
    ensures r.Some? ==> r.value.0 == 1 || quote(r.value.0 - 1) < target
    ensures r.Some? && Monotone(quote) ==> LeastInput(quote, target, r.value.0)
  {
    if target == 0 || initialHigh == 0 { return None; }
    var bracket := Bracket(quote, target, initialHigh);
    if bracket.None? { return None; }
    var high := Bisect(quote, target, bracket.value.0, bracket.value.1);
    return Some((high, quote(high)));
  }

  /** Searches from different first bounds find the same input. */
  method SearchesAgree(quote: nat -> nat, target: nat, high: nat, otherHigh: nat)
    returns (x: Option<(nat, nat)>, y: Option<(nat, nat)>)
    ensures x.Some? && y.Some? && Monotone(quote) ==> x == y
  {
    x := MinimumInputForOutput(quote, target, high);
    y := MinimumInputForOutput(quote, target, otherHigh);
    if x.Some? && y.Some? && Monotone(quote) { LeastInputUnique(quote, target, x.value.0, y.value.0); }
  }

  lemma LeastInputUnique(quote: nat -> nat, target: nat, x: nat, y: nat)
    requires LeastInput(quote, target, x) && LeastInput(quote, target, y)
    ensures x == y
  {
  }

  /** Below half the 256-bit range a monotone search succeeds whenever the
      target can be reached there at all. */
  lemma ReachableIsReached(quote: nat -> nat, target: nat, initialHigh: nat, x: nat)
    requires Monotone(quote) && initialHigh > 0 && quote(x) >= target && 2 * x <= UINT256_LIMIT && x > 0
    ensures exists k: nat :: ReachedAt(quote, target, initialHigh, k)
  {
    if initialHigh >= x {
      assert ReachedAt(quote, target, initialHigh, 0);
    } else {
      var k: nat := 0;
      while Doubled(initialHigh, k) < x
        invariant k == 0 || Doubled(initialHigh, k - 1) < x
        decreases x - k
      {
        DoubledGrows(initialHigh, k);
        k := k + 1;
      }
      assert Doubled(initialHigh, k) == 2 * Doubled(initialHigh, k - 1) < UINT256_LIMIT;
      assert ReachedAt(quote, target, initialHigh, k);
    }
  }
}
