/** The budget monitor: a mutex-protected accumulator of cost and tokens with optional limits. */
module Budget {
  import opened Wrappers

  datatype Breach = CostExceeded | TokensExceeded | TimeExceeded

  const TWO_63 := 0x8000_0000_0000_0000
  const TWO_64 := 0x1_0000_0000_0000_0000
  const NANOSECONDS := 1_000_000_000

  type int64 = x: int | -TWO_63 <= x < TWO_63

  /** Signed 64-bit wrap-around, as token counters are `int64`. */
  function Wrap64(x: int): (w: int64)
    ensures (x - w) % TWO_64 == 0
  {
    (x + TWO_63) % TWO_64 - TWO_63
  }

  lemma WrapOfSum(a: int, b: int)
    ensures Wrap64(Wrap64(a) + b) == Wrap64(a + b)
  {
    var q := (a + TWO_63) / TWO_64;
    assert Wrap64(a) == a - q * TWO_64;
    assert (a + b + TWO_63 - q * TWO_64) % TWO_64 == (a + b + TWO_63) % TWO_64;
  }

  class Monitor {
    const maxCost: Option<real>
    const maxTokens: Option<int64>
    const maxTimeSeconds: Option<int64>
    var costUsed: real
    var tokensUsed: int64

    constructor (maxCost: Option<real>, maxTokens: Option<int64>, maxTimeSeconds: Option<int64>)
      ensures this.maxCost == maxCost && this.maxTokens == maxTokens && this.maxTimeSeconds == maxTimeSeconds
      ensures costUsed == 0.0 && tokensUsed == 0
    {
      this.maxCost, this.maxTokens, this.maxTimeSeconds := maxCost, maxTokens, maxTimeSeconds;
      costUsed, tokensUsed := 0.0, 0;
    }

    ghost predicate WithinLimits()
      reads this
    {
      && (maxCost.Some? ==> costUsed <= maxCost.value)
      && (maxTokens.Some? ==> tokensUsed <= maxTokens.value)
    }

    predicate Unlimited() {
      maxCost.None? && maxTokens.None? && (maxTimeSeconds.None? || maxTimeSeconds.value <= 0)
    }

    /** The elapsed time is over a positive limit; the limit in nanoseconds wraps: a limit of 300 years has
        always been exceeded. */
    predicate Late(elapsed: int64) {
      && maxTimeSeconds.Some? && maxTimeSeconds.value > 0
      && elapsed > Wrap64(maxTimeSeconds.value * NANOSECONDS)
    }

    /** Usage is recorded even when it breaches a limit; cost is reported before tokens. */
    method Add(cost: real, tokens: int64) returns (breach: Option<Breach>)
      modifies this
      ensures costUsed == old(costUsed) + cost && tokensUsed == Wrap64(old(tokensUsed) + tokens)
      ensures breach.None? <==> WithinLimits()
      ensures breach == Some(CostExceeded) <==> maxCost.Some? && costUsed > maxCost.value
      ensures breach.Some? ==> breach.value in {CostExceeded, TokensExceeded}
    {
      costUsed := costUsed + cost;
      tokensUsed := Wrap64(tokensUsed + tokens);
      if maxCost.Some? && costUsed > maxCost.value {
        return Some(CostExceeded);
      }
      if maxTokens.Some? && tokensUsed > maxTokens.value {
        return Some(TokensExceeded);
      }
      return None;
    }

    /** `elapsed` is the time since the monitor was created, in nanoseconds. */
    method CheckTime(elapsed: int64) returns (breach: Option<Breach>)
      ensures breach.Some? <==> Late(elapsed)
      ensures breach.Some? <==>
        maxTimeSeconds.Some? && maxTimeSeconds.value > 0 && elapsed > Wrap64(maxTimeSeconds.value * 1_000_000_000)
      ensures breach.Some? ==> breach.value == TimeExceeded
    {
      if maxTimeSeconds.None? || maxTimeSeconds.value <= 0 {
        return None;
      }
      var limit := Wrap64(maxTimeSeconds.value * NANOSECONDS);
      if elapsed > limit {
        return Some(TimeExceeded);
      }
      return None;
    }

    method Usage() returns (cost: real, tokens: int64)
      ensures cost == costUsed && tokens == tokensUsed
    {
      return costUsed, tokensUsed;
    }
  }
}
