/**
  The linear learning-rate decay of the CycleGAN training script.

  Each of the three optimizers (the generator pair's, D_A's and D_B's) starts at
  a base rate. At the boundary of every epoch whose 1-based number exceeds
  `decayEpoch`, the rate is decremented in place by `base / (trainEpoch - decayEpoch)`.
  Rates are exact reals here: the floating-point rounding of the repeated
  subtraction is not modelled.
 */
module Schedule {

  function Max(a: int, b: int): int { if a < b then b else a }

  /** The number of epochs among the first `k` whose 1-based number exceeds `decayEpoch`,
      counted one epoch at a time as the training loop meets them. */
  function Decrements(decayEpoch: int, k: nat): nat
  {
    if k == 0 then 0
    else Decrements(decayEpoch, k - 1) + (if k > decayEpoch then 1 else 0)
  }

  /** The decrements form one run: none before `decayEpoch`, then one per epoch. */
  lemma {:induction false} DecrementsClosedForm(decayEpoch: int, k: nat)
    ensures Decrements(decayEpoch, k) == if k <= decayEpoch then 0 else k - Max(decayEpoch, 0)
  {
    if k > 0 {
      DecrementsClosedForm(decayEpoch, k - 1);
    }
  }

  /** The per-epoch decrement of a rate whose base value is `base`. It is only ever
      computed when `trainEpoch > decayEpoch`; `trainEpoch - decayEpoch` of them add
      up to the base rate. */
  function Decrement(base: real, trainEpoch: int, decayEpoch: int): real
    requires trainEpoch > decayEpoch
  {
    base / (trainEpoch - decayEpoch) as real
  }

  /** `trainEpoch - decayEpoch` decrements add up to the base rate, and a
      non-negative base gives a non-negative decrement. */
  lemma DecrementSum(base: real, trainEpoch: int, decayEpoch: int)
    requires trainEpoch > decayEpoch
    ensures Decrement(base, trainEpoch, decayEpoch) * (trainEpoch - decayEpoch) as real == base
    ensures base >= 0.0 ==> Decrement(base, trainEpoch, decayEpoch) >= 0.0
  {
  }

  /** The rate in effect after the boundaries of the first `k` epochs have been
      processed, by repeated in-place subtraction. The loop runs epochs
      0 .. trainEpoch - 1, so `k <= trainEpoch` once `k > 0`; a decrement happens at epoch
      boundary k only when `k > decayEpoch`, which together make the divisor
      `trainEpoch - decayEpoch` positive. */
  function RateAfter(base: real, trainEpoch: int, decayEpoch: int, k: nat): (r: real)
    requires k <= Max(trainEpoch, 0)
    ensures k <= decayEpoch ==> r == base
  {
    if k == 0 then base
    else
      var previous := RateAfter(base, trainEpoch, decayEpoch, k - 1);
      if k > decayEpoch then previous - Decrement(base, trainEpoch, decayEpoch) else previous
  }

  /** Closed form: `base` up to the decay epoch, then
      `base - (k - decayEpoch) * base / (trainEpoch - decayEpoch)` (with a negative
      `decayEpoch` counting as 0 decay-free epochs). */
  lemma {:induction false} RateAfterClosedForm(base: real, trainEpoch: int, decayEpoch: int, k: nat)
    requires k <= Max(trainEpoch, 0)
    ensures k > Max(decayEpoch, 0) ==> trainEpoch > decayEpoch
    ensures RateAfter(base, trainEpoch, decayEpoch, k) ==
      if k <= Max(decayEpoch, 0) then base
      else base - (k - Max(decayEpoch, 0)) as real * Decrement(base, trainEpoch, decayEpoch)
  {
    if k > Max(decayEpoch, 0) {
      RateAfterClosedForm(base, trainEpoch, decayEpoch, k - 1);
      var step := Decrement(base, trainEpoch, decayEpoch);
      if k - 1 > Max(decayEpoch, 0) {
        assert (k - 1 - Max(decayEpoch, 0)) as real * step + step
            == (k - Max(decayEpoch, 0)) as real * step;
      } else {
        assert k - Max(decayEpoch, 0) == 1;
      }
    }
  }

  /** Rates never increase from one epoch to a later one. */
  lemma {:induction false} RateAfterNonIncreasing(base: real, trainEpoch: int, decayEpoch: int, j: nat, k: nat)
    requires base >= 0.0
    requires j <= k <= Max(trainEpoch, 0)
    ensures RateAfter(base, trainEpoch, decayEpoch, k) <= RateAfter(base, trainEpoch, decayEpoch, j)
  {
    if j < k {
      RateAfterNonIncreasing(base, trainEpoch, decayEpoch, j, k - 1);
    }
  }

  /** A non-negative base rate stays non-negative for the whole run, whatever `decayEpoch` is. */
  lemma RateAfterNonNegative(base: real, trainEpoch: int, decayEpoch: int, k: nat)
    requires base >= 0.0
    requires k <= Max(trainEpoch, 0)
    ensures RateAfter(base, trainEpoch, decayEpoch, k) >= 0.0
  {
    RateAfterClosedForm(base, trainEpoch, decayEpoch, k);
    if k > Max(decayEpoch, 0) {
      var step := Decrement(base, trainEpoch, decayEpoch);
      DecrementSum(base, trainEpoch, decayEpoch);
      var n := k - Max(decayEpoch, 0);
      assert n <= trainEpoch - decayEpoch;
      assert n as real * step <= (trainEpoch - decayEpoch) as real * step;
    }
  }

  /** With `0 <= decayEpoch < trainEpoch` there are exactly `trainEpoch - decayEpoch`
      decrements, so the rate after the last epoch is exactly zero. */
  lemma RateAfterLastEpochIsZero(base: real, trainEpoch: int, decayEpoch: int)
    requires 0 <= decayEpoch < trainEpoch
    ensures RateAfter(base, trainEpoch, decayEpoch, trainEpoch) == 0.0
  {
    RateAfterClosedForm(base, trainEpoch, decayEpoch, trainEpoch);
  }

  /** With a negative `decayEpoch` every epoch decrements, but by
      `base / (trainEpoch - decayEpoch)`, a step too small to reach zero: the rate
      after the last epoch is `base * -decayEpoch / (trainEpoch - decayEpoch)`. */
  lemma RateAfterLastEpochNegativeDecay(base: real, trainEpoch: int, decayEpoch: int)
    requires decayEpoch < 0 <= trainEpoch
    ensures RateAfter(base, trainEpoch, decayEpoch, trainEpoch) * (trainEpoch - decayEpoch) as real
         == base * (-decayEpoch) as real
  {
    RateAfterClosedForm(base, trainEpoch, decayEpoch, trainEpoch);
    if trainEpoch > decayEpoch {
      var step := Decrement(base, trainEpoch, decayEpoch);
      assert (base - trainEpoch as real * step) * (trainEpoch - decayEpoch) as real
          == base * (trainEpoch - decayEpoch) as real - trainEpoch as real * base;
    }
  }

  /** The script's defaults: base 0.0002, 200 epochs, decay from epoch 100. Halfway
      through the decay, after 150 epochs, the rate has halved. */
  lemma DefaultScheduleHalfwayRate()
    ensures RateAfter(0.0002, 200, 100, 150) == 0.0001
  {
    RateAfterClosedForm(0.0002, 200, 100, 150);
  }
}
