/** The fee split and staking boost of a quest payout, in checked i128 arithmetic. */
module Payouts {
  import opened Outcomes
  import opened Soroban

  const MAX_QUEST_REWARD: i128 := 1_000_000_000_000_000
  const PLATFORM_FEE_BASIS_POINTS: u32 := 1500

  datatype Payout = Payout(fee: i128, learnerAmount: i128, boostActual: i128, boostCapped: bool)

  function ComputeLearnerPayout(reward: i128, multiplier: u32): Outcome<Payout> {
    if !FitsI128(reward * PLATFORM_FEE_BASIS_POINTS) then Panic(Overflow) else
    var fee := TruncDiv(reward * PLATFORM_FEE_BASIS_POINTS, 10_000);
    var base := reward - fee;
    :- Need(FitsI128(base * multiplier), Overflow);
    var boostActual := TruncDiv(base * multiplier, 100);
    var capped := boostActual > base;
    Ok(Payout(fee, if capped then base else boostActual, boostActual, capped))
  }

  /** The fee is the reward's 15 percent rounded down, and a positive reward leaves something after it. */
  lemma FeeBounds(reward: nat)
    ensures 0 <= reward * 1500 / 10_000 <= reward
    ensures reward > 0 ==> reward * 1500 / 10_000 < reward
  {
  }

  /** A product scaled down by 100 reaches its first factor exactly when the second is at least 100. */
  lemma Scaled(base: nat, multiplier: nat)
    ensures 0 <= base * multiplier
    ensures multiplier >= 100 ==> base * multiplier / 100 >= base
    ensures multiplier < 100 && base > 0 ==> base * multiplier / 100 < base
  {
    if multiplier >= 100 {
      ProductMonotone(base, base, 100, multiplier);
    } else if base > 0 {
      ProductMonotone(base, base, multiplier, 99);
    }
  }

  lemma ProductMonotone(a: nat, a': nat, b: nat, b': nat)
    requires a <= a' && b <= b'
    ensures a * b <= a' * b'
  {
    assert a * b <= a' * b by {
      assert a' * b == a * b + (a' - a) * b;
    }
    assert a' * b <= a' * b' by {
      assert a' * b' == a' * b + a' * (b' - b);
    }
  }

  /**
   Rewards up to the declared maximum never overflow, whatever a vault answers, and
   never pay out more than the reward; they pay out all of it exactly when the
   multiplier is at least 100 (or there is nothing to pay).
   */
  lemma PayoutWithinReward(reward: i128, multiplier: u32)
    requires 0 <= reward <= MAX_QUEST_REWARD
    ensures ComputeLearnerPayout(reward, multiplier).Ok?
    ensures var p := ComputeLearnerPayout(reward, multiplier).value;
      && 0 <= p.fee && 0 <= p.learnerAmount && p.fee + p.learnerAmount <= reward
      && (p.fee + p.learnerAmount == reward <==> multiplier >= 100 || reward == 0)
  {
    var fee := reward * 1500 / 10_000;
    FeeBounds(reward);
    ProductMonotone(reward - fee, MAX_QUEST_REWARD, multiplier, U32_MAX);
    Scaled(reward - fee, multiplier);
  }

  /** Without the bound on rewards a payout may overflow, but what it pays still stays within the reward. */
  lemma PayoutNeverExceeds(reward: i128, multiplier: u32)
    requires 0 <= reward && ComputeLearnerPayout(reward, multiplier).Ok?
    ensures var p := ComputeLearnerPayout(reward, multiplier).value;
      && 0 <= p.fee && 0 <= p.learnerAmount && p.fee + p.learnerAmount <= reward
      && (multiplier >= 100 ==> p.fee + p.learnerAmount == reward)
  {
    FeeBounds(reward);
    Scaled(reward - reward * 1500 / 10_000, multiplier);
  }

  /** A larger reward or multiplier never pays the learner less. */
  lemma PayoutMonotone(reward: i128, reward': i128, multiplier: u32, multiplier': u32)
    requires 0 <= reward <= reward' <= MAX_QUEST_REWARD && multiplier <= multiplier'
    ensures ComputeLearnerPayout(reward, multiplier).Ok? && ComputeLearnerPayout(reward', multiplier').Ok?
    ensures ComputeLearnerPayout(reward, multiplier).value.learnerAmount
         <= ComputeLearnerPayout(reward', multiplier').value.learnerAmount
  {
    PayoutWithinReward(reward, multiplier);
    PayoutWithinReward(reward', multiplier');
    var base := reward - reward * 1500 / 10_000;
    var base' := reward' - reward' * 1500 / 10_000;
    FeeBounds(reward);
    FeeBounds(reward');
    assert base <= base';
    ProductMonotone(base, base', multiplier, multiplier');
  }
}
