/** Configuration limits, the service fee, and the exact split of the pot. */
module Payouts {
  import opened Prelude
  import opened Digests

  /** The global configuration as far as one lottery depends on it. */
  datatype Config = Config(authority: Pubkey, uploadWindowSecs: nat, maxWinnersCap: nat, earlyUpload: bool) {
    /** What Initialize accepts. */
    predicate Valid() {
      0 < maxWinnersCap <= MAX_WINNERS
    }

    function EffectiveMaxWinners(participants: nat): nat {
      if participants <= 1 then 1
      else Min(Max(Min(maxWinnersCap, MAX_WINNERS), 1), participants - 1)
    }
  }

  /** The cap leaves at least one winner and at least one loser, and never exceeds the configured limits. */
  lemma EffectiveMaxWinnersRange(c: Config, participants: nat)
    requires c.Valid()
    ensures 1 <= c.EffectiveMaxWinners(participants) <= MAX_WINNERS
    ensures c.EffectiveMaxWinners(participants) <= c.maxWinnersCap
    ensures participants >= 2 ==> c.EffectiveMaxWinners(participants) <= participants - 1
    ensures participants >= 2 ==> c.EffectiveMaxWinners(participants) == Min(c.maxWinnersCap, participants - 1)
  {
  }

  function ServiceFee(totalFunds: nat, bps: nat): Result<nat> {
    var fee := totalFunds * bps / 10_000;
    if fee <= U64_MAX then Ok(fee) else Err(MathOverflow)
  }

  lemma FeeBelowTotal(totalFunds: nat, bps: nat)
    requires bps < 10_000
    ensures totalFunds * bps / 10_000 <= totalFunds
    ensures totalFunds > 0 ==> totalFunds * bps / 10_000 < totalFunds
  {
    assert totalFunds * bps <= totalFunds * 9_999;
  }

  /** What completing a finalization computes: (per winner, total payout). */
  function PayoutPlan(totalFunds: nat, bps: nat, winners: nat): Result<(nat, nat)> {
    var fee :- ServiceFee(totalFunds, bps);
    var pot := SaturatingSub(totalFunds, fee);
    if winners == 0 || pot < winners then Err(InsufficientFunds)
    else
      var per := pot / winners;
      var total :- CheckedMul(per, winners, U64_MAX);
      Ok((per, total))
  }

  /** The part of the pot that goes to the authority besides the fee: the rounding remainder. */
  function Remainder(totalFunds: nat, totalPayout: nat, fee: nat): nat {
    SaturatingSub(SaturatingSub(totalFunds, totalPayout), fee)
  }

  /** A plan exists exactly when every winner can get at least one lamport. */
  lemma PlanExists(totalFunds: nat, bps: nat, winners: nat)
    requires bps < 10_000 && totalFunds <= U64_MAX && winners >= 1
    ensures PayoutPlan(totalFunds, bps, winners).Ok? <==> totalFunds - totalFunds * bps / 10_000 >= winners
  {
    FeeBelowTotal(totalFunds, bps);
    var pot := totalFunds - totalFunds * bps / 10_000;
    assert pot / winners * winners <= pot;
  }

  /** The split is exact: fee, payouts and remainder add up to the funds, and dividing the stored total recovers the share. */
  lemma PlanIsExact(totalFunds: nat, bps: nat, winners: nat)
    requires bps < 10_000 && totalFunds <= U64_MAX
    requires PayoutPlan(totalFunds, bps, winners).Ok?
    ensures var (per, total) := PayoutPlan(totalFunds, bps, winners).value;
            var fee := ServiceFee(totalFunds, bps).value;
            var rest := Remainder(totalFunds, total, fee);
            && winners > 0 && ServiceFee(totalFunds, bps).Ok?
            && fee + per * winners + rest == totalFunds
            && total == per * winners
            && total / winners == per && per >= 1 && rest < winners
  {
    FeeBelowTotal(totalFunds, bps);
    var fee := ServiceFee(totalFunds, bps).value;
    var pot := totalFunds - fee;
    var per := pot / winners;
    assert pot == per * winners + pot % winners;
    assert (per * winners) / winners == per by {
      DivExact(per, winners);
    }
    assert per >= 1 by {
      assert per < 1 ==> per * winners <= 0;
    }
  }

  /** What each winner gets: the funds less the rounded-down fee, divided equally and rounded down. */
  lemma PlanShare(totalFunds: nat, bps: nat, winners: nat)
    requires bps < 10_000 && totalFunds <= U64_MAX && winners >= 1
    requires PayoutPlan(totalFunds, bps, winners).Ok?
    ensures PayoutPlan(totalFunds, bps, winners).value.1 / winners == (totalFunds - totalFunds * bps / 10_000) / winners
  {
    FeeBelowTotal(totalFunds, bps);
    DivExact((totalFunds - totalFunds * bps / 10_000) / winners, winners);
  }

  lemma DivExact(a: nat, b: nat)
    requires b > 0
    ensures a * b / b == a
  {
    var d := a * b / b - a;
    assert a * b == (a * b / b) * b + a * b % b;
    assert d * b == -(a * b % b);
    assert d >= 1 ==> d * b >= b;
    assert d <= -1 ==> d * b <= 0 - b;
  }
}
