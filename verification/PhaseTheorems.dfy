/** Phases only advance, and a lottery that has one outcome can never get the other. */
module PhaseTheorems {
  import opened Prelude
  import opened Digests
  import opened WinnerPages
  import opened FinalizationLedgers
  import opened Lotteries
  import opened Payouts
  import opened States
  import opened Steps
  import opened Invariants
  import opened Phases
  import opened Visits
  import opened Runs
  import FinalizeWinners

  // ----- phases -----

  function Rank(stage: Stage): nat {
    match stage
    case Buy => 0
    case Upload => 1
    case Remediation => 2
    case Settlement => 2
    case Settled => 3
  }

  /** The derived phase is "buy" exactly while tickets can be bought. */
  lemma BuyMeansWindow(l: LotteryData, now: int)
    requires Clockwork(l, now)
    ensures l.StageAt(now) == Stage.Buy <==> !l.settled && l.InBuyWindow(now)
    ensures l.uploadStart <= l.buyDeadline
  {
  }

  lemma TickRank(l: LotteryData, now: int, later: int)
    requires Clockwork(l, now) && now <= later
    ensures Rank(l.StageAt(now)) <= Rank(l.StageAt(later))
  {
  }

  lemma MoveRank(l: LotteryData, m: LotteryData, now: int)
    requires Clockwork(l, now) && Clockwork(m, now) && Moves(l, m, now)
    ensures Rank(l.StageAt(now)) <= Rank(m.StageAt(now))
  {
  }

  /** No step, and no passing of time, takes a lottery back to an earlier phase. */
  lemma StepRank(s: State, step: Step)
    requires Inv(s)
    ensures var t := After(s, step);
            Rank(s.lottery.StageAt(s.now)) <= Rank(t.lottery.StageAt(t.now))
  {
    hide *;
    var t := After(s, step);
    StepMoves(s, step);
    StepKeeps(s, step);
    Parts(s);
    Parts(t);
    if t.now > s.now {
      TickRank(s.lottery, s.now, t.now);
    } else {
      MoveRank(s.lottery, t.lottery, s.now);
    }
  }

  lemma {:induction false} RunRank(s: State, steps: seq<Step>)
    requires Inv(s)
    ensures var t := Run(s, steps);
            Rank(s.lottery.StageAt(s.now)) <= Rank(t.lottery.StageAt(t.now))
  {
    hide Inv, After, Rank, LotteryData.StageAt;
    if steps != [] {
      var n := |steps| - 1;
      RunRank(s, steps[..n]);
      RunKeeps(s, steps[..n]);
      StepRank(Run(s, steps[..n]), steps[n]);
    }
  }

  // ----- the two verdicts on attested reveals -----

  lemma MoveVerdicts(l: LotteryData, m: LotteryData, now: int)
    requires Clockwork(l, now) && Moves(l, m, now)
    ensures l.RemediationExpired(now) ==> m.RemediationExpired(now)
    ensures AllIncluded(l, now) ==> AllIncluded(m, now)
    ensures !(AllIncluded(m, now) && m.RemediationExpired(now))
  {
  }

  lemma TickVerdicts(l: LotteryData, now: int, later: int)
    requires now <= later
    ensures l.RemediationExpired(now) ==> l.RemediationExpired(later)
    ensures AllIncluded(l, now) ==> AllIncluded(l, later)
  {
  }

  lemma StepVerdicts(s: State, step: Step)
    requires Inv(s)
    ensures var t := After(s, step);
            && (s.lottery.RemediationExpired(s.now) ==> t.lottery.RemediationExpired(t.now))
            && (AllIncluded(s.lottery, s.now) ==> AllIncluded(t.lottery, t.now))
  {
    hide *;
    var t := After(s, step);
    StepMoves(s, step);
    Parts(s);
    MoveVerdicts(s.lottery, t.lottery, s.now);
    TickVerdicts(t.lottery, s.now, t.now);
  }

  /** "Remediation expired with reveals missing" and "everything attested is included" are both final, and exclude each other. */
  lemma {:induction false} RunVerdicts(s: State, steps: seq<Step>)
    requires Inv(s)
    ensures var t := Run(s, steps);
            && (s.lottery.RemediationExpired(s.now) ==> t.lottery.RemediationExpired(t.now) && !AllIncluded(t.lottery, t.now))
            && (AllIncluded(s.lottery, s.now) ==> AllIncluded(t.lottery, t.now) && !t.lottery.RemediationExpired(t.now))
  {
    hide Inv, After;
    if steps != [] {
      var n := |steps| - 1;
      RunVerdicts(s, steps[..n]);
      RunKeeps(s, steps[..n]);
      StepVerdicts(Run(s, steps[..n]), steps[n]);
    }
  }

  // ----- winners or refunds -----

  ghost predicate HasWinners(s: State) {
    s.lottery.winnersCount > 0
  }

  ghost predicate Refunding(s: State) {
    s.lottery.settled && s.lottery.winnersCount == 0
  }

  lemma WinnersIffComplete(s: State)
    requires Inv(s)
    ensures HasWinners(s) <==> IsComplete(s.root)
    ensures IsComplete(s.root) ==> s.root.Some? && s.lottery.winnersCount == s.root.value.selectedCount
    ensures Refunding(s) ==> s.root.None?
  {
    hide *;
    Parts(s);
    WinnersAndLedger(s.lottery, s.root, s.pages, s.now);
    OutcomeMeans(s);
  }

  lemma OutcomeMeans(s: State)
    ensures HasWinners(s) <==> s.lottery.winnersCount > 0
    ensures Refunding(s) <==> s.lottery.settled && s.lottery.winnersCount == 0
  {
  }

  lemma WinnersAndLedger(l: LotteryData, root: Option<LedgerData>, pages: map<nat, PageData>, now: int)
    requires Settling(l, root, pages) && (root.Some? ==> Frozen(l, now))
    ensures l.winnersCount > 0 <==> IsComplete(root)
    ensures IsComplete(root) ==> root.Some? && l.winnersCount == root.value.selectedCount
    ensures l.settled && l.winnersCount == 0 ==> root.None?
  {
    hide PaidSet, PagePaid, PayoutPlan;
  }

  /** A chunk sent to a finished or cancelled lottery changes nothing. */
  lemma ChunkAfterEnd(s: State, page: nat, keys: seq<Pubkey>)
    requires FinalizeWinners.Apply(s, page, keys).Ok?
    requires s.lottery.settled || IsComplete(s.root)
    ensures FinalizeWinners.Apply(s, page, keys).value.root == s.root
    ensures s.lottery.settled ==> FinalizeWinners.Apply(s, page, keys).value == s
  {
  }

  lemma SettledStays(l: LotteryData, m: LotteryData, now: int)
    requires Moves(l, m, now) && l.settled
    ensures m.settled
  {
  }

  lemma StepOutcome(s: State, step: Step)
    requires Inv(s)
    ensures HasWinners(s) ==> HasWinners(After(s, step)) && After(s, step).lottery.winnersCount == s.lottery.winnersCount
    ensures Refunding(s) ==> Refunding(After(s, step))
  {
    hide *;
    var t := After(s, step);
    StepKeeps(s, step);
    StepMoves(s, step);
    WinnersIffComplete(s);
    WinnersIffComplete(t);
    OutcomeMeans(s);
    OutcomeMeans(t);
    if HasWinners(s) || Refunding(s) {
      if step.Finalize? {
        AfterMeans(s, step);
        NextMeans(s, step);
        if Next(s, step).Ok? {
          ChunkAfterEnd(s, step.page, step.keys);
        }
      } else {
        LedgerUntouched(s, step);
      }
      NoCompletion();
      if s.lottery.settled {
        SettledStays(s.lottery, t.lottery, s.now);
      }
    }
  }

  lemma NoCompletion()
    ensures forall root: Option<LedgerData> :: root.None? ==> !IsComplete(root)
  {
  }

  /** No run leads from one outcome to the other: winners stay winners, refunds stay refunds. */
  lemma {:induction false} ExclusiveOutcome(s: State, steps: seq<Step>)
    requires Inv(s)
    ensures HasWinners(s) ==> !Refunding(Run(s, steps)) && Run(s, steps).lottery.winnersCount == s.lottery.winnersCount
    ensures Refunding(s) ==> !HasWinners(Run(s, steps)) && Refunding(Run(s, steps))
  {
    hide Inv, After;
    if steps != [] {
      var n := |steps| - 1;
      ExclusiveOutcome(s, steps[..n]);
      RunKeeps(s, steps[..n]);
      StepOutcome(Run(s, steps[..n]), steps[n]);
    }
  }
}
