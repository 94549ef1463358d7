/** When the program's timestamps are set, to what, and that they never change afterwards. */
module Timestamps {
  import opened Prelude
  import opened Digests
  import opened Participants
  import opened WinnerPages
  import opened FinalizationLedgers
  import opened Lotteries
  import opened States
  import opened Steps
  import opened Invariants
  import opened SimpleSteps
  import opened AggregationKeeps
  import opened SelectionKeeps
  import opened LedgerKeeps
  import opened FinalizationKeeps
  import opened PayoutKeeps
  import opened FrozenPool
  import opened Visits
  import opened Runs
  import opened BuyAdmission
  import opened VoteAdmission
  import opened UploadAdmission
  import opened FinalizeAdmission
  import opened ControlAdmission
  import DrawIndex
  import FinalizeWinners
  import Banks
  import Payouts
  import SettlePayoutBatch

  // ----- the lottery account -----

  /** A challenge window of 1800 seconds opens now: reveals are missing after the deadline, and it was never open before. */
  ghost predicate ChallengeOpens(l: LotteryData, m: LotteryData, now: int) {
    && l.remediationStart == 0 && !l.settled && l.participantsCount >= 2 && Missing(l) && now > l.uploadDeadline
    && m.remediationStart == now && m.remediationDeadline == now + 1800
  }

  ghost predicate ChallengeKept(l: LotteryData, m: LotteryData) {
    m.remediationStart == l.remediationStart && m.remediationDeadline == l.remediationDeadline
  }

  /** The upload window stays, or starts now instead of later, without ending any earlier. */
  ghost predicate WindowKept(l: LotteryData, m: LotteryData, now: int) {
    || (m.uploadStart == l.uploadStart && m.uploadDeadline == l.uploadDeadline)
    || (now < l.uploadStart && m.uploadStart == now && m.uploadDeadline >= l.uploadDeadline)
  }

  /** Terms and purchase window are fixed; the settlement start and the challenge window are set once, to the current time. */
  ghost predicate Stamped(l: LotteryData, m: LotteryData, now: int) {
    && m.id == l.id && m.bps == l.bps && m.price == l.price
    && m.createdAt == l.createdAt && m.buyStart == l.buyStart && m.buyDeadline == l.buyDeadline
    && (m.settlementStart == l.settlementStart || (l.settlementStart == 0 && m.settlementStart == now))
    && (ChallengeKept(l, m) || ChallengeOpens(l, m, now))
    && WindowKept(l, m, now)
  }

  lemma SameStamps(l: LotteryData, m: LotteryData, now: int)
    requires m == l.(totalTickets := m.totalTickets, totalFunds := m.totalFunds, providerUploaded := m.providerUploaded,
                     aggregate := m.aggregate, uploadsComplete := m.uploadsComplete, settled := m.settled,
                     attestedCount := m.attestedCount, participantsCount := m.participantsCount,
                     selectedWinners := m.selectedWinners, winnersRoot := m.winnersRoot, winnersCount := m.winnersCount,
                     totalPayout := m.totalPayout, paidBitmap := m.paidBitmap, batchesCompleted := m.batchesCompleted,
                     settlementComplete := m.settlementComplete, settlementStart := m.settlementStart)
    requires m.settlementStart == l.settlementStart || (l.settlementStart == 0 && m.settlementStart == now)
    ensures Stamped(l, m, now)
  {
  }

  lemma PurchaseStamps(s: State, t: State, buyer: Pubkey, proof: Option<Bytes32>, count: U64)
    requires Purchased(s, t, buyer, proof, count)
    ensures Stamped(s.lottery, t.lottery, s.now)
  {
    hide Charged, Stamped;
    SameStamps(s.lottery, t.lottery, s.now);
  }

  lemma AttestStamps(s: State, t: State, w: Pubkey, voted: U64)
    requires AttestedBy(s, t, w, voted) && s.lottery.settlementStart == 0
    ensures Stamped(s.lottery, t.lottery, s.now)
  {
    hide Stamped;
    SameStamps(s.lottery, t.lottery, s.now);
  }

  lemma RevealStamps(s: State, t: State, w: Pubkey, voted: U64, phrase: seq<bv8>)
    requires RevealedBy(s, t, w, voted, phrase) && s.lottery.settlementStart == 0
    ensures Stamped(s.lottery, t.lottery, s.now)
  {
    hide Stamped;
    SameStamps(s.lottery, t.lottery, s.now);
  }

  lemma UploadStamps(s: State, t: State, uploader: Pubkey, entries: seq<UploadKeeps.Upload>)
    requires UploadedBy(s, t, uploader, entries) && MayUpload(s, uploader) && s.lottery.participantsCount >= 2
    ensures Stamped(s.lottery, t.lottery, s.now)
  {
    hide Included, BatchDigests, XorAll;
  }

  lemma OpeningStamps(s: State, t: State, attestation: nat, upload: nat)
    requires OpenedEarlyBy(s, t, attestation, upload) && s.now < s.lottery.uploadStart
    ensures Stamped(s.lottery, t.lottery, s.now)
  {
  }

  lemma RemediateStamps(s: State)
    requires OpensChallenge(s)
    ensures Stamped(s.lottery, s.lottery.BeginRemediation(s.now), s.now)
    ensures ChallengeOpens(s.lottery, s.lottery.BeginRemediation(s.now), s.now)
  {
  }

  lemma OutcomeStamps(l: LotteryData, m: LotteryData, r: LedgerData, now: int)
    requires Outcome(l, m, r, now)
    ensures Stamped(l, m, now)
  {
    hide PaidSet, Payouts.PayoutPlan;
  }

  lemma AdvancedStamps(l: LotteryData, m: LotteryData, now: int)
    requires m == l.(selectedWinners := m.selectedWinners)
    ensures Stamped(l, m, now)
  {
  }

  lemma ChunkStamps(s: State, page: nat, keys: seq<Pubkey>)
    requires Inv(s) && FinalizeWinners.Apply(s, page, keys).Ok?
    ensures Stamped(s.lottery, FinalizeWinners.Apply(s, page, keys).value.lottery, s.now)
    ensures OpensChallenge(s) ==> ChallengeOpens(s.lottery, FinalizeWinners.Apply(s, page, keys).value.lottery, s.now)
  {
    hide *;
    Parts(s);
    GateFacts(s);
    GateIff(s, keys);
    FinalizationKeeps.ApplyEffect(s, page, keys);
    var t := FinalizeWinners.Apply(s, page, keys).value;
    match FinalizeWinners.Check(s, keys).value {
      case Skip => AdvancedStamps(s.lottery, t.lottery, s.now);
      case Remediate => RemediateStamps(s);
      case Proceed =>
        ChunkStart(s, page, keys);
        var root := FinalizeWinners.LoadRoot(s).value;
        match root.phase {
          case Aggregating =>
            var l, r, rows := AggregateResult(s, root, keys);
            AdvancedFinalizing(s, l, r, rows, Pool(s.rows));
            AdvancedStamps(s.lottery, l, s.now);
          case Selecting =>
            NotComplete(s, root);
            NoWinnersYet(s.lottery, s.root, s.pages);
            var l, r, rows, pages := SelectResult(s, root, keys);
            ContinuedOutcome(s, l, r, rows, Pool(s.rows), pages);
            OutcomeStamps(s.lottery, l, r, s.now);
          case Completed => AdvancedStamps(s.lottery, t.lottery, s.now);
        }
    }
  }

  lemma PayoutStamps(s: State, id: nat, page: nat, winners: seq<WinnerProof>, recipients: seq<Pubkey>)
    requires Inv(s) && SettlePayoutBatch.Apply(s, id, page, winners, recipients).Ok?
    ensures Stamped(s.lottery, SettlePayoutBatch.Apply(s, id, page, winners, recipients).value.lottery, s.now)
  {
    hide *;
    Parts(s);
    PayoutKeeps.ApplyEffect(s, id, page, winners, recipients);
    var t := SettlePayoutBatch.Apply(s, id, page, winners, recipients).value;
    match SettlePayoutBatch.Check(s, id, page, winners, recipients).value {
      case AlreadyComplete => AdvancedStamps(s.lottery, t.lottery, s.now);
      case Pay(p0, amount) =>
        BooksFit(s.lottery, s.rows, s.rents, s.bank, s.vaultOpen, s.donated, s.credited);
        var p, swept := PayoutResult(s, id, page, winners, recipients, p0, amount);
        ResultParts(s, t, page, p, amount, swept);
        PaidStamps(s.lottery, t.lottery, s.now, swept);
    }
  }

  lemma PaidStamps(l: LotteryData, m: LotteryData, now: int, swept: bool)
    requires PaidLottery(l, m, swept)
    ensures Stamped(l, m, now)
  {
    hide PaidSet;
  }

  lemma QuietStamps(l: LotteryData, m: LotteryData, now: int)
    requires m == l.(settled := m.settled, batchesCompleted := m.batchesCompleted)
    ensures Stamped(l, m, now)
  {
  }

  lemma WindowUnstarted(s: State, w: Pubkey, voted: U64)
    ensures CanAttest(s, w, voted) ==> s.lottery.settlementStart == 0
  {
  }

  /** Terms never change, and each timestamp of the lottery is set once, to the time of the step that sets it. */
  lemma StepStamps(s: State, step: Step)
    requires Inv(s)
    ensures Stamped(s.lottery, After(s, step).lottery, s.now)
    ensures step.Finalize? && OpensChallenge(s) ==> ChallengeOpens(s.lottery, After(s, step).lottery, s.now)
  {
    hide *;
    AfterMeans(s, step);
    var t := After(s, step);
    QuietStamps(s.lottery, s.lottery, s.now);
    if step.Finalize? {
      FinalizeIff(s, step.page, step.keys);
    }
    if Next(s, step).Ok? {
      NextMeans(s, step);
      Parts(s);
      match step
      case Tick(seconds) =>
      case Send(from, to, amount) => SendFields(s, from, to, amount);
      case Buy(buyer, proof, count) => BuyOutcome(s, buyer, proof, count); PurchaseStamps(s, t, buyer, proof, count);
      case BeginReveal(caller, attestation, upload) =>
        BeginRevealIff(s, caller, attestation, upload);
        BeginRevealOutcome(s, caller, attestation, upload);
        OpeningStamps(s, t, attestation, upload);
      case Attest(w, voted, receipt) =>
        AttestIff(s, w, voted, receipt);
        WindowUnstarted(s, w, voted);
        AttestOutcome(s, w, voted, receipt);
        AttestStamps(s, t, w, voted);
      case Reveal(w, voted, phrase) =>
        RevealIff(s, w, voted, phrase);
        WindowUnstarted(s, w, voted);
        RevealOutcome(s, w, voted, phrase);
        RevealStamps(s, t, w, voted, phrase);
      case Upload(uploader, entries) =>
        UploadIff(s, uploader, entries);
        UploadOutcome(s, uploader, entries);
        UploadStamps(s, t, uploader, entries);
      case Finalize(page, keys) => ChunkStamps(s, page, keys);
      case Cancel => CancelEffect(s); QuietStamps(s.lottery, t.lottery, s.now);
      case Payout(id, page, winners, recipients) => PayoutStamps(s, id, page, winners, recipients);
      case Refund(claimer) => RefundEffect(s, claimer); QuietStamps(s.lottery, t.lottery, s.now);
      case CloseVault => CloseVaultEffect(s);
      case CloseAccount(owner) => CloseAccountEffect(s, owner);
    }
  }

  // ----- the derived phase -----

  /** Waiting for reveals inside an open challenge window. */
  predicate Challenging(l: LotteryData, now: int) {
    l.remediationStart != 0 && now <= l.remediationStart + 1800 && Missing(l)
  }

  lemma StageMeans(l: LotteryData, now: int)
    requires Clockwork(l, now)
    ensures var over := l.settled || (l.participantsCount == 1 && now > l.uploadDeadline);
            var closed := now > l.uploadDeadline || l.settlementStart != 0;
            && (l.StageAt(now) == Stage.Buy <==> !over && now < l.uploadStart)
            && (l.StageAt(now) == Stage.Upload <==> !over && now >= l.uploadStart && !closed)
            && (l.StageAt(now) == Stage.Remediation <==> !over && closed && Challenging(l, now))
            && (l.StageAt(now) == Stage.Settlement <==> !over && closed && !Challenging(l, now))
            && (l.StageAt(now) == Stage.Settled <==> over)
  {
  }

  /** In every reachable state the derived phase is what clock and counters say, and the five cases exclude each other. */
  lemma PhaseOf(s: State)
    requires Reachable(s)
    ensures var l := s.lottery;
            var over := l.settled || (l.participantsCount == 1 && s.now > l.uploadDeadline);
            var closed := s.now > l.uploadDeadline || l.settlementStart != 0;
            && (l.StageAt(s.now) == Stage.Buy <==> !over && s.now < l.uploadStart)
            && (l.StageAt(s.now) == Stage.Upload <==> !over && s.now >= l.uploadStart && !closed)
            && (l.StageAt(s.now) == Stage.Remediation <==> !over && closed && Challenging(l, s.now))
            && (l.StageAt(s.now) == Stage.Settlement <==> !over && closed && !Challenging(l, s.now))
            && (l.StageAt(s.now) == Stage.Settled <==> over)
  {
    hide *;
    ReachableInv(s);
    Parts(s);
    StageMeans(s.lottery, s.now);
  }

  // ----- the challenge window over runs -----

  lemma StampedChallenge(l: LotteryData, m: LotteryData, now: int)
    requires Stamped(l, m, now) && l.remediationStart != 0
    ensures ChallengeKept(l, m)
  {
  }

  lemma KeptChallenge(l: LotteryData, m: LotteryData)
    requires ChallengeKept(l, m)
    ensures l.remediationStart != 0 ==> m.remediationStart != 0
    ensures m.remediationStart == l.remediationStart && m.remediationDeadline == l.remediationDeadline
  {
  }

  lemma ChallengeSame(l: LotteryData, m: LotteryData)
    requires m.remediationStart == l.remediationStart && m.remediationDeadline == l.remediationDeadline
    ensures ChallengeKept(l, m)
  {
  }

  /** Once opened, a challenge window is never moved, extended or opened again. */
  lemma {:induction false} RunChallenge(s: State, steps: seq<Step>)
    requires Inv(s) && s.lottery.remediationStart != 0
    ensures ChallengeKept(s.lottery, Run(s, steps).lottery)
  {
    hide Inv, After, ChallengeKept, Stamped;
    if steps == [] {
      ChallengeSame(s.lottery, s.lottery);
    } else {
      var n := |steps| - 1;
      RunChallenge(s, steps[..n]);
      RunKeeps(s, steps[..n]);
      var mid := Run(s, steps[..n]);
      KeptChallenge(s.lottery, mid.lottery);
      StepStamps(mid, steps[n]);
      StampedChallenge(mid.lottery, Run(s, steps).lottery, mid.now);
      KeptChallenge(mid.lottery, Run(s, steps).lottery);
      ChallengeSame(s.lottery, Run(s, steps).lottery);
    }
  }

  lemma DeadlineOf(l: LotteryData, now: int)
    requires Clockwork(l, now)
    ensures l.remediationStart != 0 ==> l.remediationDeadline == l.remediationStart + 1800
    ensures l.RemediationExpired(now) <==> l.remediationStart != 0 && now > l.remediationStart + 1800 && Missing(l)
  {
  }

  /** A challenge always lasts 1800 seconds: it counts as expired exactly after that, and only while reveals are missing. */
  lemma ChallengeLasts(s: State)
    requires Reachable(s)
    ensures s.lottery.RemediationExpired(s.now) <==>
              s.lottery.remediationStart != 0 && s.now > s.lottery.remediationStart + 1800 && Missing(s.lottery)
    ensures s.lottery.remediationStart != 0 ==> s.lottery.remediationDeadline == s.lottery.remediationStart + 1800
  {
    hide *;
    ReachableInv(s);
    Parts(s);
    DeadlineOf(s.lottery, s.now);
  }

  // ----- the schedule -----

  /** The schedule fixed at creation: a day for purchases, then a day for uploads, unless uploads were opened early. */
  ghost predicate Scheduled(l: LotteryData) {
    && l.buyStart == l.createdAt && l.buyDeadline == l.createdAt + 86_400
    && l.uploadStart <= l.createdAt + 86_400 && l.uploadDeadline >= l.createdAt + 172_800
    && (l.uploadStart == l.createdAt + 86_400 ==> l.uploadDeadline == l.createdAt + 172_800)
  }

  lemma ScheduledOn(l: LotteryData, m: LotteryData, now: int)
    requires Scheduled(l) && Stamped(l, m, now)
    ensures Scheduled(m)
  {
  }

  lemma {:induction false} RunScheduled(s: State, steps: seq<Step>)
    requires Inv(s) && Scheduled(s.lottery)
    ensures Scheduled(Run(s, steps).lottery)
  {
    hide Inv, After, Scheduled, Stamped;
    if steps != [] {
      var n := |steps| - 1;
      RunScheduled(s, steps[..n]);
      RunKeeps(s, steps[..n]);
      var mid := Run(s, steps[..n]);
      StepStamps(mid, steps[n]);
      ScheduledOn(mid.lottery, Run(s, steps).lottery, mid.now);
    }
  }

  /** In every reachable state the lottery is on its schedule. */
  lemma OnSchedule(s: State)
    requires Reachable(s)
    ensures Scheduled(s.lottery)
  {
    hide Inv, Run, Created, Initial, Scheduled;
    var h, config, rents, id, now, bps, price, bank, steps :|
      && Created(h, config, rents, id, now, bps, price, bank)
      && s == Run(Initial(h, config, rents, id, now, bps, price, bank), steps);
    var s0 := Initial(h, config, rents, id, now, bps, price, bank);
    CreatedInv(h, config, rents, id, now, bps, price, bank);
    CreatedScheduled(h, config, rents, id, now, bps, price, bank);
    RunScheduled(s0, steps);
  }

  lemma CreatedScheduled(h: Hashes, config: Payouts.Config, rents: Rents, id: nat, now: int, bps: nat, price: nat, bank: Banks.Bank)
    ensures Scheduled(Initial(h, config, rents, id, now, bps, price, bank).lottery)
  {
  }

  // ----- the ledger -----

  /** The stamps a ledger keeps until it is completed. */
  ghost predicate SameStamp(root: LedgerData, r: LedgerData) {
    r.startedAt == root.startedAt && r.completed == root.completed && r.completedAt == root.completedAt
  }

  /** The ledger is started and completed once, each at the current time. */
  ghost predicate LedgerStamped(root: Option<LedgerData>, after: Option<LedgerData>, now: int) {
    match after
    case None => root.None?
    case Some(r) =>
      && r.startedAt == (if root.Some? then root.value.startedAt else now)
      && (IsComplete(after) && !IsComplete(root) ==> r.completed && r.completedAt == now)
      && (IsComplete(after) && IsComplete(root) ==> after == root)
      && (!IsComplete(after) ==>
            r.completed == (root.Some? && root.value.completed) && r.completedAt == if root.Some? then root.value.completedAt else 0)
  }

  lemma LoadedStamp(s: State, root: LedgerData)
    requires FinalizeWinners.LoadRoot(s) == Ok(root)
    ensures if s.root.Some? then root == s.root.value
            else root.startedAt == s.now && !root.completed && root.completedAt == 0 && root.phase == Aggregating
  {
  }

  lemma EndAggregationStamp(s: State, root: LedgerData)
    requires FinalizeWinners.EndAggregation(s, root).Ok?
    ensures SameStamp(root, FinalizeWinners.EndAggregation(s, root).value.1)
  {
  }

  lemma AfterWinnerStamp(s: State, root: LedgerData)
    requires FinalizeWinners.AfterWinner(s, root).Ok?
    ensures var r := FinalizeWinners.AfterWinner(s, root).value.1;
            if r.phase == Completed then r.startedAt == root.startedAt && r.completed && r.completedAt == s.now
            else SameStamp(root, r)
  {
    hide DrawIndex.Draw;
    var r1 := AfterWinnerEffect(s, root);
    RecordEffect(s.h, root, SelectedWinner(root.pendingWinner, root.pendingWinnerTickets));
    if r1.selectedCount == r1.targetWinners {
      CompleteEffect(s.lottery, r1, s.now);
    }
  }

  lemma EndSelectionStamp(s: State, root: LedgerData)
    requires FinalizeWinners.EndSelection(s, root).Ok? && root.phase == Selecting
    ensures var r := FinalizeWinners.EndSelection(s, root).value.1;
            if r.phase == Completed then r.startedAt == root.startedAt && r.completed && r.completedAt == s.now
            else SameStamp(root, r)
  {
    hide FinalizeWinners.EndSelection, FinalizeWinners.AppendWinner, FinalizeWinners.AfterWinner;
    EndSelectionEffect(s, root);
    if root.roundProcessedCount >= root.requiredCount {
      AfterWinnerStamp(s, root);
    }
  }

  lemma AggregatedStamp(h: Hashes, start: Pass, pass: Pass)
    requires Aggregated(h, start, pass)
    ensures SameStamp(start.root, pass.root)
  {
    hide OnlyMarks, FoldedLedger;
  }

  lemma WalkedStamp(start: Pass, pass: Pass, who: seq<nat>)
    requires Walked(start, pass, who)
    ensures SameStamp(start.root, pass.root) && pass.root.phase == start.root.phase
  {
    hide OnlyMarks, Walking;
  }

  lemma LedgerStampedIntro(root: Option<LedgerData>, loaded: LedgerData, r: LedgerData, now: int)
    requires if root.Some? then loaded == root.value
             else loaded.startedAt == now && !loaded.completed && loaded.completedAt == 0 && loaded.phase == Aggregating
    requires loaded.phase != Completed
    requires if r.phase == Completed then r.startedAt == loaded.startedAt && r.completed && r.completedAt == now
             else SameStamp(loaded, r)
    ensures LedgerStamped(root, Some(r), now)
  {
  }

  lemma StampChain(a: LedgerData, b: LedgerData, c: LedgerData)
    requires SameStamp(a, b)
    ensures SameStamp(b, c) ==> SameStamp(a, c)
    ensures c.startedAt == b.startedAt ==> c.startedAt == a.startedAt
  {
  }

  lemma LedgerSame(root: Option<LedgerData>, now: int)
    ensures LedgerStamped(root, root, now)
  {
  }

  lemma ChunkLedgerStamps(s: State, page: nat, keys: seq<Pubkey>)
    requires Inv(s) && FinalizeWinners.Apply(s, page, keys).Ok?
    ensures LedgerStamped(s.root, FinalizeWinners.Apply(s, page, keys).value.root, s.now)
  {
    hide *;
    LedgerSame(s.root, s.now);
    FinalizationKeeps.ApplyEffect(s, page, keys);
    if FinalizeWinners.Check(s, keys).value == FinalizeWinners.Proceed {
      ChunkStart(s, page, keys);
      var root := FinalizeWinners.LoadRoot(s).value;
      LoadedStamp(s, root);
      var start := FinalizeWinners.Pass(root, s.rows);
      match root.phase {
        case Aggregating =>
          DraftFacts(s, root);
          var pass := AggregateParts(s, root, keys);
          AggregateAllKeeps(s.h, s.slot, start, keys);
          AggregatedStamp(s.h, start, pass);
          EndAggregationStamp(s, pass.root);
          EndAggregationCounts(s, pass.root);
          AggregatedFacts(s.h, start, pass);
          var r := FinalizeWinners.EndAggregation(s, pass.root).value.1;
          StampChain(root, pass.root, r);
          LedgerStampedIntro(s.root, root, r, s.now);
        case Selecting =>
          SelectingFacts(s, root);
          var pass := SelectParts(s, root, keys);
          InPassFacts(s, root, s.rows, Pool(s.rows));
          WalkStarts(s, root);
          SelectAllKeeps(s.slot, start, Drawn(s.h, root, Pool(s.rows)), keys);
          WalkedStamp(start, pass, Drawn(s.h, root, Pool(s.rows)));
          EndSelectionStamp(s, pass.root);
          var r := FinalizeWinners.EndSelection(s, pass.root).value.1;
          StampChain(root, pass.root, r);
          LedgerStampedIntro(s.root, root, r, s.now);
        case Completed =>
      }
    }
  }

  /** The ledger is started by its first chunk and completed by its last, and its times say when. */
  lemma StepLedgerStamps(s: State, step: Step)
    requires Inv(s)
    ensures LedgerStamped(s.root, After(s, step).root, s.now)
  {
    hide *;
    LedgerSame(s.root, s.now);
    if step.Finalize? {
      AfterMeans(s, step);
      if Next(s, step).Ok? {
        NextMeans(s, step);
        ChunkLedgerStamps(s, step.page, step.keys);
      }
    } else {
      LedgerUntouched(s, step);
    }
  }
}
