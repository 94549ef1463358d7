/** How one step can move the windows, flags and counters of a lottery, and what therefore never turns back. */
module Phases {
  import opened Digests
  import opened Participants
  import opened VoteTallies
  import opened FinalizationLedgers
  import opened Lotteries
  import opened Payouts
  import opened States
  import opened Steps
  import opened Invariants
  import opened SimpleSteps
  import opened BuyingKeeps
  import opened AttestationKeeps
  import opened UploadKeeps
  import opened FinalizationKeeps
  import opened PayoutKeeps
  import opened FrozenPool
  import FinalizeWinners
  import SettlePayoutBatch
  import UploadReveals

  // ----- the kinds of moves -----

  /** Windows, participants, attestations and remediation stay; flags only rise. */
  ghost predicate TimelineKept(l: LotteryData, m: LotteryData) {
    && m.participantsCount == l.participantsCount && m.attestedCount == l.attestedCount
    && m.providerUploaded == l.providerUploaded
    && m.uploadStart == l.uploadStart && m.uploadDeadline == l.uploadDeadline
    && m.remediationStart == l.remediationStart && m.remediationDeadline == l.remediationDeadline
    && (l.settled ==> m.settled) && (l.settlementStart > 0 ==> m.settlementStart > 0)
  }

  /** Buying or opening the upload window, before it starts. */
  ghost predicate Early(l: LotteryData, m: LotteryData, now: int) {
    && !l.settled && !m.settled && !(l.uploadStart > 0 && now >= l.uploadStart)
    && l.attestedCount == 0 && m.attestedCount == 0 && m.settlementStart == l.settlementStart
  }

  /** Attesting inside the upload window. */
  ghost predicate Attesting(l: LotteryData, m: LotteryData, now: int) {
    && l.StageAt(now) == Stage.Upload
    && m.participantsCount == l.participantsCount && m.settled == l.settled
    && m.uploadStart == l.uploadStart && m.uploadDeadline == l.uploadDeadline
    && m.remediationStart == l.remediationStart && m.remediationDeadline == l.remediationDeadline
  }

  /** Including reveals after attesting is over. */
  ghost predicate Including(l: LotteryData, m: LotteryData, now: int) {
    && !l.RemediationExpired(now) && !l.settled && !m.settled && l.participantsCount >= 2
    && (l.UploadElapsed(now) || l.AllAttested() || l.settlementStart != 0)
    && m.participantsCount == l.participantsCount && m.attestedCount == l.attestedCount
    && m.uploadStart == l.uploadStart && m.uploadDeadline == l.uploadDeadline
    && l.providerUploaded <= m.providerUploaded && m.settlementStart != 0
  }

  /** Opening remediation because attested reveals are missing. */
  ghost predicate Remediating(l: LotteryData, m: LotteryData, now: int) {
    && !l.settled && l.participantsCount >= 2 && l.UploadElapsed(now) && l.remediationStart == 0
    && m == l.(remediationStart := m.remediationStart, remediationDeadline := m.remediationDeadline)
  }

  ghost predicate Moves(l: LotteryData, m: LotteryData, now: int) {
    TimelineKept(l, m) || Early(l, m, now) || Attesting(l, m, now) || Including(l, m, now) || Remediating(l, m, now)
  }

  // ----- every step makes one of these moves -----

  lemma SoldEarly(l: LotteryData, m: LotteryData, participants: nat, count: nat, now: int)
    requires m == Sold(l, participants, count) && l.attestedCount == 0 && !l.settled
    requires !(l.uploadStart > 0 && now >= l.uploadStart)
    ensures Early(l, m, now)
  {
  }

  lemma OpenedEarly(config: Config, l: LotteryData, m: LotteryData, now: int)
    requires Clockwork(l, now)
    requires m == l.(uploadStart := m.uploadStart, uploadDeadline := m.uploadDeadline, uploadsComplete := m.uploadsComplete,
                     aggregate := m.aggregate, selectedWinners := m.selectedWinners)
    requires !l.settled && !(l.uploadStart > 0 && now >= l.uploadStart)
    ensures Early(l, m, now)
  {
  }

  lemma AttestMoves(l: LotteryData, m: LotteryData, now: int)
    requires l.StageAt(now) == Stage.Upload
    requires m == l.(attestedCount := m.attestedCount, providerUploaded := m.providerUploaded, settlementStart := m.settlementStart,
                     uploadsComplete := m.uploadsComplete, aggregate := m.aggregate, selectedWinners := m.selectedWinners)
    ensures Attesting(l, m, now)
  {
  }

  lemma RevealedMoves(l: LotteryData, m: LotteryData, now: int, digest: Bytes32, t: Tally)
    requires l.StageAt(now) == Stage.Upload && RevealedLottery(l, m, now, digest, t)
    ensures Attesting(l, m, now)
  {
  }

  lemma UploadMoves(l: LotteryData, l1: LotteryData, m: LotteryData, now: int, digests: seq<Bytes32>, t: Tally)
    requires UploadedFields(l, l1, m, now, digests, t) && now != 0
    ensures Including(l, m, now)
  {
  }

  lemma Keeping(l: LotteryData, m: LotteryData)
    requires m == l.(selectedWinners := m.selectedWinners, settled := m.settled, settlementComplete := m.settlementComplete,
                     paidBitmap := m.paidBitmap, batchesCompleted := m.batchesCompleted,
                     winnersRoot := m.winnersRoot, winnersCount := m.winnersCount, totalPayout := m.totalPayout,
                     settlementStart := m.settlementStart)
    requires (l.settled ==> m.settled) && (l.settlementStart > 0 ==> m.settlementStart > 0)
    ensures TimelineKept(l, m)
  {
  }

  lemma Positive(l: LotteryData, now: int)
    requires Clockwork(l, now)
    ensures now > 0
  {
  }

  lemma OutcomeStart(l: LotteryData, m: LotteryData, r: LedgerData, now: int)
    requires Outcome(l, m, r, now)
    ensures l.settlementStart > 0 ==> m.settlementStart > 0
    ensures m.settled == l.settled
  {
    hide PaidSet, PayoutPlan;
  }

  lemma MovesIntro(l: LotteryData, m: LotteryData, now: int)
    ensures TimelineKept(l, m) ==> Moves(l, m, now)
    ensures Early(l, m, now) ==> Moves(l, m, now)
    ensures Attesting(l, m, now) ==> Moves(l, m, now)
    ensures Including(l, m, now) ==> Moves(l, m, now)
    ensures Remediating(l, m, now) ==> Moves(l, m, now)
    ensures Moves(l, l, now)
  {
    hide Early, Attesting, Including, Remediating;
  }

  lemma ChunkMoves(s: State, page: nat, keys: seq<Pubkey>)
    requires Inv(s) && FinalizeWinners.Apply(s, page, keys).Ok?
    ensures Moves(s.lottery, FinalizeWinners.Apply(s, page, keys).value.lottery, s.now)
  {
    hide *;
    Parts(s);
    FinalizationKeeps.ApplyEffect(s, page, keys);
    FinalizationKeeps.CheckEffect(s, keys);
    var l, m := s.lottery, FinalizeWinners.Apply(s, page, keys).value.lottery;
    MovesIntro(l, m, s.now);
    match FinalizeWinners.Check(s, keys).value {
      case Skip =>
      case Remediate => RemediatingMoves(l, s.now);
      case Proceed =>
        ChunkStart(s, page, keys);
        var root := FinalizeWinners.LoadRoot(s).value;
        match root.phase {
          case Aggregating =>
            var l1, r, rows := AggregateResult(s, root, keys);
            AdvancedFinalizing(s, l1, r, rows, Pool(s.rows));
            Keeping(l, m);
          case Selecting =>
            NotComplete(s, root);
            NoWinnersYet(s.lottery, s.root, s.pages);
            var l1, r, rows, pages := SelectResult(s, root, keys);
            ContinuedOutcome(s, l1, r, rows, Pool(s.rows), pages);
            OutcomeFields(l, l1, r, s.now);
            OutcomeStart(l, l1, r, s.now);
            Keeping(l, m);
          case Completed =>
        }
    }
  }

  lemma RemediatingMoves(l: LotteryData, now: int)
    requires !l.settled && l.participantsCount >= 2 && l.UploadElapsed(now) && l.remediationStart == 0
    ensures Moves(l, l.BeginRemediation(now), now)
  {
  }

  lemma PayoutMoves(s: State, id: nat, page: nat, winners: seq<WinnerProof>, recipients: seq<Pubkey>)
    requires Inv(s) && SettlePayoutBatch.Apply(s, id, page, winners, recipients).Ok?
    ensures Moves(s.lottery, SettlePayoutBatch.Apply(s, id, page, winners, recipients).value.lottery, s.now)
    ensures SettlePayoutBatch.Apply(s, id, page, winners, recipients).value.lottery.winnersCount == s.lottery.winnersCount
  {
    hide *;
    Parts(s);
    PayoutKeeps.ApplyEffect(s, id, page, winners, recipients);
    var t := SettlePayoutBatch.Apply(s, id, page, winners, recipients).value;
    MovesIntro(s.lottery, t.lottery, s.now);
    match SettlePayoutBatch.Check(s, id, page, winners, recipients).value {
      case AlreadyComplete =>
      case Pay(p0, amount) =>
        BooksFit(s.lottery, s.rows, s.rents, s.bank, s.vaultOpen, s.donated, s.credited);
        var p, swept := PayoutResult(s, id, page, winners, recipients, p0, amount);
        ResultParts(s, t, page, p, amount, swept);
        WinnersMean(s.lottery, s.root, s.pages);
        PayoutClock(s.config, s.lottery, t.lottery, s.now, swept);
        Keeping(s.lottery, t.lottery);
    }
  }

  lemma UploadingMoves(s: State, uploader: Pubkey, entries: seq<Upload>)
    requires Inv(s) && UploadReveals.Apply(s, uploader, entries).Ok?
    ensures var t := UploadReveals.Apply(s, uploader, entries).value;
            && Including(s.lottery, t.lottery, s.now) && t.lottery.winnersCount == s.lottery.winnersCount
            && t.lottery.providerUploaded <= t.lottery.attestedCount
  {
    hide *;
    Parts(s);
    var cap, k := s.MaxWinners(), |entries|;
    PoolTickets(s.lottery, cap, s.rows);
    IncludedAttested(s.lottery, cap, s.rows);
    RowsCounted(s.lottery, s.rows, s.slot);
    Positive(s.lottery, s.now);
    var b := UploadEffect(s, uploader, entries);
    var t := UploadReveals.Apply(s, uploader, entries).value;
    ProgressParts(s.rows, cap, b, k);
    UploadBounds(s.lottery, cap, s.rows, b, k);
    var l1 := NothingSaturates(s.lottery, t.lottery, s.now, b.digests, b.tally);
    UploadedSame(s.lottery, l1, t.lottery, s.now, b.digests, b.tally);
    UploadMoves(s.lottery, l1, t.lottery, s.now, b.digests, b.tally);
  }

  /** One of the moves was made, or time passed. */
  ghost predicate Moved(s: State, t: State) {
    && Moves(s.lottery, t.lottery, s.now) && t.now >= s.now
    && (t.now > s.now ==> t.lottery == s.lottery)
  }

  lemma MovedMeans(s: State, t: State)
    ensures Moved(s, t) <==>
              && Moves(s.lottery, t.lottery, s.now) && t.now >= s.now
              && (t.now > s.now ==> t.lottery == s.lottery)
  {
    hide Moves;
  }

  /** Steps that leave windows and counters alone. */
  lemma QuietMoves(s: State, step: Step)
    requires Inv(s) && Next(s, step).Ok?
    requires step.Tick? || step.Send? || step.Cancel? || step.Refund? || step.CloseVault? || step.CloseAccount?
    ensures Moved(s, Next(s, step).value)
  {
    hide *;
    NextMeans(s, step);
    Parts(s);
    RowsCounted(s.lottery, s.rows, s.slot);
    var t := Next(s, step).value;
    MovesIntro(s.lottery, t.lottery, s.now);
    MovedMeans(s, t);
    match step
    case Tick(seconds) =>
    case Send(from, to, amount) => SendFields(s, from, to, amount);
    case Cancel => CancelEffect(s); Keeping(s.lottery, t.lottery);
    case Refund(claimer) => RefundEffect(s, claimer); Keeping(s.lottery, t.lottery);
    case CloseVault => CloseVaultEffect(s);
    case CloseAccount(owner) => CloseAccountEffect(s, owner);
  }

  /** Purchases and early window openings. */
  lemma EarlyMoves(s: State, step: Step)
    requires Inv(s) && Next(s, step).Ok? && (step.Buy? || step.BeginReveal?)
    ensures Moved(s, Next(s, step).value)
  {
    hide *;
    NextMeans(s, step);
    Parts(s);
    var l, t := s.lottery, Next(s, step).value;
    MovesIntro(l, t.lottery, s.now);
    MovedMeans(s, t);
    match step
    case Buy(buyer, proof, count) =>
      var i, p := BuyEffect(s, buyer, proof, count);
      SoldFields(l, t.lottery, |t.rows|, count);
      BuyClock(s.config, l, t.lottery, s.now, s.root);
      SoldEarly(l, t.lottery, |t.rows|, count, s.now);
    case BeginReveal(caller, attestation, upload) =>
      BeginRevealEffect(s, caller, attestation, upload);
      OpenedEarly(s.config, l, t.lottery, s.now);
  }

  /** Attestations, with or without the reveal, and uploads. */
  lemma VoteMoves(s: State, step: Step)
    requires Inv(s) && Next(s, step).Ok? && (step.Attest? || step.Reveal? || step.Upload?)
    ensures Moved(s, Next(s, step).value)
  {
    hide *;
    NextMeans(s, step);
    Parts(s);
    RowsCounted(s.lottery, s.rows, s.slot);
    var l, t := s.lottery, Next(s, step).value;
    MovesIntro(l, t.lottery, s.now);
    MovedMeans(s, t);
    match step
    case Attest(wallet, voted, receipt) =>
      AttestEffect(s, wallet, voted, receipt);
      AttestMoves(l, t.lottery, s.now);
    case Reveal(wallet, voted, plaintext) =>
      SomebodyReveals(s, wallet, voted, plaintext);
      var u := RevealEffect(s, wallet, voted, plaintext);
      RevealedMoves(l, t.lottery, s.now, s.h.disclosure(wallet, plaintext), u);
    case Upload(uploader, entries) =>
      UploadingMoves(s, uploader, entries);
      PoolTickets(s.lottery, s.MaxWinners(), s.rows);
      IncludedAttested(s.lottery, s.MaxWinners(), s.rows);
      var b := UploadEffect(s, uploader, entries);
  }

  /** Every step makes one of the moves, or lets time pass. */
  lemma StepMoves(s: State, step: Step)
    requires Inv(s)
    ensures Moves(s.lottery, After(s, step).lottery, s.now) && After(s, step).now >= s.now
    ensures After(s, step).now > s.now ==> After(s, step).lottery == s.lottery
  {
    hide *;
    AfterMeans(s, step);
    MovedMeans(s, After(s, step));
    MovesIntro(s.lottery, After(s, step).lottery, s.now);
    if Next(s, step).Ok? {
      match step
      case Finalize(page, keys) => NextMeans(s, step); ChunkMoves(s, page, keys); ChunkTime(s, page, keys);
      case Payout(id, page, winners, recipients) =>
        NextMeans(s, step);
        PayoutMoves(s, id, page, winners, recipients);
        PayoutTime(s, id, page, winners, recipients);
      case Buy(_, _, _) => EarlyMoves(s, step);
      case BeginReveal(_, _, _) => EarlyMoves(s, step);
      case Attest(_, _, _) => VoteMoves(s, step);
      case Reveal(_, _, _) => VoteMoves(s, step);
      case Upload(_, _) => VoteMoves(s, step);
      case _ => QuietMoves(s, step);
    }
  }

  lemma ChunkTime(s: State, page: nat, keys: seq<Pubkey>)
    requires FinalizeWinners.Apply(s, page, keys).Ok?
    ensures FinalizeWinners.Apply(s, page, keys).value.now == s.now
  {
    hide *;
    FinalizationKeeps.ApplyEffect(s, page, keys);
    if FinalizeWinners.Check(s, keys).value == FinalizeWinners.Proceed {
      var root := FinalizeWinners.LoadRoot(s).value;
      match root.phase {
        case Aggregating => var pass := AggregateParts(s, root, keys);
        case Selecting => var pass := SelectParts(s, root, keys);
        case Completed =>
      }
    }
  }

  lemma PayoutTime(s: State, id: nat, page: nat, winners: seq<WinnerProof>, recipients: seq<Pubkey>)
    requires SettlePayoutBatch.Apply(s, id, page, winners, recipients).Ok?
    ensures SettlePayoutBatch.Apply(s, id, page, winners, recipients).value.now == s.now
  {
    hide *;
    PayoutKeeps.ApplyEffect(s, id, page, winners, recipients);
  }
}
