/** From the moment uploads are over and everything attested is included, nothing changes the pool finalization works on. */
module FrozenPool {
  import opened Prelude
  import opened Digests
  import opened Participants
  import opened WinnerPages
  import opened FinalizationLedgers
  import opened Lotteries
  import opened Payouts
  import opened Banks
  import opened States
  import opened Steps
  import opened Invariants
  import opened SimpleSteps
  import opened BuyingKeeps
  import opened AttestationKeeps
  import opened UploadKeeps
  import opened AggregationKeeps
  import opened FinalizationKeeps
  import opened PayoutKeeps
  import opened Runs
  import BuyTickets
  import UploadReveals
  import FinalizeWinners
  import SettlePayoutBatch
  import ClaimRefund
  import CloseRefundVault
  import CloseParticipant

  /** Participants differ in finalization marks only, accounts close only after settlement, and counters stay. */
  ghost predicate PoolKept(s: State, t: State) {
    && OnlyMarks(s.rows, t.rows)
    && t.lottery.participantsCount == s.lottery.participantsCount
    && t.lottery.attestedCount == s.lottery.attestedCount && t.lottery.providerUploaded == s.lottery.providerUploaded
    && t.lottery.totalTickets == s.lottery.totalTickets && t.lottery.totalFunds == s.lottery.totalFunds
    && t.lottery.id == s.lottery.id && t.config == s.config && t.h == s.h
    && (s.lottery.settlementComplete ==> t.lottery.settlementComplete)
    && (!t.lottery.settlementComplete ==> t.slot == s.slot)
  }

  /** What two states share when only the bank, the books, the pages or the winner fields differ. */
  lemma KeptByFields(s: State, t: State)
    requires t.rows == s.rows && t.slot == s.slot && t.config == s.config && t.h == s.h
    requires t.lottery.participantsCount == s.lottery.participantsCount
    requires t.lottery.attestedCount == s.lottery.attestedCount && t.lottery.providerUploaded == s.lottery.providerUploaded
    requires t.lottery.totalTickets == s.lottery.totalTickets && t.lottery.totalFunds == s.lottery.totalFunds
    requires t.lottery.id == s.lottery.id && (s.lottery.settlementComplete ==> t.lottery.settlementComplete)
    ensures PoolKept(s, t)
  {
  }

  /** Buying and attesting are over once the ledger exists. */
  lemma NoMoreBuying(s: State, buyer: Pubkey, proof: Option<Bytes32>, count: U64)
    requires Inv(s) && (s.root.Some? || AllIncluded(s.lottery, s.now))
    ensures BuyTickets.Apply(s, buyer, proof, count).Err?
  {
    hide *;
    if BuyTickets.Apply(s, buyer, proof, count).Ok? {
      Parts(s);
      NoMoreAttesting(s);
      var t := BuyTickets.Apply(s, buyer, proof, count).value;
      var i, p := BuyEffect(s, buyer, proof, count);
      SoldFields(s.lottery, t.lottery, |t.rows|, count);
      BuyClock(s.config, s.lottery, t.lottery, s.now, s.root);
    }
  }

  lemma NoMoreAttesting(s: State)
    requires Inv(s) && (s.root.Some? || AllIncluded(s.lottery, s.now))
    ensures s.lottery.StageAt(s.now) != Stage.Upload
    ensures s.lottery.attestedCount > 0 && (s.root.Some? ==> s.lottery.participantsCount >= 2)
    ensures s.lottery.providerUploaded >= s.lottery.attestedCount
    ensures s.lottery.settled ==> s.lottery.settlementComplete && s.lottery.winnersCount > 0
  {
    hide *;
    Parts(s);
    FrozenIncluded(s.lottery, s.now);
    IncludedStage(s.lottery, s.now);
    IncludedSettled(s.lottery, s.root, s.pages, s.now);
  }

  lemma FrozenIncluded(l: LotteryData, now: int)
    ensures Frozen(l, now) ==> AllIncluded(l, now) && l.participantsCount >= 2
  {
  }

  lemma IncludedStage(l: LotteryData, now: int)
    requires Clockwork(l, now) && AllIncluded(l, now)
    ensures l.StageAt(now) != Stage.Upload && l.attestedCount > 0 && l.providerUploaded >= l.attestedCount
  {
  }

  lemma IncludedSettled(l: LotteryData, root: Option<LedgerData>, pages: map<nat, PageData>, now: int)
    requires AllIncluded(l, now) && Settling(l, root, pages) && RefundReason(l, now) && (root.Some? ==> Frozen(l, now))
    ensures l.settled ==> l.settlementComplete && l.winnersCount > 0
  {
    hide PaidSet, PagePaid, PayoutPlan;
  }

  /** An upload that still succeeds is empty. */
  lemma EmptyUpload(s: State, uploader: Pubkey, entries: seq<Upload>)
    requires Inv(s) && (s.root.Some? || AllIncluded(s.lottery, s.now)) && UploadReveals.Apply(s, uploader, entries).Ok?
    ensures var t := UploadReveals.Apply(s, uploader, entries).value;
            entries == [] && PoolKept(s, t) && t.root == s.root && t.pages == s.pages
  {
    hide *;
    Parts(s);
    var cap, k := s.MaxWinners(), |entries|;
    PoolTickets(s.lottery, cap, s.rows);
    IncludedAttested(s.lottery, cap, s.rows);
    RowsCounted(s.lottery, s.rows, s.slot);
    var b := UploadEffect(s, uploader, entries);
    var t := UploadReveals.Apply(s, uploader, entries).value;
    ProgressParts(s.rows, cap, b, k);
    UploadBounds(s.lottery, cap, s.rows, b, k);
    NoMoreAttesting(s);
    var l1 := NothingSaturates(s.lottery, t.lottery, s.now, b.digests, b.tally);
    UploadedSame(s.lottery, l1, t.lottery, s.now, b.digests, b.tally);
    KeptByFields(s, t);
  }

  /** A chunk touches finalization marks only. */
  lemma ChunkKeepsPool(s: State, page: nat, keys: seq<Pubkey>)
    requires Inv(s) && FinalizeWinners.Apply(s, page, keys).Ok?
    ensures PoolKept(s, FinalizeWinners.Apply(s, page, keys).value)
  {
    hide *;
    FinalizationKeeps.ApplyEffect(s, page, keys);
    var t := FinalizeWinners.Apply(s, page, keys).value;
    match FinalizeWinners.Check(s, keys).value {
      case Skip => KeptByFields(s, t);
      case Remediate => RemediationFields(s.lottery, s.now); KeptByFields(s, t);
      case Proceed =>
        Parts(s);
        ChunkStart(s, page, keys);
        var root := FinalizeWinners.LoadRoot(s).value;
        match root.phase {
          case Aggregating =>
            var l, r, rows := AggregateResult(s, root, keys);
            AdvancedFinalizing(s, l, r, rows, Pool(s.rows));
            KeptByMarks(s, t);
          case Selecting =>
            NotComplete(s, root);
            NoWinnersYet(s.lottery, s.root, s.pages);
            var l, r, rows, pages := SelectResult(s, root, keys);
            ContinuedOutcome(s, l, r, rows, Pool(s.rows), pages);
            OutcomeFields(s.lottery, l, r, s.now);
            KeptByMarks(s, t);
          case Completed => KeptByFields(s, t);
        }
    }
  }

  lemma RemediationFields(l: LotteryData, now: int)
    ensures l.BeginRemediation(now) == l.(remediationStart := l.BeginRemediation(now).remediationStart,
                                          remediationDeadline := l.BeginRemediation(now).remediationDeadline)
  {
  }

  lemma KeptByMarks(s: State, t: State)
    requires OnlyMarks(s.rows, t.rows)
    requires t.slot == s.slot && t.config == s.config && t.h == s.h
    requires t.lottery.participantsCount == s.lottery.participantsCount
    requires t.lottery.attestedCount == s.lottery.attestedCount && t.lottery.providerUploaded == s.lottery.providerUploaded
    requires t.lottery.totalTickets == s.lottery.totalTickets && t.lottery.totalFunds == s.lottery.totalFunds
    requires t.lottery.id == s.lottery.id && (s.lottery.settlementComplete ==> t.lottery.settlementComplete)
    ensures PoolKept(s, t)
  {
  }

  lemma PayoutKeepsPool(s: State, id: nat, page: nat, winners: seq<WinnerProof>, recipients: seq<Pubkey>)
    requires Inv(s) && SettlePayoutBatch.Apply(s, id, page, winners, recipients).Ok?
    ensures PoolKept(s, SettlePayoutBatch.Apply(s, id, page, winners, recipients).value)
    ensures SettlePayoutBatch.Apply(s, id, page, winners, recipients).value.root == s.root
  {
    hide *;
    Parts(s);
    PayoutKeeps.ApplyEffect(s, id, page, winners, recipients);
    var t := SettlePayoutBatch.Apply(s, id, page, winners, recipients).value;
    match SettlePayoutBatch.Check(s, id, page, winners, recipients).value {
      case AlreadyComplete => KeptByFields(s, t);
      case Pay(p0, amount) =>
        BooksFit(s.lottery, s.rows, s.rents, s.bank, s.vaultOpen, s.donated, s.credited);
        var p, swept := PayoutResult(s, id, page, winners, recipients, p0, amount);
        ResultParts(s, t, page, p, amount, swept);
        WinnersMean(s.lottery, s.root, s.pages);
        PayoutClock(s.config, s.lottery, t.lottery, s.now, swept);
        KeptByFields(s, t);
    }
  }

  lemma ClosedAccount(s: State, t: State)
    requires t.rows == s.rows && t.config == s.config && t.h == s.h && t.lottery == s.lottery && s.lottery.settlementComplete
    ensures PoolKept(s, t)
  {
  }

  /** Closing an account needs a refund or a finished settlement, and refunds are out of the question here. */
  lemma CloseMeansComplete(s: State, owner: Pubkey)
    requires Inv(s) && (s.root.Some? || AllIncluded(s.lottery, s.now)) && CloseParticipant.Apply(s, owner).Ok?
    ensures s.lottery.settlementComplete
  {
    hide Inv;
    NoMoreAttesting(s);
  }

  lemma RefundSettled(s: State)
    ensures CloseRefundVault.Apply(s).Ok? ==> s.lottery.settled && s.lottery.winnersCount == 0
    ensures forall w :: ClaimRefund.Apply(s, w).Ok? ==> s.lottery.settled && s.lottery.winnersCount == 0
  {
  }

  /**
   Once uploads are over with nothing missing, or a chunk has been committed, no step of any kind changes who is in
   the pool, with what tickets and reveals.
   */
  lemma StepKeepsPool(s: State, step: Step)
    requires Inv(s) && (s.root.Some? || AllIncluded(s.lottery, s.now))
    ensures PoolKept(s, After(s, step)) && (s.root.Some? ==> After(s, step).root.Some?)
  {
    hide *;
    var t := After(s, step);
    AfterMeans(s, step);
    if Next(s, step).Err? {
      KeptByFields(s, t);
    } else {
      NextMeans(s, step);
      NoMoreAttesting(s);
      match step
      case Tick(seconds) => KeptByFields(s, t);
      case Send(from, to, amount) => SendFields(s, from, to, amount); KeptByFields(s, t);
      case Buy(buyer, proof, count) => NoMoreBuying(s, buyer, proof, count);
      case BeginReveal(caller, attestation, upload) =>
        BeginRevealEffect(s, caller, attestation, upload);
        KeptByFields(s, t);
      case Attest(wallet, voted, receipt) => AttestEffect(s, wallet, voted, receipt);
      case Reveal(wallet, voted, plaintext) =>
        Parts(s);
        RowsCounted(s.lottery, s.rows, s.slot);
        SomebodyReveals(s, wallet, voted, plaintext);
        var u := RevealEffect(s, wallet, voted, plaintext);
      case Upload(uploader, entries) => EmptyUpload(s, uploader, entries);
      case Finalize(page, keys) =>
        ChunkKeepsPool(s, page, keys);
        if s.root.Some? {
          ChunkKeepsRoot(s, page, keys);
        }
      case Cancel =>
        CancelEffect(s);
        SettleFields(s.lottery);
        KeptByFields(s, t);
      case Payout(id, page, winners, recipients) => PayoutKeepsPool(s, id, page, winners, recipients);
      case Refund(claimer) => RefundSettled(s); 
      case CloseVault => RefundSettled(s);
      case CloseAccount(owner) =>
        CloseMeansComplete(s, owner);
        CloseAccountEffect(s, owner);
        ClosedAccount(s, t);
    }
  }

  lemma SettleFields(l: LotteryData)
    ensures l.Settle() == l.(settled := true)
  {
  }

  lemma SendFields(s: State, from: Pubkey, to: Account, amount: nat)
    requires SendLamports(s, from, to, amount).Ok?
    ensures var t := SendLamports(s, from, to, amount).value;
            t == s.(bank := t.bank, donated := t.donated)
  {
  }

  lemma ChunkKeepsRoot(s: State, page: nat, keys: seq<Pubkey>)
    requires s.root.Some? && FinalizeWinners.Apply(s, page, keys).Ok?
    ensures FinalizeWinners.Apply(s, page, keys).value.root.Some?
  {
    hide *;
    FinalizationKeeps.ApplyEffect(s, page, keys);
    if FinalizeWinners.Check(s, keys).value == FinalizeWinners.Proceed {
      var root := FinalizeWinners.LoadRoot(s).value;
      match root.phase {
        case Aggregating => var pass := AggregateParts(s, root, keys);
        case Selecting => var pass := SelectParts(s, root, keys);
        case Completed =>
      }
    }
  }

  lemma PoolKeptSelf(s: State)
    ensures PoolKept(s, s)
  {
  }

  lemma PoolKeptChain(s: State, t: State, u: State)
    requires PoolKept(s, t) && PoolKept(t, u)
    ensures PoolKept(s, u)
  {
    OnlyMarksChain(s.rows, t.rows, u.rows);
  }

  /** Over any run that starts after the first committed chunk, the pool stays as it was. */
  lemma {:induction false} RunKeepsPool(s: State, steps: seq<Step>)
    requires Inv(s) && s.root.Some?
    ensures PoolKept(s, Run(s, steps)) && Run(s, steps).root.Some?
  {
    hide Inv, After, PoolKept;
    if steps == [] {
      PoolKeptSelf(s);
    } else {
      var n := |steps| - 1;
      RunKeepsPool(s, steps[..n]);
      RunKeeps(s, steps[..n]);
      StepKeepsPool(Run(s, steps[..n]), steps[n]);
      PoolKeptChain(s, Run(s, steps[..n]), Run(s, steps));
    }
  }
}
