/** Over whole runs: payments are never taken back, the two bitmaps agree, and in the end everybody has been credited once. */
module CreditTheorems {
  import opened Prelude
  import opened Digests
  import opened Participants
  import opened WinnerPages
  import opened FinalizationLedgers
  import opened Lotteries
  import opened Payouts
  import opened Banks
  import opened States
  import opened Steps
  import opened Invariants
  import opened SimpleSteps
  import opened AttestationKeeps
  import opened UploadKeeps
  import opened PayoutKeeps
  import opened PayoutTheorems
  import opened FrozenPool
  import opened PhaseTheorems
  import opened Runs
  import FinalizeWinners
  import SettlePayoutBatch
  import UploadReveals

  /** The page bit and the lottery bit of every winner index agree. */
  lemma BitmapsAgree(s: State, i: nat)
    requires Reachable(s) && i < s.lottery.winnersCount
    ensures PagePaid(s.pages, i) <==> s.lottery.IsWinnerPaid(i)
    ensures i in s.credited <==> s.lottery.IsWinnerPaid(i)
    ensures i in s.credited ==> s.credited[i] == Share(s.lottery)
  {
    hide *;
    ReachableInv(s);
    Parts(s);
    BitsMean(s.lottery, s.root, s.pages, i);
    BooksFit(s.lottery, s.rows, s.rents, s.bank, s.vaultOpen, s.donated, s.credited);
    CreditsMean(s.lottery, s.credited, i);
  }

  lemma BitsMean(l: LotteryData, root: Option<LedgerData>, pages: map<nat, PageData>, i: nat)
    requires Settling(l, root, pages) && i < l.winnersCount
    ensures PagePaid(pages, i) <==> l.IsWinnerPaid(i)
    ensures i in Paid(l) <==> l.IsWinnerPaid(i)
  {
    hide PagePaid, PayoutPlan, LotteryData.IsWinnerPaid, PaidSet;
    PaidSetMeaning(l);
  }

  lemma CreditsMean(l: LotteryData, credited: map<nat, nat>, i: nat)
    requires CreditsOk(l, credited)
    ensures i in credited <==> i in Paid(l)
    ensures i in credited ==> credited[i] == Share(l)
  {
  }

  /** The winner bitmap only grows, and shares are fixed. */
  ghost predicate PaidGrows(l: LotteryData, m: LotteryData) {
    && m.winnersCount == l.winnersCount && m.totalPayout == l.totalPayout && Share(m) == Share(l)
    && m.totalFunds == l.totalFunds && m.bps == l.bps && Paid(l) <= Paid(m)
  }

  lemma GrowsSame(l: LotteryData, m: LotteryData)
    requires m.winnersCount == l.winnersCount && m.totalPayout == l.totalPayout && m.paidBitmap == l.paidBitmap
    requires m.totalFunds == l.totalFunds && m.bps == l.bps
    ensures PaidGrows(l, m)
  {
  }

  lemma GrowsChain(l: LotteryData, m: LotteryData, n: LotteryData)
    requires PaidGrows(l, m) && PaidGrows(m, n)
    ensures PaidGrows(l, n)
  {
  }

  lemma ChunkComplete(s: State, page: nat, keys: seq<Pubkey>)
    requires Inv(s) && IsComplete(s.root) && FinalizeWinners.Apply(s, page, keys).Ok?
    ensures FinalizeWinners.Apply(s, page, keys).value == s
  {
    hide Inv;
    CompleteSome(s.root);
    NoMoreAttesting(s);
  }

  lemma CompleteSome(root: Option<LedgerData>)
    requires IsComplete(root)
    ensures root.Some? && root.value.phase == Completed
  {
  }

  lemma WalletPaidGrows(b0: SettlePayoutBatch.Batch, amount: nat, b: SettlePayoutBatch.Batch, x: Pubkey)
    requires WalletPaid(b0, amount, b, x)
    ensures Paid(b0.lottery) <= Paid(b.lottery)
  {
  }

  lemma PayoutGrows(s: State, id: nat, page: nat, winners: seq<WinnerProof>, recipients: seq<Pubkey>)
    requires Inv(s) && SettlePayoutBatch.Apply(s, id, page, winners, recipients).Ok?
    ensures PaidGrows(s.lottery, SettlePayoutBatch.Apply(s, id, page, winners, recipients).value.lottery)
  {
    hide *;
    Parts(s);
    PayoutKeeps.ApplyEffect(s, id, page, winners, recipients);
    var t := SettlePayoutBatch.Apply(s, id, page, winners, recipients).value;
    match SettlePayoutBatch.Check(s, id, page, winners, recipients).value {
      case AlreadyComplete => GrowsSame(s.lottery, s.lottery);
      case Pay(p, amount) =>
        BooksFit(s.lottery, s.rows, s.rents, s.bank, s.vaultOpen, s.donated, s.credited);
        PayoutKeeps.CheckEffect(s, id, page, winners, recipients, p, amount);
        BatchStarts(s, page, amount);
        var b0 := SettlePayoutBatch.Batch(s.lottery, p, s.bank, s.credited);
        var b := SettlePayoutBatch.SettleAll(b0, amount, winners, recipients).value;
        SettleAllKeeps(b0, s.pages, page, amount, winners, recipients);
        SettleAllWallet(b0, s.pages, page, amount, winners, recipients, s.config.authority);
        WalletPaidGrows(b0, amount, b, s.config.authority);
        GrowsBits(s.lottery, b.lottery, b0, s.pages, page, amount, b);
        var l := b.lottery.IncrementBatch();
        IncrementFields(b.lottery);
        GrowsSame(b.lottery, l);
        GrowsChain(s.lottery, b.lottery, l);
        BatchFields(b0, s.pages, page, amount, b);
        if l.AllWinnersPaid() {
          SweepEffect(l, b.bank, s.config.authority);
          GrowsSame(l, t.lottery);
          GrowsChain(s.lottery, l, t.lottery);
        }
    }
  }

  lemma GrowsBits(l: LotteryData, m: LotteryData, b0: SettlePayoutBatch.Batch,
                  pages: map<nat, PageData>, k: nat, amount: nat, b: SettlePayoutBatch.Batch)
    requires BatchOk(b0, pages, k, amount, b) && b0.lottery == l && b.lottery == m && Paid(l) <= Paid(m)
    ensures PaidGrows(l, m)
  {
    hide PaidSet, PagePaid;
  }

  /** Once winners are fixed no step changes what they are due or takes a payment back. */
  lemma StepGrows(s: State, step: Step)
    requires Inv(s) && HasWinners(s)
    ensures PaidGrows(s.lottery, After(s, step).lottery)
  {
    hide *;
    AfterMeans(s, step);
    GrowsSame(s.lottery, s.lottery);
    WinnersIffComplete(s);
    NoMoreAttesting(s);
    if Next(s, step).Ok? {
      NextMeans(s, step);
      Parts(s);
      var t := After(s, step);
      match step
      case Tick(seconds) =>
      case Send(from, to, amount) => SendFields(s, from, to, amount);
      case Buy(buyer, proof, count) => NoMoreBuying(s, buyer, proof, count);
      case BeginReveal(caller, attestation, upload) =>
        BeginRevealEffect(s, caller, attestation, upload);
        GrowsSame(s.lottery, t.lottery);
      case Attest(wallet, voted, receipt) => AttestEffect(s, wallet, voted, receipt);
      case Reveal(wallet, voted, plaintext) => var u := RevealEffect(s, wallet, voted, plaintext);
      case Upload(uploader, entries) => UploadGrows(s, uploader, entries);
      case Finalize(page, keys) => ChunkComplete(s, page, keys);
      case Cancel => CancelEffect(s); GrowsSame(s.lottery, t.lottery);
      case Payout(id, page, winners, recipients) => PayoutGrows(s, id, page, winners, recipients);
      case Refund(claimer) => RefundEffect(s, claimer); GrowsSame(s.lottery, t.lottery);
      case CloseVault => CloseVaultEffect(s);
      case CloseAccount(owner) => CloseAccountEffect(s, owner);
    }
  }

  lemma UploadGrows(s: State, uploader: Pubkey, entries: seq<Upload>)
    requires Inv(s) && UploadReveals.Apply(s, uploader, entries).Ok?
    ensures PaidGrows(s.lottery, UploadReveals.Apply(s, uploader, entries).value.lottery)
  {
    hide *;
    Parts(s);
    var cap, k := s.MaxWinners(), |entries|;
    PoolTickets(s.lottery, cap, s.rows);
    IncludedAttested(s.lottery, cap, s.rows);
    RowsCounted(s.lottery, s.rows, s.slot);
    var b := UploadEffect(s, uploader, entries);
    var t := UploadReveals.Apply(s, uploader, entries).value;
    ProgressParts(s.rows, cap, b, k);
    UploadBounds(s.lottery, cap, s.rows, b, k);
    var l1 := NothingSaturates(s.lottery, t.lottery, s.now, b.digests, b.tally);
    UploadedSame(s.lottery, l1, t.lottery, s.now, b.digests, b.tally);
    GrowsSame(s.lottery, t.lottery);
  }

  lemma {:induction false} RunGrows(s: State, steps: seq<Step>)
    requires Inv(s) && HasWinners(s)
    ensures PaidGrows(s.lottery, Run(s, steps).lottery)
  {
    hide Inv, After, PaidGrows;
    if steps == [] {
      GrowsSame(s.lottery, s.lottery);
    } else {
      var n := |steps| - 1;
      RunGrows(s, steps[..n]);
      RunKeeps(s, steps[..n]);
      ExclusiveOutcome(s, steps[..n]);
      StepGrows(Run(s, steps[..n]), steps[n]);
      GrowsChain(s.lottery, Run(s, steps[..n]).lottery, Run(s, steps).lottery);
    }
  }

  /** A credit, once made, is there in every later state, unchanged: nobody is paid twice and nobody is unpaid again. */
  lemma CreditedOnce(s: State, steps: seq<Step>, i: nat)
    requires Reachable(s) && HasWinners(s) && i in s.credited
    ensures s.credited[i] == Share(s.lottery)
    ensures i in Run(s, steps).credited && Run(s, steps).credited[i] == s.credited[i]
  {
    hide *;
    var t := Run(s, steps);
    ReachableInv(s);
    RunKeeps(s, steps);
    RunGrows(s, steps);
    GrowsMeans(s.lottery, t.lottery);
    Parts(s);
    Parts(t);
    BooksFit(s.lottery, s.rows, s.rents, s.bank, s.vaultOpen, s.donated, s.credited);
    BooksFit(t.lottery, t.rows, t.rents, t.bank, t.vaultOpen, t.donated, t.credited);
    CreditsMean(s.lottery, s.credited, i);
    CreditsMean(t.lottery, t.credited, i);
  }

  lemma GrowsMeans(l: LotteryData, m: LotteryData)
    requires PaidGrows(l, m)
    ensures Paid(l) <= Paid(m) && Share(m) == Share(l)
  {
  }

  lemma SweptBooks(l: LotteryData, rows: seq<ParticipantData>, root: Option<LedgerData>, pages: map<nat, PageData>, rents: Rents,
                   bank: Bank, donated: nat, credited: map<nat, nat>)
    requires Settling(l, root, pages) && Banked(l, rows, rents, bank, false, donated, credited) && l.winnersCount > 0
    ensures |Paid(l)| == l.winnersCount && l.settled && l.settlementComplete
  {
    hide PagePaid, PaidSet, PayoutPlan;
  }

  lemma EverybodyPaid(l: LotteryData, i: nat)
    requires |Paid(l)| == l.winnersCount && i < l.winnersCount
    ensures i in Paid(l)
  {
    PaidSetMeaning(l);
  }

  /** A swept lottery has credited every winner exactly one share, and shares, fee and remainder are all of the funds. */
  lemma EverybodyCredited(s: State, i: nat)
    requires Reachable(s) && HasWinners(s) && !s.vaultOpen && i < s.lottery.winnersCount
    ensures i in s.credited && s.credited[i] == Share(s.lottery) >= 1
    ensures var fee := ServiceFee(s.lottery.totalFunds, s.lottery.bps);
            && fee.Ok? && fee.value + Share(s.lottery) * s.lottery.winnersCount
                          + Remainder(s.lottery.totalFunds, s.lottery.totalPayout, fee.value) == s.lottery.totalFunds
            && Remainder(s.lottery.totalFunds, s.lottery.totalPayout, fee.value) < s.lottery.winnersCount
    ensures s.lottery.settled && s.lottery.settlementComplete
  {
    hide *;
    ReachableInv(s);
    Parts(s);
    OutcomeMeans(s);
    FundsFit(s.lottery, s.MaxWinners(), s.rows);
    SweptBooks(s.lottery, s.rows, s.root, s.pages, s.rents, s.bank, s.donated, s.credited);
    EverybodyPaid(s.lottery, i);
    BooksFit(s.lottery, s.rows, s.rents, s.bank, s.vaultOpen, s.donated, s.credited);
    CreditsMean(s.lottery, s.credited, i);
    ShareIsPlanned(s.lottery, s.root, s.pages, s.config);
  }
}
