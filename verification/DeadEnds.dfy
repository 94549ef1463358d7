/**
 Which lotteries can always be wound up, and which never. Every reachable state has a way to a state in which nothing is
 left with the lottery, unless it is stuck: that is, the only dead ends are the stuck ones, as long as nobody has sent
 lamports to the address of the ledger, the tally or a winner page before the program creates that account (creation
 would fail then; those addresses are not part of the model).
 */
module DeadEnds {
  import opened Prelude
  import opened Digests
  import opened Sums
  import opened Participants
  import opened VoteTallies
  import opened TicketDraw
  import opened WinnerPages
  import opened FinalizationLedgers
  import opened Lotteries
  import opened Payouts
  import opened Banks
  import opened States
  import opened Steps
  import opened Invariants
  import opened SimpleSteps
  import opened BuyingKeeps
  import opened AttestationKeeps
  import opened PayoutKeeps
  import opened PayoutTheorems
  import opened CreditTheorems
  import opened DrawTheorems
  import opened FrozenPool
  import opened Phases
  import opened PhaseTheorems
  import opened Visits
  import opened MoneyTheorems
  import opened Runs
  import opened AccountClosings
  import opened ChunkSuccess
  import opened Progress
  import AttestUploaded
  import FinalizeWinners
  import FinalizeNoAttesters
  import CloseRefundVault
  import SettlePayoutBatch

  // ----- the refund path -----

  lemma OneMoreClaim(rows: seq<ParticipantData>, i: nat)
    requires i < |rows| && !rows[i].refundClaimed
    ensures var after := rows[i := rows[i].MarkRefundClaimed()];
            Sum(after, ClaimedOne()) == Sum(rows, ClaimedOne()) + 1 && |after| == |rows|
    ensures Sum(rows, ClaimedOne()) < |rows|
  {
    SumUpdate(rows, i, rows[i].MarkRefundClaimed(), ClaimedOne());
    UnclaimedCovered(rows, i);
  }

  lemma RefundStep(s: State, i: nat)
    requires Inv(s) && Refunding(s) && i < |s.rows| && !s.rows[i].refundClaimed
    ensures var t := After(s, Refund(s.rows[i].wallet));
            Inv(t) && Refunding(t) && |t.rows| == |s.rows| && Sum(t.rows, ClaimedOne()) == Sum(s.rows, ClaimedOne()) + 1
    ensures Sum(s.rows, ClaimedOne()) < |s.rows|
  {
    hide *;
    var step := Refund(s.rows[i].wallet);
    RefundIff(s, i);
    RefundCovered(s, i);
    RefundEffect(s, s.rows[i].wallet);
    RefundKeeps(s, s.rows[i].wallet);
    OneMoreClaim(s.rows, i);
    AfterMeans(s, step);
    NextMeans(s, step);
    OutcomeMeans(s);
    OutcomeMeans(After(s, step));
  }

  /** A cancelled lottery refunds everybody and then closes its vault. */
  lemma {:induction false} RefundRuns(s: State) returns (steps: seq<Step>)
    requires Inv(s) && Refunding(s)
    ensures Swept(Run(s, steps))
    decreases |s.rows| - Sum(s.rows, ClaimedOne())
  {
    hide *;
    OutcomeMeans(s);
    SweptMeans(s);
    OwedMeans(s);
    if !s.vaultOpen {
      steps := [];
      RunNone(s);
    } else if i: nat :| i < |s.rows| && !s.rows[i].refundClaimed {
      var step := Refund(s.rows[i].wallet);
      RefundStep(s, i);
      var rest := RefundRuns(After(s, step));
      RunOne(s, step);
      RunConcat(s, [step], rest);
      steps := [step] + rest;
    } else {
      CloseVaultIff(s);
      CloseVaultFields(s);
      AfterMeans(s, CloseVault);
      NextMeans(s, CloseVault);
      SweptMeans(After(s, CloseVault));
      RunOne(s, CloseVault);
      steps := [CloseVault];
    }
  }

  lemma CloseVaultFields(s: State)
    requires Inv(s) && CloseRefundVault.Apply(s).Ok?
    ensures var t := CloseRefundVault.Apply(s).value;
            t.lottery == s.lottery && !t.vaultOpen
  {
    hide *;
    Parts(s);
    CloseVaultEffect(s);
  }

  // ----- cancelling -----

  lemma TickAfter(s: State, seconds: nat)
    ensures After(s, Tick(seconds)) == s.(now := s.now + seconds)
  {
  }

  lemma CancelApplies(s: State)
    requires s.vaultOpen && !s.lottery.settled && s.lottery.uploadDeadline > 0 && s.now >= s.lottery.uploadDeadline
    requires s.lottery.attestedCount == 0 || s.lottery.RemediationExpired(s.now)
    ensures FinalizeNoAttesters.Apply(s).Ok?
  {
  }

  lemma DeadlinePositive(l: LotteryData, now: int)
    requires Clockwork(l, now)
    ensures l.uploadDeadline > 0
  {
  }

  lemma NoWinnersBefore(l: LotteryData, root: Option<LedgerData>, pages: map<nat, PageData>, now: int)
    requires Settling(l, root, pages) && (root.Some? ==> Frozen(l, now))
    requires l.attestedCount == 0 || l.RemediationExpired(now)
    ensures l.winnersCount == 0
  {
    hide PaidSet, PagePaid, PayoutPlan;
  }

  lemma CancelNow(s: State) returns (steps: seq<Step>)
    requires Inv(s) && !s.lottery.settled && s.now >= s.lottery.uploadDeadline
    requires s.lottery.attestedCount == 0 || s.lottery.RemediationExpired(s.now)
    ensures Swept(Run(s, steps))
  {
    hide *;
    Parts(s);
    DeadlinePositive(s.lottery, s.now);
    VaultStillOpen(s.lottery, s.rows, s.rents, s.bank, s.vaultOpen, s.donated, s.credited);
    NoWinnersBefore(s.lottery, s.root, s.pages, s.now);
    CancelApplies(s);
    CancelEffect(s);
    CancelKeeps(s);
    AfterMeans(s, Cancel);
    NextMeans(s, Cancel);
    OutcomeMeans(After(s, Cancel));
    var rest := RefundRuns(After(s, Cancel));
    RunsAfter(s, Cancel, rest);
    steps := [Cancel] + rest;
  }

  /** Without attestations, or with remediation expired, the lottery can be cancelled and refunded. */
  lemma CancelRuns(s: State) returns (steps: seq<Step>)
    requires Inv(s) && !s.lottery.settled
    requires s.lottery.attestedCount == 0 || s.lottery.RemediationExpired(s.now)
    ensures Swept(Run(s, steps))
  {
    hide *;
    var wait := if s.now >= s.lottery.uploadDeadline then 0 else s.lottery.uploadDeadline - s.now;
    TickAfter(s, wait);
    StepKeeps(s, Tick(wait));
    TickVerdicts(s.lottery, s.now, s.now + wait);
    var rest := CancelNow(After(s, Tick(wait)));
    RunsAfter(s, Tick(wait), rest);
    steps := [Tick(wait)] + rest;
  }

  // ----- remediation -----

  lemma RemediateApplies(s: State)
    requires s.vaultOpen && !s.lottery.settled && !s.lottery.settlementComplete && s.lottery.participantsCount >= 2
    requires s.lottery.attestedCount > 0 && s.lottery.HasMissingAttestedReveals() && s.lottery.UploadElapsed(s.now)
    requires s.lottery.remediationStart == 0
    ensures FinalizeWinners.Apply(s, 0, []) == Ok(s.(lottery := s.lottery.BeginRemediation(s.now)))
  {
  }

  /** Long enough after remediation was opened it has expired. */
  lemma ExpiresAfter(l: LotteryData, now: int) returns (wait: nat)
    requires Clockwork(l, now) && l.remediationStart != 0 && l.HasMissingAttestedReveals()
    ensures l.RemediationExpired(now + wait)
  {
    wait := if now > l.remediationDeadline then 0 else l.remediationDeadline + 1 - now;
  }

  lemma OpenedRemediation(l: LotteryData, now: int)
    requires now > 0 && l.HasMissingAttestedReveals()
    ensures l.BeginRemediation(now).remediationStart != 0 && l.BeginRemediation(now).HasMissingAttestedReveals()
    ensures l.BeginRemediation(now).settled == l.settled
  {
  }

  /** With remediation open and reveals still missing, waiting leads to cancellation. */
  lemma ExpiryRuns(s: State) returns (steps: seq<Step>)
    requires Inv(s) && !s.lottery.settled && s.lottery.remediationStart != 0 && s.lottery.HasMissingAttestedReveals()
    ensures Swept(Run(s, steps))
  {
    hide *;
    Parts(s);
    var wait := ExpiresAfter(s.lottery, s.now);
    TickAfter(s, wait);
    StepKeeps(s, Tick(wait));
    var rest := CancelRuns(After(s, Tick(wait)));
    RunsAfter(s, Tick(wait), rest);
    steps := [Tick(wait)] + rest;
  }

  lemma ElapsesAfter(l: LotteryData, now: int) returns (wait: nat)
    requires Clockwork(l, now)
    ensures l.UploadElapsed(now + wait) && now + wait > 0
  {
    wait := if now > l.uploadDeadline then 0 else l.uploadDeadline + 1 - now;
  }

  lemma MissingAttested(l: LotteryData)
    requires l.HasMissingAttestedReveals()
    ensures l.attestedCount > 0
  {
  }

  /** Missing reveals lead, at the latest, to remediation, its expiry and refunds. */
  lemma MissingRuns(s: State) returns (steps: seq<Step>)
    requires Inv(s) && !s.lottery.settled && s.lottery.participantsCount >= 2 && s.lottery.HasMissingAttestedReveals()
    ensures Swept(Run(s, steps))
  {
    hide *;
    Parts(s);
    if s.lottery.remediationStart != 0 {
      steps := ExpiryRuns(s);
    } else {
      MissingAttested(s.lottery);
      var wait := ElapsesAfter(s.lottery, s.now);
      TickAfter(s, wait);
      StepKeeps(s, Tick(wait));
      var t := After(s, Tick(wait));
      Parts(t);
      NotSettled(t.lottery, t.root, t.pages);
      VaultStillOpen(t.lottery, t.rows, t.rents, t.bank, t.vaultOpen, t.donated, t.credited);
      RemediateApplies(t);
      var step := Finalize(0, []);
      AfterMeans(t, step);
      NextMeans(t, step);
      StepKeeps(t, step);
      OpenedRemediation(t.lottery, t.now);
      var rest := ExpiryRuns(After(t, step));
      RunsAfter(t, step, rest);
      RunsAfter(s, Tick(wait), [step] + rest);
      steps := [Tick(wait)] + ([step] + rest);
    }
  }

  // ----- paying the winners -----

  lemma ProofOf(pages: map<nat, PageData>, l: LotteryData, i: nat, winners: seq<SelectedWinner>) returns (w: WinnerProof)
    requires PagesHold(pages, winners) && |winners| == l.winnersCount && i < l.winnersCount
    ensures w.index == i && w.index / WINNERS_PER_PAGE in pages
    ensures ProperProof(l, pages[i / WINNERS_PER_PAGE], Share(l), w, w.recipient)
    ensures pages[i / WINNERS_PER_PAGE].pageIndex == i / WINNERS_PER_PAGE
  {
    PagesRead(pages, winners, i);
    w := SettlePayoutBatch.WinnerProof(i, winners[i].wallet, Share(l));
    assert i / WINNERS_PER_PAGE in pages;
  }

  /** A batch of one proper proof leaves that winner paid. */
  lemma OneProofPays(b0: Batch, amount: nat, w: WinnerProof)
    requires Total(b0.bank) <= U64_MAX && b0.credited.Keys == Paid(b0.lottery)
    requires SettlePayoutBatch.SettleAll(b0, amount, [w], [w.recipient]).Ok?
    requires w.index < b0.lottery.winnersCount
    ensures w.index in Paid(SettlePayoutBatch.SettleAll(b0, amount, [w], [w.recipient]).value.lottery)
  {
    hide SettlePayoutBatch.PayOne, PaidSet;
    assert [w][..0] == [];
    assert SettlePayoutBatch.SettleAll(b0, amount, [w][..0], [w.recipient]) == Ok(b0);
    PaidSetMeaning(b0.lottery);
    if !b0.lottery.IsWinnerPaid(w.index) {
      PaidMoves(b0, w, w.recipient);
    }
  }

  lemma CompleteList(h: Hashes, id: nat, cap: nat, root: Option<LedgerData>, rows: seq<ParticipantData>, pool: seq<Entry>,
                     pages: map<nat, PageData>) returns (winners: seq<SelectedWinner>)
    requires Finalizing(h, id, cap, root, rows, pool, pages) && IsComplete(root)
    ensures root.Some? && PagesHold(pages, winners) && |winners| == root.value.selectedCount
  {
    hide PagesHold, PassInProgress, FoldedLedger;
    winners := WinnerList(h, root.value, pool);
  }

  lemma SmallPage(i: nat)
    requires i <= MAX_WINNERS
    ensures i / WINNERS_PER_PAGE <= U32_MAX
  {
  }

  lemma WinnersBound(l: LotteryData, root: Option<LedgerData>, pages: map<nat, PageData>)
    requires Settling(l, root, pages) && IsComplete(root)
    ensures l.winnersCount <= MAX_WINNERS
  {
    hide PaidSet, PagePaid, PayoutPlan;
  }

  /** In a completed, unswept lottery every winner can be paid by a batch of one. */
  lemma PayStep(s: State, i: nat) returns (w: WinnerProof)
    requires Inv(s) && HasWinners(s) && s.vaultOpen && i < s.lottery.winnersCount
    ensures w.index == i && CanPay(s, w)
  {
    hide *;
    Parts(s);
    OutcomeMeans(s);
    WinnersIffComplete(s);
    var winners := CompleteList(s.h, s.lottery.id, s.MaxWinners(), s.root, s.rows, Pool(s.rows), s.pages);
    w := ProofOf(s.pages, s.lottery, i, winners);
    OpenBooks(s.lottery, s.rows, s.rents, s.bank, s.donated, s.credited);
    WinnersBound(s.lottery, s.root, s.pages);
    SmallPage(i);
    ProofPasses(s, w);
  }

  /** The batch of one proof that pays winner w.index. */
  function PayStepOf(s: State, w: WinnerProof): Step {
    Payout(s.lottery.id, w.index / WINNERS_PER_PAGE, [w], [w.recipient])
  }

  /** Such a batch passes the guards and succeeds. */
  ghost predicate CanPay(s: State, w: WinnerProof) {
    var page := w.index / WINNERS_PER_PAGE;
    && page in s.pages && Next(s, PayStepOf(s, w)).Ok?
    && SettlePayoutBatch.Check(s, s.lottery.id, page, [w], [w.recipient])
       == Ok(SettlePayoutBatch.Pay(s.pages[page], Share(s.lottery)))
  }

  lemma ProofPasses(s: State, w: WinnerProof)
    requires Inv(s) && s.lottery.winnersCount > 0 && s.vaultOpen && !s.lottery.settlementComplete
    requires w.index / WINNERS_PER_PAGE in s.pages && w.index / WINNERS_PER_PAGE <= U32_MAX
    requires s.pages[w.index / WINNERS_PER_PAGE].pageIndex == w.index / WINNERS_PER_PAGE
    requires ProperProof(s.lottery, s.pages[w.index / WINNERS_PER_PAGE], Share(s.lottery), w, w.recipient)
    ensures CanPay(s, w)
  {
    hide Inv, Share, ProperProof, SettlePayoutBatch.Check, SettlePayoutBatch.Apply, Next;
    var page := w.index / WINNERS_PER_PAGE;
    CheckOutcome(s, s.lottery.id, page, [w], [w.recipient]);
    BatchOutcome(s, s.lottery.id, page, [w], [w.recipient], s.pages[page], Share(s.lottery));
    NextMeans(s, PayStepOf(s, w));
  }

  /** After paying winner i either the vault has been swept or one more winner is paid. */
  ghost predicate PaidOne(s: State, t: State, i: nat) {
    || Swept(t)
    || (t.vaultOpen && i in Paid(t.lottery) && |Paid(t.lottery)| != t.lottery.winnersCount)
  }

  lemma PaidOneIntro(s: State, t: State, i: nat)
    ensures Swept(t) ==> PaidOne(s, t, i)
    ensures t.vaultOpen && i in Paid(t.lottery) && |Paid(t.lottery)| != t.lottery.winnersCount ==> PaidOne(s, t, i)
    ensures PaidOne(s, t, i) && !Swept(t) ==> t.vaultOpen && i in Paid(t.lottery) && |Paid(t.lottery)| != t.lottery.winnersCount
  {
  }

  lemma PayResult(s: State, w: WinnerProof)
    requires Inv(s) && CanPay(s, w)
    ensures PaidOne(s, After(s, PayStepOf(s, w)), w.index)
  {
    hide Inv, Share, PaidSet, SettlePayoutBatch.Check, SettlePayoutBatch.Apply, SettlePayoutBatch.SettleAll,
         SettlePayoutBatch.Sweep, Next, PaidOne, Swept, LotteryData.AllWinnersPaid, LotteryData.IncrementBatch;
    var step := PayStepOf(s, w);
    var page := w.index / WINNERS_PER_PAGE;
    NextMeans(s, step);
    AfterMeans(s, step);
    var t := After(s, step);
    PayoutKeeps.ApplyEffect(s, s.lottery.id, page, [w], [w.recipient]);
    PayoutKeeps.CheckEffect(s, s.lottery.id, page, [w], [w.recipient], s.pages[page], Share(s.lottery));
    var b0 := SettlePayoutBatch.Batch(s.lottery, s.pages[page], s.bank, s.credited);
    PayBooks(s);
    BatchStarts(s, page, Share(s.lottery));
    SettleAllKeeps(b0, s.pages, page, Share(s.lottery), [w], [w.recipient]);
    var b := SettlePayoutBatch.SettleAll(b0, Share(s.lottery), [w], [w.recipient]).value;
    var l := b.lottery.IncrementBatch();
    IncrementFields(b.lottery);
    AllPaid(l);
    PaidOneIntro(s, t, w.index);
    if l.AllWinnersPaid() {
      BatchFields(b0, s.pages, page, Share(s.lottery), b);
      SweepEffect(l, b.bank, s.config.authority);
      SweptMeans(t);
    } else {
      IndexInRange(b0, Share(s.lottery), w);
      OneProofPays(b0, Share(s.lottery), w);
    }
  }

  lemma PayBooks(s: State)
    requires Inv(s)
    ensures Settling(s.lottery, s.root, s.pages) && CreditsOk(s.lottery, s.credited) && Total(s.bank) <= U64_MAX
    ensures s.credited.Keys == Paid(s.lottery)
  {
    hide *;
    Parts(s);
    BooksFit(s.lottery, s.rows, s.rents, s.bank, s.vaultOpen, s.donated, s.credited);
    CreditKeys(s.lottery, s.credited);
  }

  lemma CreditKeys(l: LotteryData, credited: map<nat, nat>)
    requires CreditsOk(l, credited)
    ensures credited.Keys == Paid(l)
  {
  }

  lemma IndexInRange(b0: SettlePayoutBatch.Batch, amount: nat, w: WinnerProof)
    requires SettlePayoutBatch.SettleAll(b0, amount, [w], [w.recipient]).Ok?
    ensures w.index < b0.lottery.winnersCount
  {
    hide SettlePayoutBatch.PayOne;
    assert [w][..0] == [];
  }

  /** Picks somebody who is still unpaid, or anybody when all are paid. */
  lemma NextToPay(l: LotteryData) returns (i: nat)
    requires l.winnersCount > 0
    ensures i < l.winnersCount && (i !in Paid(l) || |Paid(l)| == l.winnersCount)
    ensures |Paid(l)| <= l.winnersCount
  {
    PaidSetMeaning(l);
    if !l.AllWinnersPaid() {
      i :| i < l.winnersCount && !l.IsWinnerPaid(i);
    } else {
      i := 0;
    }
  }

  lemma MorePaid(l: LotteryData, m: LotteryData, i: nat)
    requires PaidGrows(l, m) && i in Paid(m) && |Paid(m)| != m.winnersCount
    requires i !in Paid(l) || |Paid(l)| == l.winnersCount
    ensures |Paid(l)| < |Paid(m)| && m.winnersCount == l.winnersCount
  {
    PaidSetMeaning(m);
    hide PaidSet;
    SubsetSize(Paid(l), Paid(m));
    if i !in Paid(l) {
      SubsetSize(Paid(l), Paid(m) - {i});
    }
  }

  /** A completed lottery pays its winners one by one, and the last payment sweeps the vault. */
  lemma {:induction false} PayRuns(s: State) returns (steps: seq<Step>)
    requires Inv(s) && HasWinners(s)
    ensures Swept(Run(s, steps))
    decreases s.lottery.winnersCount - |Paid(s.lottery)|
  {
    hide *;
    OutcomeMeans(s);
    if s.vaultOpen {
      var i := NextToPay(s.lottery);
      var w := PayStep(s, i);
      var step := PayStepOf(s, w);
      PayResult(s, w);
      StepKeeps(s, step);
      StepGrows(s, step);
      StepOutcome(s, step);
      var t := After(s, step);
      PaidOneIntro(s, t, i);
      RunOne(s, step);
      if Swept(t) {
        steps := [step];
      } else {
        MorePaid(s.lottery, t.lottery, i);
        var next := NextToPay(t.lottery);
        var rest := PayRuns(t);
        RunConcat(s, [step], rest);
        steps := [step] + rest;
      }
    } else {
      SweptSettled(s);
      steps := [];
      RunNone(s);
    }
  }

  lemma SweptSettled(s: State)
    requires Inv(s) && !s.vaultOpen
    ensures Swept(s)
  {
    hide *;
    Parts(s);
    ClosedSettled(s.lottery, s.rows, s.rents, s.bank, s.vaultOpen, s.donated, s.credited);
    SweptMeans(s);
  }

  lemma ClosedSettled(l: LotteryData, rows: seq<ParticipantData>, rents: Rents, bank: Bank, open: bool, donated: nat,
                      credited: map<nat, nat>)
    requires Banked(l, rows, rents, bank, open, donated, credited) && !open
    ensures l.settled
  {
  }

  // ----- the winning path -----

  lemma ReadyIntro(s: State, target: nat)
    requires !s.lottery.settled && s.lottery.participantsCount >= 2 && s.lottery.attestedCount > 0
    requires !s.lottery.HasMissingAttestedReveals() && (s.lottery.uploadsComplete || s.lottery.UploadElapsed(s.now))
    requires Payable(s.h, s.lottery.id, s.MaxWinners(), s.lottery.totalFunds, s.lottery.bps, Pool(s.rows), target)
    ensures Ready(s, target)
  {
    hide Payable;
  }

  /** With everything attested included and a payable pool, waiting, finalizing and paying empties the vault. */
  lemma WinningRuns(s: State, target: nat) returns (steps: seq<Step>)
    requires Inv(s) && !s.lottery.settled && s.lottery.participantsCount >= 2 && s.lottery.attestedCount > 0
    requires !s.lottery.HasMissingAttestedReveals()
    requires Payable(s.h, s.lottery.id, s.MaxWinners(), s.lottery.totalFunds, s.lottery.bps, Pool(s.rows), target)
    ensures Swept(Run(s, steps))
  {
    hide *;
    Parts(s);
    var wait := 0;
    if !s.lottery.uploadsComplete {
      wait := ElapsesAfter(s.lottery, s.now);
    }
    TickAfter(s, wait);
    StepKeeps(s, Tick(wait));
    var t := After(s, Tick(wait));
    CapSame(s, t);
    ReadyIntro(t, target);
    var first := FinalizationRuns(t, target);
    WinnersIffComplete(Run(t, first));
    var second := PayRuns(Run(t, first));
    RunConcat(t, first, second);
    RunsAfter(s, Tick(wait), first + second);
    steps := [Tick(wait)] + (first + second);
  }

  // ----- still inside the upload window -----

  lemma SomebodySilent(rows: seq<ParticipantData>) returns (i: nat)
    requires Sum(rows, AttestedOne()) < |rows|
    ensures i < |rows| && !rows[i].attested
  {
    SumIndicator(rows, AttestedOne());
    i :| i < |rows| && !rows[i].attested;
  }

  lemma StillUploading(l: LotteryData, now: int)
    requires Clockwork(l, now) && !l.settled && l.participantsCount >= 2 && l.attestedCount > 0
    requires !l.HasMissingAttestedReveals() && !UploadsOver(l, now)
    ensures l.StageAt(now) == Stage.Upload && !l.AllAttested()
  {
  }

  lemma AttestApplies(s: State, i: nat)
    requires AllOpen(s.rows, s.slot) && i < |s.rows| && !s.rows[i].attested
    requires s.lottery.StageAt(s.now) == Stage.Upload && s.MaxWinners() >= 1 && s.lottery.attestedCount < U64_MAX
    ensures AttestUploaded.Apply(s, s.rows[i].wallet, 1, true).Ok?
  {
  }

  lemma NowMissing(l: LotteryData, m: LotteryData)
    requires l.providerUploaded <= l.attestedCount && !l.HasMissingAttestedReveals()
    requires m.attestedCount == l.attestedCount + 1 && m.providerUploaded == l.providerUploaded
    ensures m.HasMissingAttestedReveals()
  {
  }

  lemma AttestedSum(l: LotteryData, cap: nat, rows: seq<ParticipantData>)
    requires Counted(l, cap, rows)
    ensures l.attestedCount == Sum(rows, AttestedOne())
  {
  }

  lemma NotEverybody(l: LotteryData)
    requires !l.AllAttested() && l.attestedCount <= l.participantsCount && l.participantsCount > 0
    ensures l.attestedCount < l.participantsCount
  {
  }

  /** While uploads are open one more attestation, not yet revealed, opens the way to remediation. */
  lemma AttestingRuns(s: State) returns (steps: seq<Step>)
    requires Inv(s) && !s.lottery.settled && s.lottery.participantsCount >= 2 && s.lottery.attestedCount > 0
    requires !s.lottery.HasMissingAttestedReveals() && !UploadsOver(s.lottery, s.now)
    ensures Swept(Run(s, steps))
  {
    hide *;
    Parts(s);
    var cap := s.MaxWinners();
    StillUploading(s.lottery, s.now);
    NotSettled(s.lottery, s.root, s.pages);
    OpenAccounts(s.lottery, cap, s.rows, s.slot);
    AttestedBounds(s.lottery, cap, s.rows);
    AttestedSum(s.lottery, cap, s.rows);
    NotEverybody(s.lottery);
    var i := SomebodySilent(s.rows);
    CapOf(s);
    CapBelow(s.config, s.lottery, s.lottery.participantsCount);
    FewerThanMax(s.lottery.attestedCount);
    AttestApplies(s, i);
    AttestEffect(s, s.rows[i].wallet, 1, true);
    var step := Attest(s.rows[i].wallet, 1, true);
    AfterMeans(s, step);
    NextMeans(s, step);
    StepKeeps(s, step);
    NowMissing(s.lottery, After(s, step).lottery);
    var rest := MissingRuns(After(s, step));
    RunsAfter(s, step, rest);
    steps := [step] + rest;
  }

  lemma FewerThanMax(n: nat)
    requires n <= MAX_PARTICIPANTS
    ensures n < U64_MAX
  {
  }

  // ----- stuck, or not -----

  /** Some target's rounds can all be drawn and the pot after the fee covers one lamport per winner. */
  ghost predicate CanPayOut(s: State) {
    exists target :: Payable(s.h, s.lottery.id, s.MaxWinners(), s.lottery.totalFunds, s.lottery.bps, Pool(s.rows), target)
  }

  /**
   The dead ends: a single participant who has attested, or a closed and fully revealed lottery that cannot be paid out
   (the pot after the fee is smaller than the number of winners, or every attempt of some draw is rejected).
   */
  ghost predicate Stuck(s: State) {
    && !s.lottery.settled && s.lottery.attestedCount > 0
    && (s.lottery.participantsCount == 1 || (AllIncluded(s.lottery, s.now) && !CanPayOut(s)))
  }

  lemma CanPayOutWith(s: State) returns (target: nat)
    requires CanPayOut(s)
    ensures Payable(s.h, s.lottery.id, s.MaxWinners(), s.lottery.totalFunds, s.lottery.bps, Pool(s.rows), target)
  {
    hide Payable;
    target :| Payable(s.h, s.lottery.id, s.MaxWinners(), s.lottery.totalFunds, s.lottery.bps, Pool(s.rows), target);
  }

  lemma StuckMeans(s: State)
    ensures Stuck(s) <==>
              && !s.lottery.settled && s.lottery.attestedCount > 0
              && (s.lottery.participantsCount == 1 || (AllIncluded(s.lottery, s.now) && !CanPayOut(s)))
    ensures AllIncluded(s.lottery, s.now)
       <==> s.lottery.attestedCount > 0 && !s.lottery.HasMissingAttestedReveals() && UploadsOver(s.lottery, s.now)
  {
    hide CanPayOut, UploadsOver;
  }

  /** Unless it is stuck, a lottery can be brought to a swept vault from any state. */
  lemma SweepingRuns(s: State) returns (steps: seq<Step>)
    requires Inv(s) && !Stuck(s)
    ensures Swept(Run(s, steps))
  {
    hide *;
    Parts(s);
    OutcomeMeans(s);
    StuckMeans(s);
    AttestedBounds(s.lottery, s.MaxWinners(), s.rows);
    RowsCounted(s.lottery, s.rows, s.slot);
    if s.lottery.settled {
      if s.lottery.winnersCount > 0 {
        steps := PayRuns(s);
      } else {
        steps := RefundRuns(s);
      }
    } else if s.lottery.attestedCount == 0 {
      steps := CancelRuns(s);
    } else if s.lottery.HasMissingAttestedReveals() {
      steps := MissingRuns(s);
    } else if CanPayOut(s) {
      var target := CanPayOutWith(s);
      steps := WinningRuns(s, target);
    } else {
      steps := AttestingRuns(s);
    }
  }

  /** Unless it is stuck, a lottery can be wound up from any state: the vault swept and every account closed. */
  lemma WindUp(s: State) returns (steps: seq<Step>)
    requires Inv(s) && !Stuck(s)
    ensures Drained(Run(s, steps))
  {
    hide *;
    var first := SweepingRuns(s);
    RunKeeps(s, first);
    var second := ClosingRuns(Run(s, first));
    RunConcat(s, first, second);
    steps := first + second;
  }

  // ----- stuck stays stuck -----

  /** A lone participant who has attested: no step changes that. */
  lemma LoneMoves(l: LotteryData, m: LotteryData, now: int)
    requires Clockwork(l, now) && Moves(l, m, now) && !l.settled
    requires l.participantsCount == 1 && l.attestedCount == 1
    ensures m.participantsCount == 1 && m.attestedCount > 0
  {
  }

  lemma LoneNeverSettles(l: LotteryData, now: int, root: Option<LedgerData>, pages: map<nat, PageData>)
    requires Clockwork(l, now) && RefundReason(l, now) && Settling(l, root, pages) && (root.Some? ==> Frozen(l, now))
    requires l.participantsCount == 1 && l.attestedCount > 0
    ensures !l.settled
  {
    hide PaidSet, PagePaid, PayoutPlan;
  }

  lemma StuckLone(s: State, step: Step)
    requires Inv(s) && Stuck(s) && s.lottery.participantsCount == 1
    ensures Stuck(After(s, step)) && After(s, step).lottery.participantsCount == 1
  {
    hide *;
    var t := After(s, step);
    Parts(s);
    StepMoves(s, step);
    StepKeeps(s, step);
    Parts(t);
    StuckMeans(s);
    StuckMeans(t);
    AttestedBounds(s.lottery, s.MaxWinners(), s.rows);
    RowsCounted(s.lottery, s.rows, s.slot);
    LoneMoves(s.lottery, t.lottery, s.now);
    LoneNeverSettles(t.lottery, t.now, t.root, t.pages);
  }

  lemma SameCanPayOut(s: State, t: State)
    requires PoolKept(s, t) && t.lottery.bps == s.lottery.bps
    ensures CanPayOut(t) ==> CanPayOut(s)
  {
    KeptInputs(s, t);
    hide Payable;
  }

  lemma FollowsPayable(s: State, root: LedgerData, pool: seq<Entry>, who: seq<nat>)
    requires FollowsDraw(s.h, s.lottery.id, s.MaxWinners(), root, s.pages, pool, who) && pool == Pool(s.rows)
    requires root.selectedCount == root.targetWinners
    requires PayoutPlan(s.lottery.totalFunds, s.lottery.bps, root.selectedCount).Ok?
    ensures CanPayOut(s)
  {
    hide TargetOf, PayoutPlan, Winners, SeedFor;
    assert Payable(s.h, s.lottery.id, s.MaxWinners(), s.lottery.totalFunds, s.lottery.bps, Pool(s.rows), root.targetWinners);
  }

  lemma PlanOk(l: LotteryData, root: Option<LedgerData>, pages: map<nat, PageData>)
    requires Settling(l, root, pages) && IsComplete(root)
    ensures root.Some? && PayoutPlan(l.totalFunds, l.bps, root.value.selectedCount).Ok?
  {
    hide PaidSet, PagePaid, PayoutPlan;
  }

  /** A completed lottery could be paid out. */
  lemma CompleteCanPayOut(s: State)
    requires Inv(s) && IsComplete(s.root)
    ensures CanPayOut(s)
  {
    hide *;
    Parts(s);
    PlanOk(s.lottery, s.root, s.pages);
    IsSelectingMeans(s.root);
    InvRounds(s);
    var who := RecordedWinnersFollowDraw(s);
    FollowsPayable(s, s.root.value, Pool(s.rows), who);
  }

  lemma UnpayableNeverSettles(l: LotteryData, now: int, root: Option<LedgerData>, pages: map<nat, PageData>)
    requires RefundReason(l, now) && Settling(l, root, pages) && AllIncluded(l, now) && !IsComplete(root)
    ensures !l.settled
  {
    hide PaidSet, PagePaid, PayoutPlan;
  }

  /** The fee rate never changes. */
  lemma SameFee(s: State, step: Step)
    requires Inv(s)
    ensures After(s, step).lottery.bps == s.lottery.bps
  {
    hide *;
    AfterMeans(s, step);
    if Next(s, step).Ok? {
      NextMeans(s, step);
      Parts(s);
      RowsCounted(s.lottery, s.rows, s.slot);
      var t := After(s, step);
      match step
      case Tick(seconds) =>
      case Send(from, to, amount) => SendFields(s, from, to, amount);
      case Buy(buyer, proof, count) =>
        var i, p := BuyEffect(s, buyer, proof, count);
        SoldFields(s.lottery, t.lottery, |t.rows|, count);
      case BeginReveal(caller, attestation, upload) => BeginRevealEffect(s, caller, attestation, upload);
      case Attest(wallet, voted, receipt) => AttestEffect(s, wallet, voted, receipt);
      case Reveal(wallet, voted, plaintext) =>
        SomebodyReveals(s, wallet, voted, plaintext);
        var u := RevealEffect(s, wallet, voted, plaintext);
        RevealedFee(s.lottery, t.lottery, s.now, s.h.disclosure(wallet, plaintext), u);
      case Upload(uploader, entries) =>
        UploadGrows(s, uploader, entries);
        GrowsFee(s.lottery, t.lottery);
      case Finalize(page, keys) => ChunkFrames(s, page, keys); FrameFee(s, t);
      case Cancel => CancelEffect(s);
      case Payout(id, page, winners, recipients) =>
        PayoutGrows(s, id, page, winners, recipients);
        GrowsFee(s.lottery, t.lottery);
      case Refund(claimer) => RefundEffect(s, claimer);
      case CloseVault => CloseVaultEffect(s);
      case CloseAccount(owner) => CloseAccountEffect(s, owner);
    }
  }

  lemma RevealedFee(l: LotteryData, m: LotteryData, now: int, digest: Bytes32, t: Tally)
    requires RevealedLottery(l, m, now, digest, t)
    ensures m.bps == l.bps
  {
  }

  lemma GrowsFee(l: LotteryData, m: LotteryData)
    requires PaidGrows(l, m)
    ensures m.bps == l.bps
  {
  }

  lemma FrameFee(s: State, t: State)
    requires ChunkFrame(s, t)
    ensures t.lottery.bps == s.lottery.bps
  {
  }

  lemma StuckUnpayable(s: State, step: Step)
    requires Inv(s) && Stuck(s) && s.lottery.participantsCount != 1
    ensures Stuck(After(s, step)) && After(s, step).lottery.participantsCount == s.lottery.participantsCount
  {
    hide *;
    var t := After(s, step);
    StuckMeans(s);
    StuckMeans(t);
    StepKeeps(s, step);
    StepVerdicts(s, step);
    StepKeepsPool(s, step);
    KeptCounts(s, t);
    SameFee(s, step);
    SameCanPayOut(s, t);
    if IsComplete(t.root) {
      CompleteCanPayOut(t);
    }
    Parts(t);
    UnpayableNeverSettles(t.lottery, t.now, t.root, t.pages);
  }

  lemma KeptCounts(s: State, t: State)
    requires PoolKept(s, t)
    ensures t.lottery.participantsCount == s.lottery.participantsCount
  {
  }

  /** No run frees a stuck lottery: it is never settled, and its vault never swept. */
  lemma {:induction false} StuckForever(s: State, steps: seq<Step>)
    requires Inv(s) && Stuck(s)
    ensures var t := Run(s, steps);
            Stuck(t) && !t.lottery.settled && !Swept(t) && !Drained(t)
  {
    hide Inv, After, Stuck, Swept, Drained;
    StuckMeans(Run(s, steps));
    SweptMeans(Run(s, steps));
    DrainedMeans(Run(s, steps));
    if steps != [] {
      var n := |steps| - 1;
      StuckForever(s, steps[..n]);
      RunKeeps(s, steps[..n]);
      if Run(s, steps[..n]).lottery.participantsCount == 1 {
        StuckLone(Run(s, steps[..n]), steps[n]);
      } else {
        StuckUnpayable(Run(s, steps[..n]), steps[n]);
      }
    }
  }

  /** No dead ends but the stuck ones: some run leaves nothing with the lottery exactly when the lottery is not stuck. */
  lemma WindUpIff(s: State)
    requires Reachable(s)
    ensures (exists steps :: Drained(Run(s, steps))) <==> !Stuck(s)
  {
    hide *;
    ReachableInv(s);
    if Stuck(s) {
      forall steps
        ensures !Drained(Run(s, steps))
      {
        StuckForever(s, steps);
      }
    } else {
      var steps := WindUp(s);
    }
  }

  /** With two or more participants, draws that succeed and a pot that covers the winners after the fee, nothing is stuck. */
  lemma PotCovers(s: State, target: nat)
    requires Reachable(s) && s.lottery.participantsCount >= 2 && target >= 1
    requires SmallPool(Pool(s.rows)) && TargetOf(Pool(s.rows), s.MaxWinners(), target)
    requires Winners(s.h, SeedFor(s.h, s.lottery.id, Pool(s.rows)), Pool(s.rows), target).Some?
    ensures s.lottery.totalFunds - s.lottery.totalFunds * s.lottery.bps / 10_000 >= target ==> !Stuck(s)
  {
    hide *;
    ReachableInv(s);
    Parts(s);
    StuckMeans(s);
    FundsFit(s.lottery, s.MaxWinners(), s.rows);
    FeeRate(s.config, s.lottery);
    PlanExists(s.lottery.totalFunds, s.lottery.bps, target);
    if s.lottery.totalFunds - s.lottery.totalFunds * s.lottery.bps / 10_000 >= target {
      PayableIntro(s, target);
    }
  }

  lemma FeeRate(config: Config, l: LotteryData)
    requires Configured(config, l)
    ensures l.bps < 10_000
  {
  }

  lemma PayableIntro(s: State, target: nat)
    requires SmallPool(Pool(s.rows)) && TargetOf(Pool(s.rows), s.MaxWinners(), target)
    requires Winners(s.h, SeedFor(s.h, s.lottery.id, Pool(s.rows)), Pool(s.rows), target).Some?
    requires PayoutPlan(s.lottery.totalFunds, s.lottery.bps, target).Ok?
    ensures CanPayOut(s)
  {
    hide TargetOf, Winners, SeedFor, PayoutPlan;
    assert Payable(s.h, s.lottery.id, s.MaxWinners(), s.lottery.totalFunds, s.lottery.bps, Pool(s.rows), target);
  }
}
