/** Conservation, solvency and refunds over whole runs. */
module MoneyTheorems {
  import opened Prelude
  import opened Digests
  import opened Sums
  import opened Participants
  import opened WinnerPages
  import opened FinalizationLedgers
  import opened Lotteries
  import opened Banks
  import opened States
  import opened Steps
  import opened Invariants
  import opened SimpleSteps
  import opened BuyingKeeps
  import opened AttestationKeeps
  import opened UploadKeeps
  import opened FinalizationKeeps
  import opened PayoutKeeps
  import opened PayoutTheorems
  import opened FrozenPool
  import opened PhaseTheorems
  import opened Runs
  import BuyTickets
  import FinalizeWinners
  import ClaimRefund
  import CloseRefundVault
  import SettlePayoutBatch
  import UploadReveals

  // ----- conservation -----

  lemma BooksTotal(l: LotteryData, rows: seq<ParticipantData>, rents: Rents, bank: Bank, open: bool, donated: nat,
                   credited: map<nat, nat>)
    requires Banked(l, rows, rents, bank, open, donated, credited)
    ensures Total(bank) <= U64_MAX
  {
  }

  lemma BuyConserves(s: State, buyer: Pubkey, proof: Option<Bytes32>, count: U64)
    requires Inv(s) && BuyTickets.Apply(s, buyer, proof, count).Ok?
    ensures Total(BuyTickets.Apply(s, buyer, proof, count).value.bank) == Total(s.bank)
  {
    hide *;
    Parts(s);
    BooksTotal(s.lottery, s.rows, s.rents, s.bank, s.vaultOpen, s.donated, s.credited);
    var i, p := BuyEffect(s, buyer, proof, count);
    OpenedExact(s.bank, buyer, i == |s.rows|, s.rents.participant);
    TransferExact(Opened(s.bank, buyer, i == |s.rows|, s.rents.participant), Wallet(buyer), Vault, s.lottery.price * count);
  }

  lemma PayoutConserves(s: State, id: nat, page: nat, winners: seq<WinnerProof>, recipients: seq<Pubkey>)
    requires Inv(s) && SettlePayoutBatch.Apply(s, id, page, winners, recipients).Ok?
    ensures Total(SettlePayoutBatch.Apply(s, id, page, winners, recipients).value.bank) == Total(s.bank)
  {
    hide *;
    Parts(s);
    PayoutKeeps.ApplyEffect(s, id, page, winners, recipients);
    match SettlePayoutBatch.Check(s, id, page, winners, recipients).value {
      case AlreadyComplete =>
      case Pay(p0, amount) =>
        BooksFit(s.lottery, s.rows, s.rents, s.bank, s.vaultOpen, s.donated, s.credited);
        var p, swept := PayoutResult(s, id, page, winners, recipients, p0, amount);
        ResultParts(s, SettlePayoutBatch.Apply(s, id, page, winners, recipients).value, page, p, amount, swept);
    }
  }

  lemma SendConserves(s: State, from: Pubkey, to: Account, amount: nat)
    requires SendLamports(s, from, to, amount).Ok? && Total(s.bank) <= U64_MAX
    ensures Total(SendLamports(s, from, to, amount).value.bank) == Total(s.bank)
  {
    TransferExact(s.bank, Wallet(from), to, amount);
  }

  lemma ChunkBank(s: State, page: nat, keys: seq<Pubkey>)
    requires FinalizeWinners.Apply(s, page, keys).Ok?
    ensures FinalizeWinners.Apply(s, page, keys).value.bank == s.bank
  {
    hide *;
    FinalizationKeeps.ApplyEffect(s, page, keys);
    if FinalizeWinners.Check(s, keys).value == FinalizeWinners.Proceed {
      var root := FinalizeWinners.LoadRoot(s).value;
      match root.phase {
        case Aggregating => var pass := AggregateParts(s, root, keys);
        case Selecting => var pass := SelectParts(s, root, keys);
        case Completed =>
      }
    }
  }

  /** No step creates or destroys a lamport. */
  lemma StepConserves(s: State, step: Step)
    requires Inv(s)
    ensures Total(After(s, step).bank) == Total(s.bank)
  {
    hide *;
    AfterMeans(s, step);
    if Next(s, step).Ok? {
      NextMeans(s, step);
      Parts(s);
      RowsCounted(s.lottery, s.rows, s.slot);
      BooksTotal(s.lottery, s.rows, s.rents, s.bank, s.vaultOpen, s.donated, s.credited);
      match step
      case Tick(seconds) =>
      case Send(from, to, amount) => SendConserves(s, from, to, amount);
      case Buy(buyer, proof, count) => BuyConserves(s, buyer, proof, count);
      case BeginReveal(caller, attestation, upload) => BeginRevealEffect(s, caller, attestation, upload);
      case Attest(wallet, voted, receipt) => AttestEffect(s, wallet, voted, receipt);
      case Reveal(wallet, voted, plaintext) =>
        SomebodyReveals(s, wallet, voted, plaintext);
        var u := RevealEffect(s, wallet, voted, plaintext);
      case Upload(uploader, entries) =>
        PoolTickets(s.lottery, s.MaxWinners(), s.rows);
        IncludedAttested(s.lottery, s.MaxWinners(), s.rows);
        var b := UploadEffect(s, uploader, entries);
      case Finalize(page, keys) => ChunkBank(s, page, keys);
      case Cancel => CancelEffect(s);
      case Payout(id, page, winners, recipients) => PayoutConserves(s, id, page, winners, recipients);
      case Refund(claimer) =>
        RefundEffect(s, claimer);
        TransferExact(s.bank, Vault, Wallet(claimer), s.lottery.price * s.rows[s.slot[claimer]].tickets);
      case CloseVault =>
        CloseVaultEffect(s);
        TransferExact(s.bank, Vault, Wallet(s.config.authority), Balance(s.bank, Vault));
      case CloseAccount(owner) =>
        CloseAccountEffect(s, owner);
        TransferExact(s.bank, ParticipantAccount(owner), Wallet(owner), Balance(s.bank, ParticipantAccount(owner)));
    }
  }

  /** Over every run the lamports of all accounts together stay the same. */
  lemma {:induction false} RunConserves(s: State, steps: seq<Step>)
    requires Inv(s)
    ensures Total(Run(s, steps).bank) == Total(s.bank)
  {
    hide Inv, After, Total;
    if steps != [] {
      var n := |steps| - 1;
      RunConserves(s, steps[..n]);
      RunKeeps(s, steps[..n]);
      StepConserves(Run(s, steps[..n]), steps[n]);
    }
  }

  // ----- refunds -----

  lemma RefundBooks(l: LotteryData, rows: seq<ParticipantData>, rents: Rents, bank: Bank, open: bool, donated: nat,
                    credited: map<nat, nat>)
    requires Banked(l, rows, rents, bank, open, donated, credited) && l.winnersCount == 0
    ensures open ==> Balance(bank, Vault) + l.price * Sum(rows, ClaimedTickets()) == rents.vault + donated + l.totalFunds
    ensures l.batchesCompleted == Sum(rows, ClaimedOne()) && rents.vault > 0
    ensures !open ==> Sum(rows, ClaimedOne()) == |rows|
  {
  }

  /** Whoever has not been refunded is covered by tickets that nobody else has claimed. */
  lemma UnclaimedCovered(rows: seq<ParticipantData>, i: nat)
    requires i < |rows| && !rows[i].refundClaimed
    ensures Sum(rows, ClaimedTickets()) + rows[i].tickets <= Sum(rows, TicketsHeld())
    ensures Sum(rows, ClaimedOne()) < |rows|
  {
    var after := rows[i := rows[i].MarkRefundClaimed()];
    SumUpdate(rows, i, rows[i].MarkRefundClaimed(), ClaimedTickets());
    SumUpdate(rows, i, rows[i].MarkRefundClaimed(), TicketsHeld());
    SumLe(after, ClaimedTickets(), after, TicketsHeld());
    SumIndicator(rows, ClaimedOne());
  }

  lemma RefundFunds(price: nat, total: nat, claimed: nat, tickets: nat, balance: nat, extra: nat)
    requires claimed + tickets <= total && balance + price * claimed == extra + price * total
    ensures balance >= price * tickets && price * tickets <= price * total
  {
    Distribute(price, claimed + tickets, total - claimed - tickets);
    Distribute(price, claimed, tickets);
  }

  /** The vault of a cancelled lottery covers every refund still open. */
  lemma RefundCovered(s: State, i: nat)
    requires Inv(s) && Refunding(s) && i < |s.rows| && !s.rows[i].refundClaimed
    ensures s.vaultOpen && Balance(s.bank, Vault) >= s.lottery.price * s.rows[i].tickets
    ensures s.lottery.price * s.rows[i].tickets <= U64_MAX && s.lottery.batchesCompleted < MAX_PARTICIPANTS
    ensures s.rows[i].tickets > 0 && s.lottery.totalPayout == 0
    ensures s.rows[i].wallet in s.slot && s.slot[s.rows[i].wallet] == i
  {
    hide *;
    Parts(s);
    OutcomeMeans(s);
    RefundBooks(s.lottery, s.rows, s.rents, s.bank, s.vaultOpen, s.donated, s.credited);
    UnclaimedCovered(s.rows, i);
    FundsFit(s.lottery, s.MaxWinners(), s.rows);
    RefundRow(s.lottery, s.rows, s.slot, s.root, s.pages, i);
    RefundFunds(s.lottery.price, Sum(s.rows, TicketsHeld()), Sum(s.rows, ClaimedTickets()), s.rows[i].tickets,
                Balance(s.bank, Vault), s.rents.vault + s.donated);
  }

  lemma RefundRow(l: LotteryData, rows: seq<ParticipantData>, slot: map<Pubkey, nat>, root: Option<LedgerData>,
                  pages: map<nat, PageData>, i: nat)
    requires Registered(l, rows, slot) && Settling(l, root, pages) && l.winnersCount == 0
    requires i < |rows| && !rows[i].refundClaimed
    ensures rows[i].tickets > 0 && rows[i].wallet in slot && slot[rows[i].wallet] == i
    ensures l.totalPayout == 0 && |rows| <= MAX_PARTICIPANTS
  {
    assert Open(rows, slot, i);
  }

  lemma RefundApplies(s: State, w: Pubkey)
    ensures ClaimRefund.Apply(s, w).Ok? <==>
              && s.vaultOpen && s.Live(w) && s.lottery.settled && s.lottery.winnersCount == 0 && s.lottery.totalPayout == 0
              && var p := s.rows[s.slot[w]];
              && p.tickets != 0 && !p.refundClaimed && s.lottery.price * p.tickets <= U64_MAX
              && Balance(s.bank, Vault) >= s.lottery.price * p.tickets && s.lottery.batchesCompleted + 1 <= U32_MAX
    ensures ClaimRefund.Apply(s, w) == Err(InsufficientFunds) || ClaimRefund.Apply(s, w) == Err(MathOverflow) ==>
              && s.Live(w) && s.lottery.settled && s.lottery.winnersCount == 0 && !s.rows[s.slot[w]].refundClaimed
              && (s.lottery.price * s.rows[s.slot[w]].tickets > U64_MAX
                  || Balance(s.bank, Vault) < s.lottery.price * s.rows[s.slot[w]].tickets
                  || s.lottery.batchesCompleted + 1 > U32_MAX)
  {
  }

  lemma LiveMeans(s: State, w: Pubkey)
    ensures s.Live(w) <==> w in s.slot && s.slot[w] < |s.rows|
    ensures MAX_PARTICIPANTS + 1 <= U32_MAX
  {
  }

  /** A participant can claim a refund exactly when the lottery was cancelled and the refund has not been claimed. */
  lemma RefundIff(s: State, i: nat)
    requires Inv(s) && i < |s.rows|
    ensures ClaimRefund.Apply(s, s.rows[i].wallet).Ok? <==> Refunding(s) && !s.rows[i].refundClaimed
  {
    hide *;
    var w := s.rows[i].wallet;
    Parts(s);
    OutcomeMeans(s);
    RefundApplies(s, w);
    LiveMeans(s, w);
    if Refunding(s) && !s.rows[i].refundClaimed {
      RefundCovered(s, i);
    }
    SlotOfRow(s.lottery, s.rows, s.slot, i);
  }

  lemma SlotOfRow(l: LotteryData, rows: seq<ParticipantData>, slot: map<Pubkey, nat>, i: nat)
    requires Registered(l, rows, slot) && i < |rows|
    ensures rows[i].wallet in slot ==> slot[rows[i].wallet] == i
  {
    var w := rows[i].wallet;
    if w in slot {
      var k := slot[w];
      assert rows[k].wallet == w;
      assert k < i || i < k || k == i;
    }
  }

  /** The refund instruction never runs into lack of funds or overflow. */
  lemma RefundNeverShort(s: State, w: Pubkey)
    requires Inv(s)
    ensures ClaimRefund.Apply(s, w) != Err(InsufficientFunds) && ClaimRefund.Apply(s, w) != Err(MathOverflow)
  {
    hide *;
    OutcomeMeans(s);
    RefundApplies(s, w);
    LiveMeans(s, w);
    if ClaimRefund.Apply(s, w) == Err(InsufficientFunds) || ClaimRefund.Apply(s, w) == Err(MathOverflow) {
      RefundCovered(s, s.slot[w]);
    }
  }

  // ----- each refund once -----

  /** What a step does to the participants of a cancelled lottery: at most one of them is marked as refunded. */
  ghost predicate OneClaim(rows: seq<ParticipantData>, after: seq<ParticipantData>, claimer: Option<Pubkey>) {
    && |after| == |rows|
    && forall i :: 0 <= i < |rows| ==>
         after[i] == if claimer == Some(rows[i].wallet) then rows[i].MarkRefundClaimed() else rows[i]
  }

  lemma NoClaim(rows: seq<ParticipantData>)
    ensures OneClaim(rows, rows, None)
  {
  }

  lemma RefundMarks(l: LotteryData, rows: seq<ParticipantData>, slot: map<Pubkey, nat>, w: Pubkey)
    requires Registered(l, rows, slot) && w in slot && slot[w] < |rows|
    ensures OneClaim(rows, rows[slot[w] := rows[slot[w]].MarkRefundClaimed()], Some(w))
  {
    var k := slot[w];
    forall i | 0 <= i < |rows|
      ensures rows[k := rows[k].MarkRefundClaimed()][i]
           == if rows[i].wallet == w then rows[i].MarkRefundClaimed() else rows[i]
    {
      assert rows[k].wallet == w;
      assert i < k || k < i || i == k;
    }
  }

  lemma SettledStage(l: LotteryData, now: int)
    requires l.settled
    ensures l.StageAt(now) == Stage.Settled
  {
  }

  /** In a cancelled lottery only refund claims write participant accounts. */
  lemma StepClaims(s: State, step: Step)
    requires Inv(s) && Refunding(s)
    ensures OneClaim(s.rows, After(s, step).rows, if step.Refund? && Next(s, step).Ok? then Some(step.claimer) else None)
  {
    hide *;
    AfterMeans(s, step);
    OutcomeMeans(s);
    NoClaim(s.rows);
    if Next(s, step).Ok? {
      NextMeans(s, step);
      Parts(s);
      RowsCounted(s.lottery, s.rows, s.slot);
      SettledStage(s.lottery, s.now);
      match step
      case Tick(seconds) =>
      case Send(from, to, amount) => SendFields(s, from, to, amount);
      case Buy(buyer, proof, count) => var i, p := BuyEffect(s, buyer, proof, count);
      case BeginReveal(caller, attestation, upload) => BeginRevealEffect(s, caller, attestation, upload);
      case Attest(wallet, voted, receipt) => AttestEffect(s, wallet, voted, receipt);
      case Reveal(wallet, voted, plaintext) =>
        SomebodyReveals(s, wallet, voted, plaintext);
        var u := RevealEffect(s, wallet, voted, plaintext);
      case Upload(uploader, entries) => UploadUnsettled(s, uploader, entries);
      case Finalize(page, keys) => ChunkAfterEnd(s, page, keys);
      case Cancel => CancelEffect(s);
      case Payout(id, page, winners, recipients) => PayoutRows(s, id, page, winners, recipients);
      case Refund(claimer) =>
        RefundEffect(s, claimer);
        LiveMeans(s, claimer);
        RefundMarks(s.lottery, s.rows, s.slot, claimer);
      case CloseVault => CloseVaultEffect(s);
      case CloseAccount(owner) => CloseAccountEffect(s, owner);
    }
  }

  lemma UploadUnsettled(s: State, uploader: Pubkey, entries: seq<Upload>)
    requires UploadReveals.Apply(s, uploader, entries).Ok?
    ensures !s.lottery.settled
  {
    hide UploadReveals.IncludeAll, UploadReveals.Counted;
    var l, t, b := UploadParts(s, uploader, entries);
    var l1 := AdmitEffect(s, uploader);
  }

  lemma PayoutRows(s: State, id: nat, page: nat, winners: seq<WinnerProof>, recipients: seq<Pubkey>)
    requires SettlePayoutBatch.Apply(s, id, page, winners, recipients).Ok?
    ensures SettlePayoutBatch.Apply(s, id, page, winners, recipients).value.rows == s.rows
  {
    hide *;
    PayoutKeeps.ApplyEffect(s, id, page, winners, recipients);
  }

  /** Participant i is refunded, and stays the same participant. */
  ghost predicate RefundedAt(s: State, i: nat, w: Pubkey, tickets: nat) {
    && Refunding(s) && i < |s.rows| && s.rows[i].refundClaimed && s.rows[i].wallet == w && s.rows[i].tickets == tickets
  }

  lemma ClaimStays(rows: seq<ParticipantData>, after: seq<ParticipantData>, claimer: Option<Pubkey>, i: nat)
    requires OneClaim(rows, after, claimer) && i < |rows| && rows[i].refundClaimed
    ensures i < |after| && after[i] == rows[i]
  {
  }

  lemma RefundedFacts(s: State, i: nat, w: Pubkey, tickets: nat)
    ensures RefundedAt(s, i, w, tickets)
       <==> Refunding(s) && i < |s.rows| && s.rows[i].refundClaimed && s.rows[i].wallet == w && s.rows[i].tickets == tickets
  {
  }

  lemma StepRefunded(s: State, step: Step, i: nat, w: Pubkey, tickets: nat)
    requires Inv(s) && RefundedAt(s, i, w, tickets)
    ensures RefundedAt(After(s, step), i, w, tickets)
  {
    hide *;
    RefundedFacts(s, i, w, tickets);
    RefundedFacts(After(s, step), i, w, tickets);
    StepOutcome(s, step);
    StepClaims(s, step);
    ClaimStays(s.rows, After(s, step).rows, if step.Refund? && Next(s, step).Ok? then Some(step.claimer) else None, i);
  }

  lemma {:induction false} RunRefunded(s: State, steps: seq<Step>, i: nat, w: Pubkey, tickets: nat)
    requires Inv(s) && RefundedAt(s, i, w, tickets)
    ensures RefundedAt(Run(s, steps), i, w, tickets)
  {
    hide Inv, After, RefundedAt;
    if steps != [] {
      var n := |steps| - 1;
      RunRefunded(s, steps[..n], i, w, tickets);
      RunKeeps(s, steps[..n]);
      StepRefunded(Run(s, steps[..n]), steps[n], i, w, tickets);
    }
  }

  /**
   Exactly once: a successful refund pays price * tickets, and after it no run, with or without closing the
   participant account, ever lets the same wallet claim again.
   */
  lemma RefundOnce(s: State, w: Pubkey, steps: seq<Step>)
    requires Reachable(s) && ClaimRefund.Apply(s, w).Ok?
    ensures var t := ClaimRefund.Apply(s, w).value;
            && s.Live(w) && Balance(t.bank, Wallet(w)) == Balance(s.bank, Wallet(w)) + s.lottery.price * s.rows[s.slot[w]].tickets
            && Balance(t.bank, Vault) + s.lottery.price * s.rows[s.slot[w]].tickets == Balance(s.bank, Vault)
            && ClaimRefund.Apply(Run(t, steps), w).Err?
  {
    hide *;
    ReachableInv(s);
    Parts(s);
    BooksTotal(s.lottery, s.rows, s.rents, s.bank, s.vaultOpen, s.donated, s.credited);
    RefundEffect(s, w);
    LiveMeans(s, w);
    var i, t := s.slot[w], ClaimRefund.Apply(s, w).value;
    TransferExact(s.bank, Vault, Wallet(w), s.lottery.price * s.rows[i].tickets);
    RefundKeeps(s, w);
    RowsCounted(s.lottery, s.rows, s.slot);
    ClaimedRow(s.rows, i);
    OutcomeMeans(t);
    RefundedFacts(t, i, w, s.rows[i].tickets);
    RunRefunded(t, steps, i, w, s.rows[i].tickets);
    RunKeeps(t, steps);
    RefundedFacts(Run(t, steps), i, w, s.rows[i].tickets);
    RefundIff(Run(t, steps), i);
  }

  lemma ClaimedRow(rows: seq<ParticipantData>, i: nat)
    requires i < |rows|
    ensures var p := rows[i].MarkRefundClaimed();
            p.refundClaimed && p.wallet == rows[i].wallet && p.tickets == rows[i].tickets
  {
  }

  // ----- closing the refund vault -----

  lemma AllClaimed(rows: seq<ParticipantData>)
    ensures Sum(rows, ClaimedOne()) == |rows| <==> forall i :: 0 <= i < |rows| ==> rows[i].refundClaimed
    ensures Sum(rows, ClaimedOne()) <= |rows|
    ensures Sum(rows, ClaimedOne()) == |rows| ==> Sum(rows, ClaimedTickets()) == Sum(rows, TicketsHeld())
  {
    SumIndicator(rows, ClaimedOne());
    if Sum(rows, ClaimedOne()) == |rows| {
      SumEq(rows, ClaimedTickets(), rows, TicketsHeld());
    }
  }

  lemma CloseApplies(s: State)
    ensures CloseRefundVault.Apply(s).Ok? <==>
              && s.vaultOpen && s.lottery.settled && s.lottery.winnersCount == 0 && s.lottery.totalPayout == 0
              && s.lottery.batchesCompleted >= s.lottery.participantsCount && Balance(s.bank, Vault) != 0
  {
  }

  lemma NoPayout(l: LotteryData, root: Option<LedgerData>, pages: map<nat, PageData>)
    requires Settling(l, root, pages) && l.winnersCount == 0
    ensures l.totalPayout == 0
  {
  }

  /** Nothing is owed to any participant. */
  ghost predicate NothingOwed(s: State) {
    forall i :: 0 <= i < |s.rows| ==> s.rows[i].refundClaimed
  }

  /**
   The refund vault can be closed exactly when the lottery was cancelled and nothing is owed any more; what goes to
   the authority is then the vault's rent plus donations, to the lamport.
   */
  lemma CloseVaultIff(s: State)
    requires Inv(s) && s.vaultOpen
    ensures CloseRefundVault.Apply(s).Ok? <==> Refunding(s) && NothingOwed(s)
    ensures CloseRefundVault.Apply(s).Ok? ==> Balance(s.bank, Vault) == s.rents.vault + s.donated
    ensures Refunding(s) ==> s.lottery.batchesCompleted == Sum(s.rows, ClaimedOne())
  {
    hide *;
    Parts(s);
    OutcomeMeans(s);
    CloseApplies(s);
    AllClaimed(s.rows);
    OwedMeans(s);
    RowsCounted(s.lottery, s.rows, s.slot);
    FundsFit(s.lottery, s.MaxWinners(), s.rows);
    if s.lottery.winnersCount == 0 {
      RefundBooks(s.lottery, s.rows, s.rents, s.bank, s.vaultOpen, s.donated, s.credited);
      NoPayout(s.lottery, s.root, s.pages);
    }
  }

  lemma OwedMeans(s: State)
    ensures NothingOwed(s) <==> forall i :: 0 <= i < |s.rows| ==> s.rows[i].refundClaimed
  {
  }
}
