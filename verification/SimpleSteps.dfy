/** The invariant holds initially, and the steps that touch few accounts keep it. */
module SimpleSteps {
  import opened Prelude
  import opened Digests
  import opened Sums
  import opened Participants
  import opened VoteTallies
  import opened Lotteries
  import opened Payouts
  import opened Banks
  import opened States
  import opened Invariants
  import opened Steps
  import FinalizeNoAttesters
  import ClaimRefund
  import CloseRefundVault
  import CloseParticipant
  import BeginRevealPhase

  lemma NoVoteWinsVote(pool: seq<Entry>, cap: nat)
    requires NoReveals(pool)
    ensures WinsVote(pool, cap, 1)
  {
    forall c | 1 <= c <= cap
      ensures WeightOf(pool, c) == 0
    {
      FirstSeenNoVotes(pool, c);
    }
  }

  lemma InitialInv(h: Hashes, config: Config, rents: Rents, id: nat, now: int, bps: nat, price: nat, bank: Bank)
    requires config.Valid() && bps < 10_000 && now > 0 && rents.vault > 0 && rents.participant > 0
    requires Total(bank[Vault := rents.vault]) <= U64_MAX
    requires forall w :: Balance(bank, ParticipantAccount(w)) == 0
    ensures Inv(Initial(h, config, rents, id, now, bps, price, bank))
  {
    var s := Initial(h, config, rents, id, now, bps, price, bank);
    NoVoteWinsVote(Pool(s.rows), s.MaxWinners());
    assert DigestsOf(Pool(s.rows)) == [];
  }

  lemma TickClock(config: Config, l: LotteryData, now: int, seconds: nat, frozen: bool)
    requires Clockwork(l, now) && RefundReason(l, now) && (frozen ==> Frozen(l, now))
    ensures Clockwork(l, now + seconds) && RefundReason(l, now + seconds) && (frozen ==> Frozen(l, now + seconds))
  {
  }

  lemma TickKeeps(s: State, seconds: nat)
    requires Inv(s)
    ensures Inv(s.(now := s.now + seconds))
  {
    hide *;
    var t := s.(now := s.now + seconds);
    Parts(s);
    CapSame(s, t);
    TickClock(s.config, s.lottery, s.now, seconds, s.root.Some?);
    Whole(t, s.MaxWinners(), Pool(s.rows));
  }

  lemma SendBanked(l: LotteryData, rows: seq<ParticipantData>, rents: Rents, bank: Bank, open: bool, donated: nat,
                   credited: map<nat, nat>, from: Pubkey, to: Account, amount: nat)
    requires Banked(l, rows, rents, bank, open, donated, credited)
    requires to != Wallet(from) && Balance(bank, Wallet(from)) >= amount
    ensures Banked(l, rows, rents, Transfer(bank, Wallet(from), to, amount), open,
                   if to == Vault then donated + amount else donated, credited)
  {
    TransferExact(bank, Wallet(from), to, amount);
  }

  lemma SendEffect(s: State, from: Pubkey, to: Account, amount: nat)
    requires SendLamports(s, from, to, amount).Ok?
    ensures to != Wallet(from) && !to.ParticipantAccount? && Balance(s.bank, Wallet(from)) >= amount
    ensures SendLamports(s, from, to, amount).value
         == s.(bank := Transfer(s.bank, Wallet(from), to, amount),
               donated := if to == Vault then s.donated + amount else s.donated)
  {
  }

  lemma SendKeeps(s: State, from: Pubkey, to: Account, amount: nat)
    requires Inv(s) && SendLamports(s, from, to, amount).Ok?
    ensures Inv(SendLamports(s, from, to, amount).value)
  {
    hide *;
    var t := SendLamports(s, from, to, amount).value;
    SendEffect(s, from, to, amount);
    Parts(s);
    CapSame(s, t);
    SendBanked(s.lottery, s.rows, s.rents, s.bank, s.vaultOpen, s.donated, s.credited, from, to, amount);
    TransferSameRents(s.bank, Wallet(from), to, amount);
    RentedFrame(s.slot, s.rents, s.bank, t.bank);
    Whole(t, s.MaxWinners(), Pool(s.rows));
  }

  /** Opening the window early happens before any attestation. */
  lemma OpenedClock(config: Config, l: LotteryData, m: LotteryData, now: int, attestation: nat, upload: nat)
    requires Configured(config, l) && Clockwork(l, now) && RefundReason(l, now)
    requires !l.settled && !l.uploadsComplete && l.settlementStart <= 0
    requires !(l.uploadStart > 0 && now >= l.uploadStart) && !l.UploadElapsed(now)
    requires var early := BeginRevealPhase.Opened(l, now, attestation, upload);
             m == early
             || (l.participantsCount == 1
                 && m == early.(uploadsComplete := true, aggregate := m.aggregate, selectedWinners := m.selectedWinners))
    ensures Configured(config, m) && Clockwork(m, now) && RefundReason(m, now)
    ensures l.attestedCount == 0
  {
  }

  lemma OpenedVoted(l: LotteryData, m: LotteryData, cap: nat, pool: seq<Entry>, tally: Option<Tally>, selecting: bool)
    requires Voted(l, cap, pool, tally, selecting)
    requires m.attestedCount == l.attestedCount && m.participantsCount == l.participantsCount
    requires || (m.uploadsComplete == l.uploadsComplete && m.aggregate == l.aggregate && m.selectedWinners == l.selectedWinners)
             || (l.participantsCount == 1 && m.uploadsComplete && m.selectedWinners == 1)
    ensures Voted(m, cap, pool, tally, selecting)
  {
  }

  lemma BeginRevealEffect(s: State, caller: Pubkey, attestation: nat, upload: nat)
    requires BeginRevealPhase.Apply(s, caller, attestation, upload).Ok?
    ensures var l, t := s.lottery, BeginRevealPhase.Apply(s, caller, attestation, upload).value;
            var m := t.lottery;
            var wait1 := BeginRevealPhase.Extend(s.config.uploadWindowSecs, attestation);
            var wait2 := BeginRevealPhase.Extend(s.config.uploadWindowSecs, upload);
            var early := BeginRevealPhase.Opened(l, s.now, wait1, wait2);
            && t == s.(lottery := m) && t.MaxWinners() == s.MaxWinners()
            && !l.settled && !l.uploadsComplete && l.settlementStart <= 0
            && !(l.uploadStart > 0 && s.now >= l.uploadStart) && !l.UploadElapsed(s.now)
            && m == if l.participantsCount == 1
                    then early.(uploadsComplete := true, aggregate := s.h.noReveals, selectedWinners := 1)
                    else early
    ensures var m := BeginRevealPhase.Apply(s, caller, attestation, upload).value.lottery;
            && m == s.lottery.(uploadStart := m.uploadStart, uploadDeadline := m.uploadDeadline,
                               uploadsComplete := m.uploadsComplete, aggregate := m.aggregate,
                               selectedWinners := m.selectedWinners)
            && (|| (m.uploadsComplete == s.lottery.uploadsComplete && m.aggregate == s.lottery.aggregate
                    && m.selectedWinners == s.lottery.selectedWinners)
                || (s.lottery.participantsCount == 1 && m.uploadsComplete && m.selectedWinners == 1))
  {
  }

  lemma BeginRevealKeeps(s: State, caller: Pubkey, attestation: nat, upload: nat)
    requires Inv(s) && BeginRevealPhase.Apply(s, caller, attestation, upload).Ok?
    ensures Inv(BeginRevealPhase.Apply(s, caller, attestation, upload).value)
  {
    hide *;
    var t := BeginRevealPhase.Apply(s, caller, attestation, upload).value;
    BeginRevealEffect(s, caller, attestation, upload);
    Parts(s);
    OpenedClock(s.config, s.lottery, t.lottery, s.now, BeginRevealPhase.Extend(s.config.uploadWindowSecs, attestation),
                BeginRevealPhase.Extend(s.config.uploadWindowSecs, upload));
    NotFrozen(s.lottery, s.now);
    OpenedVoted(s.lottery, t.lottery, s.MaxWinners(), Pool(s.rows), s.tally, IsSelecting(s.root));
    RegisteredFrame(s.lottery, t.lottery, s.rows, s.slot);
    CountedFrame(s.lottery, t.lottery, s.MaxWinners(), s.rows);
    SettlingFrame(s.lottery, t.lottery, s.root, s.pages);
    BankedFrame(s.lottery, t.lottery, s.rows, s.rents, s.bank, s.vaultOpen, s.donated, s.credited);
    Whole(t, s.MaxWinners(), Pool(s.rows));
  }

  lemma CancelClock(config: Config, l: LotteryData, now: int, frozen: bool)
    requires Configured(config, l) && Clockwork(l, now) && (frozen ==> Frozen(l, now))
    requires l.uploadsComplete || now >= l.uploadDeadline
    requires l.attestedCount == 0 || l.RemediationExpired(now)
    ensures Configured(config, l.Settle()) && Clockwork(l.Settle(), now) && RefundReason(l.Settle(), now)
    ensures !frozen
  {
  }

  lemma CancelEffect(s: State)
    requires FinalizeNoAttesters.Apply(s).Ok?
    ensures var l, t := s.lottery, FinalizeNoAttesters.Apply(s).value;
            if l.settled then t == s
            else
              && t == s.(lottery := l.Settle()) && t.MaxWinners() == s.MaxWinners()
              && (l.uploadsComplete || s.now >= l.uploadDeadline)
              && (l.attestedCount == 0 || l.RemediationExpired(s.now))
    ensures s.lottery.Settle() == s.lottery.(settled := true)
  {
  }

  lemma CancelKeeps(s: State)
    requires Inv(s) && FinalizeNoAttesters.Apply(s).Ok?
    ensures Inv(FinalizeNoAttesters.Apply(s).value)
  {
    hide *;
    CancelEffect(s);
    if !s.lottery.settled {
      var t := FinalizeNoAttesters.Apply(s).value;
      Parts(s);
      CancelClock(s.config, s.lottery, s.now, s.root.Some?);
      RegisteredFrame(s.lottery, t.lottery, s.rows, s.slot);
      CountedFrame(s.lottery, t.lottery, s.MaxWinners(), s.rows);
      VotedFrame(s.lottery, t.lottery, s.MaxWinners(), Pool(s.rows), s.tally, IsSelecting(s.root));
      SettlingFrame(s.lottery, t.lottery, s.root, s.pages);
      BankedFrame(s.lottery, t.lottery, s.rows, s.rents, s.bank, s.vaultOpen, s.donated, s.credited);
      Whole(t, s.MaxWinners(), Pool(s.rows));
    }
  }

  lemma SweepBanked(l: LotteryData, rows: seq<ParticipantData>, rents: Rents, bank: Bank, donated: nat,
                    credited: map<nat, nat>, to: Pubkey)
    requires Banked(l, rows, rents, bank, true, donated, credited)
    requires l.settled && l.winnersCount == 0 && l.batchesCompleted >= |rows|
    ensures Banked(l, rows, rents, Transfer(bank, Vault, Wallet(to), Balance(bank, Vault)), false, 0, credited)
  {
    TransferExact(bank, Vault, Wallet(to), Balance(bank, Vault));
    SumIndicator(rows, ClaimedOne());
  }

  lemma CloseVaultEffect(s: State)
    requires CloseRefundVault.Apply(s).Ok? && Registered(s.lottery, s.rows, s.slot)
    ensures s.vaultOpen && s.lottery.settled && s.lottery.winnersCount == 0 && s.lottery.batchesCompleted >= |s.rows|
    ensures var t := CloseRefundVault.Apply(s).value;
            && t == s.(bank := Transfer(s.bank, Vault, Wallet(s.config.authority), Balance(s.bank, Vault)), vaultOpen := false,
                       donated := 0)
            && t.MaxWinners() == s.MaxWinners()
  {
  }

  lemma CloseVaultKeeps(s: State)
    requires Inv(s) && CloseRefundVault.Apply(s).Ok?
    ensures Inv(CloseRefundVault.Apply(s).value)
  {
    hide *;
    Parts(s);
    CloseVaultEffect(s);
    SweepBanked(s.lottery, s.rows, s.rents, s.bank, s.donated, s.credited, s.config.authority);
    TransferSameRents(s.bank, Vault, Wallet(s.config.authority), Balance(s.bank, Vault));
    RentedFrame(s.slot, s.rents, s.bank, CloseRefundVault.Apply(s).value.bank);
    Whole(CloseRefundVault.Apply(s).value, s.MaxWinners(), Pool(s.rows));
  }

  lemma CloseRegistered(l: LotteryData, rows: seq<ParticipantData>, slot: map<Pubkey, nat>, owner: Pubkey)
    requires Registered(l, rows, slot) && owner in slot && slot[owner] < |rows|
    requires l.settlementComplete || rows[slot[owner]].refundClaimed
    ensures Registered(l, rows, slot - {owner})
  {
  }

  lemma CloseBanked(l: LotteryData, rows: seq<ParticipantData>, rents: Rents, bank: Bank, open: bool, donated: nat,
                    credited: map<nat, nat>, owner: Pubkey, amount: nat)
    requires Banked(l, rows, rents, bank, open, donated, credited)
    requires Balance(bank, ParticipantAccount(owner)) >= amount
    ensures Banked(l, rows, rents, Transfer(bank, ParticipantAccount(owner), Wallet(owner), amount), open, donated, credited)
  {
    TransferExact(bank, ParticipantAccount(owner), Wallet(owner), amount);
  }

  /** Closing an account moves its whole rent to its owner. */
  lemma CloseRented(slot: map<Pubkey, nat>, rents: Rents, bank: Bank, owner: Pubkey)
    requires Rented(slot, rents, bank) && Total(bank) <= U64_MAX
    ensures var account := ParticipantAccount(owner);
            Rented(slot - {owner}, rents, Transfer(bank, account, Wallet(owner), Balance(bank, account)))
  {
    TransferExact(bank, ParticipantAccount(owner), Wallet(owner), Balance(bank, ParticipantAccount(owner)));
  }

  lemma BankFits(l: LotteryData, rows: seq<ParticipantData>, rents: Rents, bank: Bank, open: bool, donated: nat,
                 credited: map<nat, nat>)
    requires Banked(l, rows, rents, bank, open, donated, credited)
    ensures Total(bank) <= U64_MAX
  {
  }

  lemma CloseAccountEffect(s: State, owner: Pubkey)
    requires CloseParticipant.Apply(s, owner).Ok?
    ensures s.Live(owner) && owner in s.slot && s.slot[owner] < |s.rows|
    ensures s.lottery.settlementComplete || s.rows[s.slot[owner]].refundClaimed
    ensures var t := CloseParticipant.Apply(s, owner).value;
            var account := ParticipantAccount(owner);
            && t == s.(slot := s.slot - {owner}, bank := Transfer(s.bank, account, Wallet(owner), Balance(s.bank, account)))
            && t.MaxWinners() == s.MaxWinners()
  {
  }

  lemma CloseAccountKeeps(s: State, owner: Pubkey)
    requires Inv(s) && CloseParticipant.Apply(s, owner).Ok?
    ensures Inv(CloseParticipant.Apply(s, owner).value)
  {
    hide *;
    Parts(s);
    CloseAccountEffect(s, owner);
    CloseRegistered(s.lottery, s.rows, s.slot, owner);
    CloseBanked(s.lottery, s.rows, s.rents, s.bank, s.vaultOpen, s.donated, s.credited, owner,
                Balance(s.bank, ParticipantAccount(owner)));
    BankFits(s.lottery, s.rows, s.rents, s.bank, s.vaultOpen, s.donated, s.credited);
    CloseRented(s.slot, s.rents, s.bank, owner);
    Whole(CloseParticipant.Apply(s, owner).value, s.MaxWinners(), Pool(s.rows));
  }

  /** Marking a refund claim changes no entry of the pool. */
  lemma ClaimKeepsPool(rows: seq<ParticipantData>, i: nat)
    requires i < |rows|
    ensures Pool(rows[i := rows[i].MarkRefundClaimed()]) == Pool(rows)
    ensures SameMarks(rows, rows[i := rows[i].MarkRefundClaimed()])
  {
  }

  lemma ClaimCounted(l: LotteryData, cap: nat, rows: seq<ParticipantData>, i: nat, claims: nat)
    requires Counted(l, cap, rows) && i < |rows| && l.settled && l.winnersCount == 0
    ensures Counted(l.(batchesCompleted := claims), cap, rows[i := rows[i].MarkRefundClaimed()])
  {
    var q := rows[i].MarkRefundClaimed();
    SumUpdate(rows, i, q, TicketsHeld());
    SumUpdate(rows, i, q, AttestedOne());
    SumUpdate(rows, i, q, IncludedOne());
  }

  lemma ClaimRegistered(l: LotteryData, rows: seq<ParticipantData>, slot: map<Pubkey, nat>, i: nat, claims: nat)
    requires Registered(l, rows, slot) && i < |rows|
    ensures Registered(l.(batchesCompleted := claims), rows[i := rows[i].MarkRefundClaimed()], slot)
  {
    var after := rows[i := rows[i].MarkRefundClaimed()];
    assert forall k :: 0 <= k < |rows| ==> after[k].wallet == rows[k].wallet;
  }

  lemma ClaimPaidOut(l: LotteryData, m: LotteryData, rows: seq<ParticipantData>, i: nat)
    requires i < |rows| && !rows[i].refundClaimed && l.winnersCount == 0
    requires m.winnersCount == 0 && m.price == l.price && m.paidBitmap == l.paidBitmap
    ensures PaidOut(m, rows[i := rows[i].MarkRefundClaimed()]) == PaidOut(l, rows) + l.price * rows[i].tickets
  {
    var held := Sum(rows, ClaimedTickets());
    SumUpdate(rows, i, rows[i].MarkRefundClaimed(), ClaimedTickets());
    assert l.price * (held + rows[i].tickets) == l.price * held + l.price * rows[i].tickets;
  }

  lemma ClaimBanked(l: LotteryData, rows: seq<ParticipantData>, rents: Rents, bank: Bank, donated: nat,
                    credited: map<nat, nat>, i: nat, to: Pubkey, amount: nat)
    requires Banked(l, rows, rents, bank, true, donated, credited)
    requires i < |rows| && !rows[i].refundClaimed && l.settled && l.winnersCount == 0
    requires amount == l.price * rows[i].tickets && Balance(bank, Vault) >= amount
    ensures Banked(l.(batchesCompleted := l.batchesCompleted + 1), rows[i := rows[i].MarkRefundClaimed()], rents,
                   Transfer(bank, Vault, Wallet(to), amount), true, donated, credited)
  {
    var m := l.(batchesCompleted := l.batchesCompleted + 1);
    SumUpdate(rows, i, rows[i].MarkRefundClaimed(), ClaimedOne());
    ClaimPaidOut(l, m, rows, i);
    TransferExact(bank, Vault, Wallet(to), amount);
    assert CreditsOk(m, credited);
  }

  /** What a successful refund changes, and the guards it passed. */
  lemma RefundEffect(s: State, claimer: Pubkey)
    requires ClaimRefund.Apply(s, claimer).Ok?
    ensures s.vaultOpen && s.Live(claimer) && s.lottery.settled && s.lottery.winnersCount == 0
    ensures var i := s.slot[claimer];
            var amount := s.lottery.price * s.rows[i].tickets;
            && !s.rows[i].refundClaimed && Balance(s.bank, Vault) >= amount
            && ClaimRefund.Apply(s, claimer).value
               == s.(rows := s.rows[i := s.rows[i].MarkRefundClaimed()],
                     lottery := s.lottery.(batchesCompleted := s.lottery.batchesCompleted + 1),
                     bank := Transfer(s.bank, Vault, Wallet(claimer), amount))
    ensures var t := ClaimRefund.Apply(s, claimer).value;
            SameClock(s.lottery, t.lottery) && t.MaxWinners() == s.MaxWinners()
  {
  }

  lemma RefundKeeps(s: State, claimer: Pubkey)
    requires Inv(s) && ClaimRefund.Apply(s, claimer).Ok?
    ensures Inv(ClaimRefund.Apply(s, claimer).value)
  {
    hide *;
    var t := ClaimRefund.Apply(s, claimer).value;
    RefundEffect(s, claimer);
    Parts(s);
    var i := s.slot[claimer];
    var amount := s.lottery.price * s.rows[i].tickets;
    ClockFrame(s.config, s.lottery, t.lottery, s.now, s.root.Some?);
    ClaimCounted(s.lottery, s.MaxWinners(), s.rows, i, t.lottery.batchesCompleted);
    ClaimRegistered(s.lottery, s.rows, s.slot, i, t.lottery.batchesCompleted);
    ClaimBanked(s.lottery, s.rows, s.rents, s.bank, s.donated, s.credited, i, claimer, amount);
    TransferSameRents(s.bank, Vault, Wallet(claimer), amount);
    RentedFrame(s.slot, s.rents, s.bank, t.bank);
    ClaimKeepsPool(s.rows, i);
    FinalizingFrame(s.h, s.lottery.id, s.MaxWinners(), s.root, s.rows, t.rows, Pool(s.rows), s.pages);
    VotedFrame(s.lottery, t.lottery, s.MaxWinners(), Pool(s.rows), s.tally, IsSelecting(s.root));
    SettlingFrame(s.lottery, t.lottery, s.root, s.pages);
    Whole(t, s.MaxWinners(), Pool(s.rows));
  }
}
