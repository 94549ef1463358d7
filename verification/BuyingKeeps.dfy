/** Buying tickets keeps the invariant: nobody has attested yet, so only sums and the vault move. */
module BuyingKeeps {
  import opened Prelude
  import opened Digests
  import opened Sums
  import opened Participants
  import opened VoteTallies
  import opened WinnerPages
  import opened FinalizationLedgers
  import opened Lotteries
  import opened Payouts
  import opened Banks
  import opened States
  import opened Invariants
  import opened SimpleSteps
  import BuyTickets

  /** The participant value a purchase writes at row i. */
  ghost predicate Purchase(rows: seq<ParticipantData>, slot: map<Pubkey, nat>, buyer: Pubkey, count: nat,
                           i: nat, p: ParticipantData) {
    && i <= |rows| && count > 0 && p.wallet == buyer && p.index == i
    && (i < |rows| ==>
          && buyer in slot && slot[buyer] == i
          && rows[i].tickets + count <= U64_MAX && p == rows[i].(tickets := rows[i].tickets + count))
    && (i == |rows| ==>
          && buyer !in slot && |rows| < MAX_PARTICIPANTS
          && count <= U64_MAX && p == ParticipantData.New(buyer, p.proofHash, count, i))
  }

  /** The lottery account after a purchase. */
  function Sold(l: LotteryData, participants: nat, count: nat): LotteryData {
    l.(participantsCount := participants, totalTickets := l.totalTickets + count,
       totalFunds := l.totalFunds + l.price * count)
  }

  /** The bank after opening the account, when it is the buyer's first purchase. */
  function Opened(bank: Bank, buyer: Pubkey, first: bool, rent: nat): Bank
    requires first ==> Balance(bank, Wallet(buyer)) >= rent
  {
    if first then Transfer(bank, Wallet(buyer), ParticipantAccount(buyer), rent) else bank
  }

  lemma OpenEffect(s: State, buyer: Pubkey, proof: Option<Bytes32>) returns (i: nat, p: ParticipantData)
    requires BuyTickets.Open.requires(s, buyer, proof) && BuyTickets.Open(s, buyer, proof).Ok?
    requires Registered(s.lottery, s.rows, s.slot)
    ensures i <= |s.rows| && p.wallet == buyer && p.index == i
    ensures i < |s.rows| ==> buyer in s.slot && s.slot[buyer] == i && p == s.rows[i]
    ensures i == |s.rows| ==>
              && buyer !in s.slot && |s.rows| < MAX_PARTICIPANTS && p == ParticipantData.New(buyer, p.proofHash, 0, i)
              && Balance(s.bank, Wallet(buyer)) >= s.rents.participant
    ensures BuyTickets.Open(s, buyer, proof).value
         == s.(rows := Put(s.rows, i, p), slot := s.slot[buyer := i],
               lottery := s.lottery.(participantsCount := |Put(s.rows, i, p)|),
               bank := Opened(s.bank, buyer, i == |s.rows|, s.rents.participant))
  {
    var t := BuyTickets.Open(s, buyer, proof).value;
    i := if buyer in s.slot then s.slot[buyer] else |s.rows|;
    p := t.rows[i];
    assert t.rows == Put(s.rows, i, p);
    assert t.slot == s.slot[buyer := i];
  }

  lemma PayEffect(s: State, buyer: Pubkey, count: U64, cost: nat)
    requires s.Live(buyer) && BuyTickets.Pay(s, buyer, count, cost).Ok?
    ensures var i := s.slot[buyer];
            && s.rows[i].tickets + count <= U64_MAX
            && Balance(s.bank, Wallet(buyer)) >= cost
            && s.lottery.totalTickets + count <= U64_MAX && s.lottery.totalFunds + cost <= U64_MAX
            && BuyTickets.Pay(s, buyer, count, cost).value
               == s.(rows := s.rows[i := s.rows[i].(tickets := s.rows[i].tickets + count)],
                     lottery := s.lottery.(totalTickets := s.lottery.totalTickets + count,
                                           totalFunds := s.lottery.totalFunds + cost),
                     bank := Transfer(s.bank, Wallet(buyer), Vault, cost))
  {
  }

  lemma CostEffect(s: State, buyer: Pubkey, count: U64)
    requires BuyTickets.Cost(s, buyer, count).Ok?
    ensures BuyTickets.Cost(s, buyer, count).value == s.lottery.price * count && count > 0
    ensures buyer in s.slot ==> s.Live(buyer)
    ensures s.vaultOpen && !s.lottery.settled && !(s.lottery.uploadStart > 0 && s.now >= s.lottery.uploadStart)
  {
  }

  lemma ApplyParts(s: State, buyer: Pubkey, proof: Option<Bytes32>, count: U64)
    requires BuyTickets.Apply(s, buyer, proof, count).Ok?
    ensures var c := BuyTickets.Cost(s, buyer, count);
            && c.Ok? && BuyTickets.Open.requires(s, buyer, proof)
            && var o := BuyTickets.Open(s, buyer, proof);
            && o.Ok? && o.value.Live(buyer)
            && BuyTickets.Apply(s, buyer, proof, count) == BuyTickets.Pay(o.value, buyer, count, c.value)
  {
  }

  /** What a successful purchase changes, and the guards it passed. */
  lemma BuyEffect(s: State, buyer: Pubkey, proof: Option<Bytes32>, count: U64) returns (i: nat, p: ParticipantData)
    requires BuyTickets.Apply(s, buyer, proof, count).Ok? && Registered(s.lottery, s.rows, s.slot)
    ensures i <= |s.rows| && Purchase(s.rows, s.slot, buyer, count, i, p)
    ensures s.vaultOpen && !s.lottery.settled && !(s.lottery.uploadStart > 0 && s.now >= s.lottery.uploadStart)
    ensures i == |s.rows| ==> Balance(s.bank, Wallet(buyer)) >= s.rents.participant
    ensures var cost := s.lottery.price * count;
            var bank := Opened(s.bank, buyer, i == |s.rows|, s.rents.participant);
            && Balance(bank, Wallet(buyer)) >= cost
            && s.lottery.totalTickets + count <= U64_MAX && s.lottery.totalFunds + cost <= U64_MAX
            && BuyTickets.Apply(s, buyer, proof, count).value
               == s.(rows := Put(s.rows, i, p), slot := s.slot[buyer := i],
                     lottery := Sold(s.lottery, |Put(s.rows, i, p)|, count),
                     bank := Transfer(bank, Wallet(buyer), Vault, cost))
  {
    hide BuyTickets.Apply, BuyTickets.Cost, BuyTickets.Open, BuyTickets.Pay, Transfer, Registered, Balance, Opened;
    ApplyParts(s, buyer, proof, count);
    CostEffect(s, buyer, count);
    var p0;
    i, p0 := OpenEffect(s, buyer, proof);
    var entered := BuyTickets.Open(s, buyer, proof).value;
    PayEffect(entered, buyer, count, s.lottery.price * count);
    p := p0.(tickets := p0.tickets + count);
    assert entered.rows[i := p] == Put(s.rows, i, p);
  }

  // ----- the parts -----

  /** Before the upload window opens nothing has happened besides purchases. */
  lemma BuyClock(config: Config, l: LotteryData, m: LotteryData, now: int, root: Option<LedgerData>)
    requires Configured(config, l) && Clockwork(l, now) && RefundReason(l, now) && (root.Some? ==> Frozen(l, now))
    requires !l.settled && !(l.uploadStart > 0 && now >= l.uploadStart) && m.participantsCount > 0
    requires m == l.(participantsCount := m.participantsCount, totalTickets := m.totalTickets, totalFunds := m.totalFunds)
    ensures Configured(config, m) && Clockwork(m, now) && RefundReason(m, now)
    ensures l.attestedCount == 0 && !l.uploadsComplete && root.None?
  {
  }

  /** No participant has attested, been included or been refunded. */
  ghost predicate Untouched(rows: seq<ParticipantData>) {
    forall i :: 0 <= i < |rows| ==> !rows[i].attested && !rows[i].revealIncluded && !rows[i].refundClaimed
  }

  lemma NobodyAttested(l: LotteryData, cap: nat, rows: seq<ParticipantData>)
    requires Counted(l, cap, rows) && l.attestedCount == 0 && !l.settled
    ensures Untouched(rows)
  {
    forall i | 0 <= i < |rows|
      ensures !rows[i].attested && !rows[i].revealIncluded && !rows[i].refundClaimed
    {
      assert RowOk(l, cap, rows[i]);
      SumElement(rows, i, AttestedOne());
    }
  }

  lemma BuyRegistered(l: LotteryData, m: LotteryData, rows: seq<ParticipantData>, slot: map<Pubkey, nat>,
                      buyer: Pubkey, count: nat, i: nat, p: ParticipantData)
    requires Registered(l, rows, slot) && Untouched(rows) && !l.settlementComplete
    requires Purchase(rows, slot, buyer, count, i, p)
    requires m.participantsCount == |Put(rows, i, p)| && !m.settlementComplete
    ensures Registered(m, Put(rows, i, p), slot[buyer := i])
  {
    var after := Put(rows, i, p);
    forall k | 0 <= k < |rows|
      ensures rows[k].wallet in slot && slot[rows[k].wallet] == k
    {
      assert Open(rows, slot, k);
    }
    assert WalletsDistinct(after);
  }

  lemma BuyCounted(l: LotteryData, m: LotteryData, cap: nat, cap': nat, rows: seq<ParticipantData>, slot: map<Pubkey, nat>,
                   buyer: Pubkey, count: nat, i: nat, p: ParticipantData)
    requires Counted(l, cap, rows) && Untouched(rows) && Purchase(rows, slot, buyer, count, i, p)
    requires m == Sold(l, m.participantsCount, count) && m.totalTickets <= U64_MAX && m.totalFunds <= U64_MAX
    ensures Counted(m, cap', Put(rows, i, p)) && Untouched(Put(rows, i, p))
  {
    SumPut(rows, i, p, TicketsHeld());
    SumPut(rows, i, p, AttestedOne());
    SumPut(rows, i, p, IncludedOne());
    Distribute(l.price, l.totalTickets, count);
  }

  lemma ZeroDigests(pool: seq<Entry>)
    requires NoReveals(pool)
    ensures Entropy(pool) == ZERO32
  {
    XorAllZeros(DigestsOf(pool));
  }

  lemma BuyVoted(l: LotteryData, m: LotteryData, cap: nat, cap': nat, pool: seq<Entry>, pool': seq<Entry>,
                 tally: Option<Tally>, root: Option<LedgerData>)
    requires Voted(l, cap, pool, tally, IsSelecting(root)) && root.None?
    requires l.attestedCount == 0 && !l.uploadsComplete && |pool| == l.participantsCount
    requires NoReveals(pool')
    requires m == l.(participantsCount := m.participantsCount, totalTickets := m.totalTickets, totalFunds := m.totalFunds)
    ensures Voted(m, cap', pool', tally, IsSelecting(root))
  {
    ZeroDigests(pool);
    ZeroDigests(pool');
    NoVoteWinsVote(pool, cap);
    NoVoteWinsVote(pool', cap');
    if l.participantsCount >= 2 {
      VoteOutcomeUnique(pool, cap, l.selectedWinners, 1);
    }
  }

  lemma BuyFinalizing(h: Hashes, id: nat, cap: nat, cap': nat, root: Option<LedgerData>, rows: seq<ParticipantData>,
                      pages: map<nat, PageData>, slot: map<Pubkey, nat>, buyer: Pubkey, count: nat, i: nat, p: ParticipantData)
    requires root.None? && Finalizing(h, id, cap, root, rows, Pool(rows), pages)
    requires Purchase(rows, slot, buyer, count, i, p)
    ensures Finalizing(h, id, cap', root, Put(rows, i, p), Pool(Put(rows, i, p)), pages)
  {
  }

  lemma BuySettling(l: LotteryData, m: LotteryData, root: Option<LedgerData>, pages: map<nat, PageData>)
    requires Settling(l, root, pages) && root.None?
    requires m == l.(participantsCount := m.participantsCount, totalTickets := m.totalTickets, totalFunds := m.totalFunds)
    ensures Settling(m, root, pages) && !l.settlementComplete
  {
  }

  lemma OpenedExact(bank: Bank, buyer: Pubkey, first: bool, rent: nat)
    requires Total(bank) <= U64_MAX && (first ==> Balance(bank, Wallet(buyer)) >= rent)
    ensures Total(Opened(bank, buyer, first, rent)) == Total(bank)
    ensures Balance(Opened(bank, buyer, first, rent), Vault) == Balance(bank, Vault)
  {
    if first {
      TransferExact(bank, Wallet(buyer), ParticipantAccount(buyer), rent);
    }
  }

  /** Buying pays nothing out. */
  lemma BuyPaidOut(l: LotteryData, m: LotteryData, rows: seq<ParticipantData>, i: nat, p: ParticipantData)
    requires i <= |rows| && Untouched(rows) && !p.refundClaimed
    requires m.winnersCount == l.winnersCount && m.totalPayout == l.totalPayout && m.paidBitmap == l.paidBitmap && m.price == l.price
    ensures PaidOut(m, Put(rows, i, p)) == PaidOut(l, rows)
    ensures Sum(Put(rows, i, p), ClaimedOne()) == Sum(rows, ClaimedOne())
    ensures Share(m) == Share(l) && Paid(m) == Paid(l)
  {
    SumPut(rows, i, p, ClaimedTickets());
    SumPut(rows, i, p, ClaimedOne());
  }

  lemma BuyBanked(l: LotteryData, m: LotteryData, rows: seq<ParticipantData>, rents: Rents, bank: Bank, donated: nat,
                  credited: map<nat, nat>, buyer: Pubkey, i: nat, p: ParticipantData, count: nat)
    requires Banked(l, rows, rents, bank, true, donated, credited)
    requires i <= |rows| && Untouched(rows) && !p.refundClaimed && !l.settled
    requires m == Sold(l, m.participantsCount, count) && l.totalFunds + l.price * count <= U64_MAX
    requires i == |rows| ==> Balance(bank, Wallet(buyer)) >= rents.participant
    requires Balance(Opened(bank, buyer, i == |rows|, rents.participant), Wallet(buyer)) >= l.price * count
    ensures var b := Opened(bank, buyer, i == |rows|, rents.participant);
            Banked(m, Put(rows, i, p), rents, Transfer(b, Wallet(buyer), Vault, l.price * count), true, donated, credited)
  {
    hide PaidOut, Share, Paid, Opened, Transfer;
    var b := Opened(bank, buyer, i == |rows|, rents.participant);
    OpenedExact(bank, buyer, i == |rows|, rents.participant);
    TransferExact(b, Wallet(buyer), Vault, l.price * count);
    BuyPaidOut(l, m, rows, i, p);
  }

  /** A first purchase fills the buyer's account with its rent; later ones leave it alone. */
  lemma BuyRented(slot: map<Pubkey, nat>, rents: Rents, bank: Bank, buyer: Pubkey, i: nat, first: bool, cost: nat)
    requires Rented(slot, rents, bank) && Total(bank) <= U64_MAX && (first <==> buyer !in slot)
    requires first ==> Balance(bank, Wallet(buyer)) >= rents.participant
    requires Balance(Opened(bank, buyer, first, rents.participant), Wallet(buyer)) >= cost
    ensures Rented(slot[buyer := i], rents, Transfer(Opened(bank, buyer, first, rents.participant), Wallet(buyer), Vault, cost))
  {
    var b := Opened(bank, buyer, first, rents.participant);
    if first {
      TransferExact(bank, Wallet(buyer), ParticipantAccount(buyer), rents.participant);
    }
    assert Rented(slot[buyer := i], rents, b);
    TransferSameRents(b, Wallet(buyer), Vault, cost);
    RentedFrame(slot[buyer := i], rents, b, Transfer(b, Wallet(buyer), Vault, cost));
  }

  lemma BuyKeeps(s: State, buyer: Pubkey, proof: Option<Bytes32>, count: U64)
    requires Inv(s) && BuyTickets.Apply(s, buyer, proof, count).Ok?
    ensures Inv(BuyTickets.Apply(s, buyer, proof, count).value)
  {
    hide *;
    Parts(s);
    var t := BuyTickets.Apply(s, buyer, proof, count).value;
    var i, p := BuyEffect(s, buyer, proof, count);
    SoldFields(s.lottery, t.lottery, |t.rows|, count);
    BuyClock(s.config, s.lottery, t.lottery, s.now, s.root);
    NobodyAttested(s.lottery, s.MaxWinners(), s.rows);
    BuySettling(s.lottery, t.lottery, s.root, s.pages);
    BuyRegistered(s.lottery, t.lottery, s.rows, s.slot, buyer, count, i, p);
    BuyCounted(s.lottery, t.lottery, s.MaxWinners(), t.MaxWinners(), s.rows, s.slot, buyer, count, i, p);
    PlainPool(s.lottery, s.rows, s.slot);
    PlainPool(t.lottery, t.rows, t.slot);
    BuyVoted(s.lottery, t.lottery, s.MaxWinners(), t.MaxWinners(), Pool(s.rows), Pool(t.rows), s.tally, s.root);
    BuyFinalizing(s.h, s.lottery.id, s.MaxWinners(), t.MaxWinners(), s.root, s.rows, s.pages, s.slot, buyer, count, i, p);
    PlainPurchase(s.rows, s.slot, buyer, count, i, p);
    BuyBanked(s.lottery, t.lottery, s.rows, s.rents, s.bank, s.donated, s.credited, buyer, i, p, count);
    BankFits(s.lottery, s.rows, s.rents, s.bank, s.vaultOpen, s.donated, s.credited);
    BuyRented(s.slot, s.rents, s.bank, buyer, i, i == |s.rows|, s.lottery.price * count);
    Whole(t, t.MaxWinners(), Pool(t.rows));
  }

  lemma SoldFields(l: LotteryData, m: LotteryData, participants: nat, count: nat)
    requires m == Sold(l, participants, count)
    ensures m == l.(participantsCount := participants, totalTickets := l.totalTickets + count,
                    totalFunds := l.totalFunds + l.price * count)
    ensures m == Sold(l, m.participantsCount, count)
  {
  }

  lemma PlainPurchase(rows: seq<ParticipantData>, slot: map<Pubkey, nat>, buyer: Pubkey, count: nat, i: nat, p: ParticipantData)
    requires Untouched(rows) && Purchase(rows, slot, buyer, count, i, p)
    ensures i <= |rows| && !p.refundClaimed && (i == |rows| <==> buyer !in slot)
  {
  }

  lemma PlainPool(l: LotteryData, rows: seq<ParticipantData>, slot: map<Pubkey, nat>)
    requires Registered(l, rows, slot) && Untouched(rows)
    ensures NoReveals(Pool(rows)) && |Pool(rows)| == l.participantsCount
    ensures rows != [] ==> l.participantsCount > 0
  {
  }
}
