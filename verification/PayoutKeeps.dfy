/** Every payout batch keeps the invariant: each winner is credited once, and the vault's books stay exact. */
module PayoutKeeps {
  import opened Prelude
  import opened Digests
  import opened Sums
  import opened Participants
  import opened WinnerPages
  import opened FinalizationLedgers
  import opened Lotteries
  import opened Payouts
  import opened Banks
  import opened States
  import opened Invariants
  import SettlePayoutBatch

  type Batch = SettlePayoutBatch.Batch
  type WinnerProof = SettlePayoutBatch.WinnerProof

  /** The books in the middle of a batch that started from b0 on page k. */
  ghost predicate BatchOk(b0: Batch, pages: map<nat, PageData>, k: nat, amount: nat, b: Batch) {
    && b.lottery == b0.lottery.(paidBitmap := b.lottery.paidBitmap)
    && b.page == b0.page.(paid := b.page.paid)
    && (forall i: nat :: PagePaid(pages[k := b.page], i) <==> i in Paid(b.lottery))
    && Total(b.bank) == Total(b0.bank) <= U64_MAX
    && Balance(b.bank, Vault) + amount * |Paid(b.lottery)| == Balance(b0.bank, Vault) + amount * |Paid(b0.lottery)|
    && b.credited.Keys == Paid(b.lottery) && (forall i :: i in b.credited ==> b.credited[i] == amount)
  }

  lemma VerifyEffect(l: LotteryData, page: PageData, amount: nat, w: WinnerProof)
    requires SettlePayoutBatch.Verify(l, page, amount, w) == Ok(true)
    ensures w.index < l.winnersCount && w.index / WINNERS_PER_PAGE == page.pageIndex && w.amount == amount
    ensures w.index % WINNERS_PER_PAGE !in page.paid && !l.IsWinnerPaid(w.index)
    ensures page.Winner(w.index % WINNERS_PER_PAGE).Some? && page.Winner(w.index % WINNERS_PER_PAGE).value.wallet == w.recipient
  {
  }

  lemma PayOneEffect(b: Batch, w: WinnerProof, recipient: Pubkey)
    requires SettlePayoutBatch.PayOne(b, w, recipient).Ok?
    ensures recipient == w.recipient && (w.amount > 0 ==> Balance(b.bank, Vault) >= w.amount)
    ensures w.index < b.lottery.winnersCount
    ensures SettlePayoutBatch.PayOne(b, w, recipient).value
         == SettlePayoutBatch.Batch(b.lottery.MarkWinnerPaid(w.index).value,
                                    b.page.(paid := b.page.paid + {w.index % WINNERS_PER_PAGE}),
                                    if w.amount > 0 then Transfer(b.bank, Vault, Wallet(recipient), w.amount) else b.bank,
                                    b.credited[w.index := (if w.index in b.credited then b.credited[w.index] else 0) + w.amount])
  {
  }

  /** Paying one winner moves one share and adds that winner, and nobody else, to the paid set. */
  lemma PaidMoves(b: Batch, w: WinnerProof, recipient: Pubkey)
    requires Total(b.bank) <= U64_MAX && SettlePayoutBatch.PayOne(b, w, recipient).Ok?
    requires b.credited.Keys == Paid(b.lottery) && !b.lottery.IsWinnerPaid(w.index)
    ensures var c := SettlePayoutBatch.PayOne(b, w, recipient).value;
            && c.lottery == b.lottery.(paidBitmap := c.lottery.paidBitmap)
            && w.index !in Paid(b.lottery) && Paid(c.lottery) == Paid(b.lottery) + {w.index}
            && |Paid(c.lottery)| == |Paid(b.lottery)| + 1
            && Total(c.bank) == Total(b.bank) && Balance(c.bank, Vault) + w.amount == Balance(b.bank, Vault)
            && c.page == b.page.(paid := b.page.paid + {w.index % WINNERS_PER_PAGE})
            && c.credited == b.credited[w.index := w.amount]
  {
    hide SettlePayoutBatch.PayOne, Transfer, PaidSet;
    PayOneEffect(b, w, recipient);
    MarkedPaid(b.lottery, w.index);
    PaidSetMeaning(b.lottery);
    if w.amount > 0 {
      TransferExact(b.bank, Vault, Wallet(recipient), w.amount);
    }
    MarkFields(b.lottery, w.index);
  }

  lemma MarkFields(l: LotteryData, i: nat)
    requires l.MarkWinnerPaid(i).Ok?
    ensures l.MarkWinnerPaid(i).value == l.(paidBitmap := l.MarkWinnerPaid(i).value.paidBitmap)
  {
  }

  /** The page bit set is the bit of the winner paid. */
  lemma PageBitAdded(pages: map<nat, PageData>, k: nat, page: PageData, i: nat, paid: set<nat>)
    requires i / WINNERS_PER_PAGE == k
    requires forall j: nat :: PagePaid(pages[k := page], j) <==> j in paid
    ensures forall j: nat :: PagePaid(pages[k := page.(paid := page.paid + {i % WINNERS_PER_PAGE})], j) <==> j in paid + {i}
  {
    var after := page.(paid := page.paid + {i % WINNERS_PER_PAGE});
    forall j: nat
      ensures PagePaid(pages[k := after], j) <==> j in paid + {i}
    {
      assert PagePaid(pages[k := page], j) <==> j in paid;
      if j / WINNERS_PER_PAGE == k && j % WINNERS_PER_PAGE == i % WINNERS_PER_PAGE {
        assert j == i;
      }
    }
  }

  lemma Settle1Keeps(b0: Batch, pages: map<nat, PageData>, k: nat, amount: nat, b: Batch, w: WinnerProof, recipient: Pubkey)
    requires BatchOk(b0, pages, k, amount, b) && b0.page.pageIndex == k
    requires SettlePayoutBatch.Settle1(b, amount, w, recipient).Ok?
    ensures BatchOk(b0, pages, k, amount, SettlePayoutBatch.Settle1(b, amount, w, recipient).value)
  {
    hide SettlePayoutBatch.Verify, SettlePayoutBatch.PayOne, PaidSet, PagePaid;
    if SettlePayoutBatch.Verify(b.lottery, b.page, amount, w).value {
      VerifyEffect(b.lottery, b.page, amount, w);
      PaidMoves(b, w, recipient);
      PageBitAdded(pages, k, b.page, w.index, Paid(b.lottery));
      Distribute(amount, |Paid(b.lottery)|, 1);
    }
  }

  lemma {:induction false} SettleAllKeeps(b0: Batch, pages: map<nat, PageData>, k: nat, amount: nat,
                                          winners: seq<WinnerProof>, recipients: seq<Pubkey>)
    requires BatchOk(b0, pages, k, amount, b0) && b0.page.pageIndex == k && |recipients| >= |winners|
    requires SettlePayoutBatch.SettleAll(b0, amount, winners, recipients).Ok?
    ensures BatchOk(b0, pages, k, amount, SettlePayoutBatch.SettleAll(b0, amount, winners, recipients).value)
  {
    hide BatchOk, SettlePayoutBatch.Settle1;
    if winners != [] {
      var n := |winners| - 1;
      SettleAllKeeps(b0, pages, k, amount, winners[..n], recipients);
      Settle1Keeps(b0, pages, k, amount, SettlePayoutBatch.SettleAll(b0, amount, winners[..n], recipients).value,
                   winners[n], recipients[n]);
    }
  }

  // ----- the instruction -----

  /** The sweep empties the vault, and nothing is lost on the way to the authority. */
  lemma SweepEffect(l: LotteryData, bank: Bank, authority: Pubkey)
    requires Total(bank) <= U64_MAX && SettlePayoutBatch.Sweep(l, bank, authority).Ok?
    ensures var (m, b) := SettlePayoutBatch.Sweep(l, bank, authority).value;
            && l.AllWinnersPaid() && m == l.(settlementComplete := true, settled := true)
            && Total(b) == Total(bank) && Balance(b, Vault) == 0
            && Balance(b, Wallet(authority)) == Balance(bank, Wallet(authority)) + Balance(bank, Vault)
  {
    var fee := ServiceFee(l.totalFunds, l.bps).value;
    var rest := Remainder(l.totalFunds, l.totalPayout, fee);
    var b1 := Transfer(bank, Vault, Wallet(authority), fee);
    var b2 := Transfer(b1, Vault, Wallet(authority), rest);
    hide ServiceFee, Remainder, Transfer, LotteryData.AllWinnersPaid;
    TransferExact(bank, Vault, Wallet(authority), fee);
    TransferExact(b1, Vault, Wallet(authority), rest);
    TransferExact(b2, Vault, Wallet(authority), Balance(b2, Vault));
  }

  lemma CheckEffect(s: State, id: nat, page: nat, winners: seq<WinnerProof>, recipients: seq<Pubkey>, p: PageData, amount: nat)
    requires SettlePayoutBatch.Check(s, id, page, winners, recipients) == Ok(SettlePayoutBatch.Pay(p, amount))
    ensures s.vaultOpen && !s.lottery.settlementComplete && s.lottery.winnersCount > 0
    ensures page in s.pages && s.pages[page] == p && p.pageIndex == page && |recipients| >= |winners|
    ensures amount == Share(s.lottery)
  {
  }

  /** What a successful batch changes: winners are settled one by one, and the vault is swept after the last. */
  lemma ApplyEffect(s: State, id: nat, page: nat, winners: seq<WinnerProof>, recipients: seq<Pubkey>)
    requires SettlePayoutBatch.Apply(s, id, page, winners, recipients).Ok?
    ensures SettlePayoutBatch.Check(s, id, page, winners, recipients).Ok?
    ensures var t := SettlePayoutBatch.Apply(s, id, page, winners, recipients).value;
            match SettlePayoutBatch.Check(s, id, page, winners, recipients).value
            case AlreadyComplete => t == s
            case Pay(p, amount) =>
              && |recipients| >= |winners|
              && var b := SettlePayoutBatch.SettleAll(SettlePayoutBatch.Batch(s.lottery, p, s.bank, s.credited),
                                                      amount, winners, recipients);
              && b.Ok?
              && var l := b.value.lottery.IncrementBatch();
              && if l.AllWinnersPaid()
                 then && SettlePayoutBatch.Sweep(l, b.value.bank, s.config.authority).Ok?
                      && var (m, bank) := SettlePayoutBatch.Sweep(l, b.value.bank, s.config.authority).value;
                         t == s.(pages := s.pages[page := b.value.page], credited := b.value.credited,
                                 lottery := m, bank := bank, vaultOpen := false, donated := 0)
                 else t == s.(pages := s.pages[page := b.value.page], credited := b.value.credited,
                              lottery := l, bank := b.value.bank)
  {
    hide SettlePayoutBatch.SettleAll, SettlePayoutBatch.Sweep, LotteryData.AllWinnersPaid;
  }

  /** What a batch does to the lottery account: bits, the batch counter, and at the end the two flags. */
  ghost predicate PaidLottery(l: LotteryData, m: LotteryData, swept: bool) {
    && m == l.(paidBitmap := m.paidBitmap, batchesCompleted := m.batchesCompleted,
               settled := l.settled || swept, settlementComplete := l.settlementComplete || swept)
    && (swept ==> |Paid(m)| == m.winnersCount)
  }

  /** Everything a successful, still open batch establishes. */
  ghost predicate Result(s: State, t: State, page: nat, p: PageData, amount: nat, swept: bool) {
    && page in s.pages
    && t == s.(pages := s.pages[page := p], credited := t.credited, lottery := t.lottery, bank := t.bank,
               vaultOpen := !swept, donated := if swept then 0 else s.donated)
    && p == s.pages[page].(paid := p.paid)
    && PaidLottery(s.lottery, t.lottery, swept)
    && (forall i: nat :: PagePaid(t.pages, i) <==> i in Paid(t.lottery))
    && Total(t.bank) == Total(s.bank) && (swept ==> Balance(t.bank, Vault) == 0)
    && (!swept ==> Balance(t.bank, Vault) + amount * |Paid(t.lottery)| == Balance(s.bank, Vault) + amount * |Paid(s.lottery)|)
    && t.credited.Keys == Paid(t.lottery) && (forall i :: i in t.credited ==> t.credited[i] == amount)
  }

  lemma BatchStarts(s: State, page: nat, amount: nat)
    requires Settling(s.lottery, s.root, s.pages) && CreditsOk(s.lottery, s.credited) && Total(s.bank) <= U64_MAX
    requires page in s.pages && amount == Share(s.lottery)
    ensures var b := SettlePayoutBatch.Batch(s.lottery, s.pages[page], s.bank, s.credited);
            BatchOk(b, s.pages, page, amount, b)
  {
    assert s.pages[page := s.pages[page]] == s.pages;
    hide PaidSet, PagePaid, PayoutPlan;
  }

  lemma IncrementFields(l: LotteryData)
    ensures l.IncrementBatch() == l.(batchesCompleted := l.IncrementBatch().batchesCompleted)
    ensures Paid(l.IncrementBatch()) == Paid(l)
  {
  }

  lemma AllPaid(l: LotteryData)
    ensures l.AllWinnersPaid() <==> |Paid(l)| == l.winnersCount
  {
    PaidSetMeaning(l);
  }

  lemma PayoutResult(s: State, id: nat, page: nat, winners: seq<WinnerProof>, recipients: seq<Pubkey>, p0: PageData, amount: nat)
    returns (p: PageData, swept: bool)
    requires SettlePayoutBatch.Apply(s, id, page, winners, recipients).Ok?
    requires SettlePayoutBatch.Check(s, id, page, winners, recipients) == Ok(SettlePayoutBatch.Pay(p0, amount))
    requires Settling(s.lottery, s.root, s.pages) && CreditsOk(s.lottery, s.credited) && Total(s.bank) <= U64_MAX
    ensures page in s.pages && amount == Share(s.lottery) && s.vaultOpen && s.lottery.winnersCount > 0
    ensures Result(s, SettlePayoutBatch.Apply(s, id, page, winners, recipients).value, page, p, amount, swept)
  {
    hide SettlePayoutBatch.Apply, SettlePayoutBatch.Check, SettlePayoutBatch.SettleAll, SettlePayoutBatch.Sweep,
         Settling, CreditsOk, PaidSet, PagePaid, LotteryData.AllWinnersPaid, LotteryData.IncrementBatch, Share;
    ApplyEffect(s, id, page, winners, recipients);
    CheckEffect(s, id, page, winners, recipients, p0, amount);
    BatchStarts(s, page, amount);
    var b0 := SettlePayoutBatch.Batch(s.lottery, p0, s.bank, s.credited);
    SettleAllKeeps(b0, s.pages, page, amount, winners, recipients);
    var b := SettlePayoutBatch.SettleAll(b0, amount, winners, recipients).value;
    var l := b.lottery.IncrementBatch();
    IncrementFields(b.lottery);
    AllPaid(l);
    p, swept := b.page, l.AllWinnersPaid();
    if swept {
      SweepEffect(l, b.bank, s.config.authority);
    }
  }

  // ----- the parts -----

  lemma PayoutClock(config: Config, l: LotteryData, m: LotteryData, now: int, swept: bool)
    requires Configured(config, l) && Clockwork(l, now) && Frozen(l, now) && l.winnersCount > 0 && PaidLottery(l, m, swept)
    ensures Configured(config, m) && Clockwork(m, now) && Frozen(m, now) && RefundReason(m, now)
    ensures m == l.(paidBitmap := m.paidBitmap, batchesCompleted := m.batchesCompleted,
                    settled := m.settled, settlementComplete := m.settlementComplete)
    ensures (l.settled ==> m.settled) && (l.settlementComplete ==> m.settlementComplete)
  {
    hide PaidSet;
  }

  /** Paying changes no recorded winner. */
  lemma PayoutFinalizing(h: Hashes, id: nat, cap: nat, root: Option<LedgerData>, rows: seq<ParticipantData>, pool: seq<Entry>,
                         pages: map<nat, PageData>, k: nat, p: PageData)
    requires Finalizing(h, id, cap, root, rows, pool, pages) && root.Some?
    requires k in pages && p == pages[k].(paid := p.paid)
    ensures Finalizing(h, id, cap, root, rows, pool, pages[k := p])
  {
    hide Recorded, PassInProgress, FoldedLedger, PagesHold, WinnerList;
    PagesFrame(pages, k, p, WinnerList(h, root.value, pool));
  }

  lemma PagesFrame(pages: map<nat, PageData>, k: nat, p: PageData, winners: seq<SelectedWinner>)
    requires PagesHold(pages, winners) && k in pages && p == pages[k].(paid := p.paid)
    ensures PagesHold(pages[k := p], winners)
  {
  }

  lemma PayoutSettling(l: LotteryData, m: LotteryData, root: Option<LedgerData>, pages: map<nat, PageData>,
                       pages': map<nat, PageData>, swept: bool)
    requires Settling(l, root, pages) && PaidLottery(l, m, swept) && l.winnersCount > 0
    requires l.settlementComplete ==> swept
    requires forall i: nat :: PagePaid(pages', i) <==> i in Paid(m)
    ensures Settling(m, root, pages')
  {
    hide PagePaid, PaidSet, PayoutPlan;
  }

  lemma PayoutBanked(l: LotteryData, m: LotteryData, rows: seq<ParticipantData>, rents: Rents, bank: Bank, bank': Bank,
                     donated: nat, donated': nat, credited: map<nat, nat>, credited': map<nat, nat>, swept: bool)
    requires Banked(l, rows, rents, bank, true, donated, credited) && PaidLottery(l, m, swept) && l.winnersCount > 0
    requires Total(bank') == Total(bank) && donated' == (if swept then 0 else donated)
    requires swept ==> Balance(bank', Vault) == 0
    requires !swept ==> Balance(bank', Vault) + Share(l) * |Paid(m)| == Balance(bank, Vault) + Share(l) * |Paid(l)|
    requires credited'.Keys == Paid(m) && forall i :: i in credited' ==> credited'[i] == Share(l)
    ensures Banked(m, rows, rents, bank', !swept, donated', credited')
  {
    hide PaidSet;
    assert Share(m) == Share(l);
  }

  lemma WinnersMean(l: LotteryData, root: Option<LedgerData>, pages: map<nat, PageData>)
    requires Settling(l, root, pages) && l.winnersCount > 0
    ensures root.Some? && IsComplete(root)
  {
  }

  lemma OpenBooks(l: LotteryData, rows: seq<ParticipantData>, rents: Rents, bank: Bank, donated: nat, credited: map<nat, nat>)
    requires Banked(l, rows, rents, bank, true, donated, credited)
    ensures !l.settlementComplete && CreditsOk(l, credited) && Total(bank) <= U64_MAX
  {
  }

  lemma BooksFit(l: LotteryData, rows: seq<ParticipantData>, rents: Rents, bank: Bank, open: bool, donated: nat,
                 credited: map<nat, nat>)
    requires Banked(l, rows, rents, bank, open, donated, credited)
    ensures CreditsOk(l, credited) && Total(bank) <= U64_MAX
  {
  }

  lemma ResultParts(s: State, t: State, page: nat, p: PageData, amount: nat, swept: bool)
    requires Result(s, t, page, p, amount, swept)
    ensures page in s.pages && p == s.pages[page].(paid := p.paid) && PaidLottery(s.lottery, t.lottery, swept)
    ensures t == s.(pages := s.pages[page := p], credited := t.credited, lottery := t.lottery, bank := t.bank,
                    vaultOpen := !swept, donated := if swept then 0 else s.donated)
    ensures forall i: nat :: PagePaid(t.pages, i) <==> i in Paid(t.lottery)
    ensures Total(t.bank) == Total(s.bank) && (swept ==> Balance(t.bank, Vault) == 0)
    ensures !swept ==> Balance(t.bank, Vault) + amount * |Paid(t.lottery)| == Balance(s.bank, Vault) + amount * |Paid(s.lottery)|
    ensures t.credited.Keys == Paid(t.lottery) && forall i :: i in t.credited ==> t.credited[i] == amount
  {
    hide PagePaid, PaidSet;
  }

  lemma Settle1SameRents(b: Batch, amount: nat, w: WinnerProof, recipient: Pubkey)
    requires SettlePayoutBatch.Settle1(b, amount, w, recipient).Ok?
    ensures SameRents(b.bank, SettlePayoutBatch.Settle1(b, amount, w, recipient).value.bank)
  {
    hide SettlePayoutBatch.Verify, SettlePayoutBatch.PayOne, SameRents;
    SameRentsAlways(b.bank);
    if SettlePayoutBatch.Verify(b.lottery, b.page, amount, w).value {
      PayOneEffect(b, w, recipient);
      if w.amount > 0 {
        TransferSameRents(b.bank, Vault, Wallet(recipient), w.amount);
      }
    }
  }

  lemma SameRentsAlways(bank: Bank)
    ensures SameRents(bank, bank)
  {
  }

  lemma SameRentsOn(a: Bank, b: Bank, c: Bank)
    requires SameRents(a, b) && SameRents(b, c)
    ensures SameRents(a, c)
  {
    forall w
      ensures Balance(c, ParticipantAccount(w)) == Balance(a, ParticipantAccount(w))
    {
      assert Balance(b, ParticipantAccount(w)) == Balance(a, ParticipantAccount(w));
    }
  }

  lemma {:induction false} SettleAllSameRents(b: Batch, amount: nat, winners: seq<WinnerProof>, recipients: seq<Pubkey>)
    requires |recipients| >= |winners| && SettlePayoutBatch.SettleAll(b, amount, winners, recipients).Ok?
    ensures SameRents(b.bank, SettlePayoutBatch.SettleAll(b, amount, winners, recipients).value.bank)
  {
    hide SettlePayoutBatch.Settle1, SameRents;
    SameRentsAlways(b.bank);
    if winners != [] {
      var n := |winners| - 1;
      SettleAllSameRents(b, amount, winners[..n], recipients);
      var before := SettlePayoutBatch.SettleAll(b, amount, winners[..n], recipients).value;
      Settle1SameRents(before, amount, winners[n], recipients[n]);
      SameRentsOn(b.bank, before.bank, SettlePayoutBatch.SettleAll(b, amount, winners, recipients).value.bank);
    }
  }

  /** Neither payouts nor the sweep touch a participant account. */
  lemma PayoutSameRents(s: State, id: nat, page: nat, winners: seq<WinnerProof>, recipients: seq<Pubkey>)
    requires SettlePayoutBatch.Apply(s, id, page, winners, recipients).Ok? && Total(s.bank) <= U64_MAX
    ensures SameRents(s.bank, SettlePayoutBatch.Apply(s, id, page, winners, recipients).value.bank)
  {
    hide *;
    ApplyEffect(s, id, page, winners, recipients);
    SameRentsAlways(s.bank);
    match SettlePayoutBatch.Check(s, id, page, winners, recipients).value
    case AlreadyComplete =>
    case Pay(p, amount) =>
      var b0 := SettlePayoutBatch.Batch(s.lottery, p, s.bank, s.credited);
      var b := SettlePayoutBatch.SettleAll(b0, amount, winners, recipients).value;
      SettleAllSameRents(b0, amount, winners, recipients);
      var l := b.lottery.IncrementBatch();
      if l.AllWinnersPaid() {
        SweepSameRents(l, b.bank, s.config.authority);
        SameRentsOn(s.bank, b.bank, SettlePayoutBatch.Sweep(l, b.bank, s.config.authority).value.1);
      }
  }

  lemma SweepSameRents(l: LotteryData, bank: Bank, authority: Pubkey)
    requires SettlePayoutBatch.Sweep(l, bank, authority).Ok?
    ensures SameRents(bank, SettlePayoutBatch.Sweep(l, bank, authority).value.1)
  {
    hide ServiceFee, Remainder, LotteryData.AllWinnersPaid, LotteryData.CompleteSettlement, SaturatingAdd;
  }

  lemma PayoutKeepsInv(s: State, id: nat, page: nat, winners: seq<WinnerProof>, recipients: seq<Pubkey>)
    requires Inv(s) && SettlePayoutBatch.Apply(s, id, page, winners, recipients).Ok?
    ensures Inv(SettlePayoutBatch.Apply(s, id, page, winners, recipients).value)
  {
    hide *;
    Parts(s);
    ApplyEffect(s, id, page, winners, recipients);
    match SettlePayoutBatch.Check(s, id, page, winners, recipients).value {
      case AlreadyComplete =>
      case Pay(p0, amount) =>
        var t := SettlePayoutBatch.Apply(s, id, page, winners, recipients).value;
        var cap, pool := s.MaxWinners(), Pool(s.rows);
        BooksFit(s.lottery, s.rows, s.rents, s.bank, s.vaultOpen, s.donated, s.credited);
        var p, swept := PayoutResult(s, id, page, winners, recipients, p0, amount);
        ResultParts(s, t, page, p, amount, swept);
        OpenBooks(s.lottery, s.rows, s.rents, s.bank, s.donated, s.credited);
        WinnersMean(s.lottery, s.root, s.pages);
        PayoutClock(s.config, s.lottery, t.lottery, s.now, swept);
        RegisteredFrame(s.lottery, t.lottery, s.rows, s.slot);
        CountedFrame(s.lottery, t.lottery, cap, s.rows);
        VotedFrame(s.lottery, t.lottery, cap, pool, s.tally, IsSelecting(s.root));
        PayoutFinalizing(s.h, s.lottery.id, cap, s.root, s.rows, pool, s.pages, page, p);
        PayoutSettling(s.lottery, t.lottery, s.root, s.pages, t.pages, swept);
        PayoutBanked(s.lottery, t.lottery, s.rows, s.rents, s.bank, t.bank, s.donated, t.donated,
                     s.credited, t.credited, swept);
        PayoutSameRents(s, id, page, winners, recipients);
        RentedFrame(s.slot, s.rents, s.bank, t.bank);
        CapSame(s, t);
        Whole(t, cap, pool);
    }
  }
}
