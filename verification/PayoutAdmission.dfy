/** Exactly which payout batches succeed. */
module PayoutAdmission {
  import opened Prelude
  import opened Digests
  import opened Participants
  import opened WinnerPages
  import opened FinalizationLedgers
  import opened Lotteries
  import opened Payouts
  import opened Banks
  import opened States
  import opened Steps
  import opened Invariants
  import opened PayoutKeeps
  import opened PayoutTheorems
  import SettlePayoutBatch

  /** The proof names a winner of the page, the wallet recorded for it, and one share. */
  predicate Names(l: LotteryData, page: PageData, w: WinnerProof) {
    && w.index < l.winnersCount && w.index / WINNERS_PER_PAGE == page.pageIndex && w.amount == Share(l)
    && w.index % WINNERS_PER_PAGE < |page.winners|
    && page.winners[w.index % WINNERS_PER_PAGE].wallet == w.recipient
  }

  /** Whoever is still unpaid at entry j of the batch is paid to the account passed for that entry. */
  ghost predicate Delivered(l: LotteryData, winners: seq<WinnerProof>, recipients: seq<Pubkey>, j: nat)
    requires j < |winners| <= |recipients|
  {
    || winners[j].index in Paid(l)
    || (exists i :: 0 <= i < j && winners[i].index == winners[j].index)
    || recipients[j] == winners[j].recipient
  }

  ghost predicate GoodBatch(l: LotteryData, page: PageData, winners: seq<WinnerProof>, recipients: seq<Pubkey>)
    requires |winners| <= |recipients|
  {
    forall j :: 0 <= j < |winners| ==> Names(l, page, winners[j]) && Delivered(l, winners, recipients, j)
  }

  // ----- one entry -----

  lemma VerifyIff(l: LotteryData, page: PageData, w: WinnerProof)
    requires w.index < l.winnersCount && w.index / WINNERS_PER_PAGE == page.pageIndex ==>
               (w.index % WINNERS_PER_PAGE in page.paid <==> l.IsWinnerPaid(w.index))
    ensures SettlePayoutBatch.Verify(l, page, Share(l), w).Ok? <==> Names(l, page, w)
    ensures SettlePayoutBatch.Verify(l, page, Share(l), w) == Ok(true) <==> Names(l, page, w) && !l.IsWinnerPaid(w.index)
  {
    hide LotteryData.IsWinnerPaid, Share;
  }

  lemma SameNames(b0: Batch, pages: map<nat, PageData>, k: nat, amount: nat, b: Batch, w: WinnerProof)
    requires BatchOk(b0, pages, k, amount, b)
    ensures Names(b.lottery, b.page, w) <==> Names(b0.lottery, b0.page, w)
    ensures Share(b.lottery) == Share(b0.lottery)
  {
    hide PaidSet, PagePaid;
  }

  lemma PaidMeans(l: LotteryData, i: nat)
    ensures i in Paid(l) <==> i < l.winnersCount && l.IsWinnerPaid(i)
  {
    PaidSetMeaning(l);
  }

  lemma Settle1Cases(b: Batch, amount: nat, w: WinnerProof, recipient: Pubkey)
    ensures var due := SettlePayoutBatch.Verify(b.lottery, b.page, amount, w);
            SettlePayoutBatch.Settle1(b, amount, w, recipient)
            == if due.Err? then Err(due.error) else if due.value then SettlePayoutBatch.PayOne(b, w, recipient) else Ok(b)
  {
    hide SettlePayoutBatch.Verify, SettlePayoutBatch.PayOne;
  }

  /** One entry succeeds exactly if its proof is right and, when it is still unpaid, the account passed is the recipient's. */
  lemma EntryIff(b0: Batch, pages: map<nat, PageData>, k: nat, rest: nat, b: Batch, w: WinnerProof, recipient: Pubkey)
    requires BatchOk(b0, pages, k, Share(b0.lottery), b) && b.page.pageIndex == k && b0.page.pageIndex == k
    requires Funded(b, Share(b0.lottery), rest)
    ensures var r := SettlePayoutBatch.Settle1(b, Share(b0.lottery), w, recipient);
            && (r.Ok? <==> Names(b0.lottery, b0.page, w) && (w.index in Paid(b.lottery) || recipient == w.recipient))
            && (r.Ok? ==> Paid(r.value.lottery) == Paid(b.lottery) + {w.index})
  {
    hide BatchOk, Funded, Names, Share, SettlePayoutBatch.Verify, SettlePayoutBatch.PayOne, SettlePayoutBatch.Settle1,
         LotteryData.IsWinnerPaid, PaidSet;
    SameNames(b0, pages, k, Share(b0.lottery), b, w);
    if w.index < b.lottery.winnersCount && w.index / WINNERS_PER_PAGE == k {
      BitsAgree(b0, pages, k, Share(b0.lottery), b, w.index);
    }
    VerifyIff(b.lottery, b.page, w);
    Settle1Cases(b, Share(b0.lottery), w, recipient);
    PaidMeans(b.lottery, w.index);
    NamesInRange(b.lottery, b.page, w);
    if Names(b.lottery, b.page, w) && !b.lottery.IsWinnerPaid(w.index) {
      BatchFields(b0, pages, k, Share(b0.lottery), b);
      CreditedPaid(b0, pages, k, Share(b0.lottery), b);
      FundedPays(b, Share(b0.lottery), rest, w.index);
      VerifyEffect(b.lottery, b.page, Share(b0.lottery), w);
      WinnerSome(b.page, w.index % WINNERS_PER_PAGE);
      PayOneOutcome(b, w, recipient);
      if recipient == w.recipient {
        PaidMoves(b, w, recipient);
      }
    }
  }

  lemma WinnerSome(p: PageData, offset: nat)
    ensures p.Winner(offset).Some? <==> offset < |p.winners|
  {
  }

  lemma NamesInRange(l: LotteryData, page: PageData, w: WinnerProof)
    ensures Names(l, page, w) ==> w.index < l.winnersCount && w.amount == Share(l)
  {
    hide Share;
  }

  // ----- the loop -----

  lemma SettleAllStep(b: Batch, amount: nat, winners: seq<WinnerProof>, recipients: seq<Pubkey>)
    requires |recipients| >= |winners| > 0
    ensures var n := |winners| - 1;
            var before := SettlePayoutBatch.SettleAll(b, amount, winners[..n], recipients);
            SettlePayoutBatch.SettleAll(b, amount, winners, recipients)
            == if before.Ok? then SettlePayoutBatch.Settle1(before.value, amount, winners[n], recipients[n]) else before
  {
    hide SettlePayoutBatch.Settle1;
  }

  /** The indices of a batch. */
  ghost function Indices(winners: seq<WinnerProof>): set<nat> {
    set w | w in winners :: w.index
  }

  lemma IndicesStep(winners: seq<WinnerProof>)
    requires winners != []
    ensures Indices(winners) == Indices(winners[..|winners| - 1]) + {winners[|winners| - 1].index}
  {
    var n := |winners| - 1;
    assert winners == winners[..n] + [winners[n]];
  }

  lemma IndicesMean(winners: seq<WinnerProof>, n: nat, x: nat)
    requires n <= |winners|
    ensures x in Indices(winners[..n]) <==> exists i :: 0 <= i < n && winners[i].index == x
  {
    if x in Indices(winners[..n]) {
      var w :| w in winners[..n] && w.index == x;
      var i :| 0 <= i < n && winners[..n][i] == w;
      assert winners[i].index == x;
    }
    if i :| 0 <= i < n && winners[i].index == x {
      assert winners[..n][i] == winners[i];
    }
  }

  lemma GoodBatchStep(l: LotteryData, page: PageData, winners: seq<WinnerProof>, recipients: seq<Pubkey>)
    requires 0 < |winners| <= |recipients|
    ensures var n := |winners| - 1;
            GoodBatch(l, page, winners, recipients) <==>
              && GoodBatch(l, page, winners[..n], recipients) && Names(l, page, winners[n])
              && (winners[n].index in Paid(l) + Indices(winners[..n]) || recipients[n] == winners[n].recipient)
  {
    hide Names, PaidSet;
    var n := |winners| - 1;
    IndicesMean(winners, n, winners[n].index);
    assert Delivered(l, winners, recipients, n) <==>
             winners[n].index in Paid(l) + Indices(winners[..n]) || recipients[n] == winners[n].recipient;
    forall j | 0 <= j < n
      ensures Delivered(l, winners[..n], recipients, j) <==> Delivered(l, winners, recipients, j)
    {
      assert forall i :: 0 <= i < n ==> winners[..n][i] == winners[i];
    }
    assert forall j :: 0 <= j < n ==> winners[..n][j] == winners[j];
  }

  /** The loop succeeds exactly on good batches, and marks exactly the named winners. */
  lemma {:induction false} SettleAllIff(b0: Batch, pages: map<nat, PageData>, k: nat, rest: nat,
                                        winners: seq<WinnerProof>, recipients: seq<Pubkey>)
    requires BatchOk(b0, pages, k, Share(b0.lottery), b0) && b0.page.pageIndex == k && Funded(b0, Share(b0.lottery), rest)
    requires |recipients| >= |winners|
    ensures var r := SettlePayoutBatch.SettleAll(b0, Share(b0.lottery), winners, recipients);
            && (r.Ok? <==> GoodBatch(b0.lottery, b0.page, winners, recipients))
            && (r.Ok? ==> Paid(r.value.lottery) == Paid(b0.lottery) + Indices(winners))
  {
    hide BatchOk, Funded, Share, Names, GoodBatch, SettlePayoutBatch.Settle1, PaidSet, Indices;
    if winners == [] {
      NoEntries(b0.lottery, b0.page, recipients);
    } else {
      var n, amount := |winners| - 1, Share(b0.lottery);
      SettleAllIff(b0, pages, k, rest, winners[..n], recipients);
      SettleAllStep(b0, amount, winners, recipients);
      GoodBatchStep(b0.lottery, b0.page, winners, recipients);
      IndicesStep(winners);
      if SettlePayoutBatch.SettleAll(b0, amount, winners[..n], recipients).Ok? {
        var b := SettlePayoutBatch.SettleAll(b0, amount, winners[..n], recipients).value;
        SettleAllKeeps(b0, pages, k, amount, winners[..n], recipients);
        BatchFields(b0, pages, k, amount, b);
        FundedKept(b0, pages, k, amount, rest, b);
        EntryIff(b0, pages, k, rest, b, winners[n], recipients[n]);
      }
    }
  }

  lemma NoEntries(l: LotteryData, page: PageData, recipients: seq<Pubkey>)
    ensures GoodBatch(l, page, [], recipients) && Indices([]) == {}
  {
  }

  // ----- the instruction -----

  /** The guards before the loop, in terms of the fields. */
  lemma CheckIff(s: State, id: nat, page: nat, winners: seq<WinnerProof>, recipients: seq<Pubkey>)
    requires s.vaultOpen ==> !s.lottery.settlementComplete
    requires forall k :: k in s.pages ==> s.pages[k].pageIndex == k
    requires s.lottery.winnersCount <= MAX_WINNERS
    ensures SettlePayoutBatch.Check(s, id, page, winners, recipients).Ok? && winners != [] && winners[0].index < s.lottery.winnersCount
       <==> && s.vaultOpen && s.lottery.id == id && winners != [] && winners[0].index < s.lottery.winnersCount
            && page == winners[0].index / WINNERS_PER_PAGE && page in s.pages && |recipients| >= |winners|
    ensures SettlePayoutBatch.Check(s, id, page, winners, recipients).Ok? ==>
              && page in s.pages && |recipients| >= |winners| > 0
              && SettlePayoutBatch.Check(s, id, page, winners, recipients)
                 == Ok(SettlePayoutBatch.Pay(s.pages[page], Share(s.lottery)))
  {
  }

  lemma PagesFiled(s: State)
    requires Inv(s)
    ensures s.vaultOpen ==> !s.lottery.settlementComplete
    ensures forall k :: k in s.pages ==> s.pages[k].pageIndex == k
    ensures s.lottery.winnersCount <= MAX_WINNERS
  {
    hide *;
    Parts(s);
    OpenUnsettled(s.lottery, s.rows, s.rents, s.bank, s.vaultOpen, s.donated, s.credited);
    FiledPages(s.h, s.lottery.id, s.MaxWinners(), s.root, s.rows, Pool(s.rows), s.pages);
    FewWinners(s.lottery, s.root, s.pages);
  }

  lemma OpenUnsettled(l: LotteryData, rows: seq<ParticipantData>, rents: Rents, bank: Bank, open: bool, donated: nat,
                      credited: map<nat, nat>)
    requires Banked(l, rows, rents, bank, open, donated, credited)
    ensures open ==> !l.settlementComplete
  {
  }

  lemma FiledPages(h: Hashes, id: nat, cap: nat, root: Option<LedgerData>, rows: seq<ParticipantData>, pool: seq<Entry>,
                   pages: map<nat, PageData>)
    requires Finalizing(h, id, cap, root, rows, pool, pages)
    ensures forall k :: k in pages ==> pages[k].pageIndex == k
  {
    hide LedgerOk, WinnerList;
  }

  lemma FewWinners(l: LotteryData, root: Option<LedgerData>, pages: map<nat, PageData>)
    requires Settling(l, root, pages)
    ensures l.winnersCount <= MAX_WINNERS
  {
    hide PaidSet, PagePaid, PayoutPlan;
  }

  lemma ApplyCases(s: State, id: nat, page: nat, winners: seq<WinnerProof>, recipients: seq<Pubkey>, p: PageData, amount: nat)
    requires SettlePayoutBatch.Check(s, id, page, winners, recipients) == Ok(SettlePayoutBatch.Pay(p, amount))
    requires |recipients| >= |winners|
    ensures var b := SettlePayoutBatch.SettleAll(SettlePayoutBatch.Batch(s.lottery, p, s.bank, s.credited), amount, winners, recipients);
            SettlePayoutBatch.Apply(s, id, page, winners, recipients).Ok? ==> b.Ok?
    ensures SettlePayoutBatch.Check(s, id, page, winners, recipients).Ok?
  {
    hide SettlePayoutBatch.Check, SettlePayoutBatch.SettleAll, SettlePayoutBatch.Sweep, LotteryData.AllWinnersPaid;
  }

  /** A batch succeeds once its loop does. */
  lemma LoopSuffices(s: State, id: nat, page: nat, winners: seq<WinnerProof>, recipients: seq<Pubkey>, p: PageData, amount: nat)
    requires Inv(s)
    requires SettlePayoutBatch.Check(s, id, page, winners, recipients) == Ok(SettlePayoutBatch.Pay(p, amount))
    requires |recipients| >= |winners|
    requires SettlePayoutBatch.SettleAll(SettlePayoutBatch.Batch(s.lottery, p, s.bank, s.credited), amount, winners, recipients).Ok?
    ensures SettlePayoutBatch.Apply(s, id, page, winners, recipients).Ok?
  {
    hide *;
    PayoutKeeps.CheckEffect(s, id, page, winners, recipients, p, amount);
    ApplyOutcome(s, id, page, winners, recipients, p, amount);
    var rest := StartFunded(s, page);
    var b0 := SettlePayoutBatch.Batch(s.lottery, p, s.bank, s.credited);
    var b := SettlePayoutBatch.SettleAll(b0, amount, winners, recipients).value;
    var l := b.lottery.IncrementBatch();
    SettleAllKeeps(b0, s.pages, page, amount, winners, recipients);
    FundedKept(b0, s.pages, page, amount, rest, b);
    BatchFields(b0, s.pages, page, amount, b);
    BatchMoney(b0, s.pages, page, amount, b);
    IncrementMoney(b.lottery);
    if l.AllWinnersPaid() {
      var fee := ServiceFee(s.lottery.totalFunds, s.lottery.bps).value;
      SweepFunded(b, l, amount, rest, fee, Remainder(s.lottery.totalFunds, s.lottery.totalPayout, fee));
      SweepOutcome(l, b.bank, s.config.authority);
    }
  }

  /** The vault is there, the batch names this lottery and one existing page, and it is good. */
  ghost predicate CanPay(s: State, id: nat, page: nat, winners: seq<WinnerProof>, recipients: seq<Pubkey>) {
    && s.vaultOpen && id == s.lottery.id && 0 < |winners| <= |recipients|
    && page == winners[0].index / WINNERS_PER_PAGE && page in s.pages
    && GoodBatch(s.lottery, s.pages[page], winners, recipients)
  }

  lemma CanPayMeans(s: State, id: nat, page: nat, winners: seq<WinnerProof>, recipients: seq<Pubkey>)
    ensures CanPay(s, id, page, winners, recipients) <==>
              && s.vaultOpen && id == s.lottery.id && winners != [] && |winners| <= |recipients|
              && page == winners[0].index / WINNERS_PER_PAGE && page in s.pages
              && GoodBatch(s.lottery, s.pages[page], winners, recipients)
    ensures CanPay(s, id, page, winners, recipients) ==> winners[0].index < s.lottery.winnersCount
  {
    hide Share, PaidSet;
  }

  lemma NoCheckNoBatch(s: State, id: nat, page: nat, winners: seq<WinnerProof>, recipients: seq<Pubkey>)
    requires SettlePayoutBatch.Check(s, id, page, winners, recipients).Err?
    ensures SettlePayoutBatch.Apply(s, id, page, winners, recipients).Err?
  {
    hide SettlePayoutBatch.Check, SettlePayoutBatch.SettleAll, SettlePayoutBatch.Sweep;
  }

  lemma CheckedPage(s: State, id: nat, page: nat, winners: seq<WinnerProof>, recipients: seq<Pubkey>)
    requires SettlePayoutBatch.Check(s, id, page, winners, recipients).Ok? && (s.vaultOpen ==> !s.lottery.settlementComplete)
    ensures s.vaultOpen && id == s.lottery.id && 0 < |winners| <= |recipients|
    ensures page == winners[0].index / WINNERS_PER_PAGE && page in s.pages && s.lottery.winnersCount > 0
  {
  }

  /**
   A batch succeeds exactly if the vault is there, it names this lottery and an existing page, every entry names a winner of
   that page with the recorded wallet and one share, and whoever is still unpaid gets the account of that wallet.
   */
  lemma PayoutIff(s: State, id: nat, page: nat, winners: seq<WinnerProof>, recipients: seq<Pubkey>)
    requires Inv(s)
    ensures Next(s, Payout(id, page, winners, recipients)).Ok? <==> CanPay(s, id, page, winners, recipients)
  {
    hide *;
    NextMeans(s, Payout(id, page, winners, recipients));
    PagesFiled(s);
    CanPayMeans(s, id, page, winners, recipients);
    CheckIff(s, id, page, winners, recipients);
    if SettlePayoutBatch.Check(s, id, page, winners, recipients).Ok? {
      CheckedPage(s, id, page, winners, recipients);
      var rest := StartFunded(s, page);
      var b0 := SettlePayoutBatch.Batch(s.lottery, s.pages[page], s.bank, s.credited);
      SettleAllIff(b0, s.pages, page, rest, winners, recipients);
      ApplyCases(s, id, page, winners, recipients, s.pages[page], Share(s.lottery));
      if SettlePayoutBatch.SettleAll(b0, Share(s.lottery), winners, recipients).Ok? {
        LoopSuffices(s, id, page, winners, recipients, s.pages[page], Share(s.lottery));
      }
    } else {
      NoCheckNoBatch(s, id, page, winners, recipients);
    }
  }

  // ----- what a batch changes -----

  lemma Swept(l: LotteryData, bank: Bank, authority: Pubkey)
    requires SettlePayoutBatch.Sweep(l, bank, authority).Ok?
    ensures SettlePayoutBatch.Sweep(l, bank, authority).value.0 == l.(settlementComplete := true, settled := true)
  {
    hide ServiceFee, Remainder, Transfer, LotteryData.AllWinnersPaid;
  }

  lemma Incremented(l: LotteryData)
    ensures l.IncrementBatch() == l.(batchesCompleted := if l.batchesCompleted < U32_MAX then l.batchesCompleted + 1
                                                         else U32_MAX)
  {
  }

  /** Exactly the named winners become paid, the batch is counted, and the lottery is over exactly when nobody is left. */
  ghost predicate PaidBatch(s: State, t: State, winners: seq<WinnerProof>) {
    var all := |Paid(s.lottery) + Indices(winners)| == s.lottery.winnersCount;
    && Paid(t.lottery) == Paid(s.lottery) + Indices(winners)
    && t.lottery.batchesCompleted == (if s.lottery.batchesCompleted < U32_MAX then s.lottery.batchesCompleted + 1 else U32_MAX)
    && t.vaultOpen == !all && t.lottery.settled == (s.lottery.settled || all)
    && t.lottery.settlementComplete == (s.lottery.settlementComplete || all)
  }

  lemma PaidBatchIntro(s: State, t: State, winners: seq<WinnerProof>, b: LotteryData, swept: bool)
    requires Paid(b) == Paid(s.lottery) + Indices(winners) && b == s.lottery.(paidBitmap := b.paidBitmap)
    requires swept <==> |Paid(b)| == b.winnersCount
    requires var l := b.IncrementBatch();
             t.lottery == if swept then l.(settlementComplete := true, settled := true) else l
    requires t.vaultOpen == !swept
    ensures PaidBatch(s, t, winners)
  {
    hide PaidSet, Indices;
    Incremented(b);
    assert Paid(t.lottery) == Paid(b);
  }

  lemma BatchBitmap(b0: Batch, pages: map<nat, PageData>, k: nat, amount: nat, b: Batch)
    requires BatchOk(b0, pages, k, amount, b)
    ensures b.lottery == b0.lottery.(paidBitmap := b.lottery.paidBitmap)
  {
    hide PaidSet, PagePaid;
  }

  lemma PayoutMarks(s: State, id: nat, page: nat, winners: seq<WinnerProof>, recipients: seq<Pubkey>)
    requires Inv(s) && Next(s, Payout(id, page, winners, recipients)).Ok?
    ensures PaidBatch(s, Next(s, Payout(id, page, winners, recipients)).value, winners)
  {
    hide *;
    NextMeans(s, Payout(id, page, winners, recipients));
    PagesFiled(s);
    PayoutKeeps.ApplyEffect(s, id, page, winners, recipients);
    CheckedPage(s, id, page, winners, recipients);
    CheckIff(s, id, page, winners, recipients);
    var rest := StartFunded(s, page);
    var b0 := SettlePayoutBatch.Batch(s.lottery, s.pages[page], s.bank, s.credited);
    SettleAllIff(b0, s.pages, page, rest, winners, recipients);
    SettleAllKeeps(b0, s.pages, page, Share(s.lottery), winners, recipients);
    var b := SettlePayoutBatch.SettleAll(b0, Share(s.lottery), winners, recipients).value;
    BatchFields(b0, s.pages, page, Share(s.lottery), b);
    BatchBitmap(b0, s.pages, page, Share(s.lottery), b);
    var l := b.lottery.IncrementBatch();
    IncrementFields(b.lottery);
    AllPaid(l);
    if l.AllWinnersPaid() {
      Swept(l, b.bank, s.config.authority);
    }
    PaidBatchIntro(s, Next(s, Payout(id, page, winners, recipients)).value, winners, b.lottery, l.AllWinnersPaid());
  }
}
