/** Payout: every well-formed batch succeeds, no batch can run short of funds, and each winner is credited exactly once. */
module PayoutTheorems {
  import opened Prelude
  import opened Digests
  import opened Sums
  import opened Participants
  import opened WinnerPages
  import opened FinalizationLedgers
  import opened Lotteries
  import opened Payouts
  import opened Banks
  import opened States
  import opened Invariants
  import opened PayoutKeeps
  import opened Runs
  import SettlePayoutBatch

  // ----- the vault's books -----

  lemma NoClaims(l: LotteryData, cap: nat, rows: seq<ParticipantData>)
    requires Counted(l, cap, rows) && !(l.settled && l.winnersCount == 0)
    ensures Sum(rows, ClaimedTickets()) == 0 && Sum(rows, ClaimedOne()) == 0
  {
    assert forall i :: 0 <= i < |rows| ==> RowOk(l, cap, rows[i]);
    SumZero(rows, ClaimedTickets());
    SumZero(rows, ClaimedOne());
  }

  /** The share of each winner, and what is left after all of them have been paid. */
  lemma ShareIsPlanned(l: LotteryData, root: Option<LedgerData>, pages: map<nat, PageData>, config: Config)
    requires Settling(l, root, pages) && Configured(config, l) && l.winnersCount > 0 && l.totalFunds <= U64_MAX
    ensures var fee := ServiceFee(l.totalFunds, l.bps);
            && fee.Ok? && Share(l) >= 1
            && fee.value + Share(l) * l.winnersCount + Remainder(l.totalFunds, l.totalPayout, fee.value) == l.totalFunds
            && Remainder(l.totalFunds, l.totalPayout, fee.value) < l.winnersCount
  {
    hide PaidSet, PagePaid;
    PlanIsExact(l.totalFunds, l.bps, l.winnersCount);
  }

  lemma ShareValue(l: LotteryData, root: Option<LedgerData>, pages: map<nat, PageData>, config: Config)
    requires Settling(l, root, pages) && Configured(config, l) && l.winnersCount > 0 && l.totalFunds <= U64_MAX
    ensures Share(l) == (l.totalFunds - l.totalFunds * l.bps / 10_000) / l.winnersCount
  {
    hide PaidSet, PagePaid, PayoutPlan;
    PlanShare(l.totalFunds, l.bps, l.winnersCount);
  }

  /** In every reachable state with winners the share is the pot less the service fee, divided by the number of winners. */
  lemma ShareFormula(s: State)
    requires Reachable(s) && s.lottery.winnersCount > 0
    ensures Share(s.lottery)
         == (s.lottery.totalFunds - s.lottery.totalFunds * s.lottery.bps / 10_000) / s.lottery.winnersCount
  {
    hide *;
    ReachableInv(s);
    Parts(s);
    FundsFit(s.lottery, s.MaxWinners(), s.rows);
    ShareValue(s.lottery, s.root, s.pages, s.config);
  }

  /** What the vault holds while winners are being paid. */
  lemma VaultWhilePaying(s: State)
    requires Inv(s) && s.lottery.winnersCount > 0 && s.vaultOpen
    ensures Balance(s.bank, Vault) + Share(s.lottery) * |Paid(s.lottery)| == s.rents.vault + s.donated + s.lottery.totalFunds
    ensures s.lottery.totalFunds <= U64_MAX && s.rents.vault > 0
  {
    hide *;
    Parts(s);
    NoClaims(s.lottery, s.MaxWinners(), s.rows);
    WinnerBooks(s.lottery, s.rows, s.rents, s.bank, s.donated, s.credited);
    FundsFit(s.lottery, s.MaxWinners(), s.rows);
  }

  lemma WinnerBooks(l: LotteryData, rows: seq<ParticipantData>, rents: Rents, bank: Bank, donated: nat, credited: map<nat, nat>)
    requires Banked(l, rows, rents, bank, true, donated, credited) && Sum(rows, ClaimedTickets()) == 0
    ensures Balance(bank, Vault) + Share(l) * |Paid(l)| == rents.vault + donated + l.totalFunds
    ensures rents.vault > 0
  {
  }

  lemma FundsFit(l: LotteryData, cap: nat, rows: seq<ParticipantData>)
    requires Counted(l, cap, rows)
    ensures l.totalFunds <= U64_MAX && l.totalFunds == l.price * Sum(rows, TicketsHeld())
  {
  }

  // ----- a batch never runs short -----

  /** The vault can pay everybody who is still unpaid, plus fee, remainder and rent. */
  ghost predicate Funded(b: Batch, amount: nat, rest: nat) {
    Balance(b.bank, Vault) + amount * |Paid(b.lottery)| == amount * b.lottery.winnersCount + rest
  }

  lemma SomebodyUnpaid(l: LotteryData, i: nat)
    requires i < l.winnersCount && !l.IsWinnerPaid(i)
    ensures |Paid(l)| + 1 <= l.winnersCount
  {
    PaidSetMeaning(l);
  }

  lemma AtLeastOnce(a: nat, b: nat)
    requires b >= 1
    ensures a * b >= a
  {
    Distribute(a, b - 1, 1);
  }

  lemma RoomForOne(balance: nat, amount: nat, paid: nat, winners: nat, rest: nat)
    requires balance + amount * paid == amount * winners + rest && paid + 1 <= winners
    ensures balance >= amount
  {
    Distribute(amount, paid, winners - paid);
    AtLeastOnce(amount, winners - paid);
  }

  lemma FundedPays(b: Batch, amount: nat, rest: nat, i: nat)
    requires Funded(b, amount, rest) && i < b.lottery.winnersCount && !b.lottery.IsWinnerPaid(i)
    ensures Balance(b.bank, Vault) >= amount
  {
    hide LotteryData.IsWinnerPaid, PaidSet;
    SomebodyUnpaid(b.lottery, i);
    RoomForOne(Balance(b.bank, Vault), amount, |Paid(b.lottery)|, b.lottery.winnersCount, rest);
  }

  lemma FundedKept(b0: Batch, pages: map<nat, PageData>, k: nat, amount: nat, rest: nat, b: Batch)
    requires BatchOk(b0, pages, k, amount, b) && Funded(b0, amount, rest)
    ensures Funded(b, amount, rest)
  {
    hide PaidSet, PagePaid;
  }

  /** In the middle of any batch the two paid bits of a winner agree. */
  lemma BitsAgree(b0: Batch, pages: map<nat, PageData>, k: nat, amount: nat, b: Batch, i: nat)
    requires BatchOk(b0, pages, k, amount, b) && i < b.lottery.winnersCount && i / WINNERS_PER_PAGE == k
    ensures i % WINNERS_PER_PAGE in b.page.paid <==> b.lottery.IsWinnerPaid(i)
  {
    PaidSetMeaning(b.lottery);
    assert PagePaid(pages[k := b.page], i) <==> i in Paid(b.lottery);
  }

  /** A proof that names a stored winner, its share and the right recipient account. */
  ghost predicate ProperProof(l: LotteryData, page: PageData, amount: nat, w: WinnerProof, recipient: Pubkey) {
    && w.index < l.winnersCount && w.index / WINNERS_PER_PAGE == page.pageIndex && w.amount == amount
    && page.Winner(w.index % WINNERS_PER_PAGE).Some?
    && page.Winner(w.index % WINNERS_PER_PAGE).value.wallet == w.recipient && recipient == w.recipient
  }

  lemma VerifyOutcome(l: LotteryData, page: PageData, amount: nat, w: WinnerProof)
    requires w.index < l.winnersCount && w.index / WINNERS_PER_PAGE == page.pageIndex ==>
               (w.index % WINNERS_PER_PAGE in page.paid <==> l.IsWinnerPaid(w.index))
    ensures var v := SettlePayoutBatch.Verify(l, page, amount, w);
            && (v.Err? ==> v.error == InvalidInstruction)
            && (v == Ok(true) ==> w.index < l.winnersCount && w.index / WINNERS_PER_PAGE == page.pageIndex
                                  && w.amount == amount && !l.IsWinnerPaid(w.index)
                                  && w.index % WINNERS_PER_PAGE < |page.winners| && w.index % WINNERS_PER_PAGE !in page.paid)
    ensures forall recipient :: ProperProof(l, page, amount, w, recipient) ==> SettlePayoutBatch.Verify(l, page, amount, w).Ok?
  {
  }

  lemma PayOneOutcome(b: Batch, w: WinnerProof, recipient: Pubkey)
    requires Balance(b.bank, Vault) >= w.amount && w.index < b.lottery.winnersCount
    requires w.index % WINNERS_PER_PAGE < |b.page.winners| && w.index % WINNERS_PER_PAGE !in b.page.paid
    ensures if recipient == w.recipient then SettlePayoutBatch.PayOne(b, w, recipient).Ok?
            else SettlePayoutBatch.PayOne(b, w, recipient) == Err(InvalidAccount)
  {
  }

  /** One turn of the loop: it can only fail over a wrong proof or a wrong recipient account. */
  lemma Settle1Outcome(b0: Batch, pages: map<nat, PageData>, k: nat, amount: nat, rest: nat, b: Batch, w: WinnerProof, recipient: Pubkey)
    requires BatchOk(b0, pages, k, amount, b) && b.page.pageIndex == k && Funded(b, amount, rest)
    ensures var r := SettlePayoutBatch.Settle1(b, amount, w, recipient);
            && (r.Err? ==> r.error == InvalidInstruction || r.error == InvalidAccount)
            && (ProperProof(b.lottery, b.page, amount, w, recipient) ==> r.Ok?)
  {
    hide BatchOk, Funded, SettlePayoutBatch.Verify, SettlePayoutBatch.PayOne, LotteryData.IsWinnerPaid, PaidSet;
    if w.index < b.lottery.winnersCount && w.index / WINNERS_PER_PAGE == k {
      BitsAgree(b0, pages, k, amount, b, w.index);
    }
    VerifyOutcome(b.lottery, b.page, amount, w);
    var due := SettlePayoutBatch.Verify(b.lottery, b.page, amount, w);
    if due == Ok(true) {
      FundedPays(b, amount, rest, w.index);
      PayOneOutcome(b, w, recipient);
    }
  }

  ghost predicate ProperBatch(l: LotteryData, page: PageData, amount: nat, winners: seq<WinnerProof>, recipients: seq<Pubkey>)
    requires |recipients| >= |winners|
  {
    forall j :: 0 <= j < |winners| ==> ProperProof(l, page, amount, winners[j], recipients[j])
  }

  lemma ProperFrame(l: LotteryData, page: PageData, amount: nat, w: WinnerProof, recipient: Pubkey, m: LotteryData, page': PageData)
    requires ProperProof(l, page, amount, w, recipient) && m.winnersCount == l.winnersCount && page' == page.(paid := page'.paid)
    ensures ProperProof(m, page', amount, w, recipient)
  {
  }

  lemma BatchFields(b0: Batch, pages: map<nat, PageData>, k: nat, amount: nat, b: Batch)
    requires BatchOk(b0, pages, k, amount, b)
    ensures b.page == b0.page.(paid := b.page.paid) && b.lottery.winnersCount == b0.lottery.winnersCount
    ensures Total(b.bank) <= U64_MAX
  {
    hide PaidSet, PagePaid;
  }

  lemma {:induction false} SettleAllOutcome(b0: Batch, pages: map<nat, PageData>, k: nat, amount: nat, rest: nat,
                                            winners: seq<WinnerProof>, recipients: seq<Pubkey>)
    requires BatchOk(b0, pages, k, amount, b0) && b0.page.pageIndex == k && Funded(b0, amount, rest) && |recipients| >= |winners|
    ensures var r := SettlePayoutBatch.SettleAll(b0, amount, winners, recipients);
            && (r.Err? ==> r.error == InvalidInstruction || r.error == InvalidAccount)
            && (ProperBatch(b0.lottery, b0.page, amount, winners, recipients) ==> r.Ok?)
  {
    hide BatchOk, Funded, SettlePayoutBatch.Settle1, ProperProof;
    if winners != [] {
      var n := |winners| - 1;
      SettleAllOutcome(b0, pages, k, amount, rest, winners[..n], recipients);
      var before := SettlePayoutBatch.SettleAll(b0, amount, winners[..n], recipients);
      if before.Ok? {
        SettleAllKeeps(b0, pages, k, amount, winners[..n], recipients);
        FundedKept(b0, pages, k, amount, rest, before.value);
        BatchFields(b0, pages, k, amount, before.value);
        Settle1Outcome(b0, pages, k, amount, rest, before.value, winners[n], recipients[n]);
        if ProperBatch(b0.lottery, b0.page, amount, winners, recipients) {
          ProperFrame(b0.lottery, b0.page, amount, winners[n], recipients[n], before.value.lottery, before.value.page);
        }
      }
    }
  }

  // ----- the instruction -----

  lemma CheckOutcome(s: State, id: nat, page: nat, winners: seq<WinnerProof>, recipients: seq<Pubkey>)
    ensures var r := SettlePayoutBatch.Check(s, id, page, winners, recipients);
            r.Err? ==> r.error in {InvalidAccountData, InvalidInstruction, MathOverflow, InvalidSeeds, MissingAccount}
    ensures s.vaultOpen && id == s.lottery.id && !s.lottery.settlementComplete && s.lottery.winnersCount > 0 && winners != []
            && winners[0].index / WINNERS_PER_PAGE == page <= U32_MAX && page in s.pages && s.pages[page].pageIndex == page
            && |recipients| >= |winners| ==>
              SettlePayoutBatch.Check(s, id, page, winners, recipients)
              == Ok(SettlePayoutBatch.Pay(s.pages[page], Share(s.lottery)))
  {
  }

  lemma SweepOutcome(l: LotteryData, bank: Bank, authority: Pubkey)
    requires Total(bank) <= U64_MAX && l.AllWinnersPaid() && ServiceFee(l.totalFunds, l.bps).Ok?
    requires Balance(bank, Vault) >= ServiceFee(l.totalFunds, l.bps).value
               + Remainder(l.totalFunds, l.totalPayout, ServiceFee(l.totalFunds, l.bps).value)
    ensures SettlePayoutBatch.Sweep(l, bank, authority).Ok?
  {
    var fee := ServiceFee(l.totalFunds, l.bps).value;
    TransferExact(bank, Vault, Wallet(authority), fee);
  }

  /** How Apply ends, given how its loop ends. */
  lemma ApplyOutcome(s: State, id: nat, page: nat, winners: seq<WinnerProof>, recipients: seq<Pubkey>, p: PageData, amount: nat)
    requires SettlePayoutBatch.Check(s, id, page, winners, recipients) == Ok(SettlePayoutBatch.Pay(p, amount))
    ensures |recipients| >= |winners|
    ensures var b := SettlePayoutBatch.SettleAll(SettlePayoutBatch.Batch(s.lottery, p, s.bank, s.credited), amount, winners, recipients);
            var r := SettlePayoutBatch.Apply(s, id, page, winners, recipients);
            match b
            case Err(e) => r == Err(e)
            case Ok(batch) =>
              var l := batch.lottery.IncrementBatch();
              if l.AllWinnersPaid() && SettlePayoutBatch.Sweep(l, batch.bank, s.config.authority).Err?
              then r.Err? else r.Ok?
  {
    hide SettlePayoutBatch.SettleAll, SettlePayoutBatch.Sweep, LotteryData.AllWinnersPaid;
    assert |recipients| >= |winners| by {
      PayoutKeeps.CheckEffect(s, id, page, winners, recipients, p, amount);
    }
  }

  /** The books at the start of a batch: everybody unpaid is covered, and fee, remainder, rent and donations come on top. */
  lemma StartFunded(s: State, page: nat) returns (rest: nat)
    requires Inv(s) && s.lottery.winnersCount > 0 && s.vaultOpen && page in s.pages
    ensures var b := SettlePayoutBatch.Batch(s.lottery, s.pages[page], s.bank, s.credited);
            && BatchOk(b, s.pages, page, Share(s.lottery), b) && Funded(b, Share(s.lottery), rest)
    ensures ServiceFee(s.lottery.totalFunds, s.lottery.bps).Ok?
    ensures var fee := ServiceFee(s.lottery.totalFunds, s.lottery.bps).value;
            rest == s.rents.vault + s.donated + fee + Remainder(s.lottery.totalFunds, s.lottery.totalPayout, fee)
  {
    hide *;
    Parts(s);
    BooksFit(s.lottery, s.rows, s.rents, s.bank, s.vaultOpen, s.donated, s.credited);
    BatchStarts(s, page, Share(s.lottery));
    VaultWhilePaying(s);
    ShareIsPlanned(s.lottery, s.root, s.pages, s.config);
    var fee := ServiceFee(s.lottery.totalFunds, s.lottery.bps).value;
    rest := s.rents.vault + s.donated + fee + Remainder(s.lottery.totalFunds, s.lottery.totalPayout, fee);
    FundedIntro(SettlePayoutBatch.Batch(s.lottery, s.pages[page], s.bank, s.credited), Share(s.lottery), rest);
  }

  lemma FundedIntro(b: Batch, amount: nat, rest: nat)
    requires Balance(b.bank, Vault) + amount * |Paid(b.lottery)| == amount * b.lottery.winnersCount + rest
    ensures Funded(b, amount, rest)
  {
  }

  lemma SweepFunded(b: Batch, l: LotteryData, amount: nat, rest: nat, fee: nat, remainder: nat)
    requires Funded(b, amount, rest) && l == b.lottery.IncrementBatch() && l.AllWinnersPaid() && rest >= fee + remainder
    ensures Balance(b.bank, Vault) >= fee + remainder
    ensures Balance(b.bank, Vault) == rest
  {
    IncrementFields(b.lottery);
    AllPaid(l);
    hide PaidSet, LotteryData.AllWinnersPaid;
  }

  lemma IncrementMoney(l: LotteryData)
    ensures var m := l.IncrementBatch();
            m.totalFunds == l.totalFunds && m.totalPayout == l.totalPayout && m.bps == l.bps && m.winnersCount == l.winnersCount
  {
  }

  lemma BatchMoney(b0: Batch, pages: map<nat, PageData>, k: nat, amount: nat, b: Batch)
    requires BatchOk(b0, pages, k, amount, b)
    ensures b.lottery.totalFunds == b0.lottery.totalFunds && b.lottery.totalPayout == b0.lottery.totalPayout
    ensures b.lottery.bps == b0.lottery.bps
  {
    hide PaidSet, PagePaid;
  }

  /**
   In every reachable state: past the guards a batch can only be refused over a wrong proof or a wrong recipient
   account, never for lack of funds, a failed sweep or disagreeing bitmaps; and a batch of proper proofs succeeds.
   */
  lemma BatchOutcome(s: State, id: nat, page: nat, winners: seq<WinnerProof>, recipients: seq<Pubkey>, p: PageData, amount: nat)
    requires Inv(s)
    requires SettlePayoutBatch.Check(s, id, page, winners, recipients) == Ok(SettlePayoutBatch.Pay(p, amount))
    ensures |recipients| >= |winners|
    ensures var r := SettlePayoutBatch.Apply(s, id, page, winners, recipients);
            && (r.Err? ==> r.error == InvalidInstruction || r.error == InvalidAccount)
            && (ProperBatch(s.lottery, p, amount, winners, recipients) ==> r.Ok?)
  {
    hide *;
    PayoutKeeps.CheckEffect(s, id, page, winners, recipients, p, amount);
    ApplyOutcome(s, id, page, winners, recipients, p, amount);
    var rest := StartFunded(s, page);
    var b0 := SettlePayoutBatch.Batch(s.lottery, p, s.bank, s.credited);
    SettleAllOutcome(b0, s.pages, page, amount, rest, winners, recipients);
    var settled := SettlePayoutBatch.SettleAll(b0, amount, winners, recipients);
    if settled.Ok? {
      var b := settled.value;
      var l := b.lottery.IncrementBatch();
      SettleAllKeeps(b0, s.pages, page, amount, winners, recipients);
      FundedKept(b0, s.pages, page, amount, rest, b);
      BatchFields(b0, s.pages, page, amount, b);
      BatchMoney(b0, s.pages, page, amount, b);
      IncrementMoney(b.lottery);
      if l.AllWinnersPaid() {
        var fee := ServiceFee(s.lottery.totalFunds, s.lottery.bps).value;
        SweepFunded(b, l, amount, rest, fee, Remainder(s.lottery.totalFunds, s.lottery.totalPayout, fee));
        SweepOutcome(l, b.bank, s.config.authority);
      }
    }
  }

  // ----- who gets what -----

  /** The winner indices paid since b0 whose recorded wallet is x. */
  ghost function PaidTo(b0: Batch, paid: set<nat>, x: Pubkey): set<nat> {
    set i | i in paid && i !in Paid(b0.lottery)
            && i % WINNERS_PER_PAGE < |b0.page.winners| && b0.page.winners[i % WINNERS_PER_PAGE].wallet == x
  }

  /** Wallet x has gained one share for each of its newly paid winner indices. */
  ghost predicate WalletPaid(b0: Batch, amount: nat, b: Batch, x: Pubkey) {
    && Paid(b0.lottery) <= Paid(b.lottery)
    && Balance(b.bank, Wallet(x)) == Balance(b0.bank, Wallet(x)) + amount * |PaidTo(b0, Paid(b.lottery), x)|
  }

  lemma PaidToGrows(b0: Batch, paid: set<nat>, i: nat, x: Pubkey)
    requires Paid(b0.lottery) <= paid && i !in paid
    requires i % WINNERS_PER_PAGE < |b0.page.winners|
    ensures |PaidTo(b0, paid + {i}, x)|
         == |PaidTo(b0, paid, x)| + (if b0.page.winners[i % WINNERS_PER_PAGE].wallet == x then 1 else 0)
  {
    hide PaidSet;
    assert PaidTo(b0, paid + {i}, x)
        == PaidTo(b0, paid, x) + if b0.page.winners[i % WINNERS_PER_PAGE].wallet == x then {i} else {};
  }

  lemma TransferWallets(b: Batch, w: WinnerProof, recipient: Pubkey, x: Pubkey)
    requires Total(b.bank) <= U64_MAX && SettlePayoutBatch.PayOne(b, w, recipient).Ok?
    ensures var c := SettlePayoutBatch.PayOne(b, w, recipient).value;
            Balance(c.bank, Wallet(x)) == Balance(b.bank, Wallet(x)) + (if x == recipient then w.amount else 0)
  {
    hide SettlePayoutBatch.PayOne, Transfer;
    PayOneEffect(b, w, recipient);
    if w.amount > 0 {
      TransferExact(b.bank, Vault, Wallet(recipient), w.amount);
    }
  }

  /** One more share on one side, one more index on the other. */
  lemma OneMoreShare(before: nat, now: nat, next: nat, amount: nat, held: nat, grown: nat, mine: bool)
    requires now == before + amount * held && grown == held + (if mine then 1 else 0)
    requires next == now + if mine then amount else 0
    ensures next == before + amount * grown
  {
    Distribute(amount, held, 1);
  }

  lemma WalletPaidMeans(b0: Batch, amount: nat, b: Batch, x: Pubkey)
    ensures WalletPaid(b0, amount, b, x) <==>
              && Paid(b0.lottery) <= Paid(b.lottery)
              && Balance(b.bank, Wallet(x)) == Balance(b0.bank, Wallet(x)) + amount * |PaidTo(b0, Paid(b.lottery), x)|
  {
    hide PaidTo, PaidSet;
  }

  /** The index about to be paid belongs to the wallet the proof names. */
  lemma PaidOwner(b0: Batch, pages: map<nat, PageData>, k: nat, amount: nat, b: Batch, w: WinnerProof)
    requires BatchOk(b0, pages, k, amount, b)
    requires SettlePayoutBatch.Verify(b.lottery, b.page, amount, w) == Ok(true)
    ensures w.amount == amount && !b.lottery.IsWinnerPaid(w.index)
    ensures w.index % WINNERS_PER_PAGE < |b0.page.winners|
    ensures b0.page.winners[w.index % WINNERS_PER_PAGE].wallet == w.recipient
  {
    hide BatchOk, SettlePayoutBatch.Verify, LotteryData.IsWinnerPaid;
    BatchFields(b0, pages, k, amount, b);
    VerifyEffect(b.lottery, b.page, amount, w);
  }

  /** Paying one more index of a wallet adds one to that wallet's count only. */
  lemma PaidToNext(b0: Batch, pages: map<nat, PageData>, k: nat, amount: nat, b: Batch, w: WinnerProof, x: Pubkey)
    requires BatchOk(b0, pages, k, amount, b) && Paid(b0.lottery) <= Paid(b.lottery) && w.index !in Paid(b.lottery)
    requires SettlePayoutBatch.Verify(b.lottery, b.page, amount, w) == Ok(true)
    ensures |PaidTo(b0, Paid(b.lottery) + {w.index}, x)|
         == |PaidTo(b0, Paid(b.lottery), x)| + (if x == w.recipient then 1 else 0)
  {
    hide BatchOk, SettlePayoutBatch.Verify, PaidTo, PaidSet, LotteryData.IsWinnerPaid;
    PaidOwner(b0, pages, k, amount, b, w);
    PaidToGrows(b0, Paid(b.lottery), w.index, x);
  }

  lemma PayOneWallet(b0: Batch, pages: map<nat, PageData>, k: nat, amount: nat, b: Batch, w: WinnerProof, recipient: Pubkey, x: Pubkey)
    requires BatchOk(b0, pages, k, amount, b) && WalletPaid(b0, amount, b, x)
    requires SettlePayoutBatch.Verify(b.lottery, b.page, amount, w) == Ok(true) && SettlePayoutBatch.PayOne(b, w, recipient).Ok?
    ensures WalletPaid(b0, amount, SettlePayoutBatch.PayOne(b, w, recipient).value, x)
  {
    hide *;
    var c := SettlePayoutBatch.PayOne(b, w, recipient).value;
    WalletPaidMeans(b0, amount, b, x);
    WalletPaidMeans(b0, amount, c, x);
    BatchFields(b0, pages, k, amount, b);
    CreditedPaid(b0, pages, k, amount, b);
    PaidOwner(b0, pages, k, amount, b, w);
    PaidIndex(b, w, recipient);
    TransferWallets(b, w, recipient, x);
    PaidToNext(b0, pages, k, amount, b, w, x);
    OneMoreShare(Balance(b0.bank, Wallet(x)), Balance(b.bank, Wallet(x)), Balance(c.bank, Wallet(x)), amount,
                 |PaidTo(b0, Paid(b.lottery), x)|, |PaidTo(b0, Paid(c.lottery), x)|, x == recipient);
  }

  lemma PaidIndex(b: Batch, w: WinnerProof, recipient: Pubkey)
    requires Total(b.bank) <= U64_MAX && SettlePayoutBatch.PayOne(b, w, recipient).Ok?
    requires b.credited.Keys == Paid(b.lottery) && !b.lottery.IsWinnerPaid(w.index)
    ensures recipient == w.recipient && w.index !in Paid(b.lottery)
    ensures Paid(SettlePayoutBatch.PayOne(b, w, recipient).value.lottery) == Paid(b.lottery) + {w.index}
  {
    hide *;
    PayOneEffect(b, w, recipient);
    PaidMoves(b, w, recipient);
  }

  lemma CreditedPaid(b0: Batch, pages: map<nat, PageData>, k: nat, amount: nat, b: Batch)
    requires BatchOk(b0, pages, k, amount, b)
    ensures b.credited.Keys == Paid(b.lottery)
  {
    hide PaidSet, PagePaid;
  }

  lemma {:induction false} SettleAllWallet(b0: Batch, pages: map<nat, PageData>, k: nat, amount: nat,
                                           winners: seq<WinnerProof>, recipients: seq<Pubkey>, x: Pubkey)
    requires BatchOk(b0, pages, k, amount, b0) && b0.page.pageIndex == k && |recipients| >= |winners|
    requires SettlePayoutBatch.SettleAll(b0, amount, winners, recipients).Ok?
    ensures WalletPaid(b0, amount, SettlePayoutBatch.SettleAll(b0, amount, winners, recipients).value, x)
  {
    hide BatchOk, WalletPaid, SettlePayoutBatch.Verify, SettlePayoutBatch.PayOne;
    if winners == [] {
      NobodyPaidYet(b0, amount, x);
    } else {
      var n := |winners| - 1;
      SettleAllWallet(b0, pages, k, amount, winners[..n], recipients, x);
      SettleAllKeeps(b0, pages, k, amount, winners[..n], recipients);
      var b := SettlePayoutBatch.SettleAll(b0, amount, winners[..n], recipients).value;
      if SettlePayoutBatch.Verify(b.lottery, b.page, amount, winners[n]) == Ok(true) {
        PayOneWallet(b0, pages, k, amount, b, winners[n], recipients[n], x);
      }
    }
  }

  lemma NobodyPaidYet(b0: Batch, amount: nat, x: Pubkey)
    ensures WalletPaid(b0, amount, b0, x)
  {
    hide PaidSet;
    assert PaidTo(b0, Paid(b0.lottery), x) == {};
  }

  lemma SweepWallets(l: LotteryData, bank: Bank, authority: Pubkey, x: Pubkey)
    requires Total(bank) <= U64_MAX && SettlePayoutBatch.Sweep(l, bank, authority).Ok?
    ensures var b := SettlePayoutBatch.Sweep(l, bank, authority).value.1;
            Balance(b, Wallet(x)) == Balance(bank, Wallet(x)) + (if x == authority then Balance(bank, Vault) else 0)
  {
    var fee := ServiceFee(l.totalFunds, l.bps).value;
    var rest := Remainder(l.totalFunds, l.totalPayout, fee);
    var b1 := Transfer(bank, Vault, Wallet(authority), fee);
    var b2 := Transfer(b1, Vault, Wallet(authority), rest);
    hide ServiceFee, Remainder, Transfer, LotteryData.AllWinnersPaid;
    TransferExact(bank, Vault, Wallet(authority), fee);
    TransferExact(b1, Vault, Wallet(authority), rest);
    TransferExact(b2, Vault, Wallet(authority), Balance(b2, Vault));
  }

  /**
   A successful batch pays every wallet one share per newly paid winner index recorded for it. When the last winner
   has been paid the authority also gets fee, rounding remainder, rent and donations, and the vault is empty.
   */
  lemma BatchPaysWinners(s: State, id: nat, page: nat, winners: seq<WinnerProof>, recipients: seq<Pubkey>, x: Pubkey)
    requires Reachable(s) && !s.lottery.settlementComplete
    requires SettlePayoutBatch.Apply(s, id, page, winners, recipients).Ok?
    ensures var t := SettlePayoutBatch.Apply(s, id, page, winners, recipients).value;
            var fee := ServiceFee(s.lottery.totalFunds, s.lottery.bps);
            && page in s.pages && fee.Ok?
            && var b0 := SettlePayoutBatch.Batch(s.lottery, s.pages[page], s.bank, s.credited);
            && Balance(t.bank, Wallet(x)) == Balance(s.bank, Wallet(x)) + Share(s.lottery) * |PaidTo(b0, Paid(t.lottery), x)|
               + (if !t.vaultOpen && x == s.config.authority
                  then s.rents.vault + s.donated + fee.value + Remainder(s.lottery.totalFunds, s.lottery.totalPayout, fee.value)
                  else 0)
            && (!t.vaultOpen ==> Balance(t.bank, Vault) == 0)
  {
    hide *;
    ReachableInv(s);
    PayoutKeeps.ApplyEffect(s, id, page, winners, recipients);
    NotAlready(s, id, page, winners, recipients);
    var start := SettlePayoutBatch.Check(s, id, page, winners, recipients).value;
    var p, amount := start.page, start.amount;
    PayoutKeeps.CheckEffect(s, id, page, winners, recipients, p, amount);
    var rest := StartFunded(s, page);
    var b0 := SettlePayoutBatch.Batch(s.lottery, p, s.bank, s.credited);
    var b := SettlePayoutBatch.SettleAll(b0, amount, winners, recipients).value;
    var l := b.lottery.IncrementBatch();
    SettleAllWallet(b0, s.pages, page, amount, winners, recipients, x);
    SettleAllKeeps(b0, s.pages, page, amount, winners, recipients);
    FundedKept(b0, s.pages, page, amount, rest, b);
    BatchFields(b0, s.pages, page, amount, b);
    IncrementFields(b.lottery);
    WalletPaidAt(b0, amount, b, x);
    if l.AllWinnersPaid() {
      var fee := ServiceFee(s.lottery.totalFunds, s.lottery.bps).value;
      SweepFunded(b, l, amount, rest, fee, Remainder(s.lottery.totalFunds, s.lottery.totalPayout, fee));
      SweepWallets(l, b.bank, s.config.authority, x);
      SweepEffect(l, b.bank, s.config.authority);
      SameBits(l, SettlePayoutBatch.Sweep(l, b.bank, s.config.authority).value.0);
    }
  }

  lemma SameBits(l: LotteryData, m: LotteryData)
    requires m.paidBitmap == l.paidBitmap && m.winnersCount == l.winnersCount
    ensures Paid(m) == Paid(l)
  {
  }

  lemma WalletPaidAt(b0: Batch, amount: nat, b: Batch, x: Pubkey)
    requires WalletPaid(b0, amount, b, x)
    ensures Balance(b.bank, Wallet(x)) == Balance(b0.bank, Wallet(x)) + amount * |PaidTo(b0, Paid(b.lottery), x)|
  {
  }

  lemma NotAlready(s: State, id: nat, page: nat, winners: seq<WinnerProof>, recipients: seq<Pubkey>)
    requires SettlePayoutBatch.Check(s, id, page, winners, recipients).Ok? && !s.lottery.settlementComplete
    ensures SettlePayoutBatch.Check(s, id, page, winners, recipients).value.Pay?
  {
  }
}
