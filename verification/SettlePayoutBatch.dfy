/** The SettlePayoutBatch instruction: pays winners from the vault and sweeps it once everybody is paid. */
module SettlePayoutBatch {
  import opened Prelude
  import opened Digests
  import opened WinnerPages
  import opened Lotteries
  import opened Payouts
  import opened Banks
  import opened States

  datatype WinnerProof = WinnerProof(index: nat, recipient: Pubkey, amount: nat)

  /** What the loop over winners carries. */
  datatype Batch = Batch(lottery: LotteryData, page: PageData, bank: Bank, credited: map<nat, nat>)

  datatype Start = AlreadyComplete | Pay(page: PageData, amount: nat)

  /** The guards: finds the page account and the amount every winner is due. */
  function Check(s: State, lotteryId: nat, page: nat, winners: seq<WinnerProof>, recipients: seq<Pubkey>): Result<Start> {
    var l := s.lottery;
    :- Require(s.vaultOpen, InvalidAccountData);
    :- Require(l.id == lotteryId, InvalidInstruction);
    if l.settlementComplete then Ok(AlreadyComplete)
    else
      :- Require(l.winnersCount != 0, InvalidInstruction);
      :- Require(winners != [], InvalidInstruction);
      :- Require(winners[0].index / WINNERS_PER_PAGE <= U32_MAX, MathOverflow);
      :- Require(page == winners[0].index / WINNERS_PER_PAGE, InvalidSeeds);
      :- Require(page in s.pages && s.pages[page].pageIndex == page, InvalidAccountData);
      :- Require(|recipients| >= |winners|, MissingAccount);
      Ok(Pay(s.pages[page], l.totalPayout / l.winnersCount))
  }

  /** Checks one proof against the page; tells whether the winner still has to be paid. */
  function Verify(l: LotteryData, page: PageData, amount: nat, w: WinnerProof): Result<bool> {
    var offset := w.index % WINNERS_PER_PAGE;
    :- Require(w.index < l.winnersCount, InvalidInstruction);
    :- Require(w.index / WINNERS_PER_PAGE == page.pageIndex && w.amount == amount, InvalidInstruction);
    :- Require(page.Winner(offset).Some?, InvalidInstruction);
    :- Require(page.Winner(offset).value.wallet == w.recipient, InvalidInstruction);
    var pagePaid, lotteryPaid := page.IsPaid(offset), l.IsWinnerPaid(w.index);
    if pagePaid && lotteryPaid then Ok(false)
    else if pagePaid || lotteryPaid then Err(InvalidAccountData)
    else Ok(true)
  }

  /** Moves one share out of the vault and sets both paid bits. */
  function PayOne(b: Batch, w: WinnerProof, recipient: Pubkey): Result<Batch> {
    var due := w.amount;
    :- Require(recipient == w.recipient, InvalidAccount);
    :- Require(due == 0 || Balance(b.bank, Vault) >= due, InsufficientFunds);
    var bank := if due > 0 then Transfer(b.bank, Vault, Wallet(recipient), due) else b.bank;
    var page :- b.page.MarkPaid(w.index % WINNERS_PER_PAGE);
    var l :- b.lottery.MarkWinnerPaid(w.index);
    var before := if w.index in b.credited then b.credited[w.index] else 0;
    Ok(Batch(l, page, bank, b.credited[w.index := before + due]))
  }

  function Settle1(b: Batch, amount: nat, w: WinnerProof, recipient: Pubkey): Result<Batch> {
    var due :- Verify(b.lottery, b.page, amount, w);
    if due then PayOne(b, w, recipient) else Ok(b)
  }

  function SettleAll(b: Batch, amount: nat, winners: seq<WinnerProof>, recipients: seq<Pubkey>): Result<Batch>
    requires |recipients| >= |winners|
  {
    if winners == [] then Ok(b)
    else
      var k := |winners| - 1;
      var before :- SettleAll(b, amount, winners[..k], recipients);
      Settle1(before, amount, winners[k], recipients[k])
  }

  /** Fee, rounding remainder and rent go to the authority; the vault ends empty and closed. */
  function Sweep(l: LotteryData, bank: Bank, authority: Pubkey): Result<(LotteryData, Bank)> {
    var fee :- ServiceFee(l.totalFunds, l.bps);
    var rest := Remainder(l.totalFunds, l.totalPayout, fee);
    :- Require(Balance(bank, Vault) >= fee, InsufficientFunds);
    var b1 := Transfer(bank, Vault, Wallet(authority), fee);
    :- Require(Balance(b1, Vault) >= rest, InsufficientFunds);
    var b2 := Transfer(b1, Vault, Wallet(authority), rest);
    var b3 := Transfer(b2, Vault, Wallet(authority), Balance(b2, Vault));
    var l1 :- l.CompleteSettlement();
    Ok((l1, b3))
  }

  function Apply(s: State, lotteryId: nat, page: nat, winners: seq<WinnerProof>, recipients: seq<Pubkey>): Result<State> {
    var start :- Check(s, lotteryId, page, winners, recipients);
    match start
    case AlreadyComplete => Ok(s)
    case Pay(p, amount) =>
      var b :- SettleAll(Batch(s.lottery, p, s.bank, s.credited), amount, winners, recipients);
      var l := b.lottery.IncrementBatch();
      var t := s.(pages := s.pages[page := b.page], credited := b.credited);
      if l.AllWinnersPaid() then
        var (l1, bank) :- Sweep(l, b.bank, s.config.authority);
        Ok(t.(lottery := l1, bank := bank, vaultOpen := false, donated := 0))
      else Ok(t.(lottery := l, bank := b.bank))
  }

  lemma {:induction false} SettleAllFails(b: Batch, amount: nat, winners: seq<WinnerProof>, recipients: seq<Pubkey>, k: nat)
    requires |recipients| >= |winners| && k <= |winners|
    requires SettleAll(b, amount, winners[..k], recipients).Err?
    ensures SettleAll(b, amount, winners, recipients) == SettleAll(b, amount, winners[..k], recipients)
  {
    if k == |winners| {
      assert winners[..k] == winners;
    } else {
      assert winners[..|winners| - 1][..k] == winners[..k];
      SettleAllFails(b, amount, winners[..|winners| - 1], recipients, k);
    }
  }

  // ----- the instruction, step by step -----

  method CheckStart(a: Accounts, lotteryId: nat, page: nat, winners: seq<WinnerProof>, recipients: seq<Pubkey>)
    returns (r: Result<nat>, complete: bool)
    requires a.Valid()
    ensures match Check(a.Snapshot(), lotteryId, page, winners, recipients)
            case Ok(AlreadyComplete) => r.Ok? && complete
            case Ok(Pay(p, amount)) => && r == Ok(amount) && !complete && a.vaultOpen && |recipients| >= |winners|
                                       && page in a.pageFiles && PageOf(a.pageFiles[page]) == p
            case Err(e) => r == Err(e)
  {
    hide ReadHeader, EncodeHeader, Decode, PaidBit;
    complete := false;
    if page in a.pageFiles {
      PageIdentity(a.pageFiles[page]);
    }
    if !a.vaultOpen {
      r := Err(InvalidAccountData);
    } else if a.lottery.id != lotteryId {
      r := Err(InvalidInstruction);
    } else if a.lottery.settlementComplete {
      r, complete := Ok(0), true;
    } else if a.lottery.winnersCount == 0 || |winners| == 0 {
      r := Err(InvalidInstruction);
    } else if winners[0].index / WINNERS_PER_PAGE > U32_MAX {
      r := Err(MathOverflow);
    } else if page != winners[0].index / WINNERS_PER_PAGE {
      r := Err(InvalidSeeds);
    } else if page !in a.pageFiles || ReadHeader(a.pageFiles[page]).lottery != a.address
              || ReadHeader(a.pageFiles[page]).pageIndex != page {
      r := Err(InvalidAccountData);
    } else if |recipients| < |winners| {
      r := Err(MissingAccount);
    } else {
      r := Ok(a.lottery.totalPayout / a.lottery.winnersCount);
    }
  }

  method VerifyProof(lottery: Lottery, page: WinnerPage, bytes: array<bv8>, amount: nat, w: WinnerProof) returns (r: Result<bool>)
    requires page.Valid(bytes)
    ensures r == Verify(lottery.Data(), page.Data(bytes), amount, w)
  {
    if w.index >= lottery.winnersCount {
      return Err(InvalidInstruction);
    }
    if w.index / WINNERS_PER_PAGE != page.pageIndex || w.amount != amount {
      return Err(InvalidInstruction);
    }
    var offset := w.index % WINNERS_PER_PAGE;
    var stored := page.Winner(bytes, offset);
    if stored.None? {
      return Err(InvalidInstruction);
    }
    if stored.value.wallet != w.recipient {
      return Err(InvalidInstruction);
    }
    var pagePaid, lotteryPaid := page.IsPaid(bytes, offset), lottery.IsWinnerPaid(w.index);
    if pagePaid || lotteryPaid {
      return if pagePaid && lotteryPaid then Ok(false) else Err(InvalidAccountData);
    }
    return Ok(true);
  }

  /** Marks an offset of a stored page as paid: one payment in the history of that page. */
  method MarkStored(page: WinnerPage, bytes: array<bv8>, ghost site: PageSite, offset: nat) returns (r: Result<()>)
    requires page.Valid(bytes) && page.Header() == ReadHeader(bytes[..]) && offset < WINNERS_PER_PAGE
    requires page.lottery == site.lottery && page.pageIndex == site.index
    modifies bytes
    ensures page.Valid(bytes) && bytes[..HEADER_SIZE] == old(bytes[..HEADER_SIZE])
    ensures r.Ok? ==> PayIn(old(bytes[..]), site, offset) == Ok(bytes[..])
    ensures match old(page.Data(bytes)).MarkPaid(offset)
            case Ok(d) => r.Ok? && page.Data(bytes) == d
            case Err(e) => r == Err(e)
  {
    hide ReadHeader, EntryAt, PaidBit, WithBit;
    r := page.MarkPaid(bytes, offset);
  }

  /** Pays one winner: lamports first, then the page bit, then the lottery bit. */
  method PayWinner(lottery: Lottery, page: WinnerPage, bytes: array<bv8>, bank: Bank, ghost credited: map<nat, nat>,
                   ghost site: PageSite, w: WinnerProof, recipient: Pubkey)
    returns (r: Result<Bank>, ghost credited': map<nat, nat>)
    requires page.lottery == site.lottery && page.pageIndex == site.index
    requires page.Valid(bytes) && page.Header() == ReadHeader(bytes[..])
    modifies lottery, bytes
    ensures page.Valid(bytes) && bytes[..HEADER_SIZE] == old(bytes[..HEADER_SIZE])
    ensures r.Ok? ==> PayIn(old(bytes[..]), site, w.index % WINNERS_PER_PAGE) == Ok(bytes[..])
    ensures match PayOne(Batch(old(lottery.Data()), old(page.Data(bytes)), bank, credited), w, recipient)
            case Ok(b) => r == Ok(b.bank) && lottery.Data() == b.lottery && page.Data(bytes) == b.page && credited' == b.credited
            case Err(e) => r == Err(e)
  {
    hide ReadHeader, EntryAt, PaidBit, WellFormed, PayIn, Transfer;
    credited' := credited;
    if recipient != w.recipient {
      return Err(InvalidAccount), credited';
    }
    var paid := bank;
    if w.amount > 0 {
      if Balance(bank, Vault) < w.amount {
        return Err(InsufficientFunds), credited';
      }
      paid := Transfer(bank, Vault, Wallet(recipient), w.amount);
    }
    var marked := MarkStored(page, bytes, site, w.index % WINNERS_PER_PAGE);
    if marked.Err? {
      return Err(marked.error), credited';
    }
    var recorded := lottery.MarkWinnerPaid(w.index);
    if recorded.Err? {
      return Err(recorded.error), credited';
    }
    credited' := credited[w.index := (if w.index in credited then credited[w.index] else 0) + w.amount];
    r := Ok(paid);
  }

  /** The payout loop; any refusal abandons the whole batch. */
  method SettleBatch(start: LotteryData, file: seq<bv8>, ghost site: PageSite, bank: Bank, ghost credited: map<nat, nat>,
                     amount: nat, winners: seq<WinnerProof>, recipients: seq<Pubkey>)
    returns (r: Result<Bank>, l: LotteryData, f: seq<bv8>, ghost credited': map<nat, nat>)
    requires ValidFile(file, site.discriminator, site.lottery) && |recipients| >= |winners|
    requires ReadHeader(file).pageIndex == site.index
    ensures match SettleAll(Batch(start, PageOf(file), bank, credited), amount, winners, recipients)
            case Ok(b) => && r == Ok(b.bank) && l == b.lottery
                          && ValidFile(f, site.discriminator, site.lottery) && PageOf(f) == b.page
            case Err(e) => r == Err(e)
    ensures r.Ok? ==> credited' == SettleAll(Batch(start, PageOf(file), bank, credited), amount, winners, recipients).value.credited
  {
    hide Verify, PayOne, ReadHeader, EncodeHeader, EntryAt, PaidBit, WithBit;
    l, f, credited' := start, file, credited;
    var lottery := new Lottery.Read(start);
    var bytes := new bv8[|file|](k requires 0 <= k < |file| => file[k]);
    assert bytes[..] == file;
    var page := new WinnerPage.Read(bytes);
    var current := bank;
    ghost var b0 := Batch(start, PageOf(file), bank, credited);
    for k := 0 to |winners|
      invariant fresh(lottery) && fresh(bytes) && page.Valid(bytes)
      invariant page.Header() == ReadHeader(file) && bytes[..HEADER_SIZE] == file[..HEADER_SIZE]
      invariant SettleAll(b0, amount, winners[..k], recipients)
             == Ok(Batch(lottery.Data(), page.Data(bytes), current, credited'))
    {
      assert winners[..k + 1][..k] == winners[..k];
      var due := VerifyProof(lottery, page, bytes, amount, winners[k]);
      if due.Err? {
        SettleAllFails(b0, amount, winners, recipients, k + 1);
        r := Err(due.error);
        return;
      }
      if due.value {
        SameHeader(file, bytes[..]);
        r, credited' := PayWinner(lottery, page, bytes, current, credited', site, winners[k], recipients[k]);
        if r.Err? {
          SettleAllFails(b0, amount, winners, recipients, k + 1);
          return;
        }
        current := r.value;
      }
    }
    assert winners[..|winners|] == winners;
    r, l, f := Ok(current), lottery.Data(), bytes[..];
    assert f[..HEADER_SIZE] == bytes[..HEADER_SIZE];
    SameHeader(file, f);
  }

  method SweepVault(l: LotteryData, bank: Bank, authority: Pubkey) returns (r: Result<(LotteryData, Bank)>)
    ensures r == Sweep(l, bank, authority)
  {
    var fee := ServiceFee(l.totalFunds, l.bps);
    if fee.Err? {
      return Err(fee.error);
    }
    var rest := Remainder(l.totalFunds, l.totalPayout, fee.value);
    if Balance(bank, Vault) < fee.value {
      return Err(InsufficientFunds);
    }
    var swept := Transfer(bank, Vault, Wallet(authority), fee.value);
    if Balance(swept, Vault) < rest {
      return Err(InsufficientFunds);
    }
    swept := Transfer(swept, Vault, Wallet(authority), rest);
    swept := Transfer(swept, Vault, Wallet(authority), Balance(swept, Vault));
    var lottery := new Lottery.Read(l);
    var completed := lottery.CompleteSettlement();
    if completed.Err? {
      return Err(completed.error);
    }
    return Ok((lottery.Data(), swept));
  }

  /** Everything the instruction computes, without touching the stored accounts. */
  method Plan(a: Accounts, amount: nat, page: nat, winners: seq<WinnerProof>, recipients: seq<Pubkey>)
    returns (r: Result<()>, l: LotteryData, f: seq<bv8>, bank: Bank, open: bool, ghost credited: map<nat, nat>)
    requires a.Valid() && a.vaultOpen && page in a.pageFiles && |recipients| >= |winners|
    ensures var s := a.Snapshot();
            match SettleAll(Batch(s.lottery, s.pages[page], s.bank, s.credited), amount, winners, recipients)
            case Err(e) => r == Err(e)
            case Ok(b) =>
              var counted := b.lottery.IncrementBatch();
              if !counted.AllWinnersPaid() then
                && r.Ok? && open && ValidFile(f, a.discriminator, a.address) && PageOf(f) == b.page
                && l == counted && bank == b.bank && credited == b.credited
              else
                match Sweep(counted, b.bank, s.config.authority)
                case Err(e) => r == Err(e)
                case Ok((l1, b1)) =>
                  && r.Ok? && !open && ValidFile(f, a.discriminator, a.address) && PageOf(f) == b.page
                  && l == l1 && bank == b1 && credited == b.credited
  {
    open, bank := true, a.bank;
    ghost var h := ReadHeader(a.pageFiles[page]);
    ghost var site := PageSite(a.discriminator, h.lottery, h.generation, h.pageIndex);
    var settled;
    settled, l, f, credited := SettleBatch(a.lottery, a.pageFiles[page], site, a.bank, a.credited, amount, winners,
                                                recipients);
    if settled.Err? {
      r := Err(settled.error);
      return;
    }
    bank := settled.value;
    l := l.IncrementBatch();
    r := Ok(());
    var lottery := new Lottery.Read(l);
    var all := lottery.AllWinnersPaid();
    if all {
      var swept := SweepVault(l, bank, a.config.authority);
      if swept.Err? {
        r := Err(swept.error);
        return;
      }
      l, bank, open := swept.value.0, swept.value.1, false;
    }
  }

  /** Writes back what a successful batch computed. */
  method Commit(a: Accounts, page: nat, l: LotteryData, f: seq<bv8>, bank: Bank, open: bool, ghost credited: map<nat, nat>)
    requires a.Valid() && ValidFile(f, a.discriminator, a.address)
    modifies a
    ensures a.Valid()
    ensures a.Snapshot() == var s := old(a.Snapshot());
                            s.(pages := s.pages[page := PageOf(f)], lottery := l, bank := bank, vaultOpen := open,
                               credited := credited, donated := if open then s.donated else 0)
  {
    hide ReadHeader, EncodeHeader, PageOf;
    PagesOfUpdate(a.pageFiles, a.discriminator, a.address, page, f);
    a.lottery, a.bank, a.vaultOpen, a.pageFiles := l, bank, open, a.pageFiles[page := f];
    a.credited := credited;
    a.donated := if open then a.donated else 0;
  }

  method Process(a: Accounts, lotteryId: nat, page: nat, winners: seq<WinnerProof>, recipients: seq<Pubkey>) returns (r: Result<()>)
    requires a.Valid()
    modifies a
    ensures a.Valid()
    ensures match Apply(old(a.Snapshot()), lotteryId, page, winners, recipients)
            case Ok(s) => r.Ok? && a.Snapshot() == s
            case Err(e) => r == Err(e) && a.Snapshot() == old(a.Snapshot())
  {
    hide Check, SettleAll, Sweep, LotteryData.AllWinnersPaid, ReadHeader, EncodeHeader, Decode, PaidBit;
    var amount, complete := CheckStart(a, lotteryId, page, winners, recipients);
    if amount.Err? {
      return Err(amount.error);
    }
    if complete {
      return Ok(());
    }
    var l, f, bank, open;
    ghost var credited;
    r, l, f, bank, open, credited := Plan(a, amount.value, page, winners, recipients);
    if r.Ok? {
      Commit(a, page, l, f, bank, open, credited);
    }
  }
}
