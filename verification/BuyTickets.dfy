/** The BuyTickets instruction. */
module BuyTickets {
  import opened Prelude
  import opened Digests
  import opened Participants
  import opened Lotteries
  import opened Banks
  import opened States

  /** The guards of the instruction; passing them yields the price of the purchase. */
  function Cost(s: State, buyer: Pubkey, count: U64): Result<nat> {
    var l := s.lottery;
    :- Require(count > 0, InvalidTicketCount);
    :- Require(s.vaultOpen, InvalidAccountData);
    :- Require(!(l.uploadStart > 0 && s.now >= l.uploadStart), OutsideTimeWindow);
    :- Require(!l.settled && l.InBuyWindow(s.now), OutsideTimeWindow);
    var cost :- CheckedMul(l.price, count, U64_MAX);
    :- Require(buyer in s.slot ==> s.Live(buyer), InvalidAccountData);
    Ok(cost)
  }

  /** Opens the buyer's account on the first purchase; later purchases must not contradict its proof hash. */
  function Open(s: State, buyer: Pubkey, proof: Option<Bytes32>): (r: Result<State>)
    requires buyer in s.slot ==> s.Live(buyer)
    ensures r.Ok? ==> r.value.Live(buyer)
  {
    if buyer in s.slot then
      :- Require(proof.None? || proof.value == s.rows[s.slot[buyer]].proofHash, ProofHashMismatch);
      Ok(s)
    else
      :- Require(s.lottery.participantsCount < MAX_PARTICIPANTS, ParticipantLimitReached);
      :- Require(Balance(s.bank, Wallet(buyer)) >= s.rents.participant, InsufficientFunds);
      match proof
      case None => Err(MissingProofOfChance)
      case Some(hash) =>
        var p := ParticipantData.New(buyer, hash, 0, s.lottery.participantsCount);
        var l :- s.lottery.AddParticipant();
        Ok(s.(lottery := l, rows := s.rows + [p], slot := s.slot[buyer := |s.rows|],
              bank := Transfer(s.bank, Wallet(buyer), ParticipantAccount(buyer), s.rents.participant)))
  }

  /** Adds the tickets and moves the payment into the vault. */
  function Pay(s: State, buyer: Pubkey, count: U64, cost: nat): Result<State>
    requires s.Live(buyer)
  {
    var p :- s.rows[s.slot[buyer]].AddTickets(count);
    :- Require(Balance(s.bank, Wallet(buyer)) >= cost, InsufficientFunds);
    var l :- s.lottery.AddTickets(count, cost);
    Ok(s.WithParticipant(buyer, p).(lottery := l, bank := Transfer(s.bank, Wallet(buyer), Vault, cost)))
  }

  function Apply(s: State, buyer: Pubkey, proof: Option<Bytes32>, count: U64): Result<State> {
    var cost :- Cost(s, buyer, count);
    var entered :- Open(s, buyer, proof);
    Pay(entered, buyer, count, cost)
  }

  lemma OpenFrame(s: State, buyer: Pubkey, proof: Option<Bytes32>)
    requires (buyer in s.slot ==> s.Live(buyer)) && Open(s, buyer, proof).Ok?
    ensures var t := Open(s, buyer, proof).value;
            t == s.(lottery := t.lottery, rows := t.rows, slot := t.slot, bank := t.bank) && t.Live(buyer)
  {
  }

  lemma PayFrame(s: State, buyer: Pubkey, count: U64, cost: nat)
    requires s.Live(buyer) && Pay(s, buyer, count, cost).Ok?
    ensures var t := Pay(s, buyer, count, cost).value;
            t == s.(lottery := t.lottery, rows := t.rows, bank := t.bank)
  {
  }

  method CheckCost(a: Accounts, buyer: Pubkey, count: U64) returns (r: Result<nat>)
    requires a.Valid()
    ensures r == Cost(a.Snapshot(), buyer, count)
  {
    if count == 0 {
      return Err(InvalidTicketCount);
    }
    if !a.vaultOpen {
      return Err(InvalidAccountData);
    }
    if a.lottery.uploadStart > 0 && a.now >= a.lottery.uploadStart {
      return Err(OutsideTimeWindow);
    }
    if a.lottery.settled || !a.lottery.InBuyWindow(a.now) {
      return Err(OutsideTimeWindow);
    }
    if a.lottery.price * count > U64_MAX {
      return Err(MathOverflow);
    }
    if buyer in a.slot && a.slot[buyer] >= |a.rows| {
      return Err(InvalidAccountData);
    }
    return Ok(a.lottery.price * count);
  }

  /** The first part of the instruction on working copies: returns the storage as it is after opening the account. */
  method OpenAccount(a: Accounts, lottery: Lottery, buyer: Pubkey, proof: Option<Bytes32>)
    returns (r: Result<()>, rows: seq<ParticipantData>, slot: map<Pubkey, nat>, bank: Bank)
    requires a.Valid() && lottery.Data() == a.lottery
    requires buyer in a.slot ==> a.Live(buyer)
    modifies lottery
    ensures match Open(old(a.Snapshot()), buyer, proof)
            case Ok(s) => r.Ok? && rows == s.rows && slot == s.slot && bank == s.bank && lottery.Data() == s.lottery
            case Err(e) => r == Err(e)
  {
    rows, slot, bank := a.rows, a.slot, a.bank;
    if buyer in slot {
      if proof.Some? && rows[slot[buyer]].proofHash != proof.value {
        return Err(ProofHashMismatch), rows, slot, bank;
      }
      return Ok(()), rows, slot, bank;
    }
    if a.lottery.participantsCount >= MAX_PARTICIPANTS {
      return Err(ParticipantLimitReached), rows, slot, bank;
    }
    if Balance(bank, Wallet(buyer)) < a.rents.participant {
      return Err(InsufficientFunds), rows, slot, bank;
    }
    bank := Transfer(bank, Wallet(buyer), ParticipantAccount(buyer), a.rents.participant);
    if proof.None? {
      return Err(MissingProofOfChance), rows, slot, bank;
    }
    slot := slot[buyer := |rows|];
    rows := rows + [ParticipantData.New(buyer, proof.value, 0, a.lottery.participantsCount)];
    r := lottery.AddParticipant();
  }

  /** The second part: adds the tickets and takes the payment. */
  method TakePayment(ghost s: State, lottery: Lottery, rows: seq<ParticipantData>, i: nat, bank: Bank,
                     buyer: Pubkey, count: U64, cost: nat)
    returns (r: Result<()>, rows': seq<ParticipantData>, bank': Bank)
    requires s.Live(buyer) && s.slot[buyer] == i && s.lottery == lottery.Data() && s.rows == rows && s.bank == bank
    modifies lottery
    ensures match Pay(s, buyer, count, cost)
            case Ok(t) => r.Ok? && rows' == t.rows && bank' == t.bank && lottery.Data() == t.lottery
            case Err(e) => r == Err(e)
  {
    rows', bank' := rows, bank;
    var participant := new Participant.Read(rows[i]);
    r := participant.AddTickets(count);
    if r.Err? {
      return;
    }
    if Balance(bank, Wallet(buyer)) < cost {
      r := Err(InsufficientFunds);
      return;
    }
    bank' := Transfer(bank, Wallet(buyer), Vault, cost);
    rows' := rows[i := participant.Data()];
    r := lottery.AddTickets(count, cost);
  }

  /** Everything the instruction computes, without touching the stored accounts. */
  method Plan(a: Accounts, buyer: Pubkey, proof: Option<Bytes32>, count: U64)
    returns (r: Result<()>, rows: seq<ParticipantData>, slot: map<Pubkey, nat>, l: LotteryData, bank: Bank)
    requires a.Valid()
    ensures match Apply(a.Snapshot(), buyer, proof, count)
            case Ok(s) => r.Ok? && s == a.Snapshot().(rows := rows, slot := slot, lottery := l, bank := bank)
            case Err(e) => r == Err(e)
  {
    hide Open, Pay;
    ghost var s := a.Snapshot();
    rows, slot, l, bank := a.rows, a.slot, a.lottery, a.bank;
    var cost := CheckCost(a, buyer, count);
    if cost.Err? {
      r := Err(cost.error);
      return;
    }
    var lottery := new Lottery.Read(l);
    r, rows, slot, bank := OpenAccount(a, lottery, buyer, proof);
    if r.Err? {
      return;
    }
    ghost var entered := Open(s, buyer, proof).value;
    OpenFrame(s, buyer, proof);
    r, rows, bank := TakePayment(entered, lottery, rows, slot[buyer], bank, buyer, count, cost.value);
    l := lottery.Data();
    if r.Ok? {
      PayFrame(entered, buyer, count, cost.value);
    }
  }

  method Process(a: Accounts, buyer: Pubkey, proof: Option<Bytes32>, count: U64) returns (r: Result<()>)
    requires a.Valid()
    modifies a
    ensures a.Valid()
    ensures match Apply(old(a.Snapshot()), buyer, proof, count)
            case Ok(s) => r.Ok? && a.Snapshot() == s
            case Err(e) => r == Err(e) && a.Snapshot() == old(a.Snapshot())
  {
    var rows, slot, lottery, bank;
    r, rows, slot, lottery, bank := Plan(a, buyer, proof, count);
    if r.Ok? {
      a.rows, a.slot, a.lottery, a.bank := rows, slot, lottery, bank;
    }
  }
}
