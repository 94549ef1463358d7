/** Who can buy tickets, and what exactly a purchase changes. */
module BuyAdmission {
  import opened Prelude
  import opened Digests
  import opened Sums
  import opened Participants
  import opened Lotteries
  import opened Banks
  import opened States
  import opened Steps
  import opened Invariants
  import opened SimpleSteps
  import opened AttestationKeeps
  import opened Progress
  import BuyTickets

  /**
   The upload window has not started, the totals stay below 2^64, and the wallet can pay. A newcomer must bring a proof
   hash and pay the rent of the account, and there must be room; whoever has bought before may repeat the stored hash but
   not contradict it.
   */
  predicate CanBuy(s: State, buyer: Pubkey, proof: Option<Bytes32>, count: U64) {
    var cost := s.lottery.price * count;
    && s.now < s.lottery.uploadStart && count > 0
    && s.lottery.totalTickets + count <= U64_MAX && s.lottery.totalFunds + cost <= U64_MAX
    && if s.Live(buyer)
       then && (proof.None? || proof.value == s.rows[s.slot[buyer]].proofHash)
            && Balance(s.bank, Wallet(buyer)) >= cost
       else && proof.Some? && |s.rows| < 4096
            && Balance(s.bank, Wallet(buyer)) >= s.rents.participant + cost
  }

  lemma CostIff(s: State, buyer: Pubkey, count: U64)
    requires Clockwork(s.lottery, s.now) && (!s.lottery.settled ==> s.vaultOpen) && (buyer in s.slot ==> s.Live(buyer))
    ensures BuyTickets.Cost(s, buyer, count).Ok? <==>
              s.now < s.lottery.uploadStart && count > 0 && s.lottery.price * count <= U64_MAX
    ensures BuyTickets.Cost(s, buyer, count).Ok? ==> BuyTickets.Cost(s, buyer, count).value == s.lottery.price * count
  {
  }

  /** The bank and the rows after the account has been opened or found. */
  lemma OpenIff(s: State, buyer: Pubkey, proof: Option<Bytes32>)
    requires buyer in s.slot ==> s.Live(buyer)
    requires s.lottery.participantsCount == |s.rows| <= MAX_PARTICIPANTS
    ensures BuyTickets.Open(s, buyer, proof).Ok? <==>
              if s.Live(buyer) then proof.None? || proof.value == s.rows[s.slot[buyer]].proofHash
              else proof.Some? && |s.rows| < MAX_PARTICIPANTS && Balance(s.bank, Wallet(buyer)) >= s.rents.participant
    ensures BuyTickets.Open(s, buyer, proof).Ok? ==>
              BuyTickets.Open(s, buyer, proof).value
              == if s.Live(buyer) then s
                 else s.(lottery := s.lottery.(participantsCount := |s.rows| + 1),
                         rows := s.rows + [ParticipantData.New(buyer, proof.value, 0, |s.rows|)],
                         slot := s.slot[buyer := |s.rows|],
                         bank := Transfer(s.bank, Wallet(buyer), ParticipantAccount(buyer), s.rents.participant))
  {
  }

  lemma PayIff(s: State, buyer: Pubkey, count: U64, cost: nat)
    requires s.Live(buyer)
    ensures BuyTickets.Pay(s, buyer, count, cost).Ok? <==>
              && s.rows[s.slot[buyer]].tickets + count <= U64_MAX && Balance(s.bank, Wallet(buyer)) >= cost
              && s.lottery.totalTickets + count <= U64_MAX && s.lottery.totalFunds + cost <= U64_MAX
  {
  }

  lemma ApplyIff(s: State, buyer: Pubkey, proof: Option<Bytes32>, count: U64)
    ensures BuyTickets.Apply(s, buyer, proof, count).Ok? <==>
              && BuyTickets.Cost(s, buyer, count).Ok?
              && BuyTickets.Open.requires(s, buyer, proof) && BuyTickets.Open(s, buyer, proof).Ok?
              && BuyTickets.Pay(BuyTickets.Open(s, buyer, proof).value, buyer, count, BuyTickets.Cost(s, buyer, count).value).Ok?
  {
    hide BuyTickets.Pay, BuyTickets.Open;
  }

  lemma TicketsOfOne(l: LotteryData, cap: nat, rows: seq<ParticipantData>, i: nat)
    requires Counted(l, cap, rows) && i < |rows|
    ensures rows[i].tickets <= l.totalTickets
  {
    SumElement(rows, i, TicketsHeld());
  }

  /** What the guards rely on. */
  lemma BuyFacts(s: State, buyer: Pubkey)
    requires Inv(s)
    ensures Clockwork(s.lottery, s.now) && (!s.lottery.settled ==> s.vaultOpen)
    ensures buyer in s.slot <==> s.Live(buyer)
    ensures s.lottery.participantsCount == |s.rows| <= MAX_PARTICIPANTS && Total(s.bank) <= U64_MAX
    ensures s.Live(buyer) ==> s.rows[s.slot[buyer]].tickets <= s.lottery.totalTickets
  {
    hide *;
    Parts(s);
    RowsCounted(s.lottery, s.rows, s.slot);
    Filed(s, buyer);
    BankFits(s.lottery, s.rows, s.rents, s.bank, s.vaultOpen, s.donated, s.credited);
    if !s.lottery.settled {
      VaultStillOpen(s.lottery, s.rows, s.rents, s.bank, s.vaultOpen, s.donated, s.credited);
    }
    if s.Live(buyer) {
      TicketsOfOne(s.lottery, s.MaxWinners(), s.rows, s.slot[buyer]);
    }
  }

  lemma Filed(s: State, w: Pubkey)
    requires Registered(s.lottery, s.rows, s.slot)
    ensures w in s.slot <==> s.Live(w)
    ensures s.Live(w) <==> w in s.slot && s.slot[w] < |s.rows|
    ensures s.Live(w) ==> s.rows[s.slot[w]].wallet == w
  {
  }

  /** A purchase succeeds exactly when the buyer is entitled to it and can pay. */
  lemma BuyIff(s: State, buyer: Pubkey, proof: Option<Bytes32>, count: U64)
    requires Inv(s)
    ensures Next(s, Step.Buy(buyer, proof, count)).Ok? <==> CanBuy(s, buyer, proof, count)
  {
    hide Inv, Next, Clockwork, Transfer, BuyTickets.Apply, BuyTickets.Cost, BuyTickets.Open, BuyTickets.Pay;
    BuyFacts(s, buyer);
    NextMeans(s, Step.Buy(buyer, proof, count));
    ApplyIff(s, buyer, proof, count);
    CostIff(s, buyer, count);
    OpenIff(s, buyer, proof);
    if BuyTickets.Open(s, buyer, proof).Ok? {
      if !s.Live(buyer) {
        TransferExact(s.bank, Wallet(buyer), ParticipantAccount(buyer), s.rents.participant);
      }
      PayIff(BuyTickets.Open(s, buyer, proof).value, buyer, count, s.lottery.price * count);
    }
  }

  // ----- what a purchase changes -----

  /** The lamports a purchase moves: the price into the vault, and a newcomer's rent into the new account. */
  ghost predicate Charged(s: State, bank: Bank, buyer: Pubkey, cost: nat) {
    var rent := if s.Live(buyer) then 0 else s.rents.participant;
    && Balance(bank, Vault) == Balance(s.bank, Vault) + cost
    && Balance(bank, Wallet(buyer)) + rent + cost == Balance(s.bank, Wallet(buyer))
    && Balance(bank, ParticipantAccount(buyer)) == Balance(s.bank, ParticipantAccount(buyer)) + rent
    && forall a :: a !in {Vault, Wallet(buyer), ParticipantAccount(buyer)} ==> Balance(bank, a) == Balance(s.bank, a)
  }

  /** The state after a purchase: one participant more, or one with more tickets; the totals; and the payment. */
  ghost predicate Purchased(s: State, t: State, buyer: Pubkey, proof: Option<Bytes32>, count: U64) {
    var cost := s.lottery.price * count;
    && (if s.Live(buyer)
        then && s.rows[s.slot[buyer]].tickets + count <= U64_MAX && t.slot == s.slot
             && t.rows == s.rows[s.slot[buyer] := s.rows[s.slot[buyer]].(tickets := s.rows[s.slot[buyer]].tickets + count)]
        else && proof.Some? && t.slot == s.slot[buyer := |s.rows|]
             && t.rows == s.rows + [ParticipantData.New(buyer, proof.value, count, |s.rows|)])
    && t == s.(rows := t.rows, slot := t.slot, bank := t.bank,
               lottery := s.lottery.(participantsCount := |t.rows|, totalTickets := s.lottery.totalTickets + count,
                                     totalFunds := s.lottery.totalFunds + cost))
    && Charged(s, t.bank, buyer, cost)
  }

  lemma PayValue(s: State, buyer: Pubkey, count: U64, cost: nat)
    requires s.Live(buyer) && BuyTickets.Pay(s, buyer, count, cost).Ok?
    ensures s.rows[s.slot[buyer]].tickets + count <= U64_MAX && Balance(s.bank, Wallet(buyer)) >= cost
    ensures BuyTickets.Pay(s, buyer, count, cost).value
         == s.(rows := s.rows[s.slot[buyer] := s.rows[s.slot[buyer]].(tickets := s.rows[s.slot[buyer]].tickets + count)],
               lottery := s.lottery.(totalTickets := s.lottery.totalTickets + count, totalFunds := s.lottery.totalFunds + cost),
               bank := Transfer(s.bank, Wallet(buyer), Vault, cost))
  {
  }

  lemma ApplyValue(s: State, buyer: Pubkey, proof: Option<Bytes32>, count: U64)
    requires BuyTickets.Apply(s, buyer, proof, count).Ok?
    ensures BuyTickets.Cost(s, buyer, count).Ok? && BuyTickets.Open.requires(s, buyer, proof)
    ensures BuyTickets.Open(s, buyer, proof).Ok? && BuyTickets.Open(s, buyer, proof).value.Live(buyer)
    ensures BuyTickets.Apply(s, buyer, proof, count)
         == BuyTickets.Pay(BuyTickets.Open(s, buyer, proof).value, buyer, count, BuyTickets.Cost(s, buyer, count).value)
  {
    hide BuyTickets.Pay, BuyTickets.Open;
  }

  /** A purchase adds the tickets to the buyer's own account, counts them and their price, and moves exactly that price. */
  lemma BuyOutcome(s: State, buyer: Pubkey, proof: Option<Bytes32>, count: U64)
    requires Inv(s) && Next(s, Step.Buy(buyer, proof, count)).Ok?
    ensures Purchased(s, Next(s, Step.Buy(buyer, proof, count)).value, buyer, proof, count)
  {
    var step := Step.Buy(buyer, proof, count);
    hide *;
    NextMeans(s, step);
    BuyFacts(s, buyer);
    ApplyValue(s, buyer, proof, count);
    CostIff(s, buyer, count);
    EnteredPurchased(s, buyer, proof, count, s.lottery.price * count);
  }

  lemma EnteredPurchased(s: State, buyer: Pubkey, proof: Option<Bytes32>, count: U64, cost: nat)
    requires (buyer in s.slot <==> s.Live(buyer)) && s.lottery.participantsCount == |s.rows| <= MAX_PARTICIPANTS
    requires Total(s.bank) <= U64_MAX && cost == s.lottery.price * count
    requires BuyTickets.Open(s, buyer, proof).Ok? && BuyTickets.Open(s, buyer, proof).value.Live(buyer)
    requires BuyTickets.Pay(BuyTickets.Open(s, buyer, proof).value, buyer, count, cost).Ok?
    ensures Purchased(s, BuyTickets.Pay(BuyTickets.Open(s, buyer, proof).value, buyer, count, cost).value, buyer, proof, count)
  {
    hide Transfer, BuyTickets.Open, BuyTickets.Pay, Charged;
    OpenIff(s, buyer, proof);
    var entered := BuyTickets.Open(s, buyer, proof).value;
    PayValue(entered, buyer, count, cost);
    EnteredCharged(s, entered, BuyTickets.Pay(entered, buyer, count, cost).value.bank, buyer, cost);
  }

  lemma EnteredCharged(s: State, entered: State, bank: Bank, buyer: Pubkey, cost: nat)
    requires Total(s.bank) <= U64_MAX && (!s.Live(buyer) ==> Balance(s.bank, Wallet(buyer)) >= s.rents.participant)
    requires entered.bank == if s.Live(buyer) then s.bank
                             else Transfer(s.bank, Wallet(buyer), ParticipantAccount(buyer), s.rents.participant)
    requires Balance(entered.bank, Wallet(buyer)) >= cost && bank == Transfer(entered.bank, Wallet(buyer), Vault, cost)
    ensures Charged(s, bank, buyer, cost)
  {
    hide Transfer;
    if !s.Live(buyer) {
      TransferExact(s.bank, Wallet(buyer), ParticipantAccount(buyer), s.rents.participant);
    }
    TransferExact(entered.bank, Wallet(buyer), Vault, cost);
  }
}
