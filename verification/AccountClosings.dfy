/** After the lottery is over everybody gets the rent of their participant account back. */
module AccountClosings {
  import opened Prelude
  import opened Digests
  import opened Sums
  import opened Participants
  import opened Lotteries
  import opened Banks
  import opened States
  import opened Steps
  import opened Invariants
  import opened SimpleSteps
  import opened MoneyTheorems
  import CloseParticipant

  /** The lottery is over and its vault has been swept. */
  ghost predicate Swept(s: State) {
    s.lottery.settled && !s.vaultOpen
  }

  /**
   Nothing is left with the lottery: it is over, its vault has been swept (and holds at most what outsiders sent to the
   address afterwards), every participant account has been closed, and none of their addresses holds a lamport.
   */
  ghost predicate Drained(s: State) {
    && Swept(s) && Balance(s.bank, Vault) == s.donated
    && s.slot == map[] && forall w :: Balance(s.bank, ParticipantAccount(w)) == 0
  }

  lemma SweptMeans(s: State)
    ensures Swept(s) <==> s.lottery.settled && !s.vaultOpen
  {
  }

  lemma DrainedMeans(s: State)
    ensures Drained(s) ==> Swept(s) && s.lottery.settled && !s.vaultOpen
  {
  }

  /** The owner has been paid or refunded. */
  ghost predicate Closable(s: State, w: Pubkey)
    requires s.Live(w)
  {
    s.lottery.settlementComplete || s.rows[s.slot[w]].refundClaimed
  }

  lemma CloseOutcome(s: State, w: Pubkey)
    requires s.Live(w) ==> Balance(s.bank, ParticipantAccount(w)) > 0
    requires Balance(s.bank, Wallet(w)) + Balance(s.bank, ParticipantAccount(w)) <= U64_MAX
    requires s.lottery.winnersCount == 0 ==> !s.lottery.settlementComplete
    requires s.Live(w) && s.rows[s.slot[w]].refundClaimed ==> s.lottery.settled && s.lottery.winnersCount == 0
    ensures var r := CloseParticipant.Apply(s, w);
            && (r.Ok? <==> s.Live(w) && Closable(s, w))
            && (r.Err? ==> r.error == if s.Live(w) then InvalidLotteryState else InvalidAccountData)
  {
  }

  lemma LiveInSlot(s: State, w: Pubkey)
    requires Registered(s.lottery, s.rows, s.slot)
    ensures s.Live(w) <==> w in s.slot
  {
  }

  lemma ClaimedRow(l: LotteryData, cap: nat, rows: seq<ParticipantData>, i: nat)
    requires Counted(l, cap, rows) && i < |rows|
    ensures rows[i].refundClaimed ==> l.settled && l.winnersCount == 0
  {
    assert RowOk(l, cap, rows[i]);
  }

  lemma RentOf(slot: map<Pubkey, nat>, rents: Rents, bank: Bank, w: Pubkey)
    requires Rented(slot, rents, bank)
    ensures rents.participant > 0 && Balance(bank, ParticipantAccount(w)) == if w in slot then rents.participant else 0
  {
  }

  lemma TwoBalances(b: Bank, a: Account, c: Account)
    requires a != c
    ensures Balance(b, a) + Balance(b, c) <= Total(b)
  {
    TotalUpdate(b, a, 0);
    TotalUpdate(b[a := 0], c, 0);
  }

  lemma CompleteHasWinners(s: State)
    requires Settling(s.lottery, s.root, s.pages)
    ensures s.lottery.winnersCount == 0 ==> !s.lottery.settlementComplete
  {
  }

  /**
   A participant account can be closed exactly when it is open and its owner has been refunded or the settlement is
   complete. The program's checks for missing rent and for overflow never fail, and the owner gets exactly the rent.
   */
  lemma CloseAccountIff(s: State, w: Pubkey)
    requires Inv(s)
    ensures var r := CloseParticipant.Apply(s, w);
            && (r.Ok? <==> w in s.slot && s.Live(w) && Closable(s, w))
            && (r.Err? ==> r.error == if w in s.slot then InvalidLotteryState else InvalidAccountData)
            && (r.Ok? ==>
                  && Balance(s.bank, ParticipantAccount(w)) == s.rents.participant > 0
                  && Balance(r.value.bank, ParticipantAccount(w)) == 0
                  && Balance(r.value.bank, Wallet(w)) == Balance(s.bank, Wallet(w)) + s.rents.participant
                  && r.value.slot == s.slot - {w})
  {
    hide *;
    Parts(s);
    LiveInSlot(s, w);
    LiveMeans(s, w);
    RentOf(s.slot, s.rents, s.bank, w);
    BankFits(s.lottery, s.rows, s.rents, s.bank, s.vaultOpen, s.donated, s.credited);
    TwoBalances(s.bank, Wallet(w), ParticipantAccount(w));
    CompleteHasWinners(s);
    if w in s.slot {
      ClaimedRow(s.lottery, s.MaxWinners(), s.rows, s.slot[w]);
    }
    CloseOutcome(s, w);
    if CloseParticipant.Apply(s, w).Ok? {
      CloseAccountEffect(s, w);
      TransferExact(s.bank, ParticipantAccount(w), Wallet(w), Balance(s.bank, ParticipantAccount(w)));
    }
  }

  // ----- closing everything -----

  /** Once the vault has been swept every open account can be closed. */
  lemma SweptClosable(s: State, w: Pubkey)
    requires Inv(s) && Swept(s) && w in s.slot
    ensures s.Live(w) && Closable(s, w)
  {
    hide *;
    Parts(s);
    LiveInSlot(s, w);
    SweptBooks(s, w);
  }

  lemma SweptBooks(s: State, w: Pubkey)
    requires Banked(s.lottery, s.rows, s.rents, s.bank, s.vaultOpen, s.donated, s.credited) && Swept(s) && s.Live(w)
    ensures Closable(s, w)
  {
    SumIndicator(s.rows, ClaimedOne());
  }

  lemma SweptDrained(s: State)
    requires Inv(s) && Swept(s) && s.slot == map[]
    ensures Drained(s)
  {
    hide *;
    Parts(s);
    DrainedIntro(s);
  }

  lemma DrainedIntro(s: State)
    requires Banked(s.lottery, s.rows, s.rents, s.bank, s.vaultOpen, s.donated, s.credited) && Rented(s.slot, s.rents, s.bank)
    requires Swept(s) && s.slot == map[]
    ensures Drained(s)
  {
  }

  lemma ClosingStep(s: State, w: Pubkey)
    requires Inv(s) && Swept(s) && w in s.slot
    ensures var t := After(s, CloseAccount(w));
            Inv(t) && Swept(t) && t.slot == s.slot - {w}
  {
    hide *;
    SweptClosable(s, w);
    CloseAccountIff(s, w);
    CloseAccountEffect(s, w);
    CloseAccountKeeps(s, w);
    AfterMeans(s, CloseAccount(w));
    NextMeans(s, CloseAccount(w));
    SweptMeans(s);
    SweptMeans(After(s, CloseAccount(w)));
  }

  /** After the sweep all participant accounts can be closed, one by one. */
  lemma {:induction false} ClosingRuns(s: State) returns (steps: seq<Step>)
    requires Inv(s) && Swept(s)
    ensures Drained(Run(s, steps))
    decreases |s.slot|
  {
    hide *;
    if w :| w in s.slot {
      var step := CloseAccount(w);
      ClosingStep(s, w);
      FewerSlots(s.slot, w);
      var rest := ClosingRuns(After(s, step));
      RunsAfter(s, step, rest);
      steps := [step] + rest;
    } else {
      SweptDrained(s);
      RunNone(s);
      steps := [];
    }
  }

  lemma FewerSlots(slot: map<Pubkey, nat>, w: Pubkey)
    requires w in slot
    ensures |slot - {w}| < |slot|
  {
    assert slot == (slot - {w})[w := slot[w]];
  }
}
