/** Counters, votes, entropy and the vault, restated for every reachable state. */
module CountTheorems {
  import opened Prelude
  import opened Digests
  import opened Sums
  import opened Participants
  import opened VoteTallies
  import opened Lotteries
  import opened Banks
  import opened States
  import opened Invariants
  import opened AttestationKeeps
  import opened UploadKeeps
  import opened PayoutTheorems
  import opened PhaseTheorems
  import opened MoneyTheorems
  import opened Runs

  /** Participant indices are 0..n-1 in join order, and the lottery's counters are what counting the participants gives. */
  lemma CountersAgree(s: State)
    requires Reachable(s)
    ensures |s.rows| == s.lottery.participantsCount <= MAX_PARTICIPANTS && WalletsDistinct(s.rows)
    ensures forall i :: 0 <= i < |s.rows| ==> s.rows[i].index == i && s.rows[i].tickets > 0
    ensures forall i :: 0 <= i < |s.rows| && s.rows[i].revealIncluded ==> s.rows[i].attested
    ensures s.lottery.totalTickets == Sum(s.rows, TicketsHeld())
    ensures s.lottery.totalFunds == s.lottery.price * s.lottery.totalTickets <= U64_MAX
    ensures s.lottery.attestedCount == Sum(s.rows, AttestedOne())
    ensures s.lottery.providerUploaded == Sum(s.rows, IncludedOne()) <= s.lottery.attestedCount
  {
    hide *;
    ReachableInv(s);
    Parts(s);
    CountParts(s.lottery, s.MaxWinners(), s.rows, s.slot);
    AttestedBounds(s.lottery, s.MaxWinners(), s.rows);
    IncludedAttested(s.lottery, s.MaxWinners(), s.rows);
  }

  lemma CountParts(l: LotteryData, cap: nat, rows: seq<ParticipantData>, slot: map<Pubkey, nat>)
    requires Registered(l, rows, slot) && Counted(l, cap, rows)
    ensures |rows| == l.participantsCount <= MAX_PARTICIPANTS && WalletsDistinct(rows)
    ensures forall i :: 0 <= i < |rows| ==> rows[i].index == i && rows[i].tickets > 0
    ensures l.totalTickets == Sum(rows, TicketsHeld()) && l.totalFunds == l.price * l.totalTickets <= U64_MAX
    ensures l.attestedCount == Sum(rows, AttestedOne()) && l.providerUploaded == Sum(rows, IncludedOne())
  {
  }

  // ----- votes and entropy -----

  /** The earliest attestation among the voters for c: no voter is earlier, and some voter attested then, if there is any. */
  lemma {:induction false} FirstSeenIsEarliest(pool: seq<Entry>, c: nat)
    requires forall i :: 0 <= i < |pool| && pool[i].shown.Some? ==> pool[i].shown.value.attestedAt <= I64_MAX
    ensures forall i :: 0 <= i < |pool| && pool[i].shown.Some? && pool[i].shown.value.vote == c ==>
              FirstSeen(pool, c) <= pool[i].shown.value.attestedAt
    ensures || (FirstSeen(pool, c) == I64_MAX
                && forall i :: 0 <= i < |pool| && pool[i].shown.Some? && pool[i].shown.value.vote == c ==>
                     pool[i].shown.value.attestedAt == I64_MAX)
            || exists i :: 0 <= i < |pool| && pool[i].shown.Some? && pool[i].shown.value.vote == c
                           && pool[i].shown.value.attestedAt == FirstSeen(pool, c)
  {
    if pool != [] {
      var n := |pool| - 1;
      FirstSeenIsEarliest(pool[..n], c);
      assert forall i :: 0 <= i < n ==> pool[..n][i] == pool[i];
    }
  }

  /**
   After any mix of AttestReveal and UploadReveals, in any order and batching: each weight is the ticket sum and each
   time the earliest attestation over the included participants voting for that count, the selected winner count is
   the outcome of that vote, and the aggregate is the XOR of all included digests.
   */
  lemma TallyFromScratch(s: State)
    requires Reachable(s)
    ensures s.tally.Some? ==> s.tally.value.maxWinners == s.MaxWinners() && Counts(s.tally.value, Pool(s.rows))
    ensures s.tally.None? ==> NoReveals(Pool(s.rows))
    ensures s.lottery.participantsCount >= 2 ==> s.lottery.aggregate == Entropy(Pool(s.rows))
    ensures s.lottery.participantsCount >= 2 && !IsSelecting(s.root) ==>
              WinsVote(Pool(s.rows), s.MaxWinners(), s.lottery.selectedWinners)
    ensures s.lottery.participantsCount <= 1 ==> s.lottery.selectedWinners == 1
  {
    hide *;
    ReachableInv(s);
    Parts(s);
    VotedParts(s.lottery, s.MaxWinners(), Pool(s.rows), s.tally, IsSelecting(s.root));
  }

  lemma VotedParts(l: LotteryData, cap: nat, pool: seq<Entry>, tally: Option<Tally>, selecting: bool)
    requires Voted(l, cap, pool, tally, selecting)
    ensures tally.Some? ==> tally.value.maxWinners == cap && Counts(tally.value, pool)
    ensures tally.None? ==> NoReveals(pool)
    ensures l.participantsCount >= 2 ==> l.aggregate == Entropy(pool)
    ensures l.participantsCount >= 2 && !selecting ==> WinsVote(pool, cap, l.selectedWinners)
    ensures l.participantsCount <= 1 ==> l.selectedWinners == 1
  {
    hide Counts, WinsVote, NoReveals, Entropy;
  }

  /** XOR-ing digests one by one is independent of their order. */
  lemma {:induction false} XorAllSwap(initial: Bytes32, digests: seq<Bytes32>, i: nat)
    requires i + 1 < |digests|
    ensures XorAll(initial, digests[i := digests[i + 1]][i + 1 := digests[i]]) == XorAll(initial, digests)
  {
    var n := |digests| - 1;
    var swapped := digests[i := digests[i + 1]][i + 1 := digests[i]];
    if i + 1 == n {
      assert swapped[..n][..i] == digests[..n][..i];
      XorSwap(XorAll(initial, digests[..n][..i]), digests[i], digests[i + 1]);
    } else {
      assert swapped[..n] == digests[..n][i := digests[i + 1]][i + 1 := digests[i]];
      XorAllSwap(initial, digests[..n], i);
    }
  }

  // ----- the vault -----

  /**
   Until it is swept the vault holds its rent, all donations and all ticket payments, minus exactly one share per
   winner already paid, or price * tickets per refund already claimed.
   */
  lemma VaultEquation(s: State)
    requires Reachable(s) && s.vaultOpen
    ensures s.lottery.winnersCount > 0 ==>
              Balance(s.bank, Vault) + Share(s.lottery) * |Paid(s.lottery)| == s.rents.vault + s.donated + s.lottery.totalFunds
    ensures s.lottery.winnersCount == 0 ==>
              Balance(s.bank, Vault) + s.lottery.price * Sum(s.rows, ClaimedTickets())
              == s.rents.vault + s.donated + s.lottery.totalFunds
    ensures !Refunding(s) ==> Sum(s.rows, ClaimedTickets()) == 0
  {
    hide *;
    ReachableInv(s);
    Parts(s);
    OutcomeMeans(s);
    if s.lottery.winnersCount > 0 {
      VaultWhilePaying(s);
    } else {
      RefundBooks(s.lottery, s.rows, s.rents, s.bank, s.vaultOpen, s.donated, s.credited);
    }
    if !Refunding(s) {
      NoClaims(s.lottery, s.MaxWinners(), s.rows);
    }
  }
}
