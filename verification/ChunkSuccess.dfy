/** The chunk that finishes the current pass always succeeds, unless a draw or the payout plan itself fails. */
module ChunkSuccess {
  import opened Prelude
  import opened Digests
  import opened Sums
  import opened Participants
  import opened VoteTallies
  import opened TicketDraw
  import opened DrawIndex
  import opened WinnerPages
  import opened FinalizationLedgers
  import opened Lotteries
  import opened Payouts
  import opened States
  import opened Invariants
  import opened AggregationKeeps
  import opened RoundKeeps
  import opened SelectionKeeps
  import opened LedgerKeeps
  import opened FinalizationKeeps
  import opened DrawTheorems
  import FinalizeWinners

  /** The wallets of participants first..last, in index order. */
  function Wallets(rows: seq<ParticipantData>, first: nat, last: nat): (keys: seq<Pubkey>)
    requires first <= last <= |rows|
    ensures |keys| == last - first
    ensures forall i :: 0 <= i < |keys| ==> keys[i] == rows[first + i].wallet
    decreases last
  {
    if first == last then [] else Wallets(rows, first, last - 1) + [rows[last - 1].wallet]
  }

  /** Every participant account is open, filed under its index, and holds tickets. */
  ghost predicate AllOpen(rows: seq<ParticipantData>, slot: map<Pubkey, nat>) {
    forall i :: 0 <= i < |rows| ==> rows[i].wallet in slot && slot[rows[i].wallet] == i && rows[i].index == i && rows[i].tickets > 0
  }

  lemma MarksOpen(rows: seq<ParticipantData>, after: seq<ParticipantData>, slot: map<Pubkey, nat>)
    requires AllOpen(rows, slot) && OnlyMarks(rows, after)
    ensures AllOpen(after, slot)
  {
  }

  // ----- aggregation -----

  lemma FoldOk(h: Hashes, root: LedgerData, rows: seq<ParticipantData>, k: nat)
    requires FoldedLedger(h, root, rows, Pool(rows)) && SmallPool(Pool(rows)) && |rows| <= MAX_PARTICIPANTS
    requires k == root.processedCount < |rows|
    ensures FinalizeWinners.Fold(h, root, rows[k]).Ok?
  {
    var pool := Pool(rows);
    SumNext(pool, k, EligibleOne());
    SumNext(pool, k, EligibleTickets());
    SumPrefix(pool, k + 1, EligibleTickets());
    SumIndicator(pool[..k + 1], EligibleOne());
  }

  lemma AggregateOneOk(h: Hashes, slot: map<Pubkey, nat>, pass: Pass, k: nat)
    requires FoldedLedger(h, pass.root, pass.rows, Pool(pass.rows)) && SmallPool(Pool(pass.rows)) && |pass.rows| <= MAX_PARTICIPANTS
    requires AllOpen(pass.rows, slot) && k == pass.root.processedCount < |pass.rows| && pass.root.generation == 1
    ensures FinalizeWinners.AggregateOne(h, slot, pass, pass.rows[k].wallet).Ok?
  {
    FoldOk(h, pass.root, pass.rows, k);
    hide FinalizeWinners.Fold;
  }

  lemma AggregateNextOk(h: Hashes, slot: map<Pubkey, nat>, start: Pass, pass: Pass, k: nat)
    requires Aggregated(h, start, pass) && SmallPool(Pool(start.rows)) && |start.rows| <= MAX_PARTICIPANTS
    requires AllOpen(start.rows, slot) && start.root.generation == 1
    requires k == pass.root.processedCount < |start.rows|
    ensures FinalizeWinners.AggregateOne(h, slot, pass, start.rows[k].wallet).Ok?
  {
    hide FinalizeWinners.AggregateOne, FoldedLedger, SmallPool, AllOpen;
    AggregatedFacts(h, start, pass);
    MarksKeepPool(start.rows, pass.rows);
    MarksOpen(start.rows, pass.rows, slot);
    AggregateOneOk(h, slot, pass, k);
  }

  lemma WalletsSplit(rows: seq<ParticipantData>, first: nat, last: nat)
    requires first < last <= |rows|
    ensures var keys := Wallets(rows, first, last);
            keys[..|keys| - 1] == Wallets(rows, first, last - 1) && keys[|keys| - 1] == rows[last - 1].wallet
  {
  }

  lemma AggregateAllSplit(h: Hashes, slot: map<Pubkey, nat>, start: Pass, keys: seq<Pubkey>)
    requires keys != [] && FinalizeWinners.AggregateAll(h, slot, start, keys[..|keys| - 1]).Ok?
    ensures FinalizeWinners.AggregateAll(h, slot, start, keys)
         == FinalizeWinners.AggregateOne(h, slot, FinalizeWinners.AggregateAll(h, slot, start, keys[..|keys| - 1]).value, keys[|keys| - 1])
  {
  }

  lemma AggregateNone(h: Hashes, slot: map<Pubkey, nat>, start: Pass, first: nat)
    requires first <= |start.rows|
    ensures FinalizeWinners.AggregateAll(h, slot, start, Wallets(start.rows, first, first)).Ok?
  {
  }

  /** Any run of the exact next participants is accepted. */
  lemma {:induction false} AggregateAllOk(h: Hashes, slot: map<Pubkey, nat>, start: Pass, last: nat)
    requires Aggregated(h, start, start) && SmallPool(Pool(start.rows)) && |start.rows| <= MAX_PARTICIPANTS
    requires AllOpen(start.rows, slot) && Indexed(start.rows) && start.root.generation == 1
    requires start.root.processedCount <= last <= |start.rows|
    ensures FinalizeWinners.AggregateAll(h, slot, start, Wallets(start.rows, start.root.processedCount, last)).Ok?
    decreases last
  {
    hide *;
    var first := start.root.processedCount;
    if first == last {
      AggregateNone(h, slot, start, first);
    } else {
      var keys := Wallets(start.rows, first, last);
      WalletsSplit(start.rows, first, last);
      AggregateAllOk(h, slot, start, last - 1);
      AggregateAllKeeps(h, slot, start, keys[..|keys| - 1]);
      AggregateNextOk(h, slot, start, FinalizeWinners.AggregateAll(h, slot, start, keys[..|keys| - 1]).value, last - 1);
      AggregateAllSplit(h, slot, start, keys);
    }
  }

  /** The draws of all rounds up to the target succeed, and the pot can be split. */
  ghost predicate Payable(h: Hashes, id: nat, cap: nat, funds: nat, bps: nat, pool: seq<Entry>, target: nat) {
    && SmallPool(pool) && TargetOf(pool, cap, target)
    && Winners(h, SeedFor(h, id, pool), pool, target).Some?
    && PayoutPlan(funds, bps, target).Ok?
  }

  /** If a later round can be drawn then so can this one. */
  lemma RoundDraws(h: Hashes, seed: Bytes32, pool: seq<Entry>, k: nat, rounds: nat)
    requires SmallPool(pool) && Winners(h, seed, pool, rounds).Some? && k < rounds
    ensures Winners(h, seed, pool, k).Some?
    ensures var tickets := TicketList(pool, Winners(h, seed, pool, k).value);
            |tickets| <= U64_MAX && Draw(h, seed, k, |tickets|).Ok?
  {
    WinnersPrefix(h, seed, pool, k + 1, rounds);
    WinnersPrefix(h, seed, pool, k, k + 1);
    TicketListBound(pool, Winners(h, seed, pool, k).value);
  }

  lemma OpenRoundOk(h: Hashes, root: LedgerData, round: nat, remaining: nat)
    requires root.RemainingTickets() == Ok(remaining) && remaining <= U64_MAX && Draw(h, root.seed, round, remaining).Ok?
    ensures FinalizeWinners.OpenRound(h, root, round).Ok?
  {
  }

  /** Round `selectedCount` opens as long as the simple draw gets past it. */
  lemma NextRoundOk(h: Hashes, id: nat, cap: nat, root: LedgerData, rows: seq<ParticipantData>, pool: seq<Entry>, rounds: nat)
    requires SmallPool(pool) && DrawnLedger(h, id, cap, root, rows, pool) && Recorded(h, root, pool)
    requires Winners(h, root.seed, pool, rounds).Some? && root.selectedCount < rounds
    ensures FinalizeWinners.OpenRound(h, root, root.selectedCount).Ok?
  {
    hide Recorded, FinalizeWinners.OpenRound, DrawIndex.Draw;
    RemainingIsList(h, id, cap, root, rows, pool);
    RoundDraws(h, root.seed, pool, root.selectedCount, rounds);
    OpenRoundOk(h, root, root.selectedCount, |TicketList(pool, Drawn(h, root, pool))|);
  }

  lemma EndAggregationOk(s: State, root: LedgerData, rows: seq<ParticipantData>, pool: seq<Entry>)
    requires root.processedCount == root.requiredCount == |pool| && FoldedLedger(s.h, root, rows, pool)
    requires s.lottery.aggregate == Entropy(pool) && root.eligibleCount > 0 && root.totalEligibleTickets > 0
    requires 1 <= s.MaxWinners() <= s.lottery.participantsCount - 1 && s.MaxWinners() <= MAX_WINNERS
    requires FinalizeWinners.OpenRound(s.h, Targeted(s.h, s.lottery.id, s.MaxWinners(), s.lottery.selectedWinners, root, pool), 0).Ok?
    ensures FinalizeWinners.EndAggregation(s, root).Ok?
  {
    hide FinalizeWinners.OpenRound, FoldedLedger, SeedFor, FinalizeWinners.SeedOf;
    var l := s.lottery.(selectedWinners := FinalizeWinners.Target(s.lottery.selectedWinners, s.MaxWinners(), root.eligibleCount));
    SeedIsPoolSeed(s.h, l, root, rows, pool);
  }

  lemma TargetedTarget(h: Hashes, id: nat, cap: nat, votes: nat, root: LedgerData, rows: seq<ParticipantData>,
                       pool: seq<Entry>, target: nat)
    requires FoldedLedger(h, root, rows, pool) && root.processedCount == |pool| && WinsVote(pool, cap, votes)
    requires TargetOf(pool, cap, target)
    ensures Targeted(h, id, cap, votes, root, pool).targetWinners == target
    ensures root.eligibleCount == Sum(pool, EligibleOne()) && root.totalEligibleTickets == Sum(pool, EligibleTickets())
  {
    assert pool[..root.processedCount] == pool;
    WinningVotePositive(pool, cap, votes);
    TargetUnique(pool, cap, target, Targeted(h, id, cap, votes, root, pool).targetWinners);
  }

  /** Some reveal is included, so there is something to draw from. */
  lemma SomeTickets(rows: seq<ParticipantData>, slot: map<Pubkey, nat>)
    requires AllOpen(rows, slot) && Sum(rows, IncludedOne()) > 0
    ensures Sum(Pool(rows), EligibleOne()) > 0 && Sum(Pool(rows), EligibleTickets()) > 0
  {
    SumEq(rows, IncludedOne(), Pool(rows), EligibleOne());
    SumLe(Pool(rows), EligibleOne(), Pool(rows), EligibleTickets());
  }

  // ----- selection -----

  lemma VisitOk(root: LedgerData, rows: seq<ParticipantData>, pool: seq<Entry>, who: seq<nat>, k: nat)
    requires Walking(root, rows, pool, who) && pool == Pool(rows) && SmallPool(pool) && root.generation == 1
    requires k == root.roundProcessedCount < |rows| <= MAX_PARTICIPANTS
    requires rows[k].index == k && rows[k].tickets > 0 && rows[k].finalizationGeneration == 1
    ensures FinalizeWinners.Visit(root, rows[k]).Ok?
  {
    TicketListNext(pool, who, k);
    SeenBefore(pool, who, k);
    TicketListBound(pool[..k + 1], who);
    SumPrefix(pool, k + 1, EligibleTickets());
  }

  lemma SelectOneOk(slot: map<Pubkey, nat>, pass: Pass, who: seq<nat>, k: nat)
    requires Walking(pass.root, pass.rows, Pool(pass.rows), who) && SmallPool(Pool(pass.rows)) && pass.root.generation == 1
    requires AllOpen(pass.rows, slot) && k == pass.root.roundProcessedCount < |pass.rows| <= MAX_PARTICIPANTS
    requires pass.rows[k].finalizationGeneration == 1
    ensures FinalizeWinners.SelectOne(slot, pass, pass.rows[k].wallet).Ok?
  {
    VisitOk(pass.root, pass.rows, Pool(pass.rows), who, k);
    hide FinalizeWinners.Visit;
  }

  lemma WalkedPass(start: Pass, pass: Pass, who: seq<nat>)
    requires Walked(start, pass, who)
    ensures OnlyMarks(start.rows, pass.rows) && Walking(pass.root, pass.rows, Pool(start.rows), who)
    ensures pass.root.generation == start.root.generation
    ensures forall i :: 0 <= i < |start.rows| ==>
              i < |pass.rows| && pass.rows[i].finalizationGeneration == start.rows[i].finalizationGeneration
  {
  }

  lemma SelectNextOk(slot: map<Pubkey, nat>, start: Pass, pass: Pass, who: seq<nat>, k: nat)
    requires Walked(start, pass, who) && SmallPool(Pool(start.rows)) && |start.rows| <= MAX_PARTICIPANTS
    requires AllOpen(start.rows, slot) && start.root.generation == 1
    requires forall i :: 0 <= i < |start.rows| ==> start.rows[i].finalizationGeneration == 1
    requires k == pass.root.roundProcessedCount < |start.rows|
    ensures FinalizeWinners.SelectOne(slot, pass, start.rows[k].wallet).Ok?
  {
    hide FinalizeWinners.SelectOne, Walked, SmallPool, AllOpen, Walking;
    WalkedPass(start, pass, who);
    MarksKeepPool(start.rows, pass.rows);
    MarksOpen(start.rows, pass.rows, slot);
    SelectOneOk(slot, pass, who, k);
  }

  lemma SelectAllSplit(slot: map<Pubkey, nat>, start: Pass, keys: seq<Pubkey>)
    requires keys != [] && FinalizeWinners.SelectAll(slot, start, keys[..|keys| - 1]).Ok?
    ensures FinalizeWinners.SelectAll(slot, start, keys)
         == FinalizeWinners.SelectOne(slot, FinalizeWinners.SelectAll(slot, start, keys[..|keys| - 1]).value, keys[|keys| - 1])
  {
  }

  lemma SelectNone(slot: map<Pubkey, nat>, start: Pass, first: nat)
    requires first <= |start.rows|
    ensures FinalizeWinners.SelectAll(slot, start, Wallets(start.rows, first, first)).Ok?
  {
  }

  /** Any run of the exact next participants is accepted. */
  lemma {:induction false} SelectAllOk(slot: map<Pubkey, nat>, start: Pass, who: seq<nat>, last: nat)
    requires Walked(start, start, who) && SmallPool(Pool(start.rows)) && |start.rows| <= MAX_PARTICIPANTS
    requires AllOpen(start.rows, slot) && Indexed(start.rows) && start.root.generation == 1
    requires forall i :: 0 <= i < |start.rows| ==> start.rows[i].finalizationGeneration == 1
    requires start.root.roundProcessedCount <= last <= |start.rows|
    ensures FinalizeWinners.SelectAll(slot, start, Wallets(start.rows, start.root.roundProcessedCount, last)).Ok?
    decreases last
  {
    hide *;
    var first := start.root.roundProcessedCount;
    if first == last {
      SelectNone(slot, start, first);
    } else {
      var keys := Wallets(start.rows, first, last);
      WalletsSplit(start.rows, first, last);
      SelectAllOk(slot, start, who, last - 1);
      SelectAllKeeps(slot, start, who, keys[..|keys| - 1]);
      SelectNextOk(slot, start, FinalizeWinners.SelectAll(slot, start, keys[..|keys| - 1]).value, who, last - 1);
      SelectAllSplit(slot, start, keys);
    }
  }

  // ----- the end of a full pass -----

  lemma AppendOk(root: LedgerData, pages: map<nat, PageData>, winners: seq<SelectedWinner>)
    requires root.RemainingTickets() == Ok(root.roundTicketsSeen) && root.pendingWinnerFound
    requires PagesHold(pages, winners) && |winners| == root.selectedCount && root.generation == 1
    ensures FinalizeWinners.AppendWinner(root, pages).Ok?
  {
    var i := root.selectedCount / WINNERS_PER_PAGE;
    assert i in pages <==> i * WINNERS_PER_PAGE < |winners|;
    if i in pages {
      PageLoaded(pages, winners, i);
    }
  }

  lemma RecordOk(h: Hashes, root: LedgerData, x: SelectedWinner)
    requires root.selectedCount < root.targetWinners <= MAX_WINNERS && root.selectedTicketsTotal + x.tickets <= U64_MAX
    ensures root.RecordWinner(h, x).Ok?
  {
  }

  lemma CompleteOk(l: LotteryData, root: LedgerData, now: int)
    requires !l.settlementComplete && root.selectedCount <= MAX_WINNERS
    requires PayoutPlan(l.totalFunds, l.bps, root.selectedCount).Ok?
    ensures FinalizeWinners.Complete(l, root, now).Ok?
  {
  }

  lemma AfterWinnerOk(s: State, root: LedgerData, r1: LedgerData)
    requires root.RecordWinner(s.h, SelectedWinner(root.pendingWinner, root.pendingWinnerTickets)) == Ok(r1)
    requires r1.currentRound + 1 <= U32_MAX
    requires r1.selectedCount == r1.targetWinners ==> FinalizeWinners.Complete(s.lottery, r1, s.now).Ok?
    requires r1.selectedCount != r1.targetWinners ==> FinalizeWinners.OpenRound(s.h, r1, r1.currentRound + 1).Ok?
    ensures FinalizeWinners.AfterWinner(s, root).Ok?
  {
    hide FinalizeWinners.Complete, FinalizeWinners.OpenRound;
  }

  /** The winner's tickets fit into the running total. */
  lemma TicketsFit(h: Hashes, root: LedgerData, pool: seq<Entry>, w: nat)
    requires SmallPool(pool) && Winners(h, root.seed, pool, root.selectedCount).Some? && Recorded(h, root, pool)
    requires w < |pool| && Winners(h, root.seed, pool, root.selectedCount + 1) == Some(Drawn(h, root, pool) + [w])
    ensures root.selectedTicketsTotal + pool[w].tickets <= U64_MAX
  {
    WinnersFacts(h, root.seed, pool, root.selectedCount);
    WinnersFacts(h, root.seed, pool, root.selectedCount + 1);
    OneMoreWinner(h, pool, Drawn(h, root, pool), w);
  }

  lemma LedgerTarget(s: State, root: LedgerData, rows: seq<ParticipantData>, pool: seq<Entry>, target: nat)
    requires SmallPool(pool) && DrawnLedger(s.h, s.lottery.id, s.MaxWinners(), root, rows, pool)
    requires TargetOf(pool, s.MaxWinners(), target)
    ensures root.targetWinners == target && root.seed == SeedFor(s.h, s.lottery.id, pool)
  {
    DrawnTarget(s.h, s.lottery.id, s.MaxWinners(), root, rows, pool);
    TargetUnique(pool, s.MaxWinners(), target, root.targetWinners);
  }

  lemma PassOverParts(s: State, root: LedgerData, rows: seq<ParticipantData>, pool: seq<Entry>)
    requires PassOver(s, root, rows, pool)
    ensures SmallPool(pool) && |rows| == |pool| == root.requiredCount == root.roundProcessedCount && root.generation == 1
    ensures DrawnLedger(s.h, s.lottery.id, s.MaxWinners(), root, rows, pool) && Recorded(s.h, root, pool)
    ensures PassInProgress(s.h, root, rows, pool) && Winners(s.h, root.seed, pool, root.selectedCount).Some?
  {
    hide Recorded, PassInProgress;
  }

  /** At the end of a full pass the winner is always found, and recording it succeeds if the lottery can be paid out. */
  lemma EndSelectionOk(s: State, root: LedgerData, rows: seq<ParticipantData>, pool: seq<Entry>, target: nat)
    requires PassOver(s, root, rows, pool) && s.MaxWinners() <= MAX_WINNERS && !s.lottery.settlementComplete
    requires root.phase == Selecting && PagesHold(s.pages, WinnerList(s.h, root, pool))
    requires Payable(s.h, s.lottery.id, s.MaxWinners(), s.lottery.totalFunds, s.lottery.bps, pool, target)
    ensures FinalizeWinners.AppendWinner(root, s.pages).Ok? && FinalizeWinners.AfterWinner(s, root).Ok?
  {
    hide FinalizeWinners.AppendWinner, FinalizeWinners.AfterWinner, FinalizeWinners.Complete, FinalizeWinners.OpenRound,
         PassOver, Recorded, PassInProgress, DrawnLedger, PagesHold, WinnerList, PayoutPlan, TargetOf, Drawn, SeedFor, MarkedAs;
    var h, id, cap := s.h, s.lottery.id, s.MaxWinners();
    PassOverParts(s, root, rows, pool);
    LedgerTarget(s, root, rows, pool, target);
    DrawnTarget(h, id, cap, root, rows, pool);
    var w := PassEnds(h, id, cap, root, rows, pool);
    ListLength(h, root, pool);
    AppendOk(root, s.pages, WinnerList(h, root, pool));
    TicketsFit(h, root, pool, w);
    var x := SelectedWinner(pool[w].wallet, pool[w].tickets);
    RecordOk(h, root, x);
    WinnerRecorded(h, id, cap, root, rows, pool, w);
    RecordEffect(h, root, x);
    var r1 := root.RecordWinner(h, x).value;
    if r1.selectedCount == r1.targetWinners {
      CompleteOk(s.lottery, r1, s.now);
    } else {
      NextRoundOk(h, id, cap, r1, rows, pool, target);
    }
    AfterWinnerOk(s, root, r1);
  }

  lemma ListLength(h: Hashes, root: LedgerData, pool: seq<Entry>)
    requires SmallPool(pool) && Winners(h, root.seed, pool, root.selectedCount).Some? && root.phase != Aggregating
    ensures |WinnerList(h, root, pool)| == root.selectedCount
  {
  }
}
