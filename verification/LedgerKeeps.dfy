/** What one chunk does to the ledger: the end of the aggregation pass and the end of a selection pass. */
module LedgerKeeps {
  import opened Prelude
  import opened Digests
  import opened Participants
  import opened VoteTallies
  import opened TicketDraw
  import opened DrawIndex
  import opened WinnerPages
  import opened FinalizationLedgers
  import opened Lotteries
  import opened Payouts
  import opened States
  import opened Invariants
  import opened RoundKeeps
  import FinalizeWinners

  // ----- the end of the aggregation pass -----

  /** The ledger just before round 0 is opened. */
  function Targeted(h: Hashes, id: nat, cap: nat, votes: nat, root: LedgerData, pool: seq<Entry>): LedgerData {
    root.(targetWinners := FinalizeWinners.Target(votes, cap, root.eligibleCount), seed := SeedFor(h, id, pool))
  }

  /** Once everybody has been folded the ledger holds the totals of the whole pool and no winner. */
  lemma FullyFolded(h: Hashes, id: nat, cap: nat, votes: nat, root: LedgerData, rows: seq<ParticipantData>, pool: seq<Entry>)
    requires FoldedLedger(h, root, rows, pool) && SmallPool(pool) && |rows| == |pool| == root.processedCount
    requires root.eligibleCount > 0 && cap >= 1 && WinsVote(pool, cap, votes)
    ensures var r := Targeted(h, id, cap, votes, root, pool);
            && DrawnLedger(h, id, cap, r, rows, pool) && Recorded(h, r, pool)
            && Drawn(h, r, pool) == [] && MarkedAs(rows, []) && r.selectedCount == 0 < r.targetWinners
  {
    assert pool[..root.processedCount] == pool;
  }

  lemma SeedIsPoolSeed(h: Hashes, l: LotteryData, root: LedgerData, rows: seq<ParticipantData>, pool: seq<Entry>)
    requires FoldedLedger(h, root, rows, pool) && |pool| == root.processedCount && l.aggregate == Entropy(pool)
    ensures FinalizeWinners.SeedOf(h, l, root) == SeedFor(h, l.id, pool)
  {
    assert pool[..root.processedCount] == pool;
  }

  lemma EndAggregationEffect(s: State, root: LedgerData, rows: seq<ParticipantData>, pool: seq<Entry>)
    requires FinalizeWinners.EndAggregation(s, root).Ok? && root.processedCount == root.requiredCount
    requires FoldedLedger(s.h, root, rows, pool) && |pool| == root.processedCount && s.lottery.aggregate == Entropy(pool)
    ensures root.eligibleCount > 0
    ensures var r0 := Targeted(s.h, s.lottery.id, s.MaxWinners(), s.lottery.selectedWinners, root, pool);
            && FinalizeWinners.OpenRound(s.h, r0, 0).Ok?
            && FinalizeWinners.EndAggregation(s, root).value
               == (s.lottery.(selectedWinners := r0.targetWinners), FinalizeWinners.OpenRound(s.h, r0, 0).value)
  {
    hide FinalizeWinners.OpenRound, FinalizeWinners.SeedOf, FoldedLedger, SeedFor;
    var l := s.lottery.(selectedWinners := FinalizeWinners.Target(s.lottery.selectedWinners, s.MaxWinners(), root.eligibleCount));
    SeedIsPoolSeed(s.h, l, root, rows, pool);
  }

  /** What the ledger and the lottery become after an aggregation chunk. */
  ghost predicate Advanced(s: State, l: LotteryData, r: LedgerData, rows: seq<ParticipantData>, pool: seq<Entry>) {
    && LedgerOk(s.h, s.lottery.id, s.MaxWinners(), r, rows, pool)
    && r.phase != Completed && WinnerList(s.h, r, pool) == []
    && l == s.lottery.(selectedWinners := l.selectedWinners)
    && (r.phase == Aggregating ==> l == s.lottery)
  }

  lemma StillAggregating(s: State, root: LedgerData, rows: seq<ParticipantData>, pool: seq<Entry>)
    requires FinalizeWinners.EndAggregation(s, root).Ok? && root.processedCount != root.requiredCount
    requires FoldedLedger(s.h, root, rows, pool) && SmallPool(pool)
    requires root.generation == 1 && root.requiredCount == |pool| == |rows| && root.phase == Aggregating
    ensures var (l, r) := FinalizeWinners.EndAggregation(s, root).value;
            Advanced(s, l, r, rows, pool)
  {
    hide FoldedLedger;
    var (l, r) := FinalizeWinners.EndAggregation(s, root).value;
    assert l == s.lottery && r == root && root.processedCount < root.requiredCount;
  }

  lemma AggregationEnds(s: State, root: LedgerData, rows: seq<ParticipantData>, pool: seq<Entry>)
    requires FinalizeWinners.EndAggregation(s, root).Ok? && root.processedCount == root.requiredCount
    requires FoldedLedger(s.h, root, rows, pool) && SmallPool(pool)
    requires root.generation == 1 && root.requiredCount == |pool| == |rows| >= 2
    requires s.lottery.aggregate == Entropy(pool) && s.MaxWinners() >= 1
    requires WinsVote(pool, s.MaxWinners(), s.lottery.selectedWinners)
    ensures var (l, r) := FinalizeWinners.EndAggregation(s, root).value;
            Advanced(s, l, r, rows, pool)
  {
    hide FinalizeWinners.EndAggregation, FinalizeWinners.OpenRound, FoldedLedger, DrawnLedger, Recorded, PassInProgress, MarkedAs;
    var cap := s.MaxWinners();
    EndAggregationEffect(s, root, rows, pool);
    FullyFolded(s.h, s.lottery.id, cap, s.lottery.selectedWinners, root, rows, pool);
    var r0 := Targeted(s.h, s.lottery.id, cap, s.lottery.selectedWinners, root, pool);
    RoundOpens(s.h, s.lottery.id, cap, r0, rows, pool);
  }

  // ----- the end of a selection pass -----

  /** A full pass: every remaining ticket has been seen once, and exactly one participant held the drawn one. */
  lemma PassEnds(h: Hashes, id: nat, cap: nat, root: LedgerData, rows: seq<ParticipantData>, pool: seq<Entry>) returns (w: nat)
    requires SmallPool(pool) && DrawnLedger(h, id, cap, root, rows, pool) && Recorded(h, root, pool)
    requires PassInProgress(h, root, rows, pool) && root.roundProcessedCount == |pool| == |rows|
    ensures root.RemainingTickets() == Ok(root.roundTicketsSeen) && root.pendingWinnerFound
    ensures w < |pool| && pool[w].tickets > 0 && root.pendingWinner == pool[w].wallet && root.pendingWinnerTickets == pool[w].tickets
    ensures Winners(h, root.seed, pool, root.selectedCount + 1) == Some(Drawn(h, root, pool) + [w])
    ensures MarkedAs(rows, Drawn(h, root, pool) + [w])
    ensures root.currentRound == root.selectedCount < root.targetWinners
  {
    var who := Drawn(h, root, pool);
    RemainingIsList(h, id, cap, root, rows, pool);
    assert pool[..root.roundProcessedCount] == pool;
    var tickets := TicketList(pool, who);
    DrawInRange(h, root.seed, root.currentRound, |tickets|);
    TicketListOwners(pool, who, root.roundDrawIndex);
    w := tickets[root.roundDrawIndex];
  }

  lemma RecordEffect(h: Hashes, root: LedgerData, x: SelectedWinner)
    requires root.RecordWinner(h, x).Ok?
    ensures root.selectedCount < root.targetWinners
    ensures root.RecordWinner(h, x).value
         == root.(selectedCount := root.selectedCount + 1, selectedTicketsTotal := root.selectedTicketsTotal + x.tickets,
                  winnersCommitment := h.winners(root.winnersCommitment, root.selectedCount, x.wallet, x.tickets))
  {
  }

  /** One more drawn participant, one more record, one more link in the commitment. */
  lemma OneMoreWinner(h: Hashes, pool: seq<Entry>, who: seq<nat>, w: nat)
    requires (forall i :: 0 <= i < |who| ==> who[i] < |pool|) && w < |pool|
    ensures Records(pool, who + [w]) == Records(pool, who) + [SelectedWinner(pool[w].wallet, pool[w].tickets)]
    ensures TicketsOf(pool, who + [w]) == TicketsOf(pool, who) + pool[w].tickets
    ensures WinnersCommitment(h, Records(pool, who + [w]))
         == h.winners(WinnersCommitment(h, Records(pool, who)), |who|, pool[w].wallet, pool[w].tickets)
  {
    var x := SelectedWinner(pool[w].wallet, pool[w].tickets);
    assert Records(pool, who + [w]) == Records(pool, who) + [x];
    assert (Records(pool, who) + [x])[..|who|] == Records(pool, who);
    assert (who + [w])[..|who|] == who;
  }

  /** Recording the pending winner keeps ledger and simple draw together. */
  lemma WinnerRecorded(h: Hashes, id: nat, cap: nat, root: LedgerData, rows: seq<ParticipantData>, pool: seq<Entry>, w: nat)
    requires SmallPool(pool) && DrawnLedger(h, id, cap, root, rows, pool) && Recorded(h, root, pool)
    requires w < |pool| && Winners(h, root.seed, pool, root.selectedCount + 1) == Some(Drawn(h, root, pool) + [w])
    requires root.RecordWinner(h, SelectedWinner(pool[w].wallet, pool[w].tickets)).Ok?
    ensures var r := root.RecordWinner(h, SelectedWinner(pool[w].wallet, pool[w].tickets)).value;
            && DrawnLedger(h, id, cap, r, rows, pool) && Recorded(h, r, pool)
            && Drawn(h, r, pool) == Drawn(h, root, pool) + [w]
  {
    hide WinsVote, PoolCommitment, SeedFor, TicketList, FinalizeWinners.Target, Winners, WinnersCommitment, TicketsOf,
         LedgerData.RecordWinner;
    var x := SelectedWinner(pool[w].wallet, pool[w].tickets);
    WinnersFacts(h, root.seed, pool, root.selectedCount);
    OneMoreWinner(h, pool, Drawn(h, root, pool), w);
    RecordEffect(h, root, x);
  }

  // ----- winner pages -----

  /** Appending the next winner to its page keeps the pages in step with the list. */
  lemma PageAppended(pages: map<nat, PageData>, winners: seq<SelectedWinner>, x: SelectedWinner, page: PageData)
    requires PagesHold(pages, winners)
    requires var i := |winners| / WINNERS_PER_PAGE;
             FinalizeWinners.LoadPage(pages, 1, i).Ok? && FinalizeWinners.LoadPage(pages, 1, i).value.Append(x) == Ok(page)
    ensures PagesHold(pages[|winners| / WINNERS_PER_PAGE := page], winners + [x])
  {
    var i := |winners| / WINNERS_PER_PAGE;
    var after, list := pages[i := page], winners + [x];
    forall k: nat
      ensures k in after <==> k * WINNERS_PER_PAGE < |list|
      ensures k in after ==>
                && after[k].generation == 1 && after[k].pageIndex == k
                && after[k].winners == list[k * WINNERS_PER_PAGE..Min(|list|, (k + 1) * WINNERS_PER_PAGE)]
    {
      if k == i {
        PageLoaded(pages, winners, i);
      }
    }
  }

  /** The page of the next winner holds the winners since the last full page. */
  lemma PageLoaded(pages: map<nat, PageData>, winners: seq<SelectedWinner>, i: nat)
    requires PagesHold(pages, winners) && i == |winners| / WINNERS_PER_PAGE
    requires FinalizeWinners.LoadPage(pages, 1, i).Ok?
    ensures var p := FinalizeWinners.LoadPage(pages, 1, i).value;
            p.generation == 1 && p.pageIndex == i && p.winners == winners[i * WINNERS_PER_PAGE..]
  {
  }

  /** Appending a winner marks nobody as paid. */
  lemma AppendPaysNobody(pages: map<nat, PageData>, i: nat, x: SelectedWinner, page: PageData, paid: set<nat>)
    requires FinalizeWinners.LoadPage(pages, 1, i).Ok? && FinalizeWinners.LoadPage(pages, 1, i).value.Append(x) == Ok(page)
    requires forall k: nat :: PagePaid(pages, k) <==> k in paid
    ensures forall k: nat :: PagePaid(pages[i := page], k) <==> k in paid
  {
    forall k: nat
      ensures PagePaid(pages[i := page], k) <==> k in paid
    {
      assert PagePaid(pages, k) <==> k in paid;
    }
  }

  // ----- after the winner is stored -----

  lemma AppendEffect(root: LedgerData, pages: map<nat, PageData>)
    requires FinalizeWinners.AppendWinner(root, pages).Ok?
    ensures var i := root.selectedCount / WINNERS_PER_PAGE;
            && FinalizeWinners.LoadPage(pages, root.generation, i).Ok?
            && FinalizeWinners.LoadPage(pages, root.generation, i).value.Append(
                 SelectedWinner(root.pendingWinner, root.pendingWinnerTickets))
               == Ok(FinalizeWinners.AppendWinner(root, pages).value)
  {
  }

  lemma AfterWinnerEffect(s: State, root: LedgerData) returns (r1: LedgerData)
    requires FinalizeWinners.AfterWinner(s, root).Ok?
    ensures root.RecordWinner(s.h, SelectedWinner(root.pendingWinner, root.pendingWinnerTickets)) == Ok(r1)
    ensures if r1.selectedCount == r1.targetWinners
            then && FinalizeWinners.Complete(s.lottery, r1, s.now).Ok?
                 && FinalizeWinners.AfterWinner(s, root).value == FinalizeWinners.Complete(s.lottery, r1, s.now).value
            else && FinalizeWinners.OpenRound(s.h, r1, r1.currentRound + 1).Ok?
                 && FinalizeWinners.AfterWinner(s, root).value
                    == (s.lottery, FinalizeWinners.OpenRound(s.h, r1, r1.currentRound + 1).value)
  {
    hide FinalizeWinners.Complete, FinalizeWinners.OpenRound;
    r1 := root.RecordWinner(s.h, SelectedWinner(root.pendingWinner, root.pendingWinnerTickets)).value;
  }

  /** Completion fixes the payouts of an open lottery and marks nobody as paid. */
  ghost predicate Settles(l: LotteryData, m: LotteryData, root: LedgerData, now: int) {
    && !l.settlementComplete && root.selectedCount <= MAX_WINNERS
    && PayoutPlan(l.totalFunds, l.bps, root.selectedCount).Ok?
    && m == l.(winnersRoot := root.winnersCommitment, winnersCount := root.selectedCount,
               totalPayout := PayoutPlan(l.totalFunds, l.bps, root.selectedCount).value.1,
               paidBitmap := m.paidBitmap,
               settlementStart := if l.settlementStart == 0 then now else l.settlementStart)
    && Paid(m) == {}
  }

  lemma CompleteEffect(l: LotteryData, root: LedgerData, now: int)
    requires FinalizeWinners.Complete(l, root, now).Ok?
    ensures var (m, r) := FinalizeWinners.Complete(l, root, now).value;
            Settles(l, m, root, now) && r == root.Complete(now)
  {
    var (per, total) := PayoutPlan(l.totalFunds, l.bps, root.selectedCount).value;
    InitializedUnpaid(l, root.winnersCommitment, root.selectedCount, total);
    hide PayoutPlan, PaidSet;
  }

  /** What a selection chunk leaves: a ledger in step with the draw, and payouts once it is complete. */
  ghost predicate Continued(s: State, l: LotteryData, r: LedgerData, rows: seq<ParticipantData>, pool: seq<Entry>,
                            pages: map<nat, PageData>) {
    && LedgerOk(s.h, s.lottery.id, s.MaxWinners(), r, rows, pool) && r.phase != Aggregating
    && PagesHold(pages, WinnerList(s.h, r, pool))
    && (r.phase == Selecting ==> l == s.lottery)
    && (r.phase == Completed ==> Settles(s.lottery, l, r, s.now))
    && forall k: nat :: PagePaid(pages, k) <==> k in Paid(s.lottery)
  }

  /** The state of a ledger at the end of a pass. */
  ghost predicate PassOver(s: State, root: LedgerData, rows: seq<ParticipantData>, pool: seq<Entry>) {
    && SmallPool(pool) && |rows| == |pool| == root.requiredCount == root.roundProcessedCount && root.generation == 1
    && DrawnLedger(s.h, s.lottery.id, s.MaxWinners(), root, rows, pool) && Recorded(s.h, root, pool)
    && PassInProgress(s.h, root, rows, pool)
  }

  lemma CompleteFrame(h: Hashes, id: nat, cap: nat, root: LedgerData, now: int, rows: seq<ParticipantData>, pool: seq<Entry>)
    requires SmallPool(pool) && DrawnLedger(h, id, cap, root, rows, pool) && Recorded(h, root, pool)
    requires |rows| == |pool| == root.requiredCount && root.generation == 1 && root.selectedCount == root.targetWinners
    requires MarkedAs(rows, Drawn(h, root, pool))
    ensures LedgerOk(h, id, cap, root.Complete(now), rows, pool) && root.Complete(now).phase == Completed
    ensures Drawn(h, root.Complete(now), pool) == Drawn(h, root, pool)
    ensures root.Complete(now).selectedCount == root.selectedCount
    ensures root.Complete(now).winnersCommitment == root.winnersCommitment
  {
    RecordFrame(h, id, cap, root, root.Complete(now), rows, rows, pool);
  }

  /** Recording the winner of a full pass, and then completing or opening the next round. */
  lemma WinnerStored(s: State, root: LedgerData, rows: seq<ParticipantData>, pool: seq<Entry>) returns (w: nat)
    requires PassOver(s, root, rows, pool) && |rows| > 0
    requires FinalizeWinners.AfterWinner(s, root).Ok?
    ensures var (l, r) := FinalizeWinners.AfterWinner(s, root).value;
            && LedgerOk(s.h, s.lottery.id, s.MaxWinners(), r, rows, pool) && r.phase != Aggregating
            && (r.phase == Selecting ==> l == s.lottery)
            && (r.phase == Completed ==> Settles(s.lottery, l, r, s.now))
            && w < |pool| && root.pendingWinner == pool[w].wallet && root.pendingWinnerTickets == pool[w].tickets
            && Drawn(s.h, r, pool) == Drawn(s.h, root, pool) + [w]
  {
    hide FinalizeWinners.AfterWinner, FinalizeWinners.Complete, FinalizeWinners.OpenRound,
         Recorded, MarkedAs, Settles, DrawnLedger, PassInProgress;
    var h, id, cap := s.h, s.lottery.id, s.MaxWinners();
    w := PassEnds(h, id, cap, root, rows, pool);
    var r1 := AfterWinnerEffect(s, root);
    WinnerRecorded(h, id, cap, root, rows, pool, w);
    RecordEffect(h, root, SelectedWinner(root.pendingWinner, root.pendingWinnerTickets));
    if r1.selectedCount == r1.targetWinners {
      CompleteEffect(s.lottery, r1, s.now);
      CompleteFrame(h, id, cap, r1, s.now, rows, pool);
      SettledFrame(s.lottery, FinalizeWinners.Complete(s.lottery, r1, s.now).value.0, r1, r1.Complete(s.now), s.now);
    } else {
      RoundOpens(h, id, cap, r1, rows, pool);
    }
  }

  lemma SettledFrame(l: LotteryData, m: LotteryData, root: LedgerData, after: LedgerData, now: int)
    requires Settles(l, m, root, now)
    requires after.selectedCount == root.selectedCount && after.winnersCommitment == root.winnersCommitment
    ensures Settles(l, m, after, now)
  {
  }
}
