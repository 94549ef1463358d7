/** Every FinalizeWinners call keeps the invariant, however participants are cut into chunks. */
module FinalizationKeeps {
  import opened Prelude
  import opened Digests
  import opened Sums
  import opened Participants
  import opened VoteTallies
  import opened TicketDraw
  import opened WinnerPages
  import opened FinalizationLedgers
  import opened Lotteries
  import opened Payouts
  import opened Banks
  import opened States
  import opened Invariants
  import opened AggregationKeeps
  import opened RoundKeeps
  import opened SelectionKeeps
  import opened LedgerKeeps
  import opened AttestationKeeps
  import FinalizeWinners

  // ----- the end of a selection chunk -----

  lemma EndSelectionEffect(s: State, root: LedgerData)
    requires FinalizeWinners.EndSelection(s, root).Ok?
    ensures root.roundProcessedCount <= root.requiredCount
    ensures if root.roundProcessedCount < root.requiredCount
            then FinalizeWinners.EndSelection(s, root).value == (s.lottery, root, s.pages)
            else && FinalizeWinners.AppendWinner(root, s.pages).Ok? && FinalizeWinners.AfterWinner(s, root).Ok?
                 && var (l, r) := FinalizeWinners.AfterWinner(s, root).value;
                    FinalizeWinners.EndSelection(s, root).value
                    == (l, r, s.pages[root.selectedCount / WINNERS_PER_PAGE := FinalizeWinners.AppendWinner(root, s.pages).value])
  {
    hide FinalizeWinners.AppendWinner, FinalizeWinners.AfterWinner;
  }

  /** A ledger inside or at the end of a pass. */
  ghost predicate InPass(s: State, root: LedgerData, rows: seq<ParticipantData>, pool: seq<Entry>) {
    && SmallPool(pool) && |rows| == |pool| == root.requiredCount && root.generation == 1 && root.phase == Selecting
    && DrawnLedger(s.h, s.lottery.id, s.MaxWinners(), root, rows, pool) && Recorded(s.h, root, pool)
    && PassInProgress(s.h, root, rows, pool)
  }

  lemma StillSelecting(s: State, root: LedgerData, rows: seq<ParticipantData>, pool: seq<Entry>)
    requires InPass(s, root, rows, pool) && root.roundProcessedCount < root.requiredCount
    requires PagesHold(s.pages, WinnerList(s.h, root, pool))
    requires forall k: nat :: PagePaid(s.pages, k) <==> k in Paid(s.lottery)
    ensures Continued(s, s.lottery, root, rows, pool, s.pages)
  {
    hide Recorded, PagesHold, WinnerList, DrawnLedger, PassInProgress, PaidSet;
  }

  lemma ListGrows(h: Hashes, root: LedgerData, r: LedgerData, pool: seq<Entry>, w: nat)
    requires SmallPool(pool) && root.phase != Aggregating && r.phase != Aggregating && w < |pool|
    requires Winners(h, root.seed, pool, root.selectedCount).Some? && Winners(h, r.seed, pool, r.selectedCount).Some?
    requires Drawn(h, r, pool) == Drawn(h, root, pool) + [w]
    ensures WinnerList(h, r, pool) == WinnerList(h, root, pool) + [SelectedWinner(pool[w].wallet, pool[w].tickets)]
    ensures |WinnerList(h, root, pool)| == root.selectedCount
  {
    WinnersFacts(h, root.seed, pool, root.selectedCount);
    WinnersFacts(h, r.seed, pool, r.selectedCount);
    OneMoreWinner(h, pool, Drawn(h, root, pool), w);
  }

  lemma InPassFacts(s: State, root: LedgerData, rows: seq<ParticipantData>, pool: seq<Entry>)
    requires InPass(s, root, rows, pool)
    ensures SmallPool(pool) && Winners(s.h, root.seed, pool, root.selectedCount).Some? && |rows| == |pool| == root.requiredCount
    ensures root.phase == Selecting && root.generation == 1
    ensures root.roundProcessedCount == root.requiredCount ==> PassOver(s, root, rows, pool)
  {
    hide Recorded, PassInProgress;
  }

  lemma LedgerOkFacts(h: Hashes, id: nat, cap: nat, root: LedgerData, rows: seq<ParticipantData>, pool: seq<Entry>)
    requires LedgerOk(h, id, cap, root, rows, pool) && root.phase != Aggregating
    ensures SmallPool(pool) && Winners(h, root.seed, pool, root.selectedCount).Some?
  {
    hide Recorded, PassInProgress, FoldedLedger;
  }

  lemma SelectionEnds(s: State, root: LedgerData, rows: seq<ParticipantData>, pool: seq<Entry>)
    requires InPass(s, root, rows, pool) && |rows| > 0
    requires PagesHold(s.pages, WinnerList(s.h, root, pool))
    requires forall k: nat :: PagePaid(s.pages, k) <==> k in Paid(s.lottery)
    requires FinalizeWinners.EndSelection(s, root).Ok?
    ensures var (l, r, pages) := FinalizeWinners.EndSelection(s, root).value;
            Continued(s, l, r, rows, pool, pages)
  {
    hide FinalizeWinners.EndSelection, FinalizeWinners.AfterWinner, FinalizeWinners.AppendWinner, InPass, PassOver,
         Drawn, WinnerList, PagesHold, LedgerOk, Settles, PaidSet, PagePaid;
    EndSelectionEffect(s, root);
    InPassFacts(s, root, rows, pool);
    if root.roundProcessedCount < root.requiredCount {
      StillSelecting(s, root, rows, pool);
    } else {
      var w := WinnerStored(s, root, rows, pool);
      var (l, r) := FinalizeWinners.AfterWinner(s, root).value;
      LedgerOkFacts(s.h, s.lottery.id, s.MaxWinners(), r, rows, pool);
      AppendEffect(root, s.pages);
      ListGrows(s.h, root, r, pool, w);
      var x := SelectedWinner(root.pendingWinner, root.pendingWinnerTickets);
      var page := FinalizeWinners.AppendWinner(root, s.pages).value;
      PageAppended(s.pages, WinnerList(s.h, root, pool), x, page);
      AppendPaysNobody(s.pages, root.selectedCount / WINNERS_PER_PAGE, x, page, Paid(s.lottery));
    }
  }

  // ----- guards and loading -----

  lemma CheckEffect(s: State, keys: seq<Pubkey>)
    requires FinalizeWinners.Check(s, keys).Ok?
    ensures s.vaultOpen
    ensures var l, gate := s.lottery, FinalizeWinners.Check(s, keys).value;
            && (gate != FinalizeWinners.Skip ==>
                  !l.settled && !l.settlementComplete && l.participantsCount >= 2 && l.attestedCount > 0)
            && (gate == FinalizeWinners.Remediate ==>
                  l.HasMissingAttestedReveals() && l.UploadElapsed(s.now) && l.remediationStart == 0)
            && (gate == FinalizeWinners.Proceed ==>
                  !l.HasMissingAttestedReveals() && (l.uploadsComplete || l.UploadElapsed(s.now)) && keys != [])
  {
  }

  /** Past the guards the pool is frozen. */
  lemma ProceedFrozen(l: LotteryData, now: int)
    requires Clockwork(l, now) && !l.settled && l.participantsCount >= 2 && l.attestedCount > 0
    requires !l.HasMissingAttestedReveals() && (l.uploadsComplete || l.UploadElapsed(now))
    ensures Frozen(l, now)
  {
  }

  lemma EligibleFit(l: LotteryData, cap: nat, rows: seq<ParticipantData>)
    requires Counted(l, cap, rows)
    ensures SmallPool(Pool(rows))
  {
    SumLe(Pool(rows), EligibleTickets(), rows, TicketsHeld());
  }

  /** The ledger an instruction works on: a new one before the first chunk, the stored one afterwards. */
  ghost predicate LedgerLoaded(s: State, root: LedgerData) {
    && LedgerOk(s.h, s.lottery.id, s.MaxWinners(), root, s.rows, Pool(s.rows))
    && PagesHold(s.pages, WinnerList(s.h, root, Pool(s.rows)))
    && (root.phase != Aggregating ==> s.root == Some(root))
    && (root.phase == Aggregating ==> !IsSelecting(s.root))
  }

  lemma LoadedOk(s: State, root: LedgerData)
    requires FinalizeWinners.LoadRoot(s) == Ok(root)
    requires Finalizing(s.h, s.lottery.id, s.MaxWinners(), s.root, s.rows, Pool(s.rows), s.pages)
    requires SmallPool(Pool(s.rows)) && |s.rows| == s.lottery.participantsCount >= 2
    ensures LedgerLoaded(s, root)
  {
    hide DrawnLedger, Recorded, PassInProgress;
    assert Pool(s.rows)[..0] == [];
  }

  // ----- one aggregation chunk -----

  lemma AggregateParts(s: State, root: LedgerData, keys: seq<Pubkey>) returns (pass: Pass)
    requires FinalizeWinners.Aggregate(s, root, keys).Ok?
    ensures FinalizeWinners.AggregateAll(s.h, s.slot, FinalizeWinners.Pass(root, s.rows), keys) == Ok(pass)
    ensures FinalizeWinners.EndAggregation(s, pass.root).Ok?
    ensures var (l, r) := FinalizeWinners.EndAggregation(s, pass.root).value;
            FinalizeWinners.Aggregate(s, root, keys).value == s.(lottery := l, root := Some(r), rows := pass.rows)
  {
    hide FinalizeWinners.AggregateAll, FinalizeWinners.EndAggregation;
    pass := FinalizeWinners.AggregateAll(s.h, s.slot, FinalizeWinners.Pass(root, s.rows), keys).value;
  }

  /** Before the first round the pages are empty and the ledger is a draft. */
  lemma DraftFacts(s: State, root: LedgerData)
    requires LedgerLoaded(s, root) && root.phase == Aggregating
    ensures SmallPool(Pool(s.rows)) && root.generation == 1 && root.requiredCount == |Pool(s.rows)| == |s.rows|
    ensures Aggregated(s.h, FinalizeWinners.Pass(root, s.rows), FinalizeWinners.Pass(root, s.rows))
    ensures PagesHold(s.pages, []) && !IsSelecting(s.root)
  {
    hide DrawnLedger, Recorded, PassInProgress, PagesHold;
  }

  lemma AggregatedFacts(h: Hashes, start: Pass, pass: Pass)
    requires Aggregated(h, start, pass)
    ensures OnlyMarks(start.rows, pass.rows) && FoldedLedger(h, pass.root, pass.rows, Pool(start.rows))
    ensures pass.root.generation == start.root.generation && pass.root.requiredCount == start.root.requiredCount
    ensures pass.root.phase == start.root.phase
  {
  }

  lemma VotedFacts(l: LotteryData, cap: nat, pool: seq<Entry>, tally: Option<Tally>)
    requires Voted(l, cap, pool, tally, false) && l.participantsCount >= 2
    ensures l.aggregate == Entropy(pool) && WinsVote(pool, cap, l.selectedWinners)
  {
  }

  /** However a chunk ends, the ledger it leaves is in step with the pool. */
  lemma AggregationAdvances(s: State, root: LedgerData, rows: seq<ParticipantData>, pool: seq<Entry>)
    requires FinalizeWinners.EndAggregation(s, root).Ok?
    requires FoldedLedger(s.h, root, rows, pool) && SmallPool(pool)
    requires root.generation == 1 && root.requiredCount == |pool| == |rows| >= 2 && root.phase == Aggregating
    requires s.lottery.aggregate == Entropy(pool) && s.MaxWinners() >= 1
    requires WinsVote(pool, s.MaxWinners(), s.lottery.selectedWinners)
    ensures var (l, r) := FinalizeWinners.EndAggregation(s, root).value;
            Advanced(s, l, r, rows, pool)
  {
    hide FinalizeWinners.EndAggregation, FoldedLedger, Advanced;
    if root.processedCount == root.requiredCount {
      AggregationEnds(s, root, rows, pool);
    } else {
      StillAggregating(s, root, rows, pool);
    }
  }

  lemma MarksCounted(l: LotteryData, m: LotteryData, cap: nat, rows: seq<ParticipantData>, after: seq<ParticipantData>)
    requires Counted(l, cap, rows) && OnlyMarks(rows, after) && !l.settled
    requires m.totalTickets == l.totalTickets && m.totalFunds == l.totalFunds && m.price == l.price
    requires m.attestedCount == l.attestedCount && m.providerUploaded == l.providerUploaded
    ensures Counted(m, cap, after)
  {
    SumEq(rows, TicketsHeld(), after, TicketsHeld());
    SumEq(rows, AttestedOne(), after, AttestedOne());
    SumEq(rows, IncludedOne(), after, IncludedOne());
    forall i | 0 <= i < |after|
      ensures RowOk(m, cap, after[i])
    {
      assert RowOk(l, cap, rows[i]);
    }
  }

  lemma AdvancedVoted(l: LotteryData, m: LotteryData, cap: nat, pool: seq<Entry>, tally: Option<Tally>, r: LedgerData)
    requires Voted(l, cap, pool, tally, false) && l.participantsCount >= 2
    requires m == l.(selectedWinners := m.selectedWinners) && (r.phase == Aggregating ==> m == l)
    ensures Voted(m, cap, pool, tally, IsSelecting(Some(r)))
  {
  }

  lemma AdvancedSettling(l: LotteryData, m: LotteryData, root: Option<LedgerData>, r: LedgerData, pages: map<nat, PageData>)
    requires Settling(l, root, pages) && !IsComplete(root) && r.phase != Completed
    requires m == l.(selectedWinners := m.selectedWinners)
    ensures Settling(m, Some(r), pages)
  {
  }

  /** What a committed aggregation chunk leaves. */
  lemma AggregateResult(s: State, root: LedgerData, keys: seq<Pubkey>) returns (l: LotteryData, r: LedgerData, rows: seq<ParticipantData>)
    requires LedgerLoaded(s, root) && root.phase == Aggregating && Indexed(s.rows) && |s.rows| == s.lottery.participantsCount >= 2
    requires Voted(s.lottery, s.MaxWinners(), Pool(s.rows), s.tally, IsSelecting(s.root)) && s.MaxWinners() >= 1
    requires FinalizeWinners.Aggregate(s, root, keys).Ok?
    ensures FinalizeWinners.Aggregate(s, root, keys).value == s.(lottery := l, root := Some(r), rows := rows)
    ensures OnlyMarks(s.rows, rows) && Advanced(s, l, r, rows, Pool(s.rows)) && PagesHold(s.pages, [])
    ensures Voted(s.lottery, s.MaxWinners(), Pool(s.rows), s.tally, false)
  {
    hide FinalizeWinners.Aggregate, FinalizeWinners.AggregateAll, FinalizeWinners.EndAggregation, LedgerLoaded, Aggregated,
         Voted, OnlyMarks, FoldedLedger, Advanced, Indexed, PagesHold, IsSelecting;
    DraftFacts(s, root);
    var pass := AggregateParts(s, root, keys);
    var start := FinalizeWinners.Pass(root, s.rows);
    AggregateAllKeeps(s.h, s.slot, start, keys);
    AggregatedFacts(s.h, start, pass);
    VotedFacts(s.lottery, s.MaxWinners(), Pool(s.rows), s.tally);
    OnlyMarksLength(s.rows, pass.rows);
    AggregationAdvances(s, pass.root, pass.rows, Pool(s.rows));
    var (l0, r0) := FinalizeWinners.EndAggregation(s, pass.root).value;
    l, r, rows := l0, r0, pass.rows;
  }

  lemma OnlyMarksLength(rows: seq<ParticipantData>, after: seq<ParticipantData>)
    requires OnlyMarks(rows, after)
    ensures |after| == |rows|
  {
  }

  // ----- one selection chunk -----

  lemma SelectParts(s: State, root: LedgerData, keys: seq<Pubkey>) returns (pass: Pass)
    requires FinalizeWinners.Select(s, root, keys).Ok?
    ensures FinalizeWinners.SelectAll(s.slot, FinalizeWinners.Pass(root, s.rows), keys) == Ok(pass)
    ensures FinalizeWinners.EndSelection(s, pass.root).Ok?
    ensures var (l, r, pages) := FinalizeWinners.EndSelection(s, pass.root).value;
            FinalizeWinners.Select(s, root, keys).value
            == s.(lottery := l, root := Some(r), rows := pass.rows, pages := pages)
  {
    hide FinalizeWinners.SelectAll, FinalizeWinners.EndSelection;
    pass := FinalizeWinners.SelectAll(s.slot, FinalizeWinners.Pass(root, s.rows), keys).value;
  }

  lemma SelectingFacts(s: State, root: LedgerData)
    requires LedgerLoaded(s, root) && root.phase == Selecting
    ensures InPass(s, root, s.rows, Pool(s.rows)) && PagesHold(s.pages, WinnerList(s.h, root, Pool(s.rows)))
    ensures s.root == Some(root)
  {
    hide FoldedLedger;
  }

  /** The start of a selection chunk is a point of the walk. */
  lemma WalkStarts(s: State, root: LedgerData)
    requires InPass(s, root, s.rows, Pool(s.rows))
    ensures var start := FinalizeWinners.Pass(root, s.rows);
            Walked(start, start, Drawn(s.h, root, Pool(s.rows)))
  {
    hide Recorded;
    WalkingIsPass(s.h, root, s.rows, Pool(s.rows));
  }

  /** Wherever the walk has got to, the ledger is inside or at the end of the pass. */
  lemma WalkIsInPass(s: State, root: LedgerData, pass: Pass)
    requires InPass(s, root, s.rows, Pool(s.rows))
    requires Walked(FinalizeWinners.Pass(root, s.rows), pass, Drawn(s.h, root, Pool(s.rows)))
    ensures InPass(s, pass.root, pass.rows, Pool(s.rows))
    ensures OnlyMarks(s.rows, pass.rows)
    ensures Drawn(s.h, pass.root, Pool(s.rows)) == Drawn(s.h, root, Pool(s.rows))
    ensures WinnerList(s.h, pass.root, Pool(s.rows)) == WinnerList(s.h, root, Pool(s.rows))
  {
    hide Recorded, Walking;
    var h, id, cap, pool := s.h, s.lottery.id, s.MaxWinners(), Pool(s.rows);
    RecordFrame(h, id, cap, root, pass.root, s.rows, pass.rows, pool);
    WalkingIsPass(h, root, s.rows, pool);
    WalkingIsPass(h, pass.root, pass.rows, pool);
  }

  /** What a committed selection chunk leaves. */
  lemma SelectResult(s: State, root: LedgerData, keys: seq<Pubkey>)
    returns (l: LotteryData, r: LedgerData, rows: seq<ParticipantData>, pages: map<nat, PageData>)
    requires LedgerLoaded(s, root) && root.phase == Selecting && Indexed(s.rows) && |s.rows| >= 2
    requires forall k: nat :: PagePaid(s.pages, k) <==> k in Paid(s.lottery)
    requires FinalizeWinners.Select(s, root, keys).Ok?
    ensures FinalizeWinners.Select(s, root, keys).value == s.(lottery := l, root := Some(r), rows := rows, pages := pages)
    ensures OnlyMarks(s.rows, rows) && Continued(s, l, r, rows, Pool(s.rows), pages)
  {
    hide FinalizeWinners.Select, FinalizeWinners.SelectAll, FinalizeWinners.EndSelection, LedgerLoaded, Walked, InPass,
         OnlyMarks, Indexed, PagesHold, Drawn, WinnerList, Continued, PagePaid, PaidSet;
    SelectingFacts(s, root);
    var pass := SelectParts(s, root, keys);
    InPassFacts(s, root, s.rows, Pool(s.rows));
    WalkStarts(s, root);
    SelectAllKeeps(s.slot, FinalizeWinners.Pass(root, s.rows), Drawn(s.h, root, Pool(s.rows)), keys);
    WalkIsInPass(s, root, pass);
    OnlyMarksLength(s.rows, pass.rows);
    InPassFacts(s, pass.root, pass.rows, Pool(s.rows));
    SelectionEnds(s, pass.root, pass.rows, Pool(s.rows));
    var (l0, r0, pages0) := FinalizeWinners.EndSelection(s, pass.root).value;
    l, r, rows, pages := l0, r0, pass.rows, pages0;
  }

  // ----- the parts after a chunk -----

  /** The lottery account after a selection chunk. */
  ghost predicate Outcome(l: LotteryData, m: LotteryData, r: LedgerData, now: int) {
    && (r.phase == Selecting ==> m == l)
    && (r.phase == Completed ==> Settles(l, m, r, now) && r.selectedCount >= 1)
    && r.phase != Aggregating
  }

  lemma OutcomeFields(l: LotteryData, m: LotteryData, r: LedgerData, now: int)
    requires Outcome(l, m, r, now)
    ensures m == l.(winnersRoot := m.winnersRoot, winnersCount := m.winnersCount, totalPayout := m.totalPayout,
                    paidBitmap := m.paidBitmap, settlementStart := m.settlementStart)
  {
  }

  lemma OutcomeClock(config: Config, l: LotteryData, m: LotteryData, r: LedgerData, now: int)
    requires Configured(config, l) && Clockwork(l, now) && Frozen(l, now) && !l.settled && Outcome(l, m, r, now)
    ensures Configured(config, m) && Clockwork(m, now) && Frozen(m, now) && RefundReason(m, now)
  {
    hide PaidSet, PayoutPlan;
  }

  lemma OutcomeSettling(l: LotteryData, m: LotteryData, root: Option<LedgerData>, r: LedgerData,
                        pages: map<nat, PageData>, pages': map<nat, PageData>, now: int)
    requires Settling(l, root, pages) && !IsComplete(root) && Outcome(l, m, r, now) && !l.settled
    requires forall k: nat :: PagePaid(pages', k) <==> k in Paid(l)
    ensures Settling(m, Some(r), pages')
  {
    assert Paid(l) == {};
    hide PayoutPlan, PagePaid;
  }

  lemma OutcomeBanked(l: LotteryData, m: LotteryData, rows: seq<ParticipantData>, rents: Rents, bank: Bank, donated: nat,
                      credited: map<nat, nat>, r: LedgerData, now: int)
    requires Banked(l, rows, rents, bank, true, donated, credited) && Outcome(l, m, r, now)
    requires l.winnersCount == 0 && !l.settled
    ensures Banked(m, rows, rents, bank, true, donated, credited)
  {
    assert Paid(l) == {};
    if r.phase == Completed {
      assert Paid(m) == {} && credited == map[];
      NothingPaidOut(l, m, rows);
    }
  }

  lemma NothingPaidOut(l: LotteryData, m: LotteryData, rows: seq<ParticipantData>)
    requires Paid(l) == {} && Paid(m) == {} && m.price == l.price
    ensures PaidOut(m, rows) == PaidOut(l, rows)
  {
  }

  lemma ContinuedOutcome(s: State, l: LotteryData, r: LedgerData, rows: seq<ParticipantData>, pool: seq<Entry>,
                         pages: map<nat, PageData>)
    requires Continued(s, l, r, rows, pool, pages)
    ensures Outcome(s.lottery, l, r, s.now) && IsSelecting(Some(r))
    ensures forall k: nat :: PagePaid(pages, k) <==> k in Paid(s.lottery)
    ensures Finalizing(s.h, s.lottery.id, s.MaxWinners(), Some(r), rows, pool, pages)
  {
    hide Recorded, PassInProgress, FoldedLedger, PagesHold, PagePaid, PaidSet, Settles;
  }

  lemma AdvancedFinalizing(s: State, l: LotteryData, r: LedgerData, rows: seq<ParticipantData>, pool: seq<Entry>)
    requires Advanced(s, l, r, rows, pool) && PagesHold(s.pages, [])
    ensures Finalizing(s.h, s.lottery.id, s.MaxWinners(), Some(r), rows, pool, s.pages)
    ensures l == s.lottery.(selectedWinners := l.selectedWinners) && (r.phase == Aggregating ==> l == s.lottery)
    ensures r.phase != Completed
  {
    hide DrawnLedger, Recorded, PassInProgress, FoldedLedger, PagesHold;
  }

  // ----- the instruction -----

  lemma ApplyEffect(s: State, page: nat, keys: seq<Pubkey>)
    requires FinalizeWinners.Apply(s, page, keys).Ok?
    ensures FinalizeWinners.Check(s, keys).Ok?
    ensures var t := FinalizeWinners.Apply(s, page, keys).value;
            match FinalizeWinners.Check(s, keys).value
            case Skip => t == s
            case Remediate => t == s.(lottery := s.lottery.BeginRemediation(s.now)) && t.MaxWinners() == s.MaxWinners()
            case Proceed =>
              && FinalizeWinners.LoadRoot(s).Ok?
              && var root := FinalizeWinners.LoadRoot(s).value;
              && page == root.selectedCount / WINNERS_PER_PAGE
              && match root.phase
                 case Aggregating => FinalizeWinners.Aggregate(s, root, keys) == Ok(t)
                 case Selecting => FinalizeWinners.Select(s, root, keys) == Ok(t)
                 case Completed => t == s
  {
    hide FinalizeWinners.Check, FinalizeWinners.LoadRoot, FinalizeWinners.Aggregate, FinalizeWinners.Select;
  }

  lemma RemediateClock(config: Config, l: LotteryData, now: int, frozen: bool)
    requires Configured(config, l) && Clockwork(l, now) && (frozen ==> Frozen(l, now)) && !l.settled
    requires l.participantsCount >= 2 && l.attestedCount > 0 && l.HasMissingAttestedReveals() && l.UploadElapsed(now)
    requires l.remediationStart == 0
    ensures var m := l.BeginRemediation(now);
            && m == l.(remediationStart := m.remediationStart, remediationDeadline := m.remediationDeadline)
            && Configured(config, m) && Clockwork(m, now) && RefundReason(m, now)
    ensures !frozen
  {
  }

  lemma RemediateKeeps(s: State, page: nat, keys: seq<Pubkey>)
    requires Inv(s) && FinalizeWinners.Apply(s, page, keys).Ok?
    requires FinalizeWinners.Check(s, keys) == Ok(FinalizeWinners.Remediate)
    ensures Inv(FinalizeWinners.Apply(s, page, keys).value)
  {
    hide *;
    Parts(s);
    ApplyEffect(s, page, keys);
    CheckEffect(s, keys);
    var t := FinalizeWinners.Apply(s, page, keys).value;
    RemediateClock(s.config, s.lottery, s.now, s.root.Some?);
    RegisteredFrame(s.lottery, t.lottery, s.rows, s.slot);
    CountedFrame(s.lottery, t.lottery, s.MaxWinners(), s.rows);
    VotedFrame(s.lottery, t.lottery, s.MaxWinners(), Pool(s.rows), s.tally, IsSelecting(s.root));
    SettlingFrame(s.lottery, t.lottery, s.root, s.pages);
    BankedFrame(s.lottery, t.lottery, s.rows, s.rents, s.bank, s.vaultOpen, s.donated, s.credited);
    Whole(t, s.MaxWinners(), Pool(s.rows));
  }

  lemma RowsIndexed(l: LotteryData, rows: seq<ParticipantData>, slot: map<Pubkey, nat>)
    requires Registered(l, rows, slot)
    ensures Indexed(rows) && |rows| == l.participantsCount
  {
  }

  /** The facts a chunk starts from. */
  lemma ChunkStart(s: State, page: nat, keys: seq<Pubkey>)
    requires Inv(s) && FinalizeWinners.Apply(s, page, keys).Ok?
    requires FinalizeWinners.Check(s, keys) == Ok(FinalizeWinners.Proceed)
    ensures FinalizeWinners.LoadRoot(s).Ok? && LedgerLoaded(s, FinalizeWinners.LoadRoot(s).value)
    ensures Frozen(s.lottery, s.now) && !s.lottery.settled && s.vaultOpen && !s.lottery.settlementComplete
    ensures Indexed(s.rows) && |s.rows| == s.lottery.participantsCount >= 2 && s.MaxWinners() >= 1
  {
    hide *;
    Parts(s);
    ApplyEffect(s, page, keys);
    CheckEffect(s, keys);
    ProceedFrozen(s.lottery, s.now);
    RowsIndexed(s.lottery, s.rows, s.slot);
    EligibleFit(s.lottery, s.MaxWinners(), s.rows);
    CapOf(s);
    CapBelow(s.config, s.lottery, s.lottery.participantsCount);
    LoadedOk(s, FinalizeWinners.LoadRoot(s).value);
  }

  lemma ClockSelected(l: LotteryData, m: LotteryData)
    requires m == l.(selectedWinners := m.selectedWinners)
    ensures SameClock(l, m)
  {
  }

  lemma AggregateKeeps(s: State, page: nat, keys: seq<Pubkey>)
    requires Inv(s) && FinalizeWinners.Apply(s, page, keys).Ok?
    requires FinalizeWinners.Check(s, keys) == Ok(FinalizeWinners.Proceed)
    requires FinalizeWinners.LoadRoot(s).Ok? && FinalizeWinners.LoadRoot(s).value.phase == Aggregating
    ensures Inv(FinalizeWinners.Apply(s, page, keys).value)
  {
    hide *;
    Parts(s);
    ChunkStart(s, page, keys);
    ApplyEffect(s, page, keys);
    var cap, pool := s.MaxWinners(), Pool(s.rows);
    var root := FinalizeWinners.LoadRoot(s).value;
    var l, r, rows := AggregateResult(s, root, keys);
    var t := FinalizeWinners.Apply(s, page, keys).value;
    AdvancedFinalizing(s, l, r, rows, pool);
    MarksKeepPool(s.rows, rows);
    ClockSelected(s.lottery, l);
    ClockFrame(s.config, s.lottery, l, s.now, true);
    PeopleRegistered(s.lottery, l, s.rows, rows, s.slot);
    PeopleBanked(s.lottery, l, s.rows, rows, s.rents, s.bank, s.vaultOpen, s.donated, s.credited);
    MarksCounted(s.lottery, l, cap, s.rows, rows);
    AdvancedVoted(s.lottery, l, cap, pool, s.tally, r);
    NotComplete(s, root);
    AdvancedSettling(s.lottery, l, s.root, r, s.pages);
    CapSame(s, t);
    Whole(t, cap, pool);
  }

  lemma NotComplete(s: State, root: LedgerData)
    requires LedgerLoaded(s, root) && root.phase != Completed
    ensures !IsComplete(s.root)
    ensures root.phase == Selecting ==> IsSelecting(s.root)
  {
    hide LedgerOk, PagesHold;
  }

  lemma NoWinnersYet(l: LotteryData, root: Option<LedgerData>, pages: map<nat, PageData>)
    requires Settling(l, root, pages) && !IsComplete(root)
    ensures l.winnersCount == 0
    ensures forall k: nat :: PagePaid(pages, k) <==> k in Paid(l)
  {
  }

  lemma SelectKeeps(s: State, page: nat, keys: seq<Pubkey>)
    requires Inv(s) && FinalizeWinners.Apply(s, page, keys).Ok?
    requires FinalizeWinners.Check(s, keys) == Ok(FinalizeWinners.Proceed)
    requires FinalizeWinners.LoadRoot(s).Ok? && FinalizeWinners.LoadRoot(s).value.phase == Selecting
    ensures Inv(FinalizeWinners.Apply(s, page, keys).value)
  {
    hide *;
    Parts(s);
    ChunkStart(s, page, keys);
    ApplyEffect(s, page, keys);
    var cap, pool := s.MaxWinners(), Pool(s.rows);
    var root := FinalizeWinners.LoadRoot(s).value;
    NotComplete(s, root);
    NoWinnersYet(s.lottery, s.root, s.pages);
    var l, r, rows, pages := SelectResult(s, root, keys);
    var t := FinalizeWinners.Apply(s, page, keys).value;
    ContinuedOutcome(s, l, r, rows, pool, pages);
    OutcomeFields(s.lottery, l, r, s.now);
    MarksKeepPool(s.rows, rows);
    OutcomeClock(s.config, s.lottery, l, r, s.now);
    PeopleRegistered(s.lottery, l, s.rows, rows, s.slot);
    OutcomeBanked(s.lottery, l, s.rows, s.rents, s.bank, s.donated, s.credited, r, s.now);
    PeopleBanked(l, l, s.rows, rows, s.rents, s.bank, s.vaultOpen, s.donated, s.credited);
    MarksCounted(s.lottery, l, cap, s.rows, rows);
    VotedFrame(s.lottery, l, cap, pool, s.tally, true);
    OutcomeSettling(s.lottery, l, s.root, r, s.pages, pages, s.now);
    CapSame(s, t);
    Whole(t, cap, pool);
  }

  /** Whatever chunk of participants is submitted, the invariant is kept. */
  lemma FinalizeKeeps(s: State, page: nat, keys: seq<Pubkey>)
    requires Inv(s) && FinalizeWinners.Apply(s, page, keys).Ok?
    ensures Inv(FinalizeWinners.Apply(s, page, keys).value)
  {
    hide *;
    ApplyEffect(s, page, keys);
    match FinalizeWinners.Check(s, keys).value {
      case Skip =>
      case Remediate => RemediateKeeps(s, page, keys);
      case Proceed =>
        match FinalizeWinners.LoadRoot(s).value.phase {
          case Aggregating => AggregateKeeps(s, page, keys);
          case Selecting => SelectKeeps(s, page, keys);
          case Completed =>
        }
    }
  }
}
