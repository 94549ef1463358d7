/** From a closed, fully revealed lottery that can be paid out, finalization runs to completion. */
module Progress {
  import opened Prelude
  import opened Digests
  import opened Sums
  import opened Participants
  import opened VoteTallies
  import opened TicketDraw
  import opened WinnerPages
  import opened FinalizationLedgers
  import opened Lotteries
  import opened Payouts
  import opened Banks
  import opened States
  import opened Steps
  import opened Invariants
  import opened AttestationKeeps
  import opened AggregationKeeps
  import opened RoundKeeps
  import opened SelectionKeeps
  import opened LedgerKeeps
  import opened FinalizationKeeps
  import opened DrawTheorems
  import opened FrozenPool
  import opened Visits
  import opened ChunkSuccess
  import FinalizeWinners

  /** A closed lottery with all attested reveals included, whose rounds can be drawn and whose pot can be split. */
  ghost predicate Ready(s: State, target: nat) {
    && !s.lottery.settled && s.lottery.participantsCount >= 2 && s.lottery.attestedCount > 0
    && !s.lottery.HasMissingAttestedReveals() && (s.lottery.uploadsComplete || s.lottery.UploadElapsed(s.now))
    && Payable(s.h, s.lottery.id, s.MaxWinners(), s.lottery.totalFunds, s.lottery.bps, Pool(s.rows), target)
  }

  // ----- what a chunk leaves alone -----

  /** The fields a finalization chunk cannot touch. */
  ghost predicate ChunkFrame(s: State, t: State) {
    && t.vaultOpen == s.vaultOpen && t.now == s.now && t.bank == s.bank
    && t.lottery.settled == s.lottery.settled && t.lottery.settlementComplete == s.lottery.settlementComplete
    && t.lottery.bps == s.lottery.bps && t.lottery.uploadDeadline == s.lottery.uploadDeadline
    && t.lottery.uploadsComplete == s.lottery.uploadsComplete
  }

  lemma FrameIntro(s: State, t: State)
    requires t.vaultOpen == s.vaultOpen && t.now == s.now && t.bank == s.bank
    requires t.lottery.settled == s.lottery.settled && t.lottery.settlementComplete == s.lottery.settlementComplete
    requires t.lottery.bps == s.lottery.bps && t.lottery.uploadDeadline == s.lottery.uploadDeadline
    requires t.lottery.uploadsComplete == s.lottery.uploadsComplete
    ensures ChunkFrame(s, t)
  {
  }

  lemma ChunkFrames(s: State, page: nat, keys: seq<Pubkey>)
    requires Inv(s) && FinalizeWinners.Apply(s, page, keys).Ok?
    ensures ChunkFrame(s, FinalizeWinners.Apply(s, page, keys).value)
  {
    hide *;
    FinalizationKeeps.ApplyEffect(s, page, keys);
    var t := FinalizeWinners.Apply(s, page, keys).value;
    match FinalizeWinners.Check(s, keys).value {
      case Skip => FrameIntro(s, t);
      case Remediate => RemediationFields(s.lottery, s.now); FrameIntro(s, t);
      case Proceed =>
        Parts(s);
        ChunkStart(s, page, keys);
        var root := FinalizeWinners.LoadRoot(s).value;
        match root.phase {
          case Aggregating =>
            var l, r, rows := AggregateResult(s, root, keys);
            AdvancedFinalizing(s, l, r, rows, Pool(s.rows));
            FrameIntro(s, t);
          case Selecting =>
            NotComplete(s, root);
            NoWinnersYet(s.lottery, s.root, s.pages);
            var l, r, rows, pages := SelectResult(s, root, keys);
            ContinuedOutcome(s, l, r, rows, Pool(s.rows), pages);
            OutcomeFields(s.lottery, l, r, s.now);
            FrameIntro(s, t);
          case Completed => FrameIntro(s, t);
        }
    }
  }

  lemma StaysReady(s: State, t: State, target: nat)
    requires Ready(s, target) && ChunkFrame(s, t) && PoolKept(s, t)
    ensures Ready(t, target)
  {
    KeptInputs(s, t);
    hide TargetOf, Winners, SeedFor, PayoutPlan;
  }

  // ----- the guards let a chunk through -----

  /** The winner page a chunk must name. */
  function CurrentPage(root: LedgerData): nat {
    root.selectedCount / WINNERS_PER_PAGE
  }

  lemma CheckProceeds(s: State, keys: seq<Pubkey>, target: nat)
    requires Ready(s, target) && s.vaultOpen && !s.lottery.settlementComplete && keys != []
    ensures FinalizeWinners.Check(s, keys) == Ok(FinalizeWinners.Proceed)
  {
    hide Payable;
  }

  lemma OpenAccounts(l: LotteryData, cap: nat, rows: seq<ParticipantData>, slot: map<Pubkey, nat>)
    requires Registered(l, rows, slot) && Counted(l, cap, rows) && !l.settled && !l.settlementComplete
    ensures AllOpen(rows, slot) && |rows| == l.participantsCount <= MAX_PARTICIPANTS && Indexed(rows)
  {
    forall i | 0 <= i < |rows|
      ensures rows[i].wallet in slot && slot[rows[i].wallet] == i
    {
      assert RowOk(l, cap, rows[i]);
      assert Invariants.Open(rows, slot, i);
    }
  }

  lemma NotSettled(l: LotteryData, root: Option<LedgerData>, pages: map<nat, PageData>)
    requires Settling(l, root, pages) && !l.settled
    ensures !l.settlementComplete
  {
    hide PaidSet, PagePaid, PayoutPlan;
  }

  lemma VaultStillOpen(l: LotteryData, rows: seq<ParticipantData>, rents: Rents, bank: Bank, open: bool, donated: nat,
                       credited: map<nat, nat>)
    requires Banked(l, rows, rents, bank, open, donated, credited) && !l.settled
    ensures open
  {
  }

  lemma IncludedSome(l: LotteryData, cap: nat, rows: seq<ParticipantData>)
    requires Counted(l, cap, rows) && l.attestedCount > 0 && !l.HasMissingAttestedReveals()
    ensures Sum(rows, IncludedOne()) > 0
  {
  }

  lemma LoadOk(s: State)
    requires Finalizing(s.h, s.lottery.id, s.MaxWinners(), s.root, s.rows, Pool(s.rows), s.pages)
    requires |s.rows| == s.lottery.participantsCount
    ensures FinalizeWinners.LoadRoot(s).Ok?
    ensures IsSelecting(s.root) ==> FinalizeWinners.LoadRoot(s) == Ok(s.root.value)
    ensures !IsSelecting(s.root) ==> FinalizeWinners.LoadRoot(s).value.phase == Aggregating
  {
    hide Recorded, PassInProgress, DrawnLedger, FoldedLedger, PagesHold;
  }

  /** Everything a chunk needs to know about a ready lottery. */
  lemma ReadyFacts(s: State, target: nat)
    requires Inv(s) && Ready(s, target)
    ensures s.vaultOpen && !s.lottery.settlementComplete && !s.lottery.settled
    ensures AllOpen(s.rows, s.slot) && Indexed(s.rows) && 2 <= |s.rows| == s.lottery.participantsCount <= MAX_PARTICIPANTS
    ensures 1 <= s.MaxWinners() <= s.lottery.participantsCount - 1 && s.MaxWinners() <= MAX_WINNERS
    ensures Sum(s.rows, IncludedOne()) > 0
    ensures FinalizeWinners.LoadRoot(s).Ok? && LedgerLoaded(s, FinalizeWinners.LoadRoot(s).value)
    ensures IsSelecting(s.root) ==> FinalizeWinners.LoadRoot(s) == Ok(s.root.value)
    ensures !IsSelecting(s.root) ==> FinalizeWinners.LoadRoot(s).value.phase == Aggregating
    ensures Payable(s.h, s.lottery.id, s.MaxWinners(), s.lottery.totalFunds, s.lottery.bps, Pool(s.rows), target)
  {
    hide *;
    Parts(s);
    ReadyMeans(s, target);
    NotSettled(s.lottery, s.root, s.pages);
    VaultStillOpen(s.lottery, s.rows, s.rents, s.bank, s.vaultOpen, s.donated, s.credited);
    OpenAccounts(s.lottery, s.MaxWinners(), s.rows, s.slot);
    CapOf(s);
    CapBelow(s.config, s.lottery, s.lottery.participantsCount);
    IncludedSome(s.lottery, s.MaxWinners(), s.rows);
    EligibleFit(s.lottery, s.MaxWinners(), s.rows);
    LoadOk(s);
    LoadedOk(s, FinalizeWinners.LoadRoot(s).value);
  }

  lemma ReadyMeans(s: State, target: nat)
    requires Ready(s, target)
    ensures !s.lottery.settled && s.lottery.participantsCount >= 2 && s.lottery.attestedCount > 0
    ensures !s.lottery.HasMissingAttestedReveals()
    ensures Payable(s.h, s.lottery.id, s.MaxWinners(), s.lottery.totalFunds, s.lottery.bps, Pool(s.rows), target)
  {
    hide Payable;
  }

  lemma ApplyProceeds(s: State, page: nat, keys: seq<Pubkey>, root: LedgerData)
    requires FinalizeWinners.Check(s, keys) == Ok(FinalizeWinners.Proceed) && FinalizeWinners.LoadRoot(s) == Ok(root)
    requires page == CurrentPage(root)
    ensures root.phase == Aggregating ==> FinalizeWinners.Apply(s, page, keys) == FinalizeWinners.Aggregate(s, root, keys)
    ensures root.phase == Selecting ==> FinalizeWinners.Apply(s, page, keys) == FinalizeWinners.Select(s, root, keys)
  {
    hide FinalizeWinners.Check, FinalizeWinners.LoadRoot, FinalizeWinners.Aggregate, FinalizeWinners.Select;
  }

  // ----- the chunk that ends aggregation -----

  lemma AggregateOk(s: State, root: LedgerData, keys: seq<Pubkey>, pass: Pass)
    requires FinalizeWinners.AggregateAll(s.h, s.slot, FinalizeWinners.Pass(root, s.rows), keys) == Ok(pass)
    requires FinalizeWinners.EndAggregation(s, pass.root).Ok?
    ensures FinalizeWinners.Aggregate(s, root, keys).Ok?
    ensures var t := FinalizeWinners.Aggregate(s, root, keys).value;
            t.root == Some(FinalizeWinners.EndAggregation(s, pass.root).value.1)
  {
    hide FinalizeWinners.AggregateAll, FinalizeWinners.EndAggregation;
  }

  /** With everybody folded, the draw of round 0 succeeds and selection starts. */
  lemma AggregationCloses(s: State, root: LedgerData, rows: seq<ParticipantData>, target: nat)
    requires FoldedLedger(s.h, root, rows, Pool(s.rows)) && root.processedCount == root.requiredCount == |Pool(s.rows)| == |rows|
    requires Payable(s.h, s.lottery.id, s.MaxWinners(), s.lottery.totalFunds, s.lottery.bps, Pool(s.rows), target)
    requires s.lottery.aggregate == Entropy(Pool(s.rows)) && WinsVote(Pool(s.rows), s.MaxWinners(), s.lottery.selectedWinners)
    requires AllOpen(s.rows, s.slot) && Sum(s.rows, IncludedOne()) > 0
    requires 1 <= s.MaxWinners() <= s.lottery.participantsCount - 1 && s.MaxWinners() <= MAX_WINNERS
    ensures FinalizeWinners.EndAggregation(s, root).Ok?
  {
    hide FoldedLedger, AllOpen, FinalizeWinners.EndAggregation, FinalizeWinners.OpenRound, TargetOf, WinsVote, Recorded,
         DrawnLedger, Drawn, Entropy, SeedFor, Winners, PayoutPlan, MarkedAs;
    var h, id, cap, votes, pool := s.h, s.lottery.id, s.MaxWinners(), s.lottery.selectedWinners, Pool(s.rows);
    SomeTickets(s.rows, s.slot);
    TargetedTarget(h, id, cap, votes, root, rows, pool, target);
    FullyFolded(h, id, cap, votes, root, rows, pool);
    NextRoundOk(h, id, cap, Targeted(h, id, cap, votes, root, pool), rows, pool, target);
    EndAggregationOk(s, root, rows, pool);
  }

  lemma PayableFits(h: Hashes, id: nat, cap: nat, funds: nat, bps: nat, pool: seq<Entry>, target: nat)
    requires Payable(h, id, cap, funds, bps, pool, target)
    ensures SmallPool(pool)
  {
  }

  lemma DraftCursor(s: State, root: LedgerData)
    requires LedgerLoaded(s, root) && root.phase == Aggregating
    ensures root.processedCount < |s.rows| == root.requiredCount && root.selectedCount == 0
  {
    hide PagesHold, DrawnLedger, Recorded, PassInProgress;
  }

  /** Submitting everybody who has not been folded yet moves the ledger into selection. */
  lemma AggregationStep(s: State, target: nat) returns (step: Step)
    requires Inv(s) && Ready(s, target) && !IsSelecting(s.root)
    ensures step.Finalize? && Next(s, step).Ok? && IsSelecting(After(s, step).root)
  {
    hide *;
    Parts(s);
    ReadyFacts(s, target);
    var root := FinalizeWinners.LoadRoot(s).value;
    DraftFacts(s, root);
    DraftCursor(s, root);
    PayableFits(s.h, s.lottery.id, s.MaxWinners(), s.lottery.totalFunds, s.lottery.bps, Pool(s.rows), target);
    var keys := Wallets(s.rows, root.processedCount, |s.rows|);
    var start := FinalizeWinners.Pass(root, s.rows);
    AggregateAllOk(s.h, s.slot, start, |s.rows|);
    AggregateAllKeeps(s.h, s.slot, start, keys);
    var pass := FinalizeWinners.AggregateAll(s.h, s.slot, start, keys).value;
    AggregatedFacts(s.h, start, pass);
    OnlyMarksLength(s.rows, pass.rows);
    VotedOutcome(s.lottery, s.MaxWinners(), Pool(s.rows), s.tally, IsSelecting(s.root));
    AggregationCloses(s, pass.root, pass.rows, target);
    EndAggregationCounts(s, pass.root);
    AggregateOk(s, root, keys, pass);
    CheckProceeds(s, keys, target);
    ApplyProceeds(s, CurrentPage(root), keys, root);
    step := Finalize(CurrentPage(root), keys);
    AfterMeans(s, step);
    NextMeans(s, step);
    IsSelectingMeans(After(s, step).root);
  }

  lemma IsSelectingMeans(root: Option<LedgerData>)
    ensures IsSelecting(root) <==> root.Some? && root.value.phase != Aggregating
    ensures IsComplete(root) <==> root.Some? && root.value.phase == Completed
  {
  }

  // ----- the chunk that ends a selection pass -----

  lemma SelectOk(s: State, root: LedgerData, keys: seq<Pubkey>, pass: Pass)
    requires FinalizeWinners.SelectAll(s.slot, FinalizeWinners.Pass(root, s.rows), keys) == Ok(pass)
    requires pass.root.roundProcessedCount == pass.root.requiredCount
    requires FinalizeWinners.AppendWinner(pass.root, s.pages).Ok? && FinalizeWinners.AfterWinner(s, pass.root).Ok?
    ensures FinalizeWinners.Select(s, root, keys).Ok?
    ensures FinalizeWinners.EndSelection(s, pass.root).Ok?
    ensures FinalizeWinners.Select(s, root, keys).value.root == Some(FinalizeWinners.EndSelection(s, pass.root).value.1)
  {
    hide FinalizeWinners.SelectAll, FinalizeWinners.AppendWinner, FinalizeWinners.AfterWinner;
  }

  lemma CursorInPass(s: State, root: LedgerData)
    requires LedgerLoaded(s, root) && root.phase == Selecting
    ensures root.roundProcessedCount < |s.rows| == root.requiredCount && root.generation == 1
    ensures root.selectedCount < root.targetWinners
    ensures forall i :: 0 <= i < |s.rows| ==> s.rows[i].finalizationGeneration == 1
  {
    hide PagesHold, FoldedLedger, Recorded;
  }

  /** How far selection has got. */
  ghost predicate RoundsDone(root: Option<LedgerData>, rounds: nat, target: nat) {
    root.Some? && root.value.phase != Aggregating && root.value.selectedCount == rounds && root.value.targetWinners == target
  }

  lemma RoundsMean(root: Option<LedgerData>, rounds: nat, target: nat)
    ensures RoundsDone(root, rounds, target)
       <==> root.Some? && IsSelecting(root) && root.value.selectedCount == rounds && root.value.targetWinners == target
  {
  }

  lemma TargetKept(s: State, root: LedgerData)
    requires FinalizeWinners.EndSelection(s, root).Ok?
    ensures FinalizeWinners.EndSelection(s, root).value.1.targetWinners == root.targetWinners
  {
    hide FinalizeWinners.AppendWinner;
    EndSelectionEffect(s, root);
  }

  lemma WalkedTarget(start: Pass, pass: Pass, who: seq<nat>)
    requires Walked(start, pass, who)
    ensures pass.root.targetWinners == start.root.targetWinners
  {
  }

  /** Submitting everybody the pass has not visited yet records one more winner. */
  lemma SelectionStep(s: State, target: nat) returns (step: Step)
    requires Inv(s) && Ready(s, target) && IsSelecting(s.root) && !IsComplete(s.root)
    ensures step.Finalize? && Next(s, step).Ok?
    ensures s.root.Some? && RoundsDone(After(s, step).root, s.root.value.selectedCount + 1, s.root.value.targetWinners)
  {
    hide *;
    Parts(s);
    ReadyFacts(s, target);
    IsSelectingMeans(s.root);
    var root := s.root.value;
    SelectingFacts(s, root);
    CursorInPass(s, root);
    InPassFacts(s, root, s.rows, Pool(s.rows));
    var keys := Wallets(s.rows, root.roundProcessedCount, |s.rows|);
    var start := FinalizeWinners.Pass(root, s.rows);
    var who := Drawn(s.h, root, Pool(s.rows));
    WalkStarts(s, root);
    SelectAllOk(s.slot, start, who, |s.rows|);
    SelectAllKeeps(s.slot, start, who, keys);
    var pass := FinalizeWinners.SelectAll(s.slot, start, keys).value;
    WalkedFacts(start, pass, who);
    WalkedTarget(start, pass, who);
    WalkIsInPass(s, root, pass);
    OnlyMarksLength(s.rows, pass.rows);
    InPassFacts(s, pass.root, pass.rows, Pool(s.rows));
    EndSelectionOk(s, pass.root, pass.rows, Pool(s.rows), target);
    SelectOk(s, root, keys, pass);
    EndSelectionCounts(s, pass.root);
    TargetKept(s, pass.root);
    CheckProceeds(s, keys, target);
    ApplyProceeds(s, CurrentPage(root), keys, root);
    step := Finalize(CurrentPage(root), keys);
    AfterMeans(s, step);
    NextMeans(s, step);
    RoundsIntro(After(s, step).root.value);
  }

  lemma RoundsIntro(r: LedgerData)
    requires r.phase == Completed || r.phase == Selecting
    ensures RoundsDone(Some(r), r.selectedCount, r.targetWinners)
  {
  }

  // ----- to completion -----

  /** A successful chunk of a ready lottery leaves it ready. */
  lemma ReadyAfter(s: State, target: nat, step: Step)
    requires Inv(s) && Ready(s, target) && step.Finalize? && Next(s, step).Ok?
    ensures Inv(After(s, step)) && Ready(After(s, step), target)
  {
    hide *;
    AfterMeans(s, step);
    NextMeans(s, step);
    FinalizeKeeps(s, step.page, step.keys);
    ChunkFrames(s, step.page, step.keys);
    ChunkKeepsPool(s, step.page, step.keys);
    StaysReady(s, After(s, step), target);
  }

  lemma InvRounds(s: State)
    requires Inv(s) && IsSelecting(s.root)
    ensures s.root.Some? && s.root.value.selectedCount <= s.root.value.targetWinners
    ensures IsComplete(s.root) <==> s.root.value.selectedCount == s.root.value.targetWinners
  {
    hide *;
    Parts(s);
    IsSelectingMeans(s.root);
    RoundsLeft(s.h, s.lottery.id, s.MaxWinners(), s.root, s.rows, Pool(s.rows), s.pages);
  }

  lemma RoundsLeft(h: Hashes, id: nat, cap: nat, root: Option<LedgerData>, rows: seq<ParticipantData>, pool: seq<Entry>,
                   pages: map<nat, PageData>)
    requires Finalizing(h, id, cap, root, rows, pool, pages) && root.Some? && root.value.phase != Aggregating
    ensures root.value.selectedCount <= root.value.targetWinners
    ensures root.value.phase == Completed <==> root.value.selectedCount == root.value.targetWinners
  {
    hide Recorded, PagesHold, FoldedLedger;
  }

  /** The remaining rounds can be run, one full pass each. */
  lemma {:induction false} SelectionRuns(s: State, target: nat) returns (steps: seq<Step>)
    requires Inv(s) && Ready(s, target) && IsSelecting(s.root)
    ensures Inv(Run(s, steps)) && Ready(Run(s, steps), target) && IsComplete(Run(s, steps).root)
    decreases if s.root.Some? then s.root.value.targetWinners - s.root.value.selectedCount else 0
  {
    hide *;
    InvRounds(s);
    if IsComplete(s.root) {
      steps := [];
      RunNone(s);
    } else {
      var step := SelectionStep(s, target);
      ReadyAfter(s, target, step);
      var t := After(s, step);
      RoundsMean(t.root, s.root.value.selectedCount + 1, s.root.value.targetWinners);
      var rest := SelectionRuns(t, target);
      RunOne(s, step);
      RunConcat(s, [step], rest);
      steps := [step] + rest;
    }
  }

  /** From any ready state finalization completes. */
  lemma FinalizationRuns(s: State, target: nat) returns (steps: seq<Step>)
    requires Inv(s) && Ready(s, target)
    ensures Inv(Run(s, steps)) && IsComplete(Run(s, steps).root) && Ready(Run(s, steps), target)
  {
    hide *;
    if IsSelecting(s.root) {
      steps := SelectionRuns(s, target);
    } else {
      var step := AggregationStep(s, target);
      ReadyAfter(s, target, step);
      var rest := SelectionRuns(After(s, step), target);
      RunOne(s, step);
      RunConcat(s, [step], rest);
      steps := [step] + rest;
    }
  }
}
