/** Finalization terminates: every chunk advances one counter of participant visits, up to n visits per pass. */
module Visits {
  import opened Prelude
  import opened Digests
  import opened Sums
  import opened Participants
  import opened TicketDraw
  import opened WinnerPages
  import opened FinalizationLedgers
  import opened States
  import opened Steps
  import opened Invariants
  import opened AggregationKeeps
  import opened SelectionKeeps
  import opened FinalizationKeeps
  import opened DrawTheorems
  import opened FrozenPool
  import opened SimpleSteps
  import opened BuyingKeeps
  import opened AttestationKeeps
  import opened UploadKeeps
  import opened Payouts
  import opened Banks
  import opened VoteTallies
  import opened Runs
  import FinalizeWinners

  /** Participants visited so far: one aggregation pass, then one pass per winner. */
  function VisitsOf(root: LedgerData): nat {
    match root.phase
    case Aggregating => root.processedCount
    case Selecting => root.requiredCount * (1 + root.selectedCount) + root.roundProcessedCount
    case Completed => root.requiredCount * (1 + root.selectedCount)
  }

  function VisitCount(root: Option<LedgerData>): nat {
    match root
    case None => 0
    case Some(r) => VisitsOf(r)
  }

  /** Counters of the ledger after the guard at the end of an aggregation chunk. */
  lemma EndAggregationCounts(s: State, root: LedgerData)
    requires FinalizeWinners.EndAggregation(s, root).Ok?
    ensures var r := FinalizeWinners.EndAggregation(s, root).value.1;
            if root.processedCount < root.requiredCount then r == root
            else && root.processedCount == root.requiredCount && r.phase == Selecting && r.roundProcessedCount == 0
                 && r.requiredCount == root.requiredCount && r.selectedCount == root.selectedCount
  {
  }

  lemma AfterWinnerCounts(s: State, root: LedgerData)
    requires FinalizeWinners.AfterWinner(s, root).Ok?
    ensures var r := FinalizeWinners.AfterWinner(s, root).value.1;
            && r.selectedCount == root.selectedCount + 1 && r.requiredCount == root.requiredCount
            && (if r.selectedCount == r.targetWinners then r.phase == Completed
                else r.phase == Selecting && r.roundProcessedCount == 0)
  {
  }

  /** Counters of the ledger after the guard at the end of a selection chunk. */
  lemma EndSelectionCounts(s: State, root: LedgerData)
    requires FinalizeWinners.EndSelection(s, root).Ok?
    ensures var r := FinalizeWinners.EndSelection(s, root).value.1;
            if root.roundProcessedCount < root.requiredCount then r == root
            else && root.roundProcessedCount == root.requiredCount && r.requiredCount == root.requiredCount
                 && r.selectedCount == root.selectedCount + 1
                 && (if r.selectedCount == r.targetWinners then r.phase == Completed
                     else r.phase == Selecting && r.roundProcessedCount == 0)
  {
    hide FinalizeWinners.AfterWinner, FinalizeWinners.AppendWinner;
    EndSelectionEffect(s, root);
    if root.roundProcessedCount == root.requiredCount {
      AfterWinnerCounts(s, root);
    }
  }

  lemma AggregateVisits(s: State, root: LedgerData, keys: seq<Pubkey>)
    requires LedgerLoaded(s, root) && root.phase == Aggregating && Indexed(s.rows)
    requires FinalizeWinners.Aggregate(s, root, keys).Ok?
    ensures var t := FinalizeWinners.Aggregate(s, root, keys).value;
            t.root.Some? && VisitsOf(t.root.value) == VisitsOf(root) + |keys| && t.root.value.requiredCount == root.requiredCount
  {
    hide FinalizeWinners.Aggregate, FinalizeWinners.AggregateAll, FinalizeWinners.EndAggregation, LedgerLoaded, Aggregated,
         FoldedLedger, Indexed;
    DraftFacts(s, root);
    var pass := AggregateParts(s, root, keys);
    var start := FinalizeWinners.Pass(root, s.rows);
    AggregateAllKeeps(s.h, s.slot, start, keys);
    AggregatedFacts(s.h, start, pass);
    NothingSelected(s.h, pass.root, pass.rows, Pool(s.rows));
    EndAggregationCounts(s, pass.root);
  }

  lemma NothingSelected(h: Hashes, root: LedgerData, rows: seq<ParticipantData>, pool: seq<Entry>)
    requires FoldedLedger(h, root, rows, pool)
    ensures root.selectedCount == 0
  {
  }

  lemma WalkedFacts(start: Pass, pass: Pass, who: seq<nat>)
    requires Walked(start, pass, who)
    ensures pass.root.phase == start.root.phase && pass.root.requiredCount == start.root.requiredCount
    ensures pass.root.selectedCount == start.root.selectedCount
  {
  }

  lemma PassVisits(root: LedgerData, pass: LedgerData, r: LedgerData, visited: nat)
    requires root.phase == Selecting && pass.phase == Selecting
    requires pass.requiredCount == root.requiredCount && pass.selectedCount == root.selectedCount
    requires pass.roundProcessedCount == root.roundProcessedCount + visited
    requires if pass.roundProcessedCount < pass.requiredCount then r == pass
             else && pass.roundProcessedCount == pass.requiredCount && r.requiredCount == pass.requiredCount
                  && r.selectedCount == pass.selectedCount + 1
                  && (r.phase == Completed || (r.phase == Selecting && r.roundProcessedCount == 0))
    ensures VisitsOf(r) == VisitsOf(root) + visited
  {
    Distribute(root.requiredCount, 1 + root.selectedCount, 1);
  }

  lemma SelectVisits(s: State, root: LedgerData, keys: seq<Pubkey>)
    requires LedgerLoaded(s, root) && root.phase == Selecting && Indexed(s.rows)
    requires FinalizeWinners.Select(s, root, keys).Ok?
    ensures var t := FinalizeWinners.Select(s, root, keys).value;
            && t.root.Some? && VisitsOf(t.root.value) == VisitsOf(root) + |keys|
            && t.root.value.requiredCount == root.requiredCount
            && t.root.value.phase != Aggregating && t.root.value.selectedCount >= root.selectedCount
  {
    hide FinalizeWinners.Select, FinalizeWinners.SelectAll, FinalizeWinners.EndSelection, LedgerLoaded, Walked, InPass,
         Indexed, Drawn, VisitsOf;
    SelectingFacts(s, root);
    var pass := SelectParts(s, root, keys);
    InPassFacts(s, root, s.rows, Pool(s.rows));
    WalkStarts(s, root);
    var start := FinalizeWinners.Pass(root, s.rows);
    SelectAllKeeps(s.slot, start, Drawn(s.h, root, Pool(s.rows)), keys);
    WalkedFacts(start, pass, Drawn(s.h, root, Pool(s.rows)));
    EndSelectionCounts(s, pass.root);
    PassVisits(root, pass.root, FinalizeWinners.EndSelection(s, pass.root).value.1, |keys|);
  }

  // ----- over runs -----

  /** How many participants a step visits: the length of an accepted chunk of an unfinished ledger. */
  ghost function VisitedBy(s: State, step: Step): nat {
    if step.Finalize? && Next(s, step).Ok? && FinalizeWinners.Check(s, step.keys) == Ok(FinalizeWinners.Proceed)
       && FinalizeWinners.LoadRoot(s).Ok? && FinalizeWinners.LoadRoot(s).value.phase != Completed
    then |step.keys| else 0
  }

  ghost function Visited(s: State, steps: seq<Step>): nat {
    if steps == [] then 0
    else Visited(s, steps[..|steps| - 1]) + VisitedBy(Run(s, steps[..|steps| - 1]), steps[|steps| - 1])
  }

  lemma LoadedVisits(s: State, root: LedgerData)
    requires FinalizeWinners.LoadRoot(s) == Ok(root)
    ensures VisitsOf(root) == VisitCount(s.root)
  {
  }

  lemma ChunkVisits(s: State, page: nat, keys: seq<Pubkey>)
    requires Inv(s) && FinalizeWinners.Apply(s, page, keys).Ok?
    ensures var t := FinalizeWinners.Apply(s, page, keys).value;
            var proceeds := FinalizeWinners.Check(s, keys) == Ok(FinalizeWinners.Proceed)
                            && FinalizeWinners.LoadRoot(s).Ok? && FinalizeWinners.LoadRoot(s).value.phase != Completed;
            && VisitCount(t.root) == VisitCount(s.root) + (if proceeds then |keys| else 0)
            && (proceeds ==> keys != [])
            && (!proceeds ==> t.root == s.root && t.pages == s.pages)
  {
    hide *;
    FinalizationKeeps.ApplyEffect(s, page, keys);
    FinalizationKeeps.CheckEffect(s, keys);
    if FinalizeWinners.Check(s, keys).value == FinalizeWinners.Proceed {
      ChunkStart(s, page, keys);
      var root := FinalizeWinners.LoadRoot(s).value;
      LoadedVisits(s, root);
      SomeVisits(FinalizeWinners.Apply(s, page, keys).value.root);
      match root.phase {
        case Aggregating => AggregateVisits(s, root, keys);
        case Selecting => SelectVisits(s, root, keys);
        case Completed =>
      }
    }
  }

  lemma SomeVisits(root: Option<LedgerData>)
    ensures root.Some? ==> VisitCount(root) == VisitsOf(root.value)
  {
  }

  /** Only FinalizeWinners writes the ledger. */
  lemma LedgerUntouched(s: State, step: Step)
    requires Inv(s) && !step.Finalize?
    ensures After(s, step).root == s.root
  {
    hide *;
    AfterMeans(s, step);
    if Next(s, step).Ok? {
      NextMeans(s, step);
      Parts(s);
      RowsCounted(s.lottery, s.rows, s.slot);
      match step
      case Tick(seconds) =>
      case Send(from, to, amount) => SendFields(s, from, to, amount);
      case Buy(buyer, proof, count) => var i, p := BuyEffect(s, buyer, proof, count);
      case BeginReveal(caller, attestation, upload) => BeginRevealEffect(s, caller, attestation, upload);
      case Attest(wallet, voted, receipt) => AttestEffect(s, wallet, voted, receipt);
      case Reveal(wallet, voted, plaintext) =>
        SomebodyReveals(s, wallet, voted, plaintext);
        var u := RevealEffect(s, wallet, voted, plaintext);
      case Upload(uploader, entries) =>
        PoolTickets(s.lottery, s.MaxWinners(), s.rows);
        IncludedAttested(s.lottery, s.MaxWinners(), s.rows);
        var b := UploadEffect(s, uploader, entries);
      case Finalize(page, keys) =>
      case Cancel => CancelEffect(s);
      case Payout(id, page, winners, recipients) => PayoutKeepsPool(s, id, page, winners, recipients);
      case Refund(claimer) => RefundEffect(s, claimer);
      case CloseVault => CloseVaultEffect(s);
      case CloseAccount(owner) => CloseAccountEffect(s, owner);
    }
  }

  lemma StepVisits(s: State, step: Step)
    requires Inv(s)
    ensures VisitCount(After(s, step).root) == VisitCount(s.root) + VisitedBy(s, step)
  {
    hide *;
    VisitedMeans(s, step);
    if step.Finalize? {
      AfterMeans(s, step);
      NextMeans(s, step);
      if Next(s, step).Ok? {
        ChunkVisits(s, step.page, step.keys);
      }
    } else {
      LedgerUntouched(s, step);
    }
  }

  lemma VisitedMeans(s: State, step: Step)
    ensures VisitedBy(s, step)
         == if step.Finalize? && Next(s, step).Ok? && FinalizeWinners.Check(s, step.keys) == Ok(FinalizeWinners.Proceed)
               && FinalizeWinners.LoadRoot(s).Ok? && FinalizeWinners.LoadRoot(s).value.phase != Completed
            then |step.keys| else 0
  {
    hide Next;
  }

  /** Over a whole run the ledger's counters have moved by exactly the participants that were visited. */
  lemma {:induction false} RunVisits(s: State, steps: seq<Step>)
    requires Inv(s)
    ensures VisitCount(Run(s, steps).root) == VisitCount(s.root) + Visited(s, steps)
  {
    hide Inv, After, VisitCount, VisitedBy;
    if steps != [] {
      var n := |steps| - 1;
      RunVisits(s, steps[..n]);
      RunKeeps(s, steps[..n]);
      StepVisits(Run(s, steps[..n]), steps[n]);
    }
  }

  /** How far a ledger has got, read off its visits. */
  ghost predicate VisitRange(root: Option<LedgerData>, n: nat, visits: nat) {
    root.Some? ==>
      && (root.value.phase == Aggregating ==> visits < n)
      && (root.value.phase == Selecting ==> n <= visits < n * (1 + root.value.targetWinners))
      && (root.value.phase == Completed ==> visits == n * (1 + root.value.targetWinners))
  }

  lemma LedgerVisits(h: Hashes, id: nat, cap: nat, root: Option<LedgerData>, rows: seq<ParticipantData>, pool: seq<Entry>,
                     pages: map<nat, PageData>)
    requires Finalizing(h, id, cap, root, rows, pool, pages)
    ensures VisitRange(root, |rows|, VisitCount(root))
  {
    hide Recorded, PagesHold, WinsVote, SeedFor, PoolCommitment, TicketList, MarkedAs;
    if root.Some? && root.value.phase == Selecting {
      var r := root.value;
      assert r.selectedCount < r.targetWinners;
      MorePasses(|rows|, r.selectedCount, r.targetWinners, r.roundProcessedCount);
    }
  }

  lemma MorePasses(n: nat, done: nat, target: nat, at: nat)
    requires done < target && at < n
    ensures n <= n * (1 + done) + at < n * (1 + target)
  {
    Distribute(n, 1 + done, 1);
    assert n * (1 + done + 1) <= n * (1 + target);
    assert n <= n * (1 + done);
  }

  lemma InvVisits(s: State)
    requires Inv(s)
    ensures VisitRange(s.root, s.lottery.participantsCount, VisitCount(s.root))
  {
    hide *;
    Parts(s);
    LedgerVisits(s.h, s.lottery.id, s.MaxWinners(), s.root, s.rows, Pool(s.rows), s.pages);
    RowsIndexed(s.lottery, s.rows, s.slot);
  }

  lemma InitialVisits(h: Hashes, config: Config, rents: Rents, id: nat, now: int, bps: nat, price: nat, bank: Bank)
    ensures VisitCount(Initial(h, config, rents, id, now, bps, price, bank).root) == 0
  {
  }

  /**
   Finalization terminates: every accepted chunk visits at least one participant, a ledger still selecting has taken
   fewer than n * (1 + target) visits, and a completed one has taken exactly that many, for every chunking.
   */
  lemma ExactlyAllVisits(h: Hashes, config: Config, rents: Rents, id: nat, now: int, bps: nat, price: nat, bank: Bank, steps: seq<Step>)
    requires Created(h, config, rents, id, now, bps, price, bank)
    ensures var s := Initial(h, config, rents, id, now, bps, price, bank);
            var t := Run(s, steps);
            VisitRange(t.root, t.lottery.participantsCount, Visited(s, steps))
  {
    var s := Initial(h, config, rents, id, now, bps, price, bank);
    hide *;
    InitialVisits(h, config, rents, id, now, bps, price, bank);
    CreatedInv(h, config, rents, id, now, bps, price, bank);
    RunVisits(s, steps);
    RunKeeps(s, steps);
    InvVisits(Run(s, steps));
  }

  // ----- recorded winners stay -----

  /** Selection never falls back and never forgets a round. */
  ghost predicate Further(root: Option<LedgerData>, after: Option<LedgerData>) {
    && root.Some? && after.Some? && root.value.phase != Aggregating && after.value.phase != Aggregating
    && after.value.selectedCount >= root.value.selectedCount
  }

  lemma FurtherFacts(a: Option<LedgerData>, b: Option<LedgerData>, c: Option<LedgerData>)
    ensures IsSelecting(a) ==> Further(a, a)
    ensures Further(a, b) && Further(b, c) ==> Further(a, c)
    ensures Further(a, b) ==> IsSelecting(a) && IsSelecting(b) && a.Some? && b.Some? && b.value.selectedCount >= a.value.selectedCount
  {
  }

  lemma FurtherIntro(root: Option<LedgerData>, after: Option<LedgerData>)
    requires IsSelecting(root) && after.Some? && root.Some? && after.value.phase != Aggregating
    requires after.value.selectedCount >= root.value.selectedCount
    ensures Further(root, after)
  {
  }

  lemma ChunkFurther(s: State, page: nat, keys: seq<Pubkey>)
    requires Inv(s) && IsSelecting(s.root) && FinalizeWinners.Apply(s, page, keys).Ok?
    ensures Further(s.root, FinalizeWinners.Apply(s, page, keys).value.root)
  {
    hide *;
    var t := FinalizeWinners.Apply(s, page, keys).value;
    FurtherFacts(s.root, s.root, s.root);
    ChunkVisits(s, page, keys);
    if FinalizeWinners.Check(s, keys) == Ok(FinalizeWinners.Proceed) {
      FinalizationKeeps.ApplyEffect(s, page, keys);
      ChunkStart(s, page, keys);
      var root := FinalizeWinners.LoadRoot(s).value;
      LoadedSelecting(s, root);
      if root.phase == Selecting {
        SelectVisits(s, root, keys);
        FurtherIntro(s.root, t.root);
      }
    }
  }

  lemma LoadedSelecting(s: State, root: LedgerData)
    requires LedgerLoaded(s, root) && IsSelecting(s.root)
    ensures root.phase != Aggregating && s.root == Some(root)
  {
    hide LedgerOk, PagesHold;
  }

  lemma StepFurther(s: State, step: Step)
    requires Inv(s) && IsSelecting(s.root)
    ensures Further(s.root, After(s, step).root)
  {
    hide *;
    FurtherFacts(s.root, s.root, s.root);
    if step.Finalize? {
      AfterMeans(s, step);
      NextMeans(s, step);
      if Next(s, step).Ok? {
        ChunkFurther(s, step.page, step.keys);
      }
    } else {
      LedgerUntouched(s, step);
    }
  }

  lemma {:induction false} RunFurther(s: State, steps: seq<Step>)
    requires Inv(s) && IsSelecting(s.root)
    ensures Further(s.root, Run(s, steps).root)
  {
    hide Inv, After, Further, IsSelecting;
    FurtherFacts(s.root, s.root, s.root);
    if steps != [] {
      var n := |steps| - 1;
      RunFurther(s, steps[..n]);
      RunKeeps(s, steps[..n]);
      FurtherFacts(s.root, Run(s, steps[..n]).root, s.root);
      StepFurther(Run(s, steps[..n]), steps[n]);
      FurtherFacts(s.root, Run(s, steps[..n]).root, Run(s, steps).root);
    }
  }

  lemma KeptInputs(s: State, t: State)
    requires PoolKept(s, t)
    ensures Pool(t.rows) == Pool(s.rows) && t.MaxWinners() == s.MaxWinners()
    ensures t.h == s.h && t.lottery.id == s.lottery.id
  {
    MarksKeepPool(s.rows, t.rows);
  }

  /** Once selection has begun, target and seed are fixed for good, and every recorded winner stays where it is. */
  lemma SelectionIsFinal(s: State, steps: seq<Step>)
    requires Reachable(s) && IsSelecting(s.root)
    ensures var t := Run(s, steps);
            && s.root.Some? && IsSelecting(t.root) && t.root.Some?
            && t.root.value.targetWinners == s.root.value.targetWinners && t.root.value.seed == s.root.value.seed
            && s.root.value.selectedCount <= t.root.value.selectedCount
            && forall i: nat :: i < s.root.value.selectedCount ==> StoredWinner(t.pages, i) == StoredWinner(s.pages, i)
  {
    hide *;
    var t := Run(s, steps);
    ReachableInv(s);
    RunFurther(s, steps);
    FurtherFacts(s.root, t.root, t.root);
    RunKeeps(s, steps);
    RunKeepsPool(s, steps);
    KeptInputs(s, t);
    var whoS := RecordedWinnersFollowDraw(s);
    var whoT := RecordedWinnersFollowDraw(t);
    SameDraw(s.h, s.lottery.id, s.MaxWinners(), Pool(s.rows), s.root.value, s.pages, whoS, t.root.value, t.pages, whoT);
  }
}
