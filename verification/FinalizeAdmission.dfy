/** Exactly which FinalizeWinners calls succeed, in terms of the stored fields, the next participants and the simple draw. */
module FinalizeAdmission {
  import opened Prelude
  import opened Digests
  import opened Sums
  import opened Participants
  import opened VoteTallies
  import opened TicketDraw
  import opened DrawIndex
  import opened WinnerPages
  import opened FinalizationLedgers
  import opened Lotteries
  import opened Payouts
  import opened States
  import opened Steps
  import opened Invariants
  import opened AttestationKeeps
  import opened AggregationKeeps
  import opened RoundKeeps
  import opened SelectionKeeps
  import opened LedgerKeeps
  import opened FinalizationKeeps
  import opened DrawTheorems
  import opened ChunkSuccess
  import opened Progress
  import opened PassTheorems
  import opened UploadAdmission
  import FinalizeWinners

  // ----- the statement -----

  /** Winners recorded so far. */
  function WinnersSoFar(root: Option<LedgerData>): nat {
    if root.Some? then root.value.selectedCount else 0
  }

  /** Participants the current pass has visited. */
  function Visited(root: Option<LedgerData>): nat {
    if root.None? then 0
    else if root.value.phase == Aggregating then root.value.processedCount else root.value.roundProcessedCount
  }

  /** What the end of the current pass needs: the next draw succeeds or, after the last winner, the pot can be split. */
  ghost predicate PassCanEnd(s: State)
    requires SmallPool(Pool(s.rows))
  {
    var pool := Pool(s.rows);
    var seed := SeedFor(s.h, s.lottery.id, pool);
    var k := WinnersSoFar(s.root) + 1;
    if !IsSelecting(s.root) then Winners(s.h, seed, pool, 1).Some?
    else if k == s.root.value.targetWinners then PayoutPlan(s.lottery.totalFunds, s.lottery.bps, k).Ok?
    else Winners(s.h, seed, pool, k + 1).Some?
  }

  /** The accounts are those of the next participants in index order, and if they end the pass it can end. */
  ghost predicate NextChunk(s: State, keys: seq<Pubkey>)
    requires SmallPool(Pool(s.rows))
  {
    var c := Visited(s.root);
    && keys != [] && c + |keys| <= |s.rows| && keys == Wallets(s.rows, c, c + |keys|)
    && (c + |keys| == |s.rows| ==> PassCanEnd(s))
  }

  /** Finalization is open: two or more participants, somebody attested, nothing missing, and uploads are over. */
  predicate FinalizationOpen(s: State) {
    var l := s.lottery;
    && !l.settled && l.participantsCount >= 2 && l.attestedCount > 0 && !Missing(l)
    && (l.uploadsComplete || s.now > l.uploadDeadline)
  }

  /** A call on a lottery with missing reveals opens the challenge window, once, after the deadline. */
  predicate OpensChallenge(s: State) {
    var l := s.lottery;
    && !l.settled && l.participantsCount >= 2 && l.attestedCount > 0 && Missing(l)
    && s.now > l.uploadDeadline && l.remediationStart == 0
  }

  // ----- the gate -----

  lemma GateIff(s: State, keys: seq<Pubkey>)
    requires Clockwork(s.lottery, s.now) && (s.lottery.settlementComplete ==> s.lottery.settled)
    requires !s.lottery.settled ==> s.vaultOpen
    ensures FinalizeWinners.Check(s, keys) == Ok(FinalizeWinners.Skip) <==> s.vaultOpen && s.lottery.settled
    ensures FinalizeWinners.Check(s, keys) == Ok(FinalizeWinners.Remediate) <==> OpensChallenge(s)
    ensures FinalizeWinners.Check(s, keys) == Ok(FinalizeWinners.Proceed) <==> FinalizationOpen(s) && keys != []
  {
  }

  lemma GateCases(s: State, page: nat, keys: seq<Pubkey>)
    ensures FinalizeWinners.Check(s, keys).Err? ==> FinalizeWinners.Apply(s, page, keys).Err?
    ensures FinalizeWinners.Check(s, keys) == Ok(FinalizeWinners.Skip) ==> FinalizeWinners.Apply(s, page, keys) == Ok(s)
    ensures FinalizeWinners.Check(s, keys) == Ok(FinalizeWinners.Remediate) ==> FinalizeWinners.Apply(s, page, keys).Ok?
    ensures FinalizeWinners.Check(s, keys) == Ok(FinalizeWinners.Skip) || FinalizeWinners.Check(s, keys).Err?
            || FinalizeWinners.Check(s, keys) == Ok(FinalizeWinners.Remediate)
            || FinalizeWinners.Check(s, keys) == Ok(FinalizeWinners.Proceed)
  {
    hide FinalizeWinners.Check, FinalizeWinners.LoadRoot, FinalizeWinners.Aggregate, FinalizeWinners.Select;
    if FinalizeWinners.Check(s, keys).Ok? {
      match FinalizeWinners.Check(s, keys).value
      case Skip =>
      case Remediate =>
      case Proceed =>
    }
  }

  lemma ChunkCases(s: State, page: nat, keys: seq<Pubkey>, root: LedgerData)
    requires FinalizeWinners.Check(s, keys) == Ok(FinalizeWinners.Proceed) && FinalizeWinners.LoadRoot(s) == Ok(root)
    ensures FinalizeWinners.Apply(s, page, keys).Ok? <==>
              && page == root.selectedCount / WINNERS_PER_PAGE
              && (root.phase == Aggregating ==> FinalizeWinners.Aggregate(s, root, keys).Ok?)
              && (root.phase == Selecting ==> FinalizeWinners.Select(s, root, keys).Ok?)
  {
    hide FinalizeWinners.Check, FinalizeWinners.LoadRoot, FinalizeWinners.Aggregate, FinalizeWinners.Select;
  }

  // ----- opening a round -----

  lemma OpenRoundCases(h: Hashes, root: LedgerData, round: nat, remaining: nat)
    requires root.RemainingTickets() == Ok(remaining) && remaining <= U64_MAX
    ensures FinalizeWinners.OpenRound(h, root, round).Ok? <==> Draw(h, root.seed, round, remaining).Ok?
  {
    hide Draw;
  }

  lemma WinnersNext(h: Hashes, seed: Bytes32, pool: seq<Entry>, k: nat)
    requires SmallPool(pool) && Winners(h, seed, pool, k).Some?
    ensures |TicketList(pool, Winners(h, seed, pool, k).value)| <= U64_MAX
    ensures Winners(h, seed, pool, k + 1).Some? <==>
              Draw(h, seed, k, |TicketList(pool, Winners(h, seed, pool, k).value)|).Ok?
  {
    TicketListBound(pool, Winners(h, seed, pool, k).value);
  }

  /** The next round opens exactly if the simple draw gets past it. */
  lemma OpenRoundIff(h: Hashes, id: nat, cap: nat, root: LedgerData, rows: seq<ParticipantData>, pool: seq<Entry>)
    requires SmallPool(pool) && DrawnLedger(h, id, cap, root, rows, pool) && Recorded(h, root, pool)
    ensures FinalizeWinners.OpenRound(h, root, root.selectedCount).Ok? <==>
              Winners(h, root.seed, pool, root.selectedCount + 1).Some?
  {
    hide Recorded, FinalizeWinners.OpenRound, Draw, Winners, TicketList;
    RemainingIsList(h, id, cap, root, rows, pool);
    WinnersNext(h, root.seed, pool, root.selectedCount);
    OpenRoundCases(h, root, root.selectedCount, |TicketList(pool, Drawn(h, root, pool))|);
  }

  // ----- the end of aggregation -----

  /** Everybody has been folded: selection opens exactly if the first draw succeeds. */
  lemma EndAggregationIff(s: State, root: LedgerData, rows: seq<ParticipantData>)
    requires FoldedLedger(s.h, root, rows, Pool(s.rows)) && SmallPool(Pool(s.rows))
    requires root.processedCount == root.requiredCount == |Pool(s.rows)| == |rows|
    requires s.lottery.aggregate == Entropy(Pool(s.rows)) && WinsVote(Pool(s.rows), s.MaxWinners(), s.lottery.selectedWinners)
    requires AllOpen(s.rows, s.slot) && Sum(s.rows, IncludedOne()) > 0
    requires 1 <= s.MaxWinners() <= s.lottery.participantsCount - 1 && s.MaxWinners() <= MAX_WINNERS
    ensures FinalizeWinners.EndAggregation(s, root).Ok? <==>
              Winners(s.h, SeedFor(s.h, s.lottery.id, Pool(s.rows)), Pool(s.rows), 1).Some?
  {
    hide FoldedLedger, AllOpen, FinalizeWinners.EndAggregation, FinalizeWinners.OpenRound, WinsVote, Recorded,
         DrawnLedger, Drawn, Entropy, SeedFor, Winners, MarkedAs;
    var h, id, cap, votes, pool := s.h, s.lottery.id, s.MaxWinners(), s.lottery.selectedWinners, Pool(s.rows);
    SomeTickets(s.rows, s.slot);
    FoldedTotals(h, root, rows, pool);
    FullyFolded(h, id, cap, votes, root, rows, pool);
    var r0 := Targeted(h, id, cap, votes, root, pool);
    OpenRoundIff(h, id, cap, r0, rows, pool);
    if FinalizeWinners.OpenRound(h, r0, 0).Ok? {
      EndAggregationOk(s, root, rows, pool);
    }
    if FinalizeWinners.EndAggregation(s, root).Ok? {
      EndAggregationEffect(s, root, rows, pool);
    }
  }

  lemma FoldedTotals(h: Hashes, root: LedgerData, rows: seq<ParticipantData>, pool: seq<Entry>)
    requires FoldedLedger(h, root, rows, pool) && root.processedCount == |pool|
    ensures root.eligibleCount == Sum(pool, EligibleOne()) && root.totalEligibleTickets == Sum(pool, EligibleTickets())
  {
    assert pool[..root.processedCount] == pool;
  }

  lemma EndAggregationEarly(s: State, root: LedgerData)
    requires root.processedCount < root.requiredCount
    ensures FinalizeWinners.EndAggregation(s, root).Ok?
  {
  }

  lemma AggregateCases(s: State, root: LedgerData, keys: seq<Pubkey>)
    ensures FinalizeWinners.Aggregate(s, root, keys).Ok? <==>
              var pass := FinalizeWinners.AggregateAll(s.h, s.slot, FinalizeWinners.Pass(root, s.rows), keys);
              pass.Ok? && FinalizeWinners.EndAggregation(s, pass.value.root).Ok?
  {
    hide FinalizeWinners.AggregateAll, FinalizeWinners.EndAggregation;
  }

  lemma AggregateIff(s: State, root: LedgerData, keys: seq<Pubkey>)
    requires ChunkFacts(s, root) && root.phase == Aggregating
    ensures var c := root.processedCount;
            FinalizeWinners.Aggregate(s, root, keys).Ok? <==>
              && c + |keys| <= |s.rows| && keys == Wallets(s.rows, c, c + |keys|)
              && (c + |keys| == |s.rows| ==> Winners(s.h, SeedFor(s.h, s.lottery.id, Pool(s.rows)), Pool(s.rows), 1).Some?)
  {
    hide *;
    FactsMean(s, root);
    LoadedChunk(s, root, keys);
    AcceptsMeans(s, root, keys);
    AggregateCases(s, root, keys);
    var start := FinalizeWinners.Pass(root, s.rows);
    if FinalizeWinners.AggregateAll(s.h, s.slot, start, keys).Ok? {
      var pass := FinalizeWinners.AggregateAll(s.h, s.slot, start, keys).value;
      DraftFacts(s, root);
      AggregateAllKeeps(s.h, s.slot, start, keys);
      AggregatedFacts(s.h, start, pass);
      OnlyMarksLength(s.rows, pass.rows);
      PoolLength(s.rows);
      if root.processedCount + |keys| < |s.rows| {
        EndAggregationEarly(s, pass.root);
      } else {
        EndAggregationIff(s, pass.root, pass.rows);
      }
    }
  }

  // ----- the end of a selection pass -----

  lemma AfterWinnerCases(s: State, root: LedgerData, r1: LedgerData)
    requires root.RecordWinner(s.h, SelectedWinner(root.pendingWinner, root.pendingWinnerTickets)) == Ok(r1)
    requires r1.currentRound + 1 <= U32_MAX
    ensures FinalizeWinners.AfterWinner(s, root).Ok? <==>
              if r1.selectedCount == r1.targetWinners then FinalizeWinners.Complete(s.lottery, r1, s.now).Ok?
              else FinalizeWinners.OpenRound(s.h, r1, r1.currentRound + 1).Ok?
  {
    hide FinalizeWinners.Complete, FinalizeWinners.OpenRound;
  }

  lemma CompleteIff(l: LotteryData, root: LedgerData, now: int)
    requires !l.settlementComplete && root.selectedCount <= MAX_WINNERS
    ensures FinalizeWinners.Complete(l, root, now).Ok? <==> PayoutPlan(l.totalFunds, l.bps, root.selectedCount).Ok?
  {
  }

  /** At the end of a full pass the winner is always stored; what follows succeeds exactly if the next draw or the split does. */
  lemma EndSelectionIff(s: State, root: LedgerData, rows: seq<ParticipantData>, pool: seq<Entry>)
    requires PassOver(s, root, rows, pool) && s.MaxWinners() <= MAX_WINNERS && !s.lottery.settlementComplete
    requires root.phase == Selecting && PagesHold(s.pages, WinnerList(s.h, root, pool))
    ensures FinalizeWinners.AppendWinner(root, s.pages).Ok?
    ensures SmallPool(pool) && FinalizeWinners.AfterWinner(s, root).Ok? <==>
              SmallPool(pool)
              && if root.selectedCount + 1 == root.targetWinners
                 then PayoutPlan(s.lottery.totalFunds, s.lottery.bps, root.selectedCount + 1).Ok?
                 else Winners(s.h, SeedFor(s.h, s.lottery.id, pool), pool, root.selectedCount + 2).Some?
  {
    hide FinalizeWinners.AppendWinner, FinalizeWinners.AfterWinner, FinalizeWinners.Complete, FinalizeWinners.OpenRound,
         PassOver, Recorded, PassInProgress, DrawnLedger, PagesHold, WinnerList, PayoutPlan, Drawn, SeedFor, MarkedAs,
         Winners, TargetOf;
    var h, id, cap := s.h, s.lottery.id, s.MaxWinners();
    PassOverParts(s, root, rows, pool);
    DrawnTarget(h, id, cap, root, rows, pool);
    var w := PassEnds(h, id, cap, root, rows, pool);
    ListLength(h, root, pool);
    AppendOk(root, s.pages, WinnerList(h, root, pool));
    TicketsFit(h, root, pool, w);
    var x := SelectedWinner(pool[w].wallet, pool[w].tickets);
    RecordOk(h, root, x);
    WinnerRecorded(h, id, cap, root, rows, pool, w);
    RecordEffect(h, root, x);
    var r1 := root.RecordWinner(h, x).value;
    AfterWinnerCases(s, root, r1);
    CompleteIff(s.lottery, r1, s.now);
    OpenRoundIff(h, id, cap, r1, rows, pool);
  }

  lemma SelectCases(s: State, root: LedgerData, keys: seq<Pubkey>)
    ensures FinalizeWinners.Select(s, root, keys).Ok? <==>
              var pass := FinalizeWinners.SelectAll(s.slot, FinalizeWinners.Pass(root, s.rows), keys);
              pass.Ok? && FinalizeWinners.EndSelection(s, pass.value.root).Ok?
  {
    hide FinalizeWinners.SelectAll, FinalizeWinners.EndSelection;
  }

  lemma EndSelectionCases(s: State, root: LedgerData)
    ensures root.roundProcessedCount < root.requiredCount ==> FinalizeWinners.EndSelection(s, root).Ok?
    ensures root.roundProcessedCount == root.requiredCount ==>
              (FinalizeWinners.EndSelection(s, root).Ok? <==>
                 FinalizeWinners.AppendWinner(root, s.pages).Ok? && FinalizeWinners.AfterWinner(s, root).Ok?)
  {
    hide FinalizeWinners.AppendWinner, FinalizeWinners.AfterWinner;
  }

  lemma WalkedSame(start: Pass, pass: Pass, who: seq<nat>)
    requires Walked(start, pass, who)
    ensures pass.root.targetWinners == start.root.targetWinners && pass.root.selectedCount == start.root.selectedCount
    ensures pass.root.requiredCount == start.root.requiredCount && pass.root.phase == start.root.phase
  {
  }

  lemma SelectIff(s: State, root: LedgerData, keys: seq<Pubkey>)
    requires ChunkFacts(s, root) && root.phase == Selecting && SmallPool(Pool(s.rows))
    ensures var c, k := root.roundProcessedCount, root.selectedCount + 1;
            FinalizeWinners.Select(s, root, keys).Ok? <==>
              && c + |keys| <= |s.rows| && keys == Wallets(s.rows, c, c + |keys|)
              && (c + |keys| == |s.rows| ==>
                    if k == root.targetWinners then PayoutPlan(s.lottery.totalFunds, s.lottery.bps, k).Ok?
                    else Winners(s.h, SeedFor(s.h, s.lottery.id, Pool(s.rows)), Pool(s.rows), k + 1).Some?)
  {
    hide *;
    FactsMean(s, root);
    LoadedChunk(s, root, keys);
    AcceptsMeans(s, root, keys);
    SelectCases(s, root, keys);
    SelectingFacts(s, root);
    InPassFacts(s, root, s.rows, Pool(s.rows));
    CursorInPass(s, root);
    WalkStarts(s, root);
    var start := FinalizeWinners.Pass(root, s.rows);
    var who := Drawn(s.h, root, Pool(s.rows));
    if FinalizeWinners.SelectAll(s.slot, start, keys).Ok? {
      var pass := FinalizeWinners.SelectAll(s.slot, start, keys).value;
      SelectAllKeeps(s.slot, start, who, keys);
      WalkedSame(start, pass, who);
      WalkIsInPass(s, root, pass);
      OnlyMarksLength(s.rows, pass.rows);
      InPassFacts(s, pass.root, pass.rows, Pool(s.rows));
      EndSelectionCases(s, pass.root);
      if root.roundProcessedCount + |keys| == |s.rows| {
        EndSelectionIff(s, pass.root, pass.rows, Pool(s.rows));
      }
    }
  }

  // ----- the instruction -----

  /** Everything a chunk relies on. */
  ghost predicate ChunkFacts(s: State, root: LedgerData) {
    && LedgerLoaded(s, root) && FinalizeWinners.LoadRoot(s) == Ok(root)
    && AllOpen(s.rows, s.slot) && Filed(s.rows, s.slot) && Indexed(s.rows)
    && 2 <= |s.rows| == s.lottery.participantsCount <= MAX_PARTICIPANTS
    && SmallPool(Pool(s.rows)) && Sum(s.rows, IncludedOne()) > 0 && !s.lottery.settlementComplete
    && 1 <= s.MaxWinners() <= s.lottery.participantsCount - 1 && s.MaxWinners() <= MAX_WINNERS
    && (root.phase == Aggregating ==>
          s.lottery.aggregate == Entropy(Pool(s.rows)) && WinsVote(Pool(s.rows), s.MaxWinners(), s.lottery.selectedWinners))
  }

  lemma FactsMean(s: State, root: LedgerData)
    ensures ChunkFacts(s, root) <==>
              && LedgerLoaded(s, root) && FinalizeWinners.LoadRoot(s) == Ok(root)
              && AllOpen(s.rows, s.slot) && Filed(s.rows, s.slot) && Indexed(s.rows)
              && 2 <= |s.rows| == s.lottery.participantsCount <= MAX_PARTICIPANTS
              && SmallPool(Pool(s.rows)) && Sum(s.rows, IncludedOne()) > 0 && !s.lottery.settlementComplete
              && 1 <= s.MaxWinners() <= s.lottery.participantsCount - 1 && s.MaxWinners() <= MAX_WINNERS
              && (root.phase == Aggregating ==>
                    && s.lottery.aggregate == Entropy(Pool(s.rows))
                    && WinsVote(Pool(s.rows), s.MaxWinners(), s.lottery.selectedWinners))
  {
    hide LedgerLoaded, AllOpen, Filed, Indexed, SmallPool, Entropy, WinsVote, FinalizeWinners.LoadRoot;
  }

  lemma OpenFacts(s: State) returns (root: LedgerData)
    requires Inv(s) && FinalizationOpen(s)
    ensures ChunkFacts(s, root)
    ensures root.selectedCount == WinnersSoFar(s.root) && root.phase == (if s.root.Some? then s.root.value.phase else Aggregating)
    ensures Visited(s.root) == if root.phase == Aggregating then root.processedCount else root.roundProcessedCount
    ensures IsSelecting(s.root) ==> s.root == Some(root)
    ensures root.phase == Aggregating <==> !IsSelecting(s.root)
  {
    hide *;
    Parts(s);
    OpenMeans(s);
    NotSettled(s.lottery, s.root, s.pages);
    OpenAccounts(s.lottery, s.MaxWinners(), s.rows, s.slot);
    FiledRows(s.lottery, s.rows, s.slot);
    EligibleFit(s.lottery, s.MaxWinners(), s.rows);
    CapOf(s);
    CapBelow(s.config, s.lottery, s.lottery.participantsCount);
    IncludedSome(s.lottery, s.MaxWinners(), s.rows);
    LoadOk(s);
    root := FinalizeWinners.LoadRoot(s).value;
    LoadedOk(s, root);
    LoadedRoot(s, root);
    IsSelectingMeans(s.root);
    if root.phase == Aggregating {
      VotedFacts(s.lottery, s.MaxWinners(), Pool(s.rows), s.tally);
    }
    FactsMean(s, root);
  }

  lemma OpenMeans(s: State)
    requires FinalizationOpen(s)
    ensures !s.lottery.settled && s.lottery.participantsCount >= 2 && s.lottery.attestedCount > 0
    ensures !s.lottery.HasMissingAttestedReveals()
  {
  }

  lemma LoadedRoot(s: State, root: LedgerData)
    requires FinalizeWinners.LoadRoot(s) == Ok(root)
    ensures s.root.Some? ==> s.root == Some(root)
    ensures s.root.None? ==> root.phase == Aggregating && root.processedCount == 0 && root.selectedCount == 0
    ensures root.selectedCount == WinnersSoFar(s.root)
    ensures Visited(s.root) == if root.phase == Aggregating then root.processedCount else root.roundProcessedCount
  {
  }

  lemma PassCanEndMeans(s: State)
    requires SmallPool(Pool(s.rows))
    ensures !IsSelecting(s.root) ==>
              (PassCanEnd(s) <==> Winners(s.h, SeedFor(s.h, s.lottery.id, Pool(s.rows)), Pool(s.rows), 1).Some?)
    ensures IsSelecting(s.root) ==>
              (PassCanEnd(s) <==>
                 var k := s.root.value.selectedCount + 1;
                 if k == s.root.value.targetWinners then PayoutPlan(s.lottery.totalFunds, s.lottery.bps, k).Ok?
                 else Winners(s.h, SeedFor(s.h, s.lottery.id, Pool(s.rows)), Pool(s.rows), k + 1).Some?)
  {
    hide Winners, SeedFor, PayoutPlan, SmallPool;
  }

  lemma NextChunkMeans(s: State, keys: seq<Pubkey>)
    requires SmallPool(Pool(s.rows))
    ensures var c := Visited(s.root);
            NextChunk(s, keys) <==>
              && keys != [] && c + |keys| <= |s.rows| && keys == Wallets(s.rows, c, c + |keys|)
              && (c + |keys| == |s.rows| ==> PassCanEnd(s))
  {
    hide PassCanEnd, SmallPool, Visited;
  }

  /** In an open lottery a call succeeds exactly with the current page and the next chunk, or any accounts once complete. */
  lemma OpenIff(s: State, page: nat, keys: seq<Pubkey>)
    requires Inv(s) && FinalizationOpen(s)
    ensures SmallPool(Pool(s.rows))
    ensures FinalizeWinners.Apply(s, page, keys).Ok? <==>
              && keys != [] && page == WinnersSoFar(s.root) / WINNERS_PER_PAGE
              && (IsComplete(s.root) || NextChunk(s, keys))
  {
    hide *;
    var root := OpenFacts(s);
    FactsMean(s, root);
    GateFacts(s);
    GateIff(s, keys);
    GateCases(s, page, keys);
    OpenChallengeApart(s);
    IsSelectingMeans(s.root);
    NotCompleted(root);
    NextChunkMeans(s, keys);
    PassCanEndMeans(s);
    if keys != [] {
      ChunkCases(s, page, keys, root);
      if root.phase == Aggregating {
        AggregateIff(s, root, keys);
      } else if root.phase == Selecting {
        SelectIff(s, root, keys);
      }
    }
  }

  lemma GateFacts(s: State)
    requires Inv(s)
    ensures Clockwork(s.lottery, s.now) && (s.lottery.settlementComplete ==> s.lottery.settled)
    ensures !s.lottery.settled ==> s.vaultOpen
  {
    hide *;
    Parts(s);
    SettledIfComplete(s);
    if !s.lottery.settled {
      VaultStillOpen(s.lottery, s.rows, s.rents, s.bank, s.vaultOpen, s.donated, s.credited);
    }
  }

  /**
   Exactly which calls succeed: on a settled lottery, as long as its vault is there, any call, without effect; on a lottery
   with missing reveals, the call that opens the challenge window; and on a lottery whose finalization is open, the current
   page with exactly the next participants, provided the pass can end if they end it.
   */
  lemma FinalizeIff(s: State, page: nat, keys: seq<Pubkey>)
    requires Inv(s)
    ensures FinalizationOpen(s) ==> SmallPool(Pool(s.rows))
    ensures Next(s, Finalize(page, keys)).Ok? <==>
              || (s.lottery.settled && s.vaultOpen)
              || OpensChallenge(s)
              || (FinalizationOpen(s) && keys != [] && page == WinnersSoFar(s.root) / WINNERS_PER_PAGE
                  && (IsComplete(s.root) || NextChunk(s, keys)))
    ensures s.lottery.settled && s.vaultOpen ==> Next(s, Finalize(page, keys)) == Ok(s)
  {
    hide *;
    NextMeans(s, Finalize(page, keys));
    GateFacts(s);
    GateIff(s, keys);
    GateCases(s, page, keys);
    OpenChallengeApart(s);
    if FinalizationOpen(s) {
      OpenIff(s, page, keys);
    }
  }

  lemma OpenChallengeApart(s: State)
    ensures FinalizationOpen(s) ==> !s.lottery.settled && !OpensChallenge(s)
    ensures OpensChallenge(s) ==> !s.lottery.settled
  {
  }
}
