/** Opening a selection round: the draw is made over exactly the tickets that are still in the list. */
module RoundKeeps {
  import opened Prelude
  import opened Digests
  import opened Participants
  import opened TicketDraw
  import opened DrawIndex
  import opened FinalizationLedgers
  import opened Invariants
  import FinalizeWinners

  /** Fields that opening a round leaves alone. */
  ghost predicate SameRecord(root: LedgerData, after: LedgerData) {
    && after.generation == root.generation && after.requiredCount == root.requiredCount
    && after.eligibleCount == root.eligibleCount && after.totalEligibleTickets == root.totalEligibleTickets
    && after.participantsCommitment == root.participantsCommitment && after.seed == root.seed
    && after.targetWinners == root.targetWinners && after.selectedCount == root.selectedCount
    && after.selectedTicketsTotal == root.selectedTicketsTotal && after.winnersCommitment == root.winnersCommitment
  }

  lemma RecordFrame(h: Hashes, id: nat, cap: nat, root: LedgerData, after: LedgerData, rows: seq<ParticipantData>,
                    rows': seq<ParticipantData>, pool: seq<Entry>)
    requires SmallPool(pool) && DrawnLedger(h, id, cap, root, rows, pool) && Recorded(h, root, pool)
    requires SameRecord(root, after)
    requires |rows'| == |rows| && forall i :: 0 <= i < |rows| ==> rows'[i].finalizationGeneration == rows[i].finalizationGeneration
    ensures DrawnLedger(h, id, cap, after, rows', pool) && Recorded(h, after, pool)
    ensures Drawn(h, after, pool) == Drawn(h, root, pool)
  {
  }

  /** What the ledger still counts as remaining is the length of the ticket list. */
  lemma RemainingIsList(h: Hashes, id: nat, cap: nat, root: LedgerData, rows: seq<ParticipantData>, pool: seq<Entry>)
    requires SmallPool(pool) && DrawnLedger(h, id, cap, root, rows, pool) && Recorded(h, root, pool)
    ensures root.RemainingTickets() == Ok(|TicketList(pool, Drawn(h, root, pool))|)
    ensures |TicketList(pool, Drawn(h, root, pool))| <= U64_MAX
  {
    WinnersFacts(h, root.seed, pool, root.selectedCount);
    TicketListBound(pool, Drawn(h, root, pool));
  }

  lemma OpenRoundEffect(h: Hashes, root: LedgerData, round: nat, remaining: nat)
    requires FinalizeWinners.OpenRound(h, root, round).Ok? && root.RemainingTickets() == Ok(remaining) && remaining <= U64_MAX
    ensures Draw(h, root.seed, round, remaining).Ok?
    ensures FinalizeWinners.OpenRound(h, root, round).value
         == root.(currentRound := round).BeginSelectionRound(Draw(h, root.seed, round, remaining).value)
  {
  }

  lemma RoundBegins(h: Hashes, root: LedgerData, rows: seq<ParticipantData>, pool: seq<Entry>, d: nat)
    requires SmallPool(pool) && Winners(h, root.seed, pool, root.selectedCount).Some?
    requires MarkedAs(rows, Drawn(h, root, pool)) && root.selectedCount < root.targetWinners
    requires |TicketList(pool, Drawn(h, root, pool))| <= U64_MAX
    requires Draw(h, root.seed, root.selectedCount, |TicketList(pool, Drawn(h, root, pool))|) == Ok(d)
    ensures PassInProgress(h, root.(currentRound := root.selectedCount).BeginSelectionRound(d), rows, pool)
  {
    var r := root.(currentRound := root.selectedCount).BeginSelectionRound(d);
    assert Drawn(h, r, pool) == Drawn(h, root, pool);
    assert pool[..0] == [];
  }

  /** A round that opens does so on a fresh pass over the list of remaining tickets. */
  lemma RoundOpens(h: Hashes, id: nat, cap: nat, root: LedgerData, rows: seq<ParticipantData>, pool: seq<Entry>)
    requires SmallPool(pool) && DrawnLedger(h, id, cap, root, rows, pool) && Recorded(h, root, pool)
    requires MarkedAs(rows, Drawn(h, root, pool)) && root.selectedCount < root.targetWinners
    requires FinalizeWinners.OpenRound(h, root, root.selectedCount).Ok?
    ensures var r := FinalizeWinners.OpenRound(h, root, root.selectedCount).value;
            && SameRecord(root, r) && r.phase == Selecting && r.roundProcessedCount == 0
            && DrawnLedger(h, id, cap, r, rows, pool) && Recorded(h, r, pool)
            && Drawn(h, r, pool) == Drawn(h, root, pool)
            && PassInProgress(h, r, rows, pool)
  {
    hide FinalizeWinners.OpenRound, Recorded, PassInProgress, MarkedAs;
    RemainingIsList(h, id, cap, root, rows, pool);
    var remaining := |TicketList(pool, Drawn(h, root, pool))|;
    OpenRoundEffect(h, root, root.selectedCount, remaining);
    RoundBegins(h, root, rows, pool, Draw(h, root.seed, root.selectedCount, remaining).value);
    RecordFrame(h, id, cap, root, FinalizeWinners.OpenRound(h, root, root.selectedCount).value, rows, rows, pool);
  }
}
