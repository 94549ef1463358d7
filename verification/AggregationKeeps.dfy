/** The aggregation pass: folding participants one by one computes the totals of the whole pool. */
module AggregationKeeps {
  import opened Digests
  import opened Sums
  import opened Participants
  import opened TicketDraw
  import opened FinalizationLedgers
  import opened Invariants
  import FinalizeWinners

  type Pass = FinalizeWinners.Pass

  /** Rows that differ in their finalization marks only. */
  ghost predicate OnlyMarks(rows: seq<ParticipantData>, after: seq<ParticipantData>) {
    && |after| == |rows|
    && forall i :: 0 <= i < |rows| ==>
         after[i] == rows[i].(finalizationGeneration := after[i].finalizationGeneration,
                              selectedGeneration := after[i].selectedGeneration,
                              selectedRound := after[i].selectedRound)
  }

  /** Participant indices are row numbers, and slots point at existing rows. */
  ghost predicate Indexed(rows: seq<ParticipantData>) {
    forall i :: 0 <= i < |rows| ==> rows[i].index == i
  }

  lemma OnlyMarksChain(rows: seq<ParticipantData>, mid: seq<ParticipantData>, after: seq<ParticipantData>)
    requires OnlyMarks(rows, mid) && OnlyMarks(mid, after)
    ensures OnlyMarks(rows, after)
  {
  }

  lemma MarksKeepPool(rows: seq<ParticipantData>, after: seq<ParticipantData>)
    requires OnlyMarks(rows, after)
    ensures Pool(after) == Pool(rows) && SamePeople(rows, after) && (Indexed(rows) ==> Indexed(after))
  {
  }

  /** The fields of the ledger that a fold touches. */
  ghost predicate SameDraft(root: LedgerData, after: LedgerData) {
    after == root.(processedCount := after.processedCount, eligibleCount := after.eligibleCount,
                   totalEligibleTickets := after.totalEligibleTickets,
                   participantsCommitment := after.participantsCommitment)
  }

  lemma FoldEffect(h: Hashes, root: LedgerData, p: ParticipantData)
    requires FinalizeWinners.Fold(h, root, p).Ok?
    ensures var r := FinalizeWinners.Fold(h, root, p).value;
            && SameDraft(root, r) && r.processedCount == root.processedCount + 1
            && r.eligibleCount == root.eligibleCount + (if p.revealIncluded then 1 else 0)
            && r.totalEligibleTickets == root.totalEligibleTickets + (if p.revealIncluded then p.tickets else 0)
            && r.participantsCommitment
               == if p.revealIncluded then h.pool(root.participantsCommitment, p.index, p.wallet, p.tickets, p.revealDigest)
                  else root.participantsCommitment
  {
  }

  lemma PoolCommitmentNext(h: Hashes, pool: seq<Entry>, k: nat)
    requires k < |pool|
    ensures PoolCommitment(h, pool[..k + 1])
         == var e, before := pool[k], PoolCommitment(h, pool[..k]);
            if e.shown.Some? then h.pool(before, k, e.wallet, e.tickets, e.shown.value.digest) else before
  {
    assert pool[..k + 1][..k] == pool[..k];
  }

  lemma FoldKeeps(h: Hashes, root: LedgerData, rows: seq<ParticipantData>, k: nat)
    requires FoldedLedger(h, root, rows, Pool(rows)) && k == root.processedCount && k < |rows| && rows[k].index == k
    requires FinalizeWinners.Fold(h, root, rows[k]).Ok?
    ensures var r := FinalizeWinners.Fold(h, root, rows[k]).value;
            FoldedLedger(h, r, rows[k := rows[k].MarkFinalized(1)], Pool(rows))
  {
    hide FinalizeWinners.Fold;
    FoldEffect(h, root, rows[k]);
    SumNext(Pool(rows), k, EligibleOne());
    SumNext(Pool(rows), k, EligibleTickets());
    PoolCommitmentNext(h, Pool(rows), k);
  }

  lemma AggregateEffect(h: Hashes, slot: map<Pubkey, nat>, pass: Pass, w: Pubkey) returns (k: nat)
    requires FinalizeWinners.AggregateOne(h, slot, pass, w).Ok?
    ensures w in slot && k == slot[w] < |pass.rows| && pass.rows[k].index == pass.root.processedCount
    ensures FinalizeWinners.Fold(h, pass.root, pass.rows[k]).Ok?
    ensures FinalizeWinners.AggregateOne(h, slot, pass, w).value
         == FinalizeWinners.Pass(FinalizeWinners.Fold(h, pass.root, pass.rows[k]).value,
                                 pass.rows[k := pass.rows[k].MarkFinalized(pass.root.generation)])
  {
    hide FinalizeWinners.Fold;
    k := slot[w];
  }

  /** What the aggregation of some chunk has done so far. */
  ghost predicate Aggregated(h: Hashes, start: Pass, pass: Pass) {
    && OnlyMarks(start.rows, pass.rows) && SameDraft(start.root, pass.root)
    && FoldedLedger(h, pass.root, pass.rows, Pool(start.rows))
  }

  lemma AggregateOneKeeps(h: Hashes, slot: map<Pubkey, nat>, start: Pass, pass: Pass, w: Pubkey)
    requires Aggregated(h, start, pass) && start.root.generation == 1 && Indexed(start.rows)
    requires FinalizeWinners.AggregateOne(h, slot, pass, w).Ok?
    ensures var after := FinalizeWinners.AggregateOne(h, slot, pass, w).value;
            Aggregated(h, start, after) && after.root.processedCount == pass.root.processedCount + 1
  {
    hide FinalizeWinners.AggregateOne, FinalizeWinners.Fold, FoldedLedger;
    var k := AggregateEffect(h, slot, pass, w);
    MarksKeepPool(start.rows, pass.rows);
    FoldKeeps(h, pass.root, pass.rows, k);
    FoldEffect(h, pass.root, pass.rows[k]);
  }

  lemma {:induction false} AggregateAllKeeps(h: Hashes, slot: map<Pubkey, nat>, start: Pass, keys: seq<Pubkey>)
    requires Aggregated(h, start, start) && start.root.generation == 1 && Indexed(start.rows)
    requires FinalizeWinners.AggregateAll(h, slot, start, keys).Ok?
    ensures var after := FinalizeWinners.AggregateAll(h, slot, start, keys).value;
            Aggregated(h, start, after) && after.root.processedCount == start.root.processedCount + |keys|
  {
    hide FinalizeWinners.AggregateOne, Aggregated, Indexed;
    if keys != [] {
      var n := |keys| - 1;
      AggregateAllKeeps(h, slot, start, keys[..n]);
      AggregateOneKeeps(h, slot, start, FinalizeWinners.AggregateAll(h, slot, start, keys[..n]).value, keys[n]);
    }
  }
}
