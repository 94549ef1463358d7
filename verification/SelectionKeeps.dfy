/** The selection pass: visiting participants one by one walks along the ticket list. */
module SelectionKeeps {
  import opened Prelude
  import opened Digests
  import opened Participants
  import opened TicketDraw
  import opened DrawIndex
  import opened FinalizationLedgers
  import opened Invariants
  import opened AggregationKeeps
  import FinalizeWinners

  /** The fields of the ledger that a visit touches. */
  ghost predicate SameRound(root: LedgerData, after: LedgerData) {
    after == root.(roundProcessedCount := after.roundProcessedCount, roundTicketsSeen := after.roundTicketsSeen,
                   pendingWinner := after.pendingWinner, pendingWinnerTickets := after.pendingWinnerTickets,
                   pendingWinnerFound := after.pendingWinnerFound)
  }

  /** A visit sees the participant's tickets exactly when they are in the list, and chooses the owner of the drawn one. */
  lemma VisitEffect(root: LedgerData, p: ParticipantData)
    requires FinalizeWinners.Visit(root, p).Ok?
    ensures p.index == root.roundProcessedCount
    ensures var (r, chosen) := FinalizeWinners.Visit(root, p).value;
            var sees := p.revealIncluded && !p.SelectedIn(root.generation);
            var end := root.roundTicketsSeen + if sees then p.tickets else 0;
            && SameRound(root, r) && r.roundProcessedCount == root.roundProcessedCount + 1 && r.roundTicketsSeen == end
            && chosen == (sees && !root.pendingWinnerFound && root.roundTicketsSeen <= root.roundDrawIndex < end)
            && r.pendingWinnerFound == (root.pendingWinnerFound || chosen)
            && r.pendingWinner == (if chosen then p.wallet else root.pendingWinner)
            && r.pendingWinnerTickets == (if chosen then p.tickets else root.pendingWinnerTickets)
  {
  }

  lemma SelectEffect(slot: map<Pubkey, nat>, pass: Pass, w: Pubkey) returns (k: nat)
    requires FinalizeWinners.SelectOne(slot, pass, w).Ok?
    ensures w in slot && k == slot[w] < |pass.rows| && FinalizeWinners.Visit(pass.root, pass.rows[k]).Ok?
    ensures var (r, chosen) := FinalizeWinners.Visit(pass.root, pass.rows[k]).value;
            FinalizeWinners.SelectOne(slot, pass, w).value
            == FinalizeWinners.Pass(r, if chosen then pass.rows[k := pass.rows[k].MarkSelected(r.generation, r.currentRound)]
                                       else pass.rows)
  {
    hide FinalizeWinners.Visit;
    k := slot[w];
  }

  /** Owners of tickets seen before participant k come before k. */
  lemma SeenBefore(pool: seq<Entry>, who: seq<nat>, k: nat)
    requires k <= |pool|
    ensures forall i :: 0 <= i < |TicketList(pool[..k], who)| ==>
              TicketList(pool[..k], who)[i] < k && TicketList(pool[..k], who)[i] !in who
  {
    forall i | 0 <= i < |TicketList(pool[..k], who)|
      ensures TicketList(pool[..k], who)[i] < k && TicketList(pool[..k], who)[i] !in who
    {
      TicketListOwners(pool[..k], who, i);
    }
  }

  /** The state of a pass, without the whole-ledger context. */
  ghost predicate Walking(root: LedgerData, rows: seq<ParticipantData>, pool: seq<Entry>, who: seq<nat>) {
    && root.roundProcessedCount <= |pool| == |rows|
    && var seen := TicketList(pool[..root.roundProcessedCount], who);
    && root.roundTicketsSeen == |seen| && root.currentRound == |who|
    && root.pendingWinnerFound == (root.roundDrawIndex < |seen|)
    && (root.pendingWinnerFound ==>
          && seen[root.roundDrawIndex] < |pool|
          && root.pendingWinner == pool[seen[root.roundDrawIndex]].wallet
          && root.pendingWinnerTickets == pool[seen[root.roundDrawIndex]].tickets)
    && MarkedAs(rows, if root.pendingWinnerFound then who + [seen[root.roundDrawIndex]] else who)
  }

  lemma WalkingIsPass(h: Hashes, root: LedgerData, rows: seq<ParticipantData>, pool: seq<Entry>)
    requires SmallPool(pool) && Winners(h, root.seed, pool, root.selectedCount).Some? && |rows| == |pool|
    ensures PassInProgress(h, root, rows, pool)
       <==> && Walking(root, rows, pool, Drawn(h, root, pool))
            && root.selectedCount < root.targetWinners && root.currentRound == root.selectedCount
            && |TicketList(pool, Drawn(h, root, pool))| <= SAMPLES
            && Draw(h, root.seed, root.currentRound, |TicketList(pool, Drawn(h, root, pool))|) == Ok(root.roundDrawIndex)
  {
    hide MarkedAs, TicketList, Recorded;
    WinnersFacts(h, root.seed, pool, root.selectedCount);
    TicketListBound(pool, Drawn(h, root, pool));
  }

  /** Marking the participant drawn in the round after the given ones. */
  lemma OneMoreMark(rows: seq<ParticipantData>, who: seq<nat>, k: nat)
    requires MarkedAs(rows, who) && k < |rows| && rows[k].selectedGeneration != 1
    ensures MarkedAs(rows[k := rows[k].MarkSelected(1, |who|)], who + [k])
  {
  }

  lemma MarkMeans(rows: seq<ParticipantData>, who: seq<nat>, k: nat)
    requires MarkedAs(rows, who) && k < |rows|
    ensures rows[k].selectedGeneration == 1 <==> k in who
  {
  }

  /** One visit moves the walk on by one participant. */
  lemma VisitWalks(root: LedgerData, rows: seq<ParticipantData>, pool: seq<Entry>, who: seq<nat>, k: nat)
    requires Walking(root, rows, pool, who) && pool == Pool(rows) && root.generation == 1
    requires k == root.roundProcessedCount < |rows|
    requires FinalizeWinners.Visit(root, rows[k]).Ok?
    ensures var (r, chosen) := FinalizeWinners.Visit(root, rows[k]).value;
            Walking(r, if chosen then rows[k := rows[k].MarkSelected(r.generation, r.currentRound)] else rows, pool, who)
  {
    hide FinalizeWinners.Visit, TicketList, MarkedAs;
    VisitEffect(root, rows[k]);
    MarkMeans(rows, if root.pendingWinnerFound then who + [TicketList(pool[..k], who)[root.roundDrawIndex]] else who, k);
    if FinalizeWinners.Visit(root, rows[k]).value.1 {
      OneMoreMark(rows, who, k);
    }
    TicketListNext(pool, who, k);
    SeenBefore(pool, who, k);
  }

  /** What a selection chunk has done so far. */
  ghost predicate Walked(start: Pass, pass: Pass, who: seq<nat>) {
    && OnlyMarks(start.rows, pass.rows) && SameRound(start.root, pass.root)
    && Walking(pass.root, pass.rows, Pool(start.rows), who)
    && forall i :: 0 <= i < |start.rows| ==> pass.rows[i].finalizationGeneration == start.rows[i].finalizationGeneration
  }

  lemma SelectOneKeeps(slot: map<Pubkey, nat>, start: Pass, pass: Pass, who: seq<nat>, w: Pubkey)
    requires Walked(start, pass, who) && start.root.generation == 1 && Indexed(start.rows)
    requires FinalizeWinners.SelectOne(slot, pass, w).Ok?
    ensures var after := FinalizeWinners.SelectOne(slot, pass, w).value;
            Walked(start, after, who) && after.root.roundProcessedCount == pass.root.roundProcessedCount + 1
  {
    hide FinalizeWinners.SelectOne, FinalizeWinners.Visit, Walking;
    var k := SelectEffect(slot, pass, w);
    MarksKeepPool(start.rows, pass.rows);
    VisitEffect(pass.root, pass.rows[k]);
    VisitWalks(pass.root, pass.rows, Pool(start.rows), who, k);
  }

  lemma {:induction false} SelectAllKeeps(slot: map<Pubkey, nat>, start: Pass, who: seq<nat>, keys: seq<Pubkey>)
    requires Walked(start, start, who) && start.root.generation == 1 && Indexed(start.rows)
    requires FinalizeWinners.SelectAll(slot, start, keys).Ok?
    ensures var after := FinalizeWinners.SelectAll(slot, start, keys).value;
            Walked(start, after, who) && after.root.roundProcessedCount == start.root.roundProcessedCount + |keys|
  {
    hide FinalizeWinners.SelectOne, Walked, Indexed;
    if keys != [] {
      var n := |keys| - 1;
      SelectAllKeeps(slot, start, who, keys[..n]);
      SelectOneKeeps(slot, start, FinalizeWinners.SelectAll(slot, start, keys[..n]).value, who, keys[n]);
    }
  }
}
