/** What a chunk may contain, and what a full selection pass has established when it ends. */
module PassTheorems {
  import opened Prelude
  import opened Digests
  import opened Participants
  import opened TicketDraw
  import opened DrawIndex
  import opened FinalizationLedgers
  import opened Lotteries
  import opened States
  import opened Invariants
  import opened AggregationKeeps
  import opened SelectionKeeps
  import opened LedgerKeeps
  import opened FinalizationKeeps
  import opened Visits
  import opened Runs
  import opened ChunkSuccess
  import opened Progress
  import FinalizeWinners

  // ----- the exact next participants, and nobody else -----

  /** Live accounts are filed under their own wallets. */
  ghost predicate Filed(rows: seq<ParticipantData>, slot: map<Pubkey, nat>) {
    forall w :: w in slot ==> slot[w] < |rows| && rows[slot[w]].wallet == w
  }

  lemma AggregateOneExact(h: Hashes, slot: map<Pubkey, nat>, start: Pass, pass: Pass, w: Pubkey)
    requires Filed(start.rows, slot) && Indexed(start.rows) && OnlyMarks(start.rows, pass.rows)
    requires FinalizeWinners.AggregateOne(h, slot, pass, w).Ok?
    ensures pass.root.processedCount < |start.rows| && w == start.rows[pass.root.processedCount].wallet
  {
    hide FinalizeWinners.AggregateOne, FinalizeWinners.Fold;
    var k := AggregateEffect(h, slot, pass, w);
  }

  lemma SelectOneExact(slot: map<Pubkey, nat>, start: Pass, pass: Pass, w: Pubkey)
    requires Filed(start.rows, slot) && Indexed(start.rows) && OnlyMarks(start.rows, pass.rows)
    requires FinalizeWinners.SelectOne(slot, pass, w).Ok?
    ensures pass.root.roundProcessedCount < |start.rows| && w == start.rows[pass.root.roundProcessedCount].wallet
  {
    hide FinalizeWinners.SelectOne, FinalizeWinners.Visit;
    var k := SelectEffect(slot, pass, w);
    VisitEffect(pass.root, pass.rows[k]);
  }

  lemma PoolLength(rows: seq<ParticipantData>)
    ensures |Pool(rows)| == |rows|
  {
  }

  /** A list of wallets is determined by its elements. */
  lemma WalletsAre(rows: seq<ParticipantData>, first: nat, keys: seq<Pubkey>)
    requires first + |keys| <= |rows|
    requires keys == [] || (&& keys[..|keys| - 1] == Wallets(rows, first, first + |keys| - 1)
                            && keys[|keys| - 1] == rows[first + |keys| - 1].wallet)
    ensures keys == Wallets(rows, first, first + |keys|)
  {
    if keys != [] {
      assert keys == keys[..|keys| - 1] + [keys[|keys| - 1]];
    }
  }

  lemma AggregateAllLast(h: Hashes, slot: map<Pubkey, nat>, start: Pass, keys: seq<Pubkey>)
    requires keys != [] && FinalizeWinners.AggregateAll(h, slot, start, keys).Ok?
    ensures FinalizeWinners.AggregateAll(h, slot, start, keys[..|keys| - 1]).Ok?
    ensures var before := FinalizeWinners.AggregateAll(h, slot, start, keys[..|keys| - 1]).value;
            FinalizeWinners.AggregateOne(h, slot, before, keys[|keys| - 1]).Ok?
  {
  }

  lemma SelectAllLast(slot: map<Pubkey, nat>, start: Pass, keys: seq<Pubkey>)
    requires keys != [] && FinalizeWinners.SelectAll(slot, start, keys).Ok?
    ensures FinalizeWinners.SelectAll(slot, start, keys[..|keys| - 1]).Ok?
    ensures FinalizeWinners.SelectOne(slot, FinalizeWinners.SelectAll(slot, start, keys[..|keys| - 1]).value, keys[|keys| - 1]).Ok?
  {
  }

  /** An aggregation chunk is accepted only if it lists the exact next participants in index order. */
  lemma {:induction false} AggregateAllExact(h: Hashes, slot: map<Pubkey, nat>, start: Pass, keys: seq<Pubkey>)
    requires Aggregated(h, start, start) && start.root.generation == 1 && Indexed(start.rows) && Filed(start.rows, slot)
    requires FinalizeWinners.AggregateAll(h, slot, start, keys).Ok?
    ensures start.root.processedCount + |keys| <= |start.rows|
    ensures keys == Wallets(start.rows, start.root.processedCount, start.root.processedCount + |keys|)
  {
    hide *;
    AggregatedFacts(h, start, start);
    FoldedBound(h, start.root, start.rows, Pool(start.rows));
    PoolLength(start.rows);
    if keys != [] {
      var n := |keys| - 1;
      AggregateAllLast(h, slot, start, keys);
      AggregateAllExact(h, slot, start, keys[..n]);
      AggregateAllKeeps(h, slot, start, keys[..n]);
      var pass := FinalizeWinners.AggregateAll(h, slot, start, keys[..n]).value;
      AggregatedFacts(h, start, pass);
      AggregateOneExact(h, slot, start, pass, keys[n]);
    }
    WalletsAre(start.rows, start.root.processedCount, keys);
  }

  lemma FoldedBound(h: Hashes, root: LedgerData, rows: seq<ParticipantData>, pool: seq<Entry>)
    requires FoldedLedger(h, root, rows, pool)
    ensures root.processedCount <= |pool|
  {
  }

  lemma WalkedBound(start: Pass, pass: Pass, who: seq<nat>)
    requires Walked(start, pass, who)
    ensures pass.root.roundProcessedCount <= |start.rows|
  {
  }

  /** A selection chunk is accepted only if it lists the exact next participants in index order. */
  lemma {:induction false} SelectAllExact(slot: map<Pubkey, nat>, start: Pass, who: seq<nat>, keys: seq<Pubkey>)
    requires Walked(start, start, who) && start.root.generation == 1 && Indexed(start.rows) && Filed(start.rows, slot)
    requires FinalizeWinners.SelectAll(slot, start, keys).Ok?
    ensures start.root.roundProcessedCount + |keys| <= |start.rows|
    ensures keys == Wallets(start.rows, start.root.roundProcessedCount, start.root.roundProcessedCount + |keys|)
  {
    hide *;
    WalkedBound(start, start, who);
    if keys != [] {
      var n := |keys| - 1;
      SelectAllLast(slot, start, keys);
      SelectAllExact(slot, start, who, keys[..n]);
      SelectAllKeeps(slot, start, who, keys[..n]);
      var pass := FinalizeWinners.SelectAll(slot, start, keys[..n]).value;
      WalkedPass(start, pass, who);
      SelectOneExact(slot, start, pass, keys[n]);
    }
    WalletsAre(start.rows, start.root.roundProcessedCount, keys);
  }

  /** The loop of a chunk, in the phase the ledger is in, accepts these accounts. */
  ghost predicate Accepts(s: State, root: LedgerData, keys: seq<Pubkey>) {
    if root.phase == Aggregating then FinalizeWinners.AggregateAll(s.h, s.slot, FinalizeWinners.Pass(root, s.rows), keys).Ok?
    else FinalizeWinners.SelectAll(s.slot, FinalizeWinners.Pass(root, s.rows), keys).Ok?
  }

  /** Where the current pass stands. */
  function Cursor(root: LedgerData): nat {
    if root.phase == Aggregating then root.processedCount else root.roundProcessedCount
  }

  lemma AcceptsMeans(s: State, root: LedgerData, keys: seq<Pubkey>)
    ensures root.phase == Aggregating ==>
              && Cursor(root) == root.processedCount
              && (Accepts(s, root, keys)
                  <==> FinalizeWinners.AggregateAll(s.h, s.slot, FinalizeWinners.Pass(root, s.rows), keys).Ok?)
    ensures root.phase != Aggregating ==>
              && Cursor(root) == root.roundProcessedCount
              && (Accepts(s, root, keys) <==> FinalizeWinners.SelectAll(s.slot, FinalizeWinners.Pass(root, s.rows), keys).Ok?)
  {
    hide FinalizeWinners.AggregateAll, FinalizeWinners.SelectAll;
  }

  lemma NotCompleted(root: LedgerData)
    ensures root.phase == Aggregating || root.phase == Selecting || root.phase == Completed
  {
  }

  lemma LoadedChunk(s: State, root: LedgerData, keys: seq<Pubkey>)
    requires LedgerLoaded(s, root) && AllOpen(s.rows, s.slot) && Filed(s.rows, s.slot) && Indexed(s.rows)
    requires |s.rows| <= MAX_PARTICIPANTS && root.phase != Completed
    ensures Accepts(s, root, keys) <==>
              Cursor(root) + |keys| <= |s.rows| && keys == Wallets(s.rows, Cursor(root), Cursor(root) + |keys|)
  {
    hide *;
    AcceptsMeans(s, root, keys);
    NotCompleted(root);
    var start := FinalizeWinners.Pass(root, s.rows);
    if root.phase == Aggregating {
      DraftFacts(s, root);
      if FinalizeWinners.AggregateAll(s.h, s.slot, start, keys).Ok? {
        AggregateAllExact(s.h, s.slot, start, keys);
      } else if root.processedCount + |keys| <= |s.rows| {
        AggregateAllOk(s.h, s.slot, start, root.processedCount + |keys|);
      }
    } else {
      SelectingFacts(s, root);
      InPassFacts(s, root, s.rows, Pool(s.rows));
      CursorInPass(s, root);
      WalkStarts(s, root);
      var who := Drawn(s.h, root, Pool(s.rows));
      if FinalizeWinners.SelectAll(s.slot, start, keys).Ok? {
        SelectAllExact(s.slot, start, who, keys);
      } else if root.roundProcessedCount + |keys| <= |s.rows| {
        SelectAllOk(s.slot, start, who, root.roundProcessedCount + |keys|);
      }
    }
  }

  lemma FiledRows(l: LotteryData, rows: seq<ParticipantData>, slot: map<Pubkey, nat>)
    requires Registered(l, rows, slot)
    ensures Filed(rows, slot)
  {
  }

  /** In every reachable state of an open lottery a chunk's loop accepts exactly the next participants, for any chunk size. */
  lemma ChunkAccepted(s: State, root: LedgerData, keys: seq<Pubkey>)
    requires Reachable(s) && !s.lottery.settled && s.lottery.participantsCount >= 2
    requires FinalizeWinners.LoadRoot(s) == Ok(root) && root.phase != Completed
    ensures Accepts(s, root, keys) <==>
              Cursor(root) + |keys| <= |s.rows| && keys == Wallets(s.rows, Cursor(root), Cursor(root) + |keys|)
  {
    hide *;
    ReachableInv(s);
    Parts(s);
    NotSettled(s.lottery, s.root, s.pages);
    OpenAccounts(s.lottery, s.MaxWinners(), s.rows, s.slot);
    FiledRows(s.lottery, s.rows, s.slot);
    EligibleFit(s.lottery, s.MaxWinners(), s.rows);
    LoadedOk(s, root);
    LoadedChunk(s, root, keys);
  }

  // ----- full-pass accounting -----

  /** The drawn ticket lies in the running interval of participant w. */
  ghost predicate HoldsTicket(pool: seq<Entry>, taken: seq<nat>, d: nat, w: nat)
    requires w < |pool|
  {
    |TicketList(pool[..w], taken)| <= d < |TicketList(pool[..w + 1], taken)|
  }

  /** Exactly one participant's interval holds a given ticket: its owner's. */
  lemma OneInterval(pool: seq<Entry>, taken: seq<nat>, d: nat, w: nat)
    requires d < |TicketList(pool, taken)| && w < |pool|
    ensures HoldsTicket(pool, taken, d, w) <==> TicketList(pool, taken)[d] == w
  {
    TicketListPrefix(pool, taken, w);
    TicketListPrefix(pool, taken, w + 1);
    TicketListNext(pool, taken, w);
    var before := TicketList(pool[..w], taken);
    if d < |before| {
      TicketListOwners(pool[..w], taken, d);
      assert TicketList(pool, taken)[d] == before[d];
    } else if d >= |TicketList(pool[..w + 1], taken)| {
      LaterOwners(pool, taken, w + 1, d);
    }
  }

  /** Tickets beyond the first k participants belong to later participants. */
  lemma {:induction false} LaterOwners(pool: seq<Entry>, taken: seq<nat>, k: nat, d: nat)
    requires k <= |pool| && |TicketList(pool[..k], taken)| <= d < |TicketList(pool, taken)|
    ensures TicketList(pool, taken)[d] >= k
  {
    assert pool[..|pool|] == pool;
    if k < |pool| {
      var n := |pool| - 1;
      assert pool[..n][..k] == pool[..k];
      if d < |TicketList(pool[..n], taken)| {
        LaterOwners(pool[..n], taken, k, d);
      }
    }
  }

  /** The drawn ticket has exactly one holder, who is the pending winner, and every remaining ticket has been seen. */
  ghost predicate Accounted(pool: seq<Entry>, who: seq<nat>, root: LedgerData) {
    && root.RemainingTickets() == Ok(root.roundTicketsSeen) && root.roundTicketsSeen > 0 && root.pendingWinnerFound
    && exists w: nat :: w < |pool| && root.pendingWinner == pool[w].wallet && OnlyHolder(pool, who, root.roundDrawIndex, w)
  }

  ghost predicate OnlyHolder(pool: seq<Entry>, who: seq<nat>, d: nat, w: nat) {
    forall k: nat :: k < |pool| ==> (HoldsTicket(pool, who, d, k) <==> k == w)
  }

  /**
   The end of a selection pass: the tickets seen are exactly those that remain, there is at least one, exactly one
   participant's interval held the drawn ticket, and that participant is the pending winner, so the pass cannot end
   in "winner not found" and the cursor never runs past the last participant.
   */
  lemma FullPass(s: State, root: LedgerData, keys: seq<Pubkey>)
    requires Reachable(s) && s.root == Some(root) && root.phase == Selecting
    requires FinalizeWinners.SelectAll(s.slot, FinalizeWinners.Pass(root, s.rows), keys).Ok?
    ensures var pass := FinalizeWinners.SelectAll(s.slot, FinalizeWinners.Pass(root, s.rows), keys).value;
            var pool := Pool(s.rows);
            && pass.root.roundProcessedCount <= pass.root.requiredCount
            && SmallPool(pool) && Winners(s.h, root.seed, pool, root.selectedCount).Some?
            && (pass.root.roundProcessedCount == pass.root.requiredCount ==>
                  && FinalizeWinners.AppendWinner(pass.root, s.pages).Ok?
                  && Accounted(pool, Drawn(s.h, root, pool), pass.root))
  {
    hide *;
    ReachableInv(s);
    Parts(s);
    RowsIndexed(s.lottery, s.rows, s.slot);
    StoredLedger(s);
    SelectingFacts(s, root);
    InPassFacts(s, root, s.rows, Pool(s.rows));
    var start := FinalizeWinners.Pass(root, s.rows);
    var who := Drawn(s.h, root, Pool(s.rows));
    WalkStarts(s, root);
    SelectAllKeeps(s.slot, start, who, keys);
    var pass := FinalizeWinners.SelectAll(s.slot, start, keys).value;
    WalkedFacts(start, pass, who);
    WalkedBound(start, pass, who);
    WalkIsInPass(s, root, pass);
    OnlyMarksLength(s.rows, pass.rows);
    InPassFacts(s, pass.root, pass.rows, Pool(s.rows));
    if pass.root.roundProcessedCount == pass.root.requiredCount {
      PassFindsWinner(s, pass.root, pass.rows, Pool(s.rows), who);
    }
  }

  lemma StoredLedger(s: State)
    requires s.root.Some? && Finalizing(s.h, s.lottery.id, s.MaxWinners(), s.root, s.rows, Pool(s.rows), s.pages)
    ensures LedgerLoaded(s, s.root.value)
  {
    hide LedgerOk, PagesHold, WinnerList;
  }

  lemma PassFindsWinner(s: State, root: LedgerData, rows: seq<ParticipantData>, pool: seq<Entry>, who: seq<nat>)
    requires PassOver(s, root, rows, pool) && root.phase == Selecting && PagesHold(s.pages, WinnerList(s.h, root, pool))
    requires who == Drawn(s.h, root, pool)
    ensures FinalizeWinners.AppendWinner(root, s.pages).Ok? && Accounted(pool, who, root)
  {
    hide FinalizeWinners.AppendWinner, PagesHold, WinnerList, DrawnLedger, Recorded, HoldsTicket, Draw;
    PassOverParts(s, root, rows, pool);
    var x := PassEnds(s.h, s.lottery.id, s.MaxWinners(), root, rows, pool);
    ListLength(s.h, root, pool);
    AppendOk(root, s.pages, WinnerList(s.h, root, pool));
    var tickets := TicketList(pool, who);
    assert pool[..root.roundProcessedCount] == pool;
    TicketListOwners(pool, who, root.roundDrawIndex);
    var w := tickets[root.roundDrawIndex];
    forall k: nat | k < |pool|
      ensures HoldsTicket(pool, who, root.roundDrawIndex, k) <==> k == w
    {
      OneInterval(pool, who, root.roundDrawIndex, k);
    }
  }
}
