/** The winners of a completed lottery are those of the simple draw, however finalization was cut into chunks. */
module DrawTheorems {
  import opened Prelude
  import opened Digests
  import opened Sums
  import opened Participants
  import opened VoteTallies
  import opened TicketDraw
  import opened WinnerPages
  import opened FinalizationLedgers
  import opened Lotteries
  import opened States
  import opened Invariants
  import opened AttestationKeeps
  import opened Runs
  import FinalizeWinners

  /** The winner stored under a global index: page i/100, offset i%100. */
  function StoredWinner(pages: map<nat, PageData>, i: nat): Option<SelectedWinner> {
    if i / 100 in pages then pages[i / 100].Winner(i % 100) else None
  }

  /** Reading the pages by global index gives back the list. */
  lemma PagesRead(pages: map<nat, PageData>, winners: seq<SelectedWinner>, i: nat)
    requires PagesHold(pages, winners)
    ensures StoredWinner(pages, i) == if i < |winners| then Some(winners[i]) else None
  {
    var k := i / WINNERS_PER_PAGE;
    assert k in pages <==> k * WINNERS_PER_PAGE < |winners|;
  }

  /** The votes and the target the pool itself determines. */
  ghost predicate TargetOf(pool: seq<Entry>, cap: nat, target: nat) {
    exists votes: nat ::
      && WinsVote(pool, cap, votes)
      && target == Min(Min(votes, cap), Sum(pool, EligibleOne()))
  }

  lemma TargetUnique(pool: seq<Entry>, cap: nat, a: nat, b: nat)
    requires TargetOf(pool, cap, a) && TargetOf(pool, cap, b)
    ensures a == b
  {
    var u: nat :| WinsVote(pool, cap, u) && a == Min(Min(u, cap), Sum(pool, EligibleOne()));
    var v: nat :| WinsVote(pool, cap, v) && b == Min(Min(v, cap), Sum(pool, EligibleOne()));
    VoteOutcomeUnique(pool, cap, u, v);
  }

  lemma DrawnTarget(h: Hashes, id: nat, cap: nat, root: LedgerData, rows: seq<ParticipantData>, pool: seq<Entry>)
    requires SmallPool(pool) && DrawnLedger(h, id, cap, root, rows, pool)
    ensures TargetOf(pool, cap, root.targetWinners)
    ensures root.seed == SeedFor(h, id, pool) && Winners(h, root.seed, pool, root.selectedCount).Some?
    ensures 1 <= root.targetWinners <= Sum(pool, EligibleOne()) && root.selectedCount <= root.targetWinners <= cap
  {
    var votes :| WinsVote(pool, cap, votes) && root.targetWinners == FinalizeWinners.Target(votes, cap, root.eligibleCount);
    WinningVotePositive(pool, cap, votes);
  }

  lemma WinningVotePositive(pool: seq<Entry>, cap: nat, votes: nat)
    requires WinsVote(pool, cap, votes)
    ensures votes >= 1
  {
  }

  /** A ledger past aggregation, and the pages, in terms of the pool alone: `who` are the first rounds of the simple draw. */
  ghost predicate FollowsDraw(h: Hashes, id: nat, cap: nat, root: LedgerData, pages: map<nat, PageData>,
                              pool: seq<Entry>, who: seq<nat>) {
    && SmallPool(pool) && root.seed == SeedFor(h, id, pool)
    && TargetOf(pool, cap, root.targetWinners) && 1 <= root.targetWinners <= cap
    && root.targetWinners <= Sum(pool, EligibleOne())
    && |who| == root.selectedCount <= root.targetWinners
    && Winners(h, root.seed, pool, root.selectedCount) == Some(who)
    && Distinct(who) && (forall i :: 0 <= i < |who| ==> who[i] < |pool| && pool[who[i]].shown.Some?)
    && root.winnersCommitment == WinnersCommitment(h, Records(pool, who))
    && forall i: nat :: StoredWinner(pages, i) == if i < |who| then Some(Records(pool, who)[i]) else None
  }

  lemma LedgerFollowsDraw(h: Hashes, id: nat, cap: nat, root: LedgerData, rows: seq<ParticipantData>, pool: seq<Entry>,
                          pages: map<nat, PageData>) returns (who: seq<nat>)
    requires SmallPool(pool) && DrawnLedger(h, id, cap, root, rows, pool) && Recorded(h, root, pool)
    requires root.phase != Aggregating && PagesHold(pages, WinnerList(h, root, pool))
    ensures FollowsDraw(h, id, cap, root, pages, pool, who)
  {
    hide DrawnLedger, PagesHold, WinsVote, StoredWinner, TargetOf, Winners, WinnersCommitment, TicketsOf, SeedFor, TicketList, Sum;
    DrawnTarget(h, id, cap, root, rows, pool);
    WinnersFacts(h, root.seed, pool, root.selectedCount);
    forall i: nat
      ensures StoredWinner(pages, i)
           == if i < root.selectedCount then Some(Records(pool, Drawn(h, root, pool))[i]) else None
    {
      PagesRead(pages, WinnerList(h, root, pool), i);
    }
    who := Drawn(h, root, pool);
  }

  /** The ledger part of the invariant once selection has begun. */
  lemma SelectingParts(h: Hashes, id: nat, cap: nat, root: Option<LedgerData>, rows: seq<ParticipantData>,
                       pool: seq<Entry>, pages: map<nat, PageData>)
    requires Finalizing(h, id, cap, root, rows, pool, pages) && IsSelecting(root)
    ensures root.Some? && SmallPool(pool) && DrawnLedger(h, id, cap, root.value, rows, pool) && Recorded(h, root.value, pool)
    ensures root.value.phase != Aggregating && PagesHold(pages, WinnerList(h, root.value, pool))
    ensures IsComplete(root) ==> root.value.selectedCount == root.value.targetWinners
  {
    hide DrawnLedger, Recorded, PassInProgress, PagesHold, FoldedLedger;
  }

  /** At any point of selection the recorded winners are the first rounds of the simple draw. */
  lemma RecordedWinnersFollowDraw(s: State) returns (who: seq<nat>)
    requires Inv(s) && IsSelecting(s.root)
    ensures FollowsDraw(s.h, s.lottery.id, s.MaxWinners(), s.root.value, s.pages, Pool(s.rows), who)
  {
    hide *;
    Parts(s);
    var pool := Pool(s.rows);
    SelectingParts(s.h, s.lottery.id, s.MaxWinners(), s.root, s.rows, pool, s.pages);
    who := LedgerFollowsDraw(s.h, s.lottery.id, s.MaxWinners(), s.root.value, s.rows, pool, s.pages);
  }

  /** The drawn participants carry the mark and the round they were drawn in, and once the draw is over nobody else does. */
  ghost predicate DrawnMarked(rows: seq<ParticipantData>, who: seq<nat>, complete: bool) {
    && (forall j :: 0 <= j < |who| ==>
          who[j] < |rows| && rows[who[j]].SelectedIn(1) && rows[who[j]].selectedRound == j)
    && (complete ==> forall i :: 0 <= i < |rows| && rows[i].SelectedIn(1) ==> i in who)
  }

  lemma MarkedPrefix(rows: seq<ParticipantData>, who: seq<nat>, more: seq<nat>)
    requires MarkedAs(rows, who + more) && forall j :: 0 <= j < |who| ==> who[j] < |rows|
    ensures DrawnMarked(rows, who, false) && (more == [] ==> DrawnMarked(rows, who, true))
  {
    assert more == [] ==> who + more == who;
    forall j | 0 <= j < |who|
      ensures rows[who[j]].SelectedIn(1) && rows[who[j]].selectedRound == j
    {
      assert (who + more)[j] == who[j];
    }
  }

  lemma LedgerMarks(h: Hashes, id: nat, cap: nat, root: LedgerData, rows: seq<ParticipantData>, pool: seq<Entry>)
    requires LedgerOk(h, id, cap, root, rows, pool) && root.phase != Aggregating
    requires Winners(h, root.seed, pool, root.selectedCount).Some? && SmallPool(pool)
    ensures DrawnMarked(rows, Drawn(h, root, pool), root.phase == Completed)
  {
    hide MarkedAs, DrawnMarked, FoldedLedger, DrawnLedger, Recorded, TicketList, Winners;
    var who := Drawn(h, root, pool);
    WinnersFacts(h, root.seed, pool, root.selectedCount);
    assert who + [] == who;
    if root.phase == Completed {
      MarkedPrefix(rows, who, []);
    } else {
      var seen := TicketList(pool[..root.roundProcessedCount], who);
      MarkedPrefix(rows, who, if root.pendingWinnerFound then [seen[root.roundDrawIndex]] else []);
    }
  }

  lemma MarksAtSelection(h: Hashes, id: nat, cap: nat, root: Option<LedgerData>, rows: seq<ParticipantData>,
                         pool: seq<Entry>, pages: map<nat, PageData>, who: seq<nat>)
    requires Finalizing(h, id, cap, root, rows, pool, pages) && IsSelecting(root) && root.Some?
    requires FollowsDraw(h, id, cap, root.value, pages, pool, who)
    ensures DrawnMarked(rows, who, IsComplete(root))
  {
    hide DrawnMarked, MarkedAs, FoldedLedger, Recorded, PassInProgress, WinnerList, PagesHold, TicketList, TargetOf;
    LedgerMarks(h, id, cap, root.value, rows, pool);
  }

  /** In every reachable state the drawn participants are marked with their rounds. */
  lemma WinnersAreMarked(s: State, who: seq<nat>)
    requires Reachable(s) && IsSelecting(s.root) && s.root.Some?
    requires FollowsDraw(s.h, s.lottery.id, s.MaxWinners(), s.root.value, s.pages, Pool(s.rows), who)
    ensures DrawnMarked(s.rows, who, IsComplete(s.root))
  {
    hide *;
    ReachableInv(s);
    Parts(s);
    MarksAtSelection(s.h, s.lottery.id, s.MaxWinners(), s.root, s.rows, Pool(s.rows), s.pages, who);
  }

  lemma CompleteCounts(l: LotteryData, root: Option<LedgerData>, pages: map<nat, PageData>)
    requires Settling(l, root, pages) && IsComplete(root)
    ensures root.Some? && IsSelecting(root)
    ensures l.winnersCount == root.value.selectedCount && l.winnersRoot == root.value.winnersCommitment
  {
  }

  /** Completed lotteries: the pages hold exactly the simple draw's winners, between 1 and min(256, n - 1, eligible) of them. */
  lemma CompletedWinners(s: State) returns (who: seq<nat>)
    requires Reachable(s) && IsComplete(s.root)
    ensures s.root.Some? && FollowsDraw(s.h, s.lottery.id, s.MaxWinners(), s.root.value, s.pages, Pool(s.rows), who)
    ensures |who| == s.lottery.winnersCount && TargetOf(Pool(s.rows), s.MaxWinners(), s.lottery.winnersCount)
    ensures s.lottery.winnersRoot == WinnersCommitment(
              s.h, (FollowsRange(s.h, s.lottery.id, s.MaxWinners(), s.root.value, s.pages, Pool(s.rows), who);
                                                             Records(Pool(s.rows), who)))
    ensures 1 <= |who| <= 256 && |who| <= s.lottery.participantsCount - 1
    ensures |who| <= Sum(Pool(s.rows), EligibleOne())
  {
    hide *;
    ReachableInv(s);
    Parts(s);
    CompleteCounts(s.lottery, s.root, s.pages);
    var pool, cap := Pool(s.rows), s.MaxWinners();
    SelectingParts(s.h, s.lottery.id, cap, s.root, s.rows, pool, s.pages);
    who := RecordedWinnersFollowDraw(s);
    FollowsRange(s.h, s.lottery.id, cap, s.root.value, s.pages, pool, who);
    CapOf(s);
    CapBelow(s.config, s.lottery, s.lottery.participantsCount);
    FrozenSize(s.lottery, s.now);
  }

  lemma FrozenSize(l: LotteryData, now: int)
    requires Frozen(l, now)
    ensures l.participantsCount >= 2
  {
  }

  lemma FollowsRange(h: Hashes, id: nat, cap: nat, root: LedgerData, pages: map<nat, PageData>, pool: seq<Entry>, who: seq<nat>)
    requires FollowsDraw(h, id, cap, root, pages, pool, who)
    ensures forall i :: 0 <= i < |who| ==> who[i] < |pool|
    ensures root.winnersCommitment == WinnersCommitment(h, Records(pool, who))
    ensures |who| == root.selectedCount <= root.targetWinners <= Sum(pool, EligibleOne()) && 1 <= root.targetWinners <= cap
    ensures TargetOf(pool, cap, root.targetWinners) && root.seed == SeedFor(h, id, pool)
  {
  }

  // ----- determinism over two runs -----

  /** Two lotteries with the same identity, limits and final pool. */
  ghost predicate SameInputs(s: State, t: State) {
    && s.h == t.h && s.lottery.id == t.lottery.id && s.config.maxWinnersCap == t.config.maxWinnersCap
    && Pool(s.rows) == Pool(t.rows) && |s.rows| >= 2
  }

  lemma SameCap(s: State, t: State)
    requires SameInputs(s, t)
    requires Registered(s.lottery, s.rows, s.slot) && Registered(t.lottery, t.rows, t.slot)
    ensures s.MaxWinners() == t.MaxWinners() && s.lottery.participantsCount == t.lottery.participantsCount >= 2
    ensures s.h == t.h && s.lottery.id == t.lottery.id && Pool(s.rows) == Pool(t.rows)
  {
    assert |Pool(s.rows)| == |s.rows| && |Pool(t.rows)| == |t.rows|;
  }

  lemma VotedOutcome(l: LotteryData, cap: nat, pool: seq<Entry>, tally: Option<Tally>, selecting: bool)
    requires Voted(l, cap, pool, tally, selecting) && l.participantsCount >= 2
    ensures l.aggregate == Entropy(pool)
    ensures !selecting ==> WinsVote(pool, cap, l.selectedWinners)
  {
  }

  /** Entropy and vote: the same pool gives the same aggregate and the same winner count, whatever the path that included it. */
  lemma SameVote(s: State, t: State)
    requires Reachable(s) && Reachable(t) && SameInputs(s, t)
    ensures s.lottery.aggregate == t.lottery.aggregate
    ensures !IsSelecting(s.root) && !IsSelecting(t.root) ==> s.lottery.selectedWinners == t.lottery.selectedWinners
  {
    hide *;
    ReachableInv(s);
    ReachableInv(t);
    Parts(s);
    Parts(t);
    SameCap(s, t);
    VotedOutcome(s.lottery, s.MaxWinners(), Pool(s.rows), s.tally, IsSelecting(s.root));
    VotedOutcome(t.lottery, t.MaxWinners(), Pool(t.rows), t.tally, IsSelecting(t.root));
    if !IsSelecting(s.root) && !IsSelecting(t.root) {
      VoteOutcomeUnique(Pool(s.rows), s.MaxWinners(), s.lottery.selectedWinners, t.lottery.selectedWinners);
    }
  }

  /** Two ledgers that follow the draw over the same pool agree on target and seed, and on every round both have recorded. */
  lemma SameDraw(h: Hashes, id: nat, cap: nat, pool: seq<Entry>, a: LedgerData, pagesA: map<nat, PageData>, whoA: seq<nat>,
                 b: LedgerData, pagesB: map<nat, PageData>, whoB: seq<nat>)
    requires FollowsDraw(h, id, cap, a, pagesA, pool, whoA) && FollowsDraw(h, id, cap, b, pagesB, pool, whoB)
    ensures a.targetWinners == b.targetWinners && a.seed == b.seed
    ensures a.selectedCount <= b.selectedCount ==> whoA <= whoB
    ensures forall i: nat :: i < a.selectedCount && i < b.selectedCount ==> StoredWinner(pagesA, i) == StoredWinner(pagesB, i)
    ensures a.selectedCount == b.selectedCount ==>
              && a.winnersCommitment == b.winnersCommitment
              && forall i: nat :: StoredWinner(pagesA, i) == StoredWinner(pagesB, i)
  {
    hide TargetOf, StoredWinner, SeedFor;
    TargetUnique(pool, cap, a.targetWinners, b.targetWinners);
    if a.selectedCount <= b.selectedCount {
      WinnersPrefix(h, a.seed, pool, a.selectedCount, b.selectedCount);
    } else {
      WinnersPrefix(h, a.seed, pool, b.selectedCount, a.selectedCount);
    }
  }

  /**
   End-to-end determinism: two runs that end up with the same pool draw with the same target and seed, agree on
   every winner both have recorded, and once complete publish the same count, list and commitment.
   */
  lemma SameWinners(s: State, t: State)
    requires Reachable(s) && Reachable(t) && SameInputs(s, t)
    requires IsSelecting(s.root) && IsSelecting(t.root)
    ensures s.root.Some? && t.root.Some?
    ensures s.root.value.targetWinners == t.root.value.targetWinners && s.root.value.seed == t.root.value.seed
    ensures forall i: nat :: i < s.root.value.selectedCount && i < t.root.value.selectedCount ==>
                               StoredWinner(s.pages, i) == StoredWinner(t.pages, i)
    ensures IsComplete(s.root) && IsComplete(t.root) ==>
              && s.lottery.winnersCount == t.lottery.winnersCount
              && s.lottery.winnersRoot == t.lottery.winnersRoot
              && forall i: nat :: StoredWinner(s.pages, i) == StoredWinner(t.pages, i)
  {
    hide *;
    ReachableInv(s);
    ReachableInv(t);
    Parts(s);
    Parts(t);
    SameCap(s, t);
    var cap, pool := s.MaxWinners(), Pool(s.rows);
    SelectingParts(s.h, s.lottery.id, cap, s.root, s.rows, pool, s.pages);
    SelectingParts(t.h, t.lottery.id, cap, t.root, t.rows, pool, t.pages);
    var whoS := RecordedWinnersFollowDraw(s);
    var whoT := RecordedWinnersFollowDraw(t);
    SameDraw(s.h, s.lottery.id, cap, pool, s.root.value, s.pages, whoS, t.root.value, t.pages, whoT);
    if IsComplete(s.root) && IsComplete(t.root) {
      CompleteCounts(s.lottery, s.root, s.pages);
      CompleteCounts(t.lottery, t.root, t.pages);
    }
  }
}
