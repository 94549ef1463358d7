/** What holds in every reachable state of a lottery. */
module Invariants {
  import opened Prelude
  import opened Digests
  import opened Sums
  import opened Participants
  import opened VoteTallies
  import opened TicketDraw
  import opened DrawIndex
  import opened WinnerPages
  import opened FinalizationLedgers
  import opened Lotteries
  import opened Payouts
  import opened Banks
  import opened States
  import FinalizeWinners

  // ----- windows, phases and flags -----

  /** Time windows, and which flags can be set when. */
  ghost predicate Clockwork(l: LotteryData, now: int) {
    && 0 < l.createdAt <= now
    && l.buyStart == l.createdAt && l.buyDeadline == l.createdAt + DAY_SECS
    && l.createdAt <= l.uploadStart <= l.buyDeadline < l.uploadDeadline
    && (l.attestedCount > 0 || l.settled || l.uploadsComplete ==> now >= l.uploadStart)
    && (l.settlementStart != 0 ==> l.settlementStart > 0 && l.attestedCount > 0 && UploadsOver(l, now))
    && (l.AllAttested() ==> l.settlementStart > 0)
    && (l.uploadsComplete && l.participantsCount != 1 ==>
          l.attestedCount > 0 && !l.HasMissingAttestedReveals() && UploadsOver(l, now))
    && (l.remediationStart != 0 ==>
          && l.uploadDeadline < l.remediationStart <= now && l.participantsCount >= 2 && l.attestedCount > 0
          && l.remediationDeadline == l.remediationStart + REMEDIATION_WINDOW_SECS)
    && (l.remediationStart == 0 ==> l.remediationDeadline == 0)
  }

  /** Nobody can attest any more. */
  ghost predicate UploadsOver(l: LotteryData, now: int) {
    l.AllAttested() || now > l.uploadDeadline
  }

  /** Nobody can attest any more, and every attested reveal has been included. */
  ghost predicate AllIncluded(l: LotteryData, now: int) {
    l.attestedCount > 0 && !l.HasMissingAttestedReveals() && UploadsOver(l, now)
  }

  // ----- participants and counters -----

  function TicketsHeld(): ParticipantData -> nat { (p: ParticipantData) => p.tickets }

  function AttestedOne(): ParticipantData -> nat { (p: ParticipantData) => if p.attested then 1 else 0 }

  function IncludedOne(): ParticipantData -> nat { (p: ParticipantData) => if p.revealIncluded then 1 else 0 }

  function ClaimedOne(): ParticipantData -> nat { (p: ParticipantData) => if p.refundClaimed then 1 else 0 }

  function ClaimedTickets(): ParticipantData -> nat { (p: ParticipantData) => if p.refundClaimed then p.tickets else 0 }

  /** The account of row i is open. */
  ghost predicate Open(rows: seq<ParticipantData>, slot: map<Pubkey, nat>, i: nat)
    requires i < |rows|
  {
    rows[i].wallet in slot && slot[rows[i].wallet] == i
  }

  ghost predicate WalletsDistinct(rows: seq<ParticipantData>) {
    forall i, j :: 0 <= i < j < |rows| ==> rows[i].wallet != rows[j].wallet
  }

  /** Participant indices are the positions 0..n-1, and live accounts belong to the wallets they are filed under. */
  ghost predicate Registered(l: LotteryData, rows: seq<ParticipantData>, slot: map<Pubkey, nat>) {
    && |rows| == l.participantsCount <= MAX_PARTICIPANTS
    && (forall i :: 0 <= i < |rows| ==> rows[i].index == i && rows[i].tickets > 0)
    && WalletsDistinct(rows)
    && (forall w :: w in slot ==> slot[w] < |rows| && rows[slot[w]].wallet == w)
    && (forall i :: 0 <= i < |rows| && !l.settlementComplete && !rows[i].refundClaimed ==> Open(rows, slot, i))
  }

  /** Attestations, votes and refund claims of one participant. */
  ghost predicate RowOk(l: LotteryData, cap: nat, p: ParticipantData) {
    && (p.revealIncluded ==> p.attested)
    && (p.attested ==> 1 <= p.vote <= cap)
    && (p.refundClaimed ==> l.settled && l.winnersCount == 0)
  }

  /** The lottery's counters are sums over its participants. */
  ghost predicate Counted(l: LotteryData, cap: nat, rows: seq<ParticipantData>) {
    && l.totalTickets == Sum(rows, TicketsHeld()) <= U64_MAX
    && l.totalFunds == l.price * l.totalTickets <= U64_MAX
    && l.attestedCount == Sum(rows, AttestedOne())
    && l.providerUploaded == Sum(rows, IncludedOne())
    && forall i :: 0 <= i < |rows| ==> RowOk(l, cap, rows[i])
  }

  // ----- votes and entropy -----

  function DigestOf(e: Entry): Bytes32 {
    if e.shown.Some? then e.shown.value.digest else ZERO32
  }

  function DigestsOf(pool: seq<Entry>): (d: seq<Bytes32>)
    ensures |d| == |pool| && forall i :: 0 <= i < |pool| ==> d[i] == DigestOf(pool[i])
  {
    seq(|pool|, i requires 0 <= i < |pool| => DigestOf(pool[i]))
  }

  /** The XOR of the digests of all included reveals. */
  function Entropy(pool: seq<Entry>): Bytes32 {
    XorAll(ZERO32, DigestsOf(pool))
  }

  ghost predicate NoReveals(pool: seq<Entry>) {
    forall i :: 0 <= i < |pool| ==> pool[i].shown.None?
  }

  /** Tally, entropy and selected winner count are what a count over the included participants gives. */
  ghost predicate Voted(l: LotteryData, cap: nat, pool: seq<Entry>, tally: Option<Tally>, selecting: bool) {
    && (tally.Some? ==> tally.value.maxWinners == cap && l.attestedCount > 0 && Counts(tally.value, pool))
    && (tally.None? ==> NoReveals(pool))
    && ((l.participantsCount == 1 && l.uploadsComplete) || l.aggregate == Entropy(pool))
    && (l.participantsCount <= 1 ==> l.selectedWinners == 1)
    && (l.participantsCount >= 2 && !selecting ==> WinsVote(pool, cap, l.selectedWinners))
  }

  /** The tally has processed exactly the included reveals. */
  ghost predicate TallyInStep(included: nat, tally: Option<Tally>) {
    tally.Some? ==> tally.value.processedCount == included
  }

  // ----- the finalization ledger -----

  /** The commitment to the eligible part of the pool, in participant order. */
  function PoolCommitment(h: Hashes, pool: seq<Entry>): Bytes32 {
    if pool == [] then ZERO32
    else
      var k := |pool| - 1;
      var before := PoolCommitment(h, pool[..k]);
      var e := pool[k];
      if e.shown.Some? then h.pool(before, k, e.wallet, e.tickets, e.shown.value.digest) else before
  }

  function WinnersCommitment(h: Hashes, winners: seq<SelectedWinner>): Bytes32 {
    if winners == [] then ZERO32
    else
      var k := |winners| - 1;
      h.winners(WinnersCommitment(h, winners[..k]), k, winners[k].wallet, winners[k].tickets)
  }

  /** The records that drawing the given participants produces. */
  function Records(pool: seq<Entry>, who: seq<nat>): (r: seq<SelectedWinner>)
    requires forall i :: 0 <= i < |who| ==> who[i] < |pool|
    ensures |r| == |who|
    ensures forall i :: 0 <= i < |who| ==> r[i] == SelectedWinner(pool[who[i]].wallet, pool[who[i]].tickets)
  {
    seq(|who|, i requires 0 <= i < |who| => SelectedWinner(pool[who[i]].wallet, pool[who[i]].tickets))
  }

  /** The pool can be counted in 64-bit words. */
  ghost predicate SmallPool(pool: seq<Entry>) {
    Sum(pool, EligibleTickets()) <= U64_MAX
  }

  function SeedFor(h: Hashes, id: nat, pool: seq<Entry>): Bytes32 {
    h.seed(id, Sum(pool, EligibleOne()), Sum(pool, EligibleTickets()), Entropy(pool), PoolCommitment(h, pool))
  }

  /** The ledger while participants are being folded: totals over the folded prefix. */
  ghost predicate FoldedLedger(h: Hashes, root: LedgerData, rows: seq<ParticipantData>, pool: seq<Entry>) {
    && root.processedCount <= |pool|
    && root.selectedCount == 0 && root.selectedTicketsTotal == 0 && root.winnersCommitment == ZERO32
    && root.eligibleCount == Sum(pool[..root.processedCount], EligibleOne())
    && root.totalEligibleTickets == Sum(pool[..root.processedCount], EligibleTickets())
    && root.participantsCommitment == PoolCommitment(h, pool[..root.processedCount])
    && (forall i :: 0 <= i < |rows| ==>
          && rows[i].finalizationGeneration == (if i < root.processedCount then 1 else 0)
          && rows[i].selectedGeneration == 0)
  }

  /** Totals, seed and target are fixed, and the recorded winners are the first rounds of the simple draw. */
  ghost predicate DrawnLedger(h: Hashes, id: nat, cap: nat, root: LedgerData, rows: seq<ParticipantData>, pool: seq<Entry>) {
    && root.eligibleCount == Sum(pool, EligibleOne())
    && root.totalEligibleTickets == Sum(pool, EligibleTickets())
    && root.participantsCommitment == PoolCommitment(h, pool)
    && root.seed == SeedFor(h, id, pool)
    && (exists votes :: WinsVote(pool, cap, votes) && root.targetWinners == FinalizeWinners.Target(votes, cap, root.eligibleCount))
    && 1 <= root.targetWinners <= root.eligibleCount && root.selectedCount <= root.targetWinners <= cap
    && Winners(h, root.seed, pool, root.selectedCount).Some?
    && (forall i :: 0 <= i < |rows| ==> rows[i].finalizationGeneration == 1)
  }

  /** The simple draw's winners for the rounds recorded so far. */
  ghost function Drawn(h: Hashes, root: LedgerData, pool: seq<Entry>): seq<nat>
    requires SmallPool(pool) && Winners(h, root.seed, pool, root.selectedCount).Some?
  {
    Winners(h, root.seed, pool, root.selectedCount).value
  }

  ghost predicate Recorded(h: Hashes, root: LedgerData, pool: seq<Entry>)
    requires SmallPool(pool) && Winners(h, root.seed, pool, root.selectedCount).Some?
  {
    WinnersFacts(h, root.seed, pool, root.selectedCount);
    var who := Drawn(h, root, pool);
    && root.selectedTicketsTotal == TicketsOf(pool, who)
    && root.winnersCommitment == WinnersCommitment(h, Records(pool, who))
  }

  /** Exactly the given participants carry the selection mark, each with the round that drew it. */
  ghost predicate MarkedAs(rows: seq<ParticipantData>, who: seq<nat>) {
    && (forall i :: 0 <= i < |rows| ==> (rows[i].selectedGeneration == 1 <==> i in who))
    && forall j :: 0 <= j < |who| && who[j] < |rows| ==> rows[who[j]].selectedRound == j
  }

  /** The pass in progress: the running ticket count and the pending winner say what the ticket list says. */
  ghost predicate PassInProgress(h: Hashes, root: LedgerData, rows: seq<ParticipantData>, pool: seq<Entry>)
    requires SmallPool(pool) && Winners(h, root.seed, pool, root.selectedCount).Some?
  {
    var who := Drawn(h, root, pool);
    var tickets := TicketList(pool, who);
    var seen := TicketList(pool[..Min(root.roundProcessedCount, |pool|)], who);
    TicketListBound(pool, who);
    && root.selectedCount < root.targetWinners && root.currentRound == root.selectedCount
    && root.roundProcessedCount <= |pool|
    && Draw(h, root.seed, root.currentRound, |tickets|) == Ok(root.roundDrawIndex)
    && root.roundTicketsSeen == |seen|
    && root.pendingWinnerFound == (root.roundDrawIndex < |seen|)
    && (root.pendingWinnerFound ==>
          && seen[root.roundDrawIndex] < |pool|
          && root.pendingWinner == pool[seen[root.roundDrawIndex]].wallet
          && root.pendingWinnerTickets == pool[seen[root.roundDrawIndex]].tickets)
    && MarkedAs(rows, if root.pendingWinnerFound then who + [seen[root.roundDrawIndex]] else who)
  }

  ghost predicate LedgerOk(h: Hashes, id: nat, cap: nat, root: LedgerData, rows: seq<ParticipantData>, pool: seq<Entry>) {
    && SmallPool(pool)
    && root.generation == 1 && root.requiredCount == |pool| && |rows| == |pool|
    && (root.phase == Aggregating ==> FoldedLedger(h, root, rows, pool) && root.processedCount < |pool|)
    && (root.phase != Aggregating ==> DrawnLedger(h, id, cap, root, rows, pool) && Recorded(h, root, pool))
    && (root.phase == Selecting ==> PassInProgress(h, root, rows, pool) && root.roundProcessedCount < |pool|)
    && (root.phase == Completed ==> root.selectedCount == root.targetWinners && MarkedAs(rows, Drawn(h, root, pool)))
  }

  /** The winners recorded so far, as records. */
  ghost function WinnerList(h: Hashes, root: LedgerData, pool: seq<Entry>): (r: seq<SelectedWinner>)
    requires SmallPool(pool)
    requires root.phase != Aggregating ==> Winners(h, root.seed, pool, root.selectedCount).Some?
    ensures root.phase != Aggregating ==> |r| == root.selectedCount
  {
    if root.phase == Aggregating then []
    else
      WinnersFacts(h, root.seed, pool, root.selectedCount);
      Records(pool, Drawn(h, root, pool))
  }

  /** Page k holds the k-th hundred of the list, and exists exactly when that is not empty. */
  ghost predicate PagesHold(pages: map<nat, PageData>, winners: seq<SelectedWinner>) {
    forall k: nat ::
      && (k in pages <==> k * WINNERS_PER_PAGE < |winners|)
      && (k in pages ==>
            && pages[k].generation == 1 && pages[k].pageIndex == k
            && pages[k].winners == winners[k * WINNERS_PER_PAGE..Min(|winners|, (k + 1) * WINNERS_PER_PAGE)])
  }

  /** Ledger and pages together: nothing before the first chunk, and the pages hold the drawn winners afterwards. */
  ghost predicate Finalizing(h: Hashes, id: nat, cap: nat, root: Option<LedgerData>, rows: seq<ParticipantData>,
                             pool: seq<Entry>, pages: map<nat, PageData>) {
    match root
    case None =>
      && pages == map[]
      && (forall i :: 0 <= i < |rows| ==> rows[i].finalizationGeneration == 0 && rows[i].selectedGeneration == 0)
    case Some(r) =>
      && LedgerOk(h, id, cap, r, rows, pool)
      && PagesHold(pages, WinnerList(h, r, pool))
  }

  /** Finalization runs on a closed lottery: two or more participants, everything attested is included, uploads are over. */
  ghost predicate Frozen(l: LotteryData, now: int) {
    && l.participantsCount >= 2 && AllIncluded(l, now)
    && (l.settled ==> l.settlementComplete)
  }

  // ----- settlement -----

  ghost predicate IsComplete(root: Option<LedgerData>) {
    root.Some? && root.value.phase == Completed
  }

  ghost predicate IsSelecting(root: Option<LedgerData>) {
    root.Some? && root.value.phase != Aggregating
  }

  /** The winner indices marked as paid in the lottery's own bitmap. */
  ghost function Paid(l: LotteryData): set<nat> {
    PaidSet(l.paidBitmap, l.winnersCount)
  }

  ghost predicate PagePaid(pages: map<nat, PageData>, i: nat) {
    i / WINNERS_PER_PAGE in pages && i % WINNERS_PER_PAGE in pages[i / WINNERS_PER_PAGE].paid
  }

  /** Winner counts exist exactly after completion, and the two paid bitmaps agree. */
  ghost predicate Settling(l: LotteryData, root: Option<LedgerData>, pages: map<nat, PageData>) {
    && (l.winnersCount > 0 <==> IsComplete(root))
    && (IsComplete(root) ==>
          && l.winnersCount == root.value.selectedCount <= MAX_WINNERS
          && l.winnersRoot == root.value.winnersCommitment
          && PayoutPlan(l.totalFunds, l.bps, l.winnersCount).Ok?
          && PayoutPlan(l.totalFunds, l.bps, l.winnersCount).value.1 == l.totalPayout)
    && (l.winnersCount == 0 ==> l.totalPayout == 0 && !l.settlementComplete)
    && (l.settlementComplete ==> l.settled && |Paid(l)| == l.winnersCount)
    && (forall i: nat :: PagePaid(pages, i) <==> i in Paid(l))
  }

  /** A refund settlement happens only without attestations or after remediation expired with reveals missing. */
  ghost predicate RefundReason(l: LotteryData, now: int) {
    l.settled && l.winnersCount == 0 ==> l.attestedCount == 0 || l.RemediationExpired(now)
  }

  // ----- money -----

  function Share(l: LotteryData): nat {
    if l.winnersCount == 0 then 0 else l.totalPayout / l.winnersCount
  }

  /** Lamports that have left the vault as winner shares or refunds. */
  ghost function PaidOut(l: LotteryData, rows: seq<ParticipantData>): nat {
    Share(l) * |Paid(l)| + l.price * Sum(rows, ClaimedTickets())
  }

  /** Every winner index has been credited its share exactly if it is marked as paid. */
  ghost predicate CreditsOk(l: LotteryData, credited: map<nat, nat>) {
    credited.Keys == Paid(l) && forall i :: i in credited ==> credited[i] == Share(l)
  }

  ghost predicate Banked(l: LotteryData, rows: seq<ParticipantData>, rents: Rents, bank: Bank,
                         vaultOpen: bool, donated: nat, credited: map<nat, nat>) {
    && Total(bank) <= U64_MAX && rents.vault > 0
    && (vaultOpen ==> Balance(bank, Vault) + PaidOut(l, rows) == rents.vault + donated + l.totalFunds)
    && (vaultOpen ==> !l.settlementComplete)
    && (!vaultOpen ==> l.settled && (l.winnersCount == 0 ==> Sum(rows, ClaimedOne()) == |rows|))
    && (!vaultOpen && l.winnersCount > 0 ==> l.settlementComplete)
    && (!vaultOpen ==> Balance(bank, Vault) == donated)
    && CreditsOk(l, credited)
    && (l.winnersCount == 0 ==> l.batchesCompleted == Sum(rows, ClaimedOne()))
  }

  /** Every open participant account holds exactly its rent, and no other participant address holds anything. */
  ghost predicate Rented(slot: map<Pubkey, nat>, rents: Rents, bank: Bank) {
    && rents.participant > 0
    && forall w :: Balance(bank, ParticipantAccount(w)) == if w in slot then rents.participant else 0
  }

  // ----- all of it -----

  ghost predicate Configured(config: Config, l: LotteryData) {
    config.Valid() && l.bps < 10_000
  }

  ghost predicate Inv(s: State) {
    var cap := s.MaxWinners();
    var pool := Pool(s.rows);
    && Configured(s.config, s.lottery)
    && Clockwork(s.lottery, s.now)
    && Registered(s.lottery, s.rows, s.slot)
    && Counted(s.lottery, cap, s.rows)
    && Voted(s.lottery, cap, pool, s.tally, IsSelecting(s.root))
    && Finalizing(s.h, s.lottery.id, cap, s.root, s.rows, pool, s.pages)
    && (s.root.Some? ==> Frozen(s.lottery, s.now))
    && Settling(s.lottery, s.root, s.pages)
    && RefundReason(s.lottery, s.now)
    && Banked(s.lottery, s.rows, s.rents, s.bank, s.vaultOpen, s.donated, s.credited)
    && Rented(s.slot, s.rents, s.bank)
    && TallyInStep(s.lottery.providerUploaded, s.tally)
  }

  /** The parts of the invariant, one by one. */
  lemma Parts(s: State)
    requires Inv(s)
    ensures Configured(s.config, s.lottery)
    ensures Clockwork(s.lottery, s.now)
    ensures Registered(s.lottery, s.rows, s.slot)
    ensures Counted(s.lottery, s.MaxWinners(), s.rows)
    ensures Voted(s.lottery, s.MaxWinners(), Pool(s.rows), s.tally, IsSelecting(s.root))
    ensures Finalizing(s.h, s.lottery.id, s.MaxWinners(), s.root, s.rows, Pool(s.rows), s.pages)
    ensures s.root.Some? ==> Frozen(s.lottery, s.now)
    ensures Settling(s.lottery, s.root, s.pages)
    ensures RefundReason(s.lottery, s.now)
    ensures Banked(s.lottery, s.rows, s.rents, s.bank, s.vaultOpen, s.donated, s.credited)
    ensures Rented(s.slot, s.rents, s.bank)
    ensures TallyInStep(s.lottery.providerUploaded, s.tally)
  {
    hide Registered, Counted, Voted, Finalizing, Settling, Banked, Rented, TallyInStep;
  }

  /** The invariant from its parts. */
  lemma Whole(s: State, cap: nat, pool: seq<Entry>)
    requires cap == s.MaxWinners() && pool == Pool(s.rows)
    requires Configured(s.config, s.lottery)
    requires Clockwork(s.lottery, s.now)
    requires Registered(s.lottery, s.rows, s.slot)
    requires Counted(s.lottery, cap, s.rows)
    requires Voted(s.lottery, cap, pool, s.tally, IsSelecting(s.root))
    requires Finalizing(s.h, s.lottery.id, cap, s.root, s.rows, pool, s.pages)
    requires s.root.Some? ==> Frozen(s.lottery, s.now)
    requires Settling(s.lottery, s.root, s.pages)
    requires RefundReason(s.lottery, s.now)
    requires Banked(s.lottery, s.rows, s.rents, s.bank, s.vaultOpen, s.donated, s.credited)
    requires Rented(s.slot, s.rents, s.bank)
    requires TallyInStep(s.lottery.providerUploaded, s.tally)
    ensures Inv(s)
  {
    hide Registered, Counted, Voted, Finalizing, Settling, Banked, Rented, TallyInStep;
  }

  // ----- what each part depends on -----

  lemma CapSame(s: State, t: State)
    requires t.config == s.config && t.lottery.participantsCount == s.lottery.participantsCount
    ensures t.MaxWinners() == s.MaxWinners()
  {
  }

  /** The fields that windows, phases and remediation read. */
  ghost predicate SameClock(l: LotteryData, m: LotteryData) {
    && m.createdAt == l.createdAt && m.buyStart == l.buyStart && m.buyDeadline == l.buyDeadline
    && m.uploadStart == l.uploadStart && m.uploadDeadline == l.uploadDeadline && m.settlementStart == l.settlementStart
    && m.participantsCount == l.participantsCount && m.attestedCount == l.attestedCount
    && m.providerUploaded == l.providerUploaded && m.uploadsComplete == l.uploadsComplete
    && m.remediationStart == l.remediationStart && m.remediationDeadline == l.remediationDeadline
    && m.bps == l.bps && m.winnersCount == l.winnersCount
    && m.settled == l.settled && m.settlementComplete == l.settlementComplete
  }

  lemma ClockFrame(config: Config, l: LotteryData, m: LotteryData, now: int, frozen: bool)
    requires SameClock(l, m)
    requires Configured(config, l) && Clockwork(l, now) && RefundReason(l, now) && (frozen ==> Frozen(l, now))
    ensures Configured(config, m) && Clockwork(m, now) && RefundReason(m, now) && (frozen ==> Frozen(m, now))
  {
  }

  /** Finalization needs an attestation. */
  lemma NotFrozen(l: LotteryData, now: int)
    ensures l.attestedCount == 0 ==> !Frozen(l, now)
  {
  }

  lemma RegisteredFrame(l: LotteryData, m: LotteryData, rows: seq<ParticipantData>, slot: map<Pubkey, nat>)
    requires Registered(l, rows, slot)
    requires m.participantsCount == l.participantsCount && (l.settlementComplete ==> m.settlementComplete)
    ensures Registered(m, rows, slot)
  {
  }

  lemma VotedFrame(l: LotteryData, m: LotteryData, cap: nat, pool: seq<Entry>, tally: Option<Tally>, selecting: bool)
    requires Voted(l, cap, pool, tally, selecting)
    requires m.attestedCount >= l.attestedCount && m.participantsCount == l.participantsCount
    requires m.uploadsComplete == l.uploadsComplete && m.aggregate == l.aggregate && m.selectedWinners == l.selectedWinners
    ensures Voted(m, cap, pool, tally, selecting)
  {
  }

  lemma CountedFrame(l: LotteryData, m: LotteryData, cap: nat, rows: seq<ParticipantData>)
    requires Counted(l, cap, rows)
    requires m.totalTickets == l.totalTickets && m.totalFunds == l.totalFunds && m.price == l.price
    requires m.attestedCount == l.attestedCount && m.providerUploaded == l.providerUploaded
    requires l.settled && l.winnersCount == 0 ==> m.settled && m.winnersCount == 0
    ensures Counted(m, cap, rows)
  {
    forall i | 0 <= i < |rows|
      ensures RowOk(m, cap, rows[i])
    {
      assert RowOk(l, cap, rows[i]);
    }
  }

  lemma SettlingFrame(l: LotteryData, m: LotteryData, root: Option<LedgerData>, pages: map<nat, PageData>)
    requires Settling(l, root, pages)
    requires m.winnersCount == l.winnersCount && m.winnersRoot == l.winnersRoot && m.totalPayout == l.totalPayout
    requires m.totalFunds == l.totalFunds && m.bps == l.bps && m.paidBitmap == l.paidBitmap
    requires m.settlementComplete == l.settlementComplete && (l.settled ==> m.settled)
    ensures Settling(m, root, pages)
  {
  }

  lemma BankedFrame(l: LotteryData, m: LotteryData, rows: seq<ParticipantData>, rents: Rents, bank: Bank,
                    vaultOpen: bool, donated: nat, credited: map<nat, nat>)
    requires Banked(l, rows, rents, bank, vaultOpen, donated, credited)
    requires m.winnersCount == l.winnersCount && m.totalPayout == l.totalPayout && m.paidBitmap == l.paidBitmap
    requires m.totalFunds == l.totalFunds && m.price == l.price && m.batchesCompleted == l.batchesCompleted
    requires m.settlementComplete == l.settlementComplete && (l.settled ==> m.settled)
    ensures Banked(m, rows, rents, bank, vaultOpen, donated, credited)
  {
    assert Share(m) == Share(l) && Paid(m) == Paid(l);
    assert PaidOut(m, rows) == PaidOut(l, rows);
  }

  lemma RentedFrame(slot: map<Pubkey, nat>, rents: Rents, bank: Bank, after: Bank)
    requires Rented(slot, rents, bank) && SameRents(bank, after)
    ensures Rented(slot, rents, after)
  {
  }

  /** The same people with the same tickets and the same refunds. */
  ghost predicate SamePeople(rows: seq<ParticipantData>, after: seq<ParticipantData>) {
    && |after| == |rows|
    && forall i :: 0 <= i < |rows| ==>
         && after[i].wallet == rows[i].wallet && after[i].index == rows[i].index
         && after[i].tickets == rows[i].tickets && after[i].refundClaimed == rows[i].refundClaimed
  }

  lemma PeopleRegistered(l: LotteryData, m: LotteryData, rows: seq<ParticipantData>, after: seq<ParticipantData>,
                         slot: map<Pubkey, nat>)
    requires Registered(l, rows, slot) && SamePeople(rows, after)
    requires m.participantsCount == l.participantsCount && (l.settlementComplete ==> m.settlementComplete)
    ensures Registered(m, after, slot)
  {
    assert WalletsDistinct(after);
    forall i | 0 <= i < |after| && !m.settlementComplete && !after[i].refundClaimed
      ensures Open(after, slot, i)
    {
      assert Open(rows, slot, i);
    }
  }

  /** The vault's books depend on people only, and on the lottery's money fields. */
  lemma PeopleBanked(l: LotteryData, m: LotteryData, rows: seq<ParticipantData>, after: seq<ParticipantData>, rents: Rents,
                     bank: Bank, vaultOpen: bool, donated: nat, credited: map<nat, nat>)
    requires Banked(l, rows, rents, bank, vaultOpen, donated, credited) && SamePeople(rows, after)
    requires m.winnersCount == l.winnersCount && m.totalPayout == l.totalPayout && m.paidBitmap == l.paidBitmap
    requires m.totalFunds == l.totalFunds && m.price == l.price && m.batchesCompleted == l.batchesCompleted
    requires m.settlementComplete == l.settlementComplete && (l.settled ==> m.settled)
    ensures Banked(m, after, rents, bank, vaultOpen, donated, credited)
  {
    SumEq(rows, ClaimedTickets(), after, ClaimedTickets());
    SumEq(rows, ClaimedOne(), after, ClaimedOne());
    BankedFrame(l, m, rows, rents, bank, vaultOpen, donated, credited);
    assert PaidOut(m, after) == PaidOut(m, rows);
  }

  /** Same finalization marks on every participant. */
  ghost predicate SameMarks(rows: seq<ParticipantData>, after: seq<ParticipantData>) {
    && |after| == |rows|
    && forall i :: 0 <= i < |rows| ==>
         && after[i].finalizationGeneration == rows[i].finalizationGeneration
         && after[i].selectedGeneration == rows[i].selectedGeneration && after[i].selectedRound == rows[i].selectedRound
  }

  lemma FinalizingFrame(h: Hashes, id: nat, cap: nat, root: Option<LedgerData>, rows: seq<ParticipantData>,
                        after: seq<ParticipantData>, pool: seq<Entry>, pages: map<nat, PageData>)
    requires Finalizing(h, id, cap, root, rows, pool, pages) && SameMarks(rows, after)
    ensures Finalizing(h, id, cap, root, after, pool, pages)
  {
    hide MarkedAs, WinnerList, PagesHold, Recorded, TicketList, Winners, WinsVote, PoolCommitment, SeedFor;
    forall who: seq<nat> | MarkedAs(rows, who)
      ensures MarkedAs(after, who)
    {
      MarkedFrame(rows, after, who);
    }
  }

  lemma MarkedFrame(rows: seq<ParticipantData>, after: seq<ParticipantData>, who: seq<nat>)
    requires MarkedAs(rows, who) && SameMarks(rows, after)
    ensures MarkedAs(after, who)
  {
  }
}
