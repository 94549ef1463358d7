/** The FinalizeWinners instruction: permissionless, resumable, one chunk of participants per call. */
module FinalizeWinners {
  import opened Prelude
  import opened Digests
  import opened DrawIndex
  import opened Participants
  import opened WinnerPages
  import opened FinalizationLedgers
  import opened Lotteries
  import opened Payouts
  import opened States

  /** What the guards decide: nothing to do, only open remediation, or process the chunk. */
  datatype Gate = Skip | Remediate | Proceed

  function Check(s: State, keys: seq<Pubkey>): Result<Gate> {
    var l := s.lottery;
    :- Require(s.vaultOpen, InvalidAccountData);
    if l.settlementComplete || l.settled then Ok(Skip)
    else
      :- Require(l.participantsCount > 1, InvalidInstruction);
      :- Require(l.attestedCount > 0, NoAttestedParticipants);
      if l.HasMissingAttestedReveals() then
        if l.UploadElapsed(s.now) && l.remediationStart == 0 then Ok(Remediate)
        else Err(InvalidPhaseTransition)
      else
        :- Require(l.uploadsComplete || l.UploadElapsed(s.now), InvalidInstruction);
        :- Require(keys != [], MissingAccount);
        Ok(Proceed)
  }

  function LoadRoot(s: State): Result<LedgerData> {
    match s.root
    case None => Ok(LedgerData.New(s.lottery.participantsCount, s.now))
    case Some(root) =>
      if root.requiredCount != s.lottery.participantsCount then Err(InvalidAccountData) else Ok(root)
  }

  /** What a chunk loop carries from one participant to the next. */
  datatype Pass = Pass(root: LedgerData, rows: seq<ParticipantData>)

  // ----- aggregation -----

  /** Adds an included participant to the pool totals and commitment. */
  function FoldReveal(h: Hashes, root: LedgerData, p: ParticipantData): Result<LedgerData> {
    var eligible :- CheckedAdd(root.eligibleCount, 1, U64_MAX);
    var tickets :- CheckedAdd(root.totalEligibleTickets, p.tickets, U64_MAX);
    Ok(root.(eligibleCount := eligible, totalEligibleTickets := tickets,
             participantsCommitment := h.pool(root.participantsCommitment, p.index, p.wallet, p.tickets, p.revealDigest)))
  }

  /** Folds one participant; only included reveals enter the pool. */
  function Fold(h: Hashes, root: LedgerData, p: ParticipantData): Result<LedgerData> {
    var processed :- CheckedAdd(root.processedCount, 1, U64_MAX);
    var r := root.(processedCount := processed);
    if p.revealIncluded then FoldReveal(h, r, p) else Ok(r)
  }

  function AggregateOne(h: Hashes, slot: map<Pubkey, nat>, pass: Pass, w: Pubkey): Result<Pass> {
    var rows := pass.rows;
    :- Require(w in slot && slot[w] < |rows|, InvalidAccountData);
    var p := rows[slot[w]];
    :- Require(p.index == pass.root.processedCount, InvalidInstruction);
    :- Require(p.tickets != 0 && p.finalizationGeneration != pass.root.generation, InvalidAccountData);
    var root :- Fold(h, pass.root, p);
    Ok(Pass(root, rows[slot[w] := p.MarkFinalized(pass.root.generation)]))
  }

  function AggregateAll(h: Hashes, slot: map<Pubkey, nat>, pass: Pass, keys: seq<Pubkey>): Result<Pass> {
    if keys == [] then Ok(pass)
    else
      var before :- AggregateAll(h, slot, pass, keys[..|keys| - 1]);
      AggregateOne(h, slot, before, keys[|keys| - 1])
  }

  function Target(selected: nat, cap: nat, eligible: nat): nat {
    Min(Min(Max(selected, 1), cap), eligible)
  }

  /** Draws for a round and opens its pass. */
  function OpenRound(h: Hashes, root: LedgerData, round: nat): Result<LedgerData> {
    var remaining :- root.RemainingTickets();
    var draw :- Draw(h, root.seed, round, remaining);
    Ok(root.(currentRound := round).BeginSelectionRound(draw))
  }

  /** The seed commits to the lottery, the pool and the entropy. */
  function SeedOf(h: Hashes, l: LotteryData, root: LedgerData): Bytes32 {
    h.seed(l.id, root.eligibleCount, root.totalEligibleTickets, l.aggregate, root.participantsCommitment)
  }

  /** After a chunk: once every participant has been folded, fixes the target and the seed and opens round 0. */
  function EndAggregation(s: State, root: LedgerData): Result<(LotteryData, LedgerData)> {
    if root.processedCount > root.requiredCount then Err(InvalidInstruction)
    else if root.processedCount < root.requiredCount then Ok((s.lottery, root))
    else
      :- Require(root.eligibleCount != 0 && root.totalEligibleTickets != 0, NoAttestedParticipants);
      var target := Target(s.lottery.selectedWinners, s.MaxWinners(), root.eligibleCount);
      :- Require(target <= U32_MAX, MathOverflow);
      var l :- s.lottery.SetSelectedWinners(target);
      var r :- OpenRound(s.h, root.(targetWinners := target, seed := SeedOf(s.h, l, root)), 0);
      Ok((l, r))
  }

  // ----- selection -----

  /** Whether the drawn ticket lies in the interval [start, end) of the participant now visited. */
  predicate HoldsDraw(root: LedgerData, end: nat) {
    !root.pendingWinnerFound && root.roundTicketsSeen <= root.roundDrawIndex < end
  }

  /** Advances the running ticket count over one participant; tells whether the drawn ticket is theirs. */
  function SeeTickets(root: LedgerData, p: ParticipantData): Result<(LedgerData, bool)> {
    var end :- CheckedAdd(root.roundTicketsSeen, p.tickets, U64_MAX);
    if HoldsDraw(root, end)
    then Ok((root.(pendingWinner := p.wallet, pendingWinnerTickets := p.tickets, pendingWinnerFound := true,
                   roundTicketsSeen := end), true))
    else Ok((root.(roundTicketsSeen := end), false))
  }

  /** Visits one participant of a pass. */
  function Visit(root: LedgerData, p: ParticipantData): Result<(LedgerData, bool)> {
    var at := root.roundProcessedCount;
    :- Require(p.index == at, InvalidInstruction);
    :- Require(p.finalizationGeneration == root.generation && p.tickets != 0, InvalidAccountData);
    var visited :- CheckedAdd(at, 1, U64_MAX);
    var r := root.(roundProcessedCount := visited);
    if p.revealIncluded && !p.SelectedIn(root.generation) then SeeTickets(r, p) else Ok((r, false))
  }

  function SelectOne(slot: map<Pubkey, nat>, pass: Pass, w: Pubkey): Result<Pass> {
    var rows := pass.rows;
    :- Require(w in slot && slot[w] < |rows|, InvalidAccountData);
    var p := rows[slot[w]];
    var (root, chosen) :- Visit(pass.root, p);
    Ok(Pass(root,
            if chosen then rows[slot[w] := p.MarkSelected(root.generation, root.currentRound)] else rows))
  }

  function SelectAll(slot: map<Pubkey, nat>, pass: Pass, keys: seq<Pubkey>): Result<Pass> {
    if keys == [] then Ok(pass)
    else
      var before :- SelectAll(slot, pass, keys[..|keys| - 1]);
      SelectOne(slot, before, keys[|keys| - 1])
  }

  function LoadPage(pages: map<nat, PageData>, generation: nat, i: nat): Result<PageData> {
    if i !in pages then Ok(PageData.New(generation, i))
    else if pages[i].generation != generation || pages[i].pageIndex != i then Err(InvalidAccountData)
    else Ok(pages[i])
  }

  /** Fixes payouts and closes the ledger once the last winner is recorded. */
  function Complete(l: LotteryData, root: LedgerData, now: int): Result<(LotteryData, LedgerData)> {
    var (per, total) :- PayoutPlan(l.totalFunds, l.bps, root.selectedCount);
    var l1 :- l.InitializeSettlement(root.winnersCommitment, root.selectedCount, total);
    var l2 := if l1.settlementStart == 0 then l1.(settlementStart := now) else l1;
    Ok((l2, root.Complete(now)))
  }

  /** A full pass is over: check the accounting and append the pending winner to its page. */
  function AppendWinner(root: LedgerData, pages: map<nat, PageData>): Result<PageData> {
    var expected :- root.RemainingTickets();
    :- Require(root.roundTicketsSeen == expected && root.pendingWinnerFound, WinnerNotFound);
    var page :- LoadPage(pages, root.generation, root.selectedCount / WINNERS_PER_PAGE);
    page.Append(SelectedWinner(root.pendingWinner, root.pendingWinnerTickets))
  }

  /** After the winner is stored: record it, then complete or open the next round. */
  function AfterWinner(s: State, root: LedgerData): Result<(LotteryData, LedgerData)> {
    var r1 :- root.RecordWinner(s.h, SelectedWinner(root.pendingWinner, root.pendingWinnerTickets));
    if r1.selectedCount == r1.targetWinners then Complete(s.lottery, r1, s.now)
    else
      var round :- CheckedAdd(r1.currentRound, 1, U32_MAX);
      var r2 :- OpenRound(s.h, r1, round);
      Ok((s.lottery, r2))
  }

  function EndSelection(s: State, root: LedgerData): Result<(LotteryData, LedgerData, map<nat, PageData>)> {
    if root.roundProcessedCount > root.requiredCount then Err(InvalidInstruction)
    else if root.roundProcessedCount < root.requiredCount then Ok((s.lottery, root, s.pages))
    else
      var page :- AppendWinner(root, s.pages);
      var (l, r) :- AfterWinner(s, root);
      Ok((l, r, s.pages[root.selectedCount / WINNERS_PER_PAGE := page]))
  }

  // ----- the instruction -----

  function Aggregate(s: State, root: LedgerData, keys: seq<Pubkey>): Result<State> {
    var pass :- AggregateAll(s.h, s.slot, Pass(root, s.rows), keys);
    var (l, r) :- EndAggregation(s, pass.root);
    Ok(s.(lottery := l, root := Some(r), rows := pass.rows))
  }

  function Select(s: State, root: LedgerData, keys: seq<Pubkey>): Result<State> {
    var pass :- SelectAll(s.slot, Pass(root, s.rows), keys);
    var (l, r, pages) :- EndSelection(s, pass.root);
    Ok(s.(lottery := l, root := Some(r), rows := pass.rows, pages := pages))
  }

  /** `page` is the index of the winner-page account passed in. */
  function Apply(s: State, page: nat, keys: seq<Pubkey>): Result<State> {
    var gate :- Check(s, keys);
    match gate
    case Skip => Ok(s)
    case Remediate => Ok(s.WithLottery(s.lottery.BeginRemediation(s.now)))
    case Proceed =>
      var root :- LoadRoot(s);
      :- Require(page == root.selectedCount / WINNERS_PER_PAGE, InvalidSeeds);
      match root.phase
      case Aggregating => Aggregate(s, root, keys)
      case Selecting => Select(s, root, keys)
      case Completed => Ok(s)
  }

  lemma {:induction false} AggregateAllFails(h: Hashes, slot: map<Pubkey, nat>, pass: Pass, keys: seq<Pubkey>, k: nat)
    requires k <= |keys| && AggregateAll(h, slot, pass, keys[..k]).Err?
    ensures AggregateAll(h, slot, pass, keys) == AggregateAll(h, slot, pass, keys[..k])
  {
    if k == |keys| {
      assert keys[..k] == keys;
    } else {
      assert keys[..|keys| - 1][..k] == keys[..k];
      AggregateAllFails(h, slot, pass, keys[..|keys| - 1], k);
    }
  }

  lemma {:induction false} SelectAllFails(slot: map<Pubkey, nat>, pass: Pass, keys: seq<Pubkey>, k: nat)
    requires k <= |keys| && SelectAll(slot, pass, keys[..k]).Err?
    ensures SelectAll(slot, pass, keys) == SelectAll(slot, pass, keys[..k])
  {
    if k == |keys| {
      assert keys[..k] == keys;
    } else {
      assert keys[..|keys| - 1][..k] == keys[..k];
      SelectAllFails(slot, pass, keys[..|keys| - 1], k);
    }
  }

  // ----- the instruction, step by step -----

  method CheckGate(a: Accounts, keys: seq<Pubkey>) returns (r: Result<Gate>)
    requires a.Valid()
    ensures r == Check(a.Snapshot(), keys)
  {
    if !a.vaultOpen {
      return Err(InvalidAccountData);
    }
    if a.lottery.settlementComplete || a.lottery.settled {
      return Ok(Skip);
    }
    if a.lottery.participantsCount <= 1 {
      return Err(InvalidInstruction);
    }
    if a.lottery.attestedCount == 0 {
      return Err(NoAttestedParticipants);
    }
    var elapsed := a.lottery.uploadDeadline > 0 && a.now > a.lottery.uploadDeadline;
    if a.lottery.HasMissingAttestedReveals() {
      if elapsed && a.lottery.remediationStart == 0 {
        return Ok(Remediate);
      }
      return Err(InvalidPhaseTransition);
    }
    if !a.lottery.uploadsComplete && !elapsed {
      return Err(InvalidInstruction);
    }
    if |keys| == 0 {
      return Err(MissingAccount);
    }
    return Ok(Proceed);
  }

  method FoldRevealInto(h: Hashes, root: FinalizationLedger, p: ParticipantData) returns (r: Result<()>)
    modifies root
    ensures match FoldReveal(h, old(root.Data()), p)
            case Ok(d) => r.Ok? && root.Data() == d
            case Err(e) => r == Err(e)
  {
    if root.eligibleCount + 1 > U64_MAX {
      return Err(MathOverflow);
    }
    root.eligibleCount := root.eligibleCount + 1;
    if root.totalEligibleTickets + p.tickets > U64_MAX {
      return Err(MathOverflow);
    }
    root.totalEligibleTickets := root.totalEligibleTickets + p.tickets;
    root.participantsCommitment := h.pool(root.participantsCommitment, p.index, p.wallet, p.tickets, p.revealDigest);
    return Ok(());
  }

  method FoldInto(h: Hashes, root: FinalizationLedger, p: ParticipantData) returns (r: Result<()>)
    modifies root
    ensures match Fold(h, old(root.Data()), p)
            case Ok(d) => r.Ok? && root.Data() == d
            case Err(e) => r == Err(e)
  {
    if root.processedCount + 1 > U64_MAX {
      return Err(MathOverflow);
    }
    root.processedCount := root.processedCount + 1;
    r := Ok(());
    if p.revealIncluded {
      r := FoldRevealInto(h, root, p);
    }
  }

  method AggregateParticipant(h: Hashes, slot: map<Pubkey, nat>, root: FinalizationLedger, rows: seq<ParticipantData>, w: Pubkey)
    returns (r: Result<seq<ParticipantData>>)
    modifies root
    ensures match AggregateOne(h, slot, Pass(old(root.Data()), rows), w)
            case Ok(pass) => r == Ok(pass.rows) && root.Data() == pass.root
            case Err(e) => r == Err(e)
  {
    if w !in slot || slot[w] >= |rows| {
      return Err(InvalidAccountData);
    }
    var participant := new Participant.Read(rows[slot[w]]);
    if participant.index != root.processedCount {
      return Err(InvalidInstruction);
    }
    if participant.tickets == 0 || participant.finalizationGeneration == root.generation {
      return Err(InvalidAccountData);
    }
    participant.MarkFinalized(root.generation);
    var folded := FoldInto(h, root, rows[slot[w]]);
    if folded.Err? {
      return Err(folded.error);
    }
    return Ok(rows[slot[w] := participant.Data()]);
  }

  /** The aggregation loop of one chunk; any refusal abandons the whole chunk. */
  method AggregateChunk(h: Hashes, slot: map<Pubkey, nat>, start: Pass, keys: seq<Pubkey>) returns (r: Result<Pass>)
    ensures r == AggregateAll(h, slot, start, keys)
  {
    var root := new FinalizationLedger.Read(start.root);
    var rows := start.rows;
    for k := 0 to |keys|
      invariant fresh(root)
      invariant AggregateAll(h, slot, start, keys[..k]) == Ok(Pass(root.Data(), rows))
    {
      assert keys[..k + 1][..k] == keys[..k];
      var next := AggregateParticipant(h, slot, root, rows, keys[k]);
      if next.Err? {
        AggregateAllFails(h, slot, start, keys, k + 1);
        return Err(next.error);
      }
      rows := next.value;
    }
    assert keys[..|keys|] == keys;
    return Ok(Pass(root.Data(), rows));
  }

  method BeginRound(h: Hashes, root: FinalizationLedger, round: nat) returns (r: Result<()>)
    modifies root
    ensures match OpenRound(h, old(root.Data()), round)
            case Ok(d) => r.Ok? && root.Data() == d
            case Err(e) => r == Err(e)
  {
    var remaining := root.RemainingTickets();
    if remaining.Err? {
      return Err(remaining.error);
    }
    var draw := DrawWithRetry(h, root.seed, round, remaining.value);
    if draw.Err? {
      return Err(draw.error);
    }
    root.currentRound := round;
    root.BeginSelectionRound(draw.value);
    return Ok(());
  }

  method SetTarget(h: Hashes, l: LotteryData, root: FinalizationLedger, target: nat)
    modifies root
    ensures root.Data() == old(root.Data()).(targetWinners := target, seed := SeedOf(h, l, old(root.Data())))
  {
    root.targetWinners := target;
    root.seed := SeedOf(h, l, root.Data());
  }

  /** Fixes the target and the seed, and opens round 0. */
  method StartSelection(ghost s: State, h: Hashes, cap: nat, lottery: Lottery, root: FinalizationLedger) returns (r: Result<()>)
    requires s.h == h && s.MaxWinners() == cap && s.lottery == lottery.Data()
    requires root.processedCount == root.requiredCount
    modifies lottery, root
    ensures match EndAggregation(s, old(root.Data()))
            case Ok((l, d)) => r.Ok? && lottery.Data() == l && root.Data() == d
            case Err(e) => r == Err(e)
  {
    hide OpenRound, SeedOf;
    if root.eligibleCount == 0 || root.totalEligibleTickets == 0 {
      return Err(NoAttestedParticipants);
    }
    var target := Min(Min(Max(lottery.selectedWinners, 1), cap), root.eligibleCount);
    if target > U32_MAX {
      return Err(MathOverflow);
    }
    r := lottery.SetSelectedWinners(target);
    if r.Err? {
      return;
    }
    SetTarget(h, lottery.Data(), root, target);
    r := BeginRound(h, root, 0);
  }

  method FinishAggregation(ghost s: State, h: Hashes, cap: nat, lottery: Lottery, root: FinalizationLedger) returns (r: Result<()>)
    requires s.h == h && s.MaxWinners() == cap && s.lottery == lottery.Data()
    modifies lottery, root
    ensures match EndAggregation(s, old(root.Data()))
            case Ok((l, d)) => r.Ok? && lottery.Data() == l && root.Data() == d
            case Err(e) => r == Err(e)
  {
    if root.processedCount > root.requiredCount {
      return Err(InvalidInstruction);
    }
    r := Ok(());
    if root.processedCount == root.requiredCount {
      r := StartSelection(s, h, cap, lottery, root);
    }
  }

  method SeeTicketsOf(root: FinalizationLedger, p: ParticipantData) returns (r: Result<bool>)
    modifies root
    ensures match SeeTickets(old(root.Data()), p)
            case Ok((d, chosen)) => r == Ok(chosen) && root.Data() == d
            case Err(e) => r == Err(e)
  {
    var start := root.roundTicketsSeen;
    var end := start + p.tickets;
    if end > U64_MAX {
      return Err(MathOverflow);
    }
    var chosen := !root.pendingWinnerFound && root.roundDrawIndex >= start && root.roundDrawIndex < end;
    if chosen {
      root.pendingWinner := p.wallet;
      root.pendingWinnerTickets := p.tickets;
      root.pendingWinnerFound := true;
    }
    root.roundTicketsSeen := end;
    return Ok(chosen);
  }

  method VisitParticipant(root: FinalizationLedger, p: ParticipantData) returns (r: Result<bool>)
    modifies root
    ensures match Visit(old(root.Data()), p)
            case Ok((d, chosen)) => r == Ok(chosen) && root.Data() == d
            case Err(e) => r == Err(e)
  {
    if p.index != root.roundProcessedCount {
      return Err(InvalidInstruction);
    }
    if p.finalizationGeneration != root.generation || p.tickets == 0 {
      return Err(InvalidAccountData);
    }
    if root.roundProcessedCount + 1 > U64_MAX {
      return Err(MathOverflow);
    }
    root.roundProcessedCount := root.roundProcessedCount + 1;
    r := Ok(false);
    if p.revealIncluded && !p.SelectedIn(root.generation) {
      r := SeeTicketsOf(root, p);
    }
  }

  method SelectParticipant(slot: map<Pubkey, nat>, root: FinalizationLedger, rows: seq<ParticipantData>, w: Pubkey)
    returns (r: Result<seq<ParticipantData>>)
    modifies root
    ensures match SelectOne(slot, Pass(old(root.Data()), rows), w)
            case Ok(pass) => r == Ok(pass.rows) && root.Data() == pass.root
            case Err(e) => r == Err(e)
  {
    if w !in slot || slot[w] >= |rows| {
      return Err(InvalidAccountData);
    }
    var chosen := VisitParticipant(root, rows[slot[w]]);
    if chosen.Err? {
      return Err(chosen.error);
    }
    if !chosen.value {
      return Ok(rows);
    }
    var participant := new Participant.Read(rows[slot[w]]);
    participant.MarkSelected(root.generation, root.currentRound);
    return Ok(rows[slot[w] := participant.Data()]);
  }

  /** The selection loop of one chunk; any refusal abandons the whole chunk. */
  method SelectChunk(slot: map<Pubkey, nat>, start: Pass, keys: seq<Pubkey>) returns (r: Result<Pass>)
    ensures r == SelectAll(slot, start, keys)
  {
    var root := new FinalizationLedger.Read(start.root);
    var rows := start.rows;
    for k := 0 to |keys|
      invariant fresh(root)
      invariant SelectAll(slot, start, keys[..k]) == Ok(Pass(root.Data(), rows))
    {
      assert keys[..k + 1][..k] == keys[..k];
      var next := SelectParticipant(slot, root, rows, keys[k]);
      if next.Err? {
        SelectAllFails(slot, start, keys, k + 1);
        return Err(next.error);
      }
      rows := next.value;
    }
    assert keys[..|keys|] == keys;
    return Ok(Pass(root.Data(), rows));
  }

  /** The account data of a page; empty if there is no such account. */
  function DataOf(files: map<nat, seq<bv8>>, i: nat): seq<bv8> {
    if i in files then files[i] else []
  }

  /** Loads or creates a page account, appends one winner in its bytes and rewrites its header. */
  method StoreWinner(a: Accounts, root: LedgerData) returns (r: Result<seq<bv8>>)
    requires a.Valid()
    ensures match AppendWinner(root, a.Snapshot().pages)
            case Ok(page) => r.Ok? && ValidFile(r.value, a.discriminator, a.address) && PageOf(r.value) == page
            case Err(e) => r == Err(e)
    ensures var i := root.selectedCount / WINNERS_PER_PAGE;
            r.Ok? ==> r == RecordIn(DataOf(a.pageFiles, i), PageSite(a.discriminator, a.address, root.generation, i),
                                    SelectedWinner(root.pendingWinner, root.pendingWinnerTickets))
  {
    hide ReadHeader, EncodeHeader, Decode, WithEntry, WithHeader;
    var expected := root.RemainingTickets();
    if expected.Err? {
      return Err(expected.error);
    }
    if root.roundTicketsSeen != expected.value || !root.pendingWinnerFound {
      return Err(WinnerNotFound);
    }
    var i: U32 := root.selectedCount / WINNERS_PER_PAGE;
    var page, bytes;
    if i in a.pageFiles {
      var data := a.pageFiles[i];
      PageIdentity(data);
      bytes := new bv8[|data|](k requires 0 <= k < |data| => data[k]);
      assert bytes[..] == data;
      page := new WinnerPage.Read(bytes);
      if page.lottery != a.address || page.generation != root.generation || page.pageIndex != i {
        return Err(InvalidAccountData);
      }
    } else {
      bytes := new bv8[PAGE_SIZE](_ => 0);
      assert bytes[..] == Zeros(PAGE_SIZE);
      FreshPage(root.generation, i, bytes[..]);
      page := new WinnerPage(a.address, root.generation, i);
    }
    r := AppendToPage(page, bytes, a.discriminator, SelectedWinner(root.pendingWinner, root.pendingWinnerTickets));
  }

  method AppendToPage(page: WinnerPage, bytes: array<bv8>, discriminator: Discriminator, w: SelectedWinner)
    returns (r: Result<seq<bv8>>)
    requires page.Valid(bytes)
    modifies page, bytes
    ensures match old(page.Data(bytes)).Append(w)
            case Ok(d) => r.Ok? && ValidFile(r.value, discriminator, page.lottery) && PageOf(r.value) == d
            case Err(e) => r == Err(e)
    ensures r.Ok? ==>
              && old(page.count) < WINNERS_PER_PAGE
              && r.value == WithHeader(WithEntry(old(bytes[..]), old(page.count), w), discriminator,
                                       old(page.Header()).(count := old(page.count) + 1))
  {
    hide ReadHeader, EncodeHeader, EntryAt, PaidBit, WithEntry, WithHeader;
    var appended := page.Append(bytes, w);
    if appended.Err? {
      return Err(appended.error);
    }
    var written := page.WriteHeader(bytes, discriminator);
    var data := bytes[..];
    assert data[..HEADER_SIZE] == bytes[..HEADER_SIZE];
    return Ok(data);
  }

  /** complete_finalization. */
  method CompleteFinalization(lottery: Lottery, root: FinalizationLedger, now: int) returns (r: Result<()>)
    modifies lottery, root
    ensures match Complete(old(lottery.Data()), old(root.Data()), now)
            case Ok((l, d)) => r.Ok? && lottery.Data() == l && root.Data() == d
            case Err(e) => r == Err(e)
  {
    var plan := PayoutPlan(lottery.totalFunds, lottery.bps, root.selectedCount);
    if plan.Err? {
      return Err(plan.error);
    }
    r := lottery.InitializeSettlement(root.winnersCommitment, root.selectedCount, plan.value.1);
    if r.Err? {
      return;
    }
    if lottery.settlementStart == 0 {
      lottery.settlementStart := now;
    }
    root.Complete(now);
  }

  method RecordAndContinue(ghost s: State, h: Hashes, now: int, lottery: Lottery, root: FinalizationLedger) returns (r: Result<()>)
    requires s.h == h && s.now == now && s.lottery == lottery.Data()
    modifies lottery, root
    ensures match AfterWinner(s, old(root.Data()))
            case Ok((l, d)) => r.Ok? && lottery.Data() == l && root.Data() == d
            case Err(e) => r == Err(e)
  {
    r := root.RecordWinner(h, SelectedWinner(root.pendingWinner, root.pendingWinnerTickets));
    if r.Err? {
      return;
    }
    if root.Data().selectedCount == root.Data().targetWinners {
      r := CompleteFinalization(lottery, root, now);
    } else {
      if root.Data().currentRound + 1 > U32_MAX {
        return Err(MathOverflow);
      }
      r := BeginRound(h, root, root.Data().currentRound + 1);
    }
  }

  method AggregationChunk(a: Accounts, start: LedgerData, keys: seq<Pubkey>)
    returns (r: Result<()>, l: LotteryData, root: LedgerData, rows: seq<ParticipantData>)
    requires a.Valid()
    ensures match Aggregate(a.Snapshot(), start, keys)
            case Ok(s) => r.Ok? && s == a.Snapshot().(lottery := l, root := Some(root), rows := rows)
            case Err(e) => r == Err(e)
  {
    l, root, rows := a.lottery, start, a.rows;
    var pass := AggregateChunk(a.h, a.slot, Pass(start, rows), keys);
    if pass.Err? {
      r := Err(pass.error);
      return;
    }
    var lottery := new Lottery.Read(l);
    var ledger := new FinalizationLedger.Read(pass.value.root);
    r := FinishAggregation(a.Snapshot(), a.h, a.config.EffectiveMaxWinners(l.participantsCount), lottery, ledger);
    l, root, rows := lottery.Data(), ledger.Data(), pass.value.rows;
  }

  /** After the loop of a selection chunk: at the end of a pass, stores the winner and moves on. */
  method FinishSelection(a: Accounts, start: LedgerData)
    returns (r: Result<()>, l: LotteryData, root: LedgerData, files: map<nat, seq<bv8>>)
    requires a.Valid()
    ensures match EndSelection(a.Snapshot(), start)
            case Ok((l', r', pages)) => && r.Ok? && l == l' && root == r'
                                        && ValidFiles(files, a.discriminator, a.address) && PagesOf(files) == pages
            case Err(e) => r == Err(e)
  {
    l, root, files := a.lottery, start, a.pageFiles;
    if root.roundProcessedCount > root.requiredCount {
      r := Err(InvalidInstruction);
      return;
    }
    r := Ok(());
    if root.roundProcessedCount == root.requiredCount {
      var file := StoreWinner(a, root);
      if file.Err? {
        r := Err(file.error);
        return;
      }
      PagesOfUpdate(files, a.discriminator, a.address, root.selectedCount / WINNERS_PER_PAGE, file.value);
      files := files[root.selectedCount / WINNERS_PER_PAGE := file.value];
      var lottery := new Lottery.Read(l);
      var ledger := new FinalizationLedger.Read(root);
      r := RecordAndContinue(a.Snapshot(), a.h, a.now, lottery, ledger);
      l, root := lottery.Data(), ledger.Data();
    }
  }

  method SelectionChunk(a: Accounts, start: LedgerData, keys: seq<Pubkey>)
    returns (r: Result<()>, l: LotteryData, root: LedgerData, rows: seq<ParticipantData>, files: map<nat, seq<bv8>>)
    requires a.Valid()
    ensures match Select(a.Snapshot(), start, keys)
            case Ok(s) => r.Ok? && ValidFiles(files, a.discriminator, a.address)
                          && s == a.Snapshot().(lottery := l, root := Some(root), rows := rows, pages := PagesOf(files))
            case Err(e) => r == Err(e)
  {
    l, root, rows, files := a.lottery, start, a.rows, a.pageFiles;
    var pass := SelectChunk(a.slot, Pass(start, rows), keys);
    if pass.Err? {
      r := Err(pass.error);
      return;
    }
    rows := pass.value.rows;
    r, l, root, files := FinishSelection(a, pass.value.root);
  }

  method LoadLedger(a: Accounts) returns (r: Result<LedgerData>)
    requires a.Valid()
    ensures r == LoadRoot(a.Snapshot())
  {
    if a.root.None? {
      return Ok(LedgerData.New(a.lottery.participantsCount, a.now));
    }
    if a.root.value.requiredCount != a.lottery.participantsCount {
      return Err(InvalidAccountData);
    }
    return Ok(a.root.value);
  }

  method Process(a: Accounts, page: nat, keys: seq<Pubkey>) returns (r: Result<()>)
    requires a.Valid()
    modifies a
    ensures a.Valid()
    ensures match Apply(old(a.Snapshot()), page, keys)
            case Ok(s) => r.Ok? && a.Snapshot() == s
            case Err(e) => r == Err(e) && a.Snapshot() == old(a.Snapshot())
  {
    var gate := CheckGate(a, keys);
    if gate.Err? {
      return Err(gate.error);
    }
    match gate.value {
      case Skip =>
        return Ok(());
      case Remediate =>
        a.lottery := a.lottery.BeginRemediation(a.now);
        return Ok(());
      case Proceed =>
        r := ProcessChunk(a, page, keys);
    }
  }

  /** The part of the instruction behind the guards. */
  method ProcessChunk(a: Accounts, page: nat, keys: seq<Pubkey>) returns (r: Result<()>)
    requires a.Valid() && Check(a.Snapshot(), keys) == Ok(Proceed)
    modifies a
    ensures a.Valid()
    ensures match Apply(old(a.Snapshot()), page, keys)
            case Ok(s) => r.Ok? && a.Snapshot() == s
            case Err(e) => r == Err(e) && a.Snapshot() == old(a.Snapshot())
  {
    var root := LoadLedger(a);
    if root.Err? {
      return Err(root.error);
    }
    if page != root.value.selectedCount / WINNERS_PER_PAGE {
      return Err(InvalidSeeds);
    }
    match root.value.phase {
      case Aggregating =>
        var l, d, rows;
        r, l, d, rows := AggregationChunk(a, root.value, keys);
        if r.Ok? {
          a.lottery, a.root, a.rows := l, Some(d), rows;
        }
      case Selecting =>
        var l, d, rows, files;
        r, l, d, rows, files := SelectionChunk(a, root.value, keys);
        if r.Ok? {
          a.lottery, a.root, a.rows, a.pageFiles := l, Some(d), rows, files;
        }
      case Completed =>
        return Ok(());
    }
  }
}
