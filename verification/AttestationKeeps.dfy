/** Attesting, with or without one's own reveal, keeps the invariant. */
module AttestationKeeps {
  import opened Prelude
  import opened Digests
  import opened Sums
  import opened Participants
  import opened VoteTallies
  import opened WinnerPages
  import opened FinalizationLedgers
  import opened Lotteries
  import opened Payouts
  import opened States
  import opened Invariants
  import AttestUploaded
  import AttestReveal

  /** A participant after attesting with a vote. */
  function Voter(p: ParticipantData, voted: U64, now: int): ParticipantData {
    p.(vote := VoteBits(voted), revealIncluded := false, refundClaimed := false, attested := true, attestedAt := now)
  }

  /** Attestations and inclusions are bounded by the number of participants. */
  lemma AttestedBounds(l: LotteryData, cap: nat, rows: seq<ParticipantData>)
    requires Counted(l, cap, rows)
    ensures l.providerUploaded <= l.attestedCount <= |rows|
  {
    assert forall i :: 0 <= i < |rows| ==> RowOk(l, cap, rows[i]);
    SumLe(rows, IncludedOne(), rows, AttestedOne());
    SumIndicator(rows, AttestedOne());
  }

  /** Whoever has not attested has not been included, nor refunded while the lottery is open. */
  lemma Silent(l: LotteryData, cap: nat, rows: seq<ParticipantData>, i: nat)
    requires Counted(l, cap, rows) && i < |rows| && !rows[i].attested && !l.settled
    ensures !rows[i].revealIncluded && !rows[i].refundClaimed
  {
    assert RowOk(l, cap, rows[i]);
  }

  /** Attesting happens inside the upload window, so before settlement, remediation and finalization. */
  lemma AttestClock(config: Config, l: LotteryData, m: LotteryData, now: int, root: Option<LedgerData>)
    requires Configured(config, l) && Clockwork(l, now) && RefundReason(l, now) && (root.Some? ==> Frozen(l, now))
    requires l.StageAt(now) == Upload && l.attestedCount < l.participantsCount
    requires m == l.(attestedCount := l.attestedCount + 1, providerUploaded := m.providerUploaded,
                     settlementStart := if l.attestedCount + 1 == l.participantsCount then now else l.settlementStart,
                     uploadsComplete := m.uploadsComplete, aggregate := m.aggregate, selectedWinners := m.selectedWinners)
    requires m.uploadsComplete ==> l.uploadsComplete || (m.AllAttested() && m.providerUploaded >= m.attestedCount)
    ensures Configured(config, m) && Clockwork(m, now) && RefundReason(m, now)
    ensures root.None? && !l.settled && (l.uploadsComplete ==> l.participantsCount == 1)
  {
  }

  lemma AttestCounted(l: LotteryData, m: LotteryData, cap: nat, rows: seq<ParticipantData>, i: nat, p: ParticipantData)
    requires Counted(l, cap, rows) && i < |rows| && !rows[i].attested && !rows[i].revealIncluded
    requires p.attested && 1 <= p.vote <= cap && !p.refundClaimed && p.tickets == rows[i].tickets
    requires m.attestedCount == l.attestedCount + 1
    requires m.providerUploaded == l.providerUploaded + if p.revealIncluded then 1 else 0
    requires m.totalTickets == l.totalTickets && m.totalFunds == l.totalFunds && m.price == l.price
    requires !l.settled
    ensures Counted(m, cap, rows[i := p])
  {
    SumUpdate(rows, i, p, TicketsHeld());
    SumUpdate(rows, i, p, AttestedOne());
    SumUpdate(rows, i, p, IncludedOne());
    var after := rows[i := p];
    forall k | 0 <= k < |after|
      ensures RowOk(m, cap, after[k])
    {
      assert RowOk(l, cap, rows[k]);
    }
  }

  /** Someone can still attest, so not everybody has. */
  lemma SomebodyLeft(l: LotteryData, cap: nat, rows: seq<ParticipantData>, i: nat)
    requires Counted(l, cap, rows) && i < |rows| && !rows[i].attested
    ensures l.attestedCount < |rows|
  {
    SumIndicator(rows, AttestedOne());
  }

  lemma VoterRows(rows: seq<ParticipantData>, i: nat, p: ParticipantData)
    requires i < |rows| && !rows[i].revealIncluded && !rows[i].refundClaimed && !p.refundClaimed
    requires p.wallet == rows[i].wallet && p.index == rows[i].index && p.tickets == rows[i].tickets
    requires p.finalizationGeneration == rows[i].finalizationGeneration && p.selectedGeneration == rows[i].selectedGeneration
    requires p.selectedRound == rows[i].selectedRound
    ensures SamePeople(rows, rows[i := p]) && SameMarks(rows, rows[i := p])
    ensures Pool(rows[i := p]) == Pool(rows)[i := p.AsEntry()]
    ensures Pool(rows)[i].shown.None? && |Pool(rows)| == |rows|
    ensures !p.revealIncluded ==> Pool(rows[i := p]) == Pool(rows)
  {
  }

  // ----- AttestUploaded -----

  lemma AttestEffect(s: State, wallet: Pubkey, voted: U64, receipt: bool)
    requires AttestUploaded.Apply(s, wallet, voted, receipt).Ok?
    ensures s.Live(wallet) && wallet in s.slot && s.slot[wallet] < |s.rows| && !s.rows[s.slot[wallet]].attested
    ensures s.lottery.StageAt(s.now) == Upload && 1 <= voted <= s.MaxWinners()
    ensures var i := s.slot[wallet];
            var l := s.lottery;
            && AttestUploaded.Apply(s, wallet, voted, receipt).value
               == s.(rows := s.rows[i := Voter(s.rows[i], voted, s.now)],
                     lottery := l.(attestedCount := l.attestedCount + 1,
                                   settlementStart := if l.attestedCount + 1 == l.participantsCount && l.settlementStart == 0
                                                      then s.now else l.settlementStart))
            && AttestUploaded.Apply(s, wallet, voted, receipt).value.MaxWinners() == s.MaxWinners()
  {
  }

  /** In the upload stage the settlement has not started. */
  lemma NotStarted(l: LotteryData, now: int)
    requires l.StageAt(now) == Upload && Clockwork(l, now)
    ensures l.settlementStart == 0 && !l.UploadElapsed(now) && !l.settled
  {
  }

  /** Accepted votes are small, so that nothing is masked away; the participant stays the same person. */
  lemma VoterFacts(config: Config, l: LotteryData, participants: nat, p: ParticipantData, voted: U64, now: int)
    requires Configured(config, l) && 1 <= voted <= config.EffectiveMaxWinners(participants)
    ensures var q := Voter(p, voted, now);
            && q.vote == voted && q.attested && !q.revealIncluded && !q.refundClaimed && q.attestedAt == now
            && q.wallet == p.wallet && q.index == p.index && q.tickets == p.tickets
            && q.finalizationGeneration == p.finalizationGeneration && q.selectedGeneration == p.selectedGeneration
            && q.selectedRound == p.selectedRound
  {
    EffectiveMaxWinnersRange(config, participants);
  }

  lemma CapOf(s: State)
    ensures s.MaxWinners() == s.config.EffectiveMaxWinners(s.lottery.participantsCount)
  {
  }

  lemma RowsCounted(l: LotteryData, rows: seq<ParticipantData>, slot: map<Pubkey, nat>)
    requires Registered(l, rows, slot)
    ensures |rows| == l.participantsCount <= MAX_PARTICIPANTS
    ensures forall w :: w in slot ==> slot[w] < |rows| && rows[slot[w]].wallet == w
  {
  }

  lemma AttestKeeps(s: State, wallet: Pubkey, voted: U64, receipt: bool)
    requires Inv(s) && AttestUploaded.Apply(s, wallet, voted, receipt).Ok?
    ensures Inv(AttestUploaded.Apply(s, wallet, voted, receipt).value)
  {
    hide *;
    Parts(s);
    AttestEffect(s, wallet, voted, receipt);
    var t := AttestUploaded.Apply(s, wallet, voted, receipt).value;
    var i := s.slot[wallet];
    var cap := s.MaxWinners();
    var p := Voter(s.rows[i], voted, s.now);
    CapOf(s);
    VoterFacts(s.config, s.lottery, s.lottery.participantsCount, s.rows[i], voted, s.now);
    NotStarted(s.lottery, s.now);
    RowsCounted(s.lottery, s.rows, s.slot);
    SomebodyLeft(s.lottery, cap, s.rows, i);
    AttestClock(s.config, s.lottery, t.lottery, s.now, s.root);
    Silent(s.lottery, cap, s.rows, i);
    AttestCounted(s.lottery, t.lottery, cap, s.rows, i, p);
    VoterRows(s.rows, i, p);
    PeopleRegistered(s.lottery, t.lottery, s.rows, t.rows, s.slot);
    PeopleBanked(s.lottery, t.lottery, s.rows, t.rows, s.rents, s.bank, s.vaultOpen, s.donated, s.credited);
    FinalizingFrame(s.h, s.lottery.id, cap, s.root, s.rows, t.rows, Pool(s.rows), s.pages);
    VotedFrame(s.lottery, t.lottery, cap, Pool(s.rows), s.tally, IsSelecting(s.root));
    SettlingFrame(s.lottery, t.lottery, s.root, s.pages);
    Whole(t, cap, Pool(s.rows));
  }

  // ----- AttestReveal -----

  /** The tally a step starts from agrees with the pool. */
  lemma LoadedCounts(s: State, attested: nat, mismatch: Error)
    requires Voted(s.lottery, s.MaxWinners(), Pool(s.rows), s.tally, IsSelecting(s.root))
    requires s.LoadTally(attested, mismatch).Ok?
    ensures Counts(s.LoadTally(attested, mismatch).value, Pool(s.rows))
    ensures s.LoadTally(attested, mismatch).value.maxWinners == s.MaxWinners()
  {
    if s.tally.None? {
      NewTallyCounts(s.MaxWinners(), attested, Pool(s.rows));
    }
  }

  /** Only the counted part of a tally matters for agreeing with the pool. */
  lemma CountsFrame(t: Tally, u: Tally, pool: seq<Entry>)
    requires Counts(t, pool)
    requires u.maxWinners == t.maxWinners && u.weights == t.weights && u.firstSeen == t.firstSeen
    ensures Counts(u, pool)
  {
  }

  lemma PoolTickets(l: LotteryData, cap: nat, rows: seq<ParticipantData>)
    requires Counted(l, cap, rows)
    ensures Sum(Pool(rows), TicketCount()) <= U64_MAX
  {
    SumEq(Pool(rows), TicketCount(), rows, TicketsHeld());
  }

  /** Including one reveal XORs its digest into the entropy of the pool. */
  lemma EntropyReveal(pool: seq<Entry>, i: nat, r: Reveal)
    requires i < |pool| && pool[i].shown.None?
    ensures Entropy(pool[i := pool[i].(shown := Some(r))]) == Xor(Entropy(pool), r.digest)
  {
    var after := pool[i := pool[i].(shown := Some(r))];
    assert DigestsOf(after) == DigestsOf(pool)[i := r.digest];
    XorAllReplaceZero(ZERO32, DigestsOf(pool), i, r.digest);
  }

  /** The tally a successful AttestReveal writes: one more vote on the tally it loaded. */
  lemma TalliedEffect(s: State, attested: nat, p: ParticipantData)
    requires AttestReveal.Tallied(s, attested, p).Ok?
    ensures s.LoadTally(attested, InvalidAccountData).Ok?
    ensures var base := s.LoadTally(attested, InvalidAccountData).value;
            var u := base.(totalAttested := attested).AddVote(p.vote, p.tickets, p.attestedAt);
            AttestReveal.Tallied(s, attested, p).value == u.(processedCount := u.processedCount + 1)
  {
  }

  /** Each AttestReveal processes one more reveal. */
  lemma RevealInStep(s: State, attested: nat, p: ParticipantData, included: nat)
    requires AttestReveal.Tallied(s, attested, p).Ok? && TallyInStep(included, s.tally) && (s.tally.None? ==> included == 0)
    ensures TallyInStep(included + 1, Some(AttestReveal.Tallied(s, attested, p).value))
  {
  }

  /** Without a tally nothing has been included. */
  lemma NoTallyNoReveals(l: LotteryData, cap: nat, rows: seq<ParticipantData>, tally: Option<Tally>, selecting: bool)
    requires Voted(l, cap, Pool(rows), tally, selecting) && Counted(l, cap, rows)
    ensures tally.None? ==> l.providerUploaded == 0
  {
    if tally.None? {
      assert forall i :: 0 <= i < |rows| ==> Pool(rows)[i].shown.None?;
      SumZero(rows, IncludedOne());
    }
  }

  lemma TalliedCounts(s: State, attested: nat, p: ParticipantData, i: nat)
    requires Voted(s.lottery, s.MaxWinners(), Pool(s.rows), s.tally, IsSelecting(s.root))
    requires Sum(Pool(s.rows), TicketCount()) <= U64_MAX
    requires AttestReveal.Tallied(s, attested, p).Ok?
    requires i < |s.rows| && !s.rows[i].revealIncluded && p.tickets == s.rows[i].tickets && p.wallet == s.rows[i].wallet
    requires p.revealIncluded
    ensures var t := AttestReveal.Tallied(s, attested, p).value;
            Counts(t, Pool(s.rows)[i := p.AsEntry()]) && t.maxWinners == s.MaxWinners()
  {
    hide Voted, Counts, AttestReveal.Tallied;
    TalliedEffect(s, attested, p);
    LoadedCounts(s, attested, InvalidAccountData);
    var base := s.LoadTally(attested, InvalidAccountData).value;
    var t0 := base.(totalAttested := attested);
    CountsFrame(base, t0, Pool(s.rows));
    var r := Reveal(p.revealDigest, p.vote, p.attestedAt);
    assert Pool(s.rows)[i].(shown := Some(r)) == p.AsEntry();
    AddVoteCounts(t0, Pool(s.rows), i, r);
    var u := t0.AddVote(p.vote, p.tickets, p.attestedAt);
    CountsFrame(u, u.(processedCount := u.processedCount + 1), Pool(s.rows)[i := p.AsEntry()]);
  }

  lemma RevealVoted(l: LotteryData, m: LotteryData, cap: nat, rows: seq<ParticipantData>, i: nat, p: ParticipantData,
                    tally: Option<Tally>, t: Tally, root: Option<LedgerData>)
    requires Voted(l, cap, Pool(rows), tally, IsSelecting(root)) && root.None?
    requires i < |rows| && !rows[i].revealIncluded && p.revealIncluded && p.tickets == rows[i].tickets && p.wallet == rows[i].wallet
    requires Counts(t, Pool(rows)[i := p.AsEntry()]) && t.maxWinners == cap
    requires l.participantsCount >= 2 ==> cap <= l.participantsCount - 1
    requires m.participantsCount == l.participantsCount && m.attestedCount > 0
    requires l.participantsCount > 1 ==> m.selectedWinners == t.SelectedWinners(l.participantsCount)
    requires l.participantsCount <= 1 ==> m.selectedWinners == l.selectedWinners
    requires l.uploadsComplete ==> m.uploadsComplete
    requires m.aggregate == Xor(l.aggregate, p.revealDigest)
    ensures Voted(m, cap, Pool(rows[i := p]), Some(t), IsSelecting(root))
  {
    var r := Reveal(p.revealDigest, p.vote, p.attestedAt);
    assert Pool(rows)[i].(shown := Some(r)) == p.AsEntry();
    assert Pool(rows[i := p]) == Pool(rows)[i := p.AsEntry()];
    EntropyReveal(Pool(rows), i, r);
    if l.participantsCount >= 2 {
      SelectedWinsVote(t, Pool(rows[i := p]), l.participantsCount);
    }
  }

  function Revealer(p: ParticipantData, voted: U64, now: int, digest: Bytes32): ParticipantData {
    Voter(p, voted, now).IncludeVerifiedReveal(digest)
  }

  /** The lottery account that a successful AttestReveal writes. */
  ghost predicate RevealedLottery(l: LotteryData, m: LotteryData, now: int, digest: Bytes32, t: Tally) {
    && (l.participantsCount > 1 ==> m.selectedWinners == t.SelectedWinners(l.participantsCount))
    && (l.participantsCount <= 1 ==> m.selectedWinners == l.selectedWinners)
    && m == l.(attestedCount := l.attestedCount + 1,
               providerUploaded := SaturatingAdd(l.providerUploaded, 1, U64_MAX),
               aggregate := Xor(l.aggregate, digest),
               selectedWinners := m.selectedWinners,
               settlementStart := if l.attestedCount + 1 == l.participantsCount && l.settlementStart == 0
                                  then now else l.settlementStart,
               uploadsComplete := l.uploadsComplete
                 || (m.providerUploaded >= m.attestedCount
                     && (l.attestedCount + 1 == l.participantsCount || l.UploadElapsed(now))))
  }

  lemma RevealLotteryEffect(l: LotteryData, l1: LotteryData, l2: LotteryData, now: int, digest: Bytes32, t: Tally)
    requires AttestReveal.Counted(l, digest) == Ok(l1) && AttestReveal.WithSelection(l1, t) == Ok(l2)
    requires l.participantsCount > 0
    ensures RevealedLottery(l, AttestReveal.Advanced(l2, now), now, digest, t)
  {
  }

  lemma RevealAdmitted(s: State, wallet: Pubkey, voted: U64, plaintext: seq<bv8>)
    requires AttestReveal.Admit(s, wallet, voted, plaintext).Ok?
    ensures s.Live(wallet) && wallet in s.slot && s.slot[wallet] < |s.rows|
    ensures var p := s.rows[s.slot[wallet]];
            && AttestReveal.Admit(s, wallet, voted, plaintext).value == p
            && !p.attested && !p.revealIncluded && s.h.commitment(plaintext) == p.proofHash
            && s.lottery.StageAt(s.now) == Upload && 1 <= voted <= s.MaxWinners()
  {
  }

  lemma RevealParts(s: State, wallet: Pubkey, voted: U64, plaintext: seq<bv8>) returns (l1: LotteryData, l2: LotteryData, t: Tally)
    requires AttestReveal.Apply(s, wallet, voted, plaintext).Ok?
    ensures AttestReveal.Admit(s, wallet, voted, plaintext).Ok? && s.Live(wallet)
    ensures var p0 := AttestReveal.Admit(s, wallet, voted, plaintext).value;
            var digest := s.h.disclosure(wallet, plaintext);
            var p := AttestReveal.Attested(p0, voted, s.now, digest);
            && p.Ok? && AttestReveal.Counted(s.lottery, digest) == Ok(l1)
            && AttestReveal.Tallied(s, l1.attestedCount, p.value) == Ok(t)
            && AttestReveal.WithSelection(l1, t) == Ok(l2)
            && AttestReveal.Apply(s, wallet, voted, plaintext).value
               == s.WithParticipant(wallet, p.value).(lottery := AttestReveal.Advanced(l2, s.now), tally := Some(t))
  {
    hide AttestReveal.Tallied, AttestReveal.WithSelection, AttestReveal.Advanced, AttestReveal.Counted;
    var p0 := AttestReveal.Admit(s, wallet, voted, plaintext).value;
    var digest := s.h.disclosure(wallet, plaintext);
    var p := AttestReveal.Attested(p0, voted, s.now, digest).value;
    l1 := AttestReveal.Counted(s.lottery, digest).value;
    t := AttestReveal.Tallied(s, l1.attestedCount, p).value;
    l2 := AttestReveal.WithSelection(l1, t).value;
  }

  /** What a successful AttestReveal changes, and the guards it passed. */
  lemma RevealEffect(s: State, wallet: Pubkey, voted: U64, plaintext: seq<bv8>) returns (t: Tally)
    requires AttestReveal.Apply(s, wallet, voted, plaintext).Ok? && s.lottery.participantsCount > 0
    ensures s.Live(wallet) && wallet in s.slot && s.slot[wallet] < |s.rows|
    ensures !s.rows[s.slot[wallet]].attested && s.lottery.StageAt(s.now) == Upload && 1 <= voted <= s.MaxWinners()
    ensures s.h.commitment(plaintext) == s.rows[s.slot[wallet]].proofHash
    ensures var i := s.slot[wallet];
            var digest := s.h.disclosure(wallet, plaintext);
            var p := Revealer(s.rows[i], voted, s.now, digest);
            var u := AttestReveal.Apply(s, wallet, voted, plaintext).value;
            && u == s.(rows := s.rows[i := p], lottery := u.lottery, tally := Some(t))
            && u.MaxWinners() == s.MaxWinners()
            && AttestReveal.Tallied(s, s.lottery.attestedCount + 1, p) == Ok(t)
            && RevealedLottery(s.lottery, u.lottery, s.now, digest, t)
  {
    hide AttestReveal.Apply, AttestReveal.Tallied, AttestReveal.WithSelection, AttestReveal.Advanced,
         AttestReveal.Admit, RevealedLottery;
    var l1, l2, t0 := RevealParts(s, wallet, voted, plaintext);
    t := t0;
    RevealAdmitted(s, wallet, voted, plaintext);
    RevealLotteryEffect(s.lottery, l1, l2, s.now, s.h.disclosure(wallet, plaintext), t);
    RevealedParticipants(s.lottery, AttestReveal.Advanced(l2, s.now), s.now, s.h.disclosure(wallet, plaintext), t);
  }

  lemma RevealedParticipants(l: LotteryData, m: LotteryData, now: int, digest: Bytes32, t: Tally)
    requires RevealedLottery(l, m, now, digest, t)
    ensures m.participantsCount == l.participantsCount
  {
  }

  /** Inside the upload window no counter saturates, and uploads close only when everybody has revealed. */
  lemma RevealedFields(l: LotteryData, m: LotteryData, now: int, digest: Bytes32, t: Tally)
    requires RevealedLottery(l, m, now, digest, t)
    requires l.settlementStart == 0 && !l.UploadElapsed(now)
    requires l.providerUploaded <= l.attestedCount < l.participantsCount <= MAX_PARTICIPANTS
    ensures m == l.(attestedCount := l.attestedCount + 1, providerUploaded := l.providerUploaded + 1,
                    settlementStart := if l.attestedCount + 1 == l.participantsCount then now else l.settlementStart,
                    uploadsComplete := m.uploadsComplete, aggregate := Xor(l.aggregate, digest),
                    selectedWinners := m.selectedWinners)
    ensures m.uploadsComplete ==> l.uploadsComplete || (m.AllAttested() && m.providerUploaded >= m.attestedCount)
    ensures l.uploadsComplete ==> m.uploadsComplete
    ensures l.participantsCount > 1 ==> m.selectedWinners == t.SelectedWinners(l.participantsCount)
    ensures l.participantsCount <= 1 ==> m.selectedWinners == l.selectedWinners
  {
  }

  lemma RevealerFacts(p: ParticipantData, voted: U64, now: int, digest: Bytes32)
    ensures var v := Voter(p, voted, now);
            Revealer(p, voted, now, digest) == v.(revealDigest := digest, revealIncluded := true)
  {
  }

  lemma CapBelow(config: Config, l: LotteryData, participants: nat)
    requires Configured(config, l)
    ensures 1 <= config.EffectiveMaxWinners(participants) <= MAX_WINNERS == 256
    ensures participants >= 2 ==> config.EffectiveMaxWinners(participants) <= participants - 1
  {
    EffectiveMaxWinnersRange(config, participants);
  }

  lemma RevealKeeps(s: State, wallet: Pubkey, voted: U64, plaintext: seq<bv8>)
    requires Inv(s) && AttestReveal.Apply(s, wallet, voted, plaintext).Ok?
    ensures Inv(AttestReveal.Apply(s, wallet, voted, plaintext).value)
  {
    hide *;
    Parts(s);
    RowsCounted(s.lottery, s.rows, s.slot);
    SomebodyReveals(s, wallet, voted, plaintext);
    var t := RevealEffect(s, wallet, voted, plaintext);
    var u := AttestReveal.Apply(s, wallet, voted, plaintext).value;
    var i := s.slot[wallet];
    var cap := s.MaxWinners();
    var digest := s.h.disclosure(wallet, plaintext);
    var p := Revealer(s.rows[i], voted, s.now, digest);
    CapOf(s);
    CapBelow(s.config, s.lottery, s.lottery.participantsCount);
    VoterFacts(s.config, s.lottery, s.lottery.participantsCount, s.rows[i], voted, s.now);
    RevealerFacts(s.rows[i], voted, s.now, digest);
    NotStarted(s.lottery, s.now);
    SomebodyLeft(s.lottery, cap, s.rows, i);
    AttestedBounds(s.lottery, cap, s.rows);
    RevealedFields(s.lottery, u.lottery, s.now, digest, t);
    AttestClock(s.config, s.lottery, u.lottery, s.now, s.root);
    Silent(s.lottery, cap, s.rows, i);
    AttestCounted(s.lottery, u.lottery, cap, s.rows, i, p);
    VoterRows(s.rows, i, p);
    PoolTickets(s.lottery, cap, s.rows);
    TalliedCounts(s, s.lottery.attestedCount + 1, p, i);
    NoTallyNoReveals(s.lottery, cap, s.rows, s.tally, IsSelecting(s.root));
    RevealInStep(s, s.lottery.attestedCount + 1, p, s.lottery.providerUploaded);
    RevealVoted(s.lottery, u.lottery, cap, s.rows, i, p, s.tally, t, s.root);
    PeopleRegistered(s.lottery, u.lottery, s.rows, u.rows, s.slot);
    PeopleBanked(s.lottery, u.lottery, s.rows, u.rows, s.rents, s.bank, s.vaultOpen, s.donated, s.credited);
    FinalizingNone(s.h, s.lottery.id, cap, s.root, s.rows, u.rows, s.pages);
    SettlingFrame(s.lottery, u.lottery, s.root, s.pages);
    Whole(u, cap, Pool(u.rows));
  }

  /** The caller is a participant, so there is one. */
  lemma SomebodyReveals(s: State, wallet: Pubkey, voted: U64, plaintext: seq<bv8>)
    requires AttestReveal.Apply(s, wallet, voted, plaintext).Ok? && |s.rows| == s.lottery.participantsCount
    ensures s.lottery.participantsCount > 0
  {
  }

  /** Before the first chunk only the marks matter. */
  lemma FinalizingNone(h: Hashes, id: nat, cap: nat, root: Option<LedgerData>, rows: seq<ParticipantData>,
                       after: seq<ParticipantData>, pages: map<nat, PageData>)
    requires root.None? && Finalizing(h, id, cap, root, rows, Pool(rows), pages) && SameMarks(rows, after)
    ensures Finalizing(h, id, cap, root, after, Pool(after), pages)
  {
  }
}
