/** Uploading a batch of reveals keeps the invariant, whatever the batch. */
module UploadKeeps {
  import opened Prelude
  import opened Digests
  import opened Sums
  import opened Participants
  import opened VoteTallies
  import opened WinnerPages
  import opened FinalizationLedgers
  import opened Lotteries
  import opened Payouts
  import opened States
  import opened Invariants
  import opened AttestationKeeps
  import UploadReveals

  type Batch = UploadReveals.Batch
  type Upload = UploadReveals.Upload

  /** The same attestations and votes. */
  ghost predicate SameVotes(rows: seq<ParticipantData>, after: seq<ParticipantData>) {
    && |after| == |rows|
    && forall i :: 0 <= i < |rows| ==>
         && after[i].attested == rows[i].attested && after[i].vote == rows[i].vote
         && (after[i].revealIncluded ==> after[i].attested)
  }

  /** What a batch of k reveals has done to the rows and the tally so far. */
  ghost predicate Progress(rows: seq<ParticipantData>, cap: nat, b: Batch, k: nat) {
    && SamePeople(rows, b.rows) && SameMarks(rows, b.rows) && SameVotes(rows, b.rows)
    && |b.digests| == k && b.tally.maxWinners == cap
    && Counts(b.tally, Pool(b.rows))
    && Sum(b.rows, IncludedOne()) == Sum(rows, IncludedOne()) + k
    && Entropy(Pool(b.rows)) == XorAll(Entropy(Pool(rows)), b.digests)
  }

  /** Including one reveal changes one entry of the pool. */
  lemma IncludeRow(rows: seq<ParticipantData>, i: nat, digest: Bytes32)
    requires i < |rows| && !rows[i].revealIncluded
    ensures var after := rows[i := rows[i].IncludeVerifiedReveal(digest)];
            && SamePeople(rows, after) && SameMarks(rows, after)
            && Pool(after) == Pool(rows)[i := Pool(rows)[i].(shown := Some(Reveal(digest, rows[i].vote, rows[i].attestedAt)))]
    ensures Pool(rows)[i].shown.None? && Pool(rows)[i].tickets == rows[i].tickets
  {
  }

  lemma IncludeSums(rows: seq<ParticipantData>, i: nat, digest: Bytes32)
    requires i < |rows| && !rows[i].revealIncluded
    ensures var after := rows[i := rows[i].IncludeVerifiedReveal(digest)];
            && Entropy(Pool(after)) == Xor(Entropy(Pool(rows)), digest)
            && Sum(after, IncludedOne()) == Sum(rows, IncludedOne()) + 1
            && Sum(Pool(after), TicketCount()) == Sum(Pool(rows), TicketCount())
  {
    hide SamePeople, SameMarks, Entropy;
    var p := rows[i].IncludeVerifiedReveal(digest);
    IncludeRow(rows, i, digest);
    EntropyReveal(Pool(rows), i, Reveal(digest, rows[i].vote, rows[i].attestedAt));
    SumUpdate(rows, i, p, IncludedOne());
    SumEq(Pool(rows[i := p]), TicketCount(), Pool(rows), TicketCount());
  }

  lemma SameChain(rows: seq<ParticipantData>, mid: seq<ParticipantData>, after: seq<ParticipantData>)
    requires SamePeople(rows, mid) && SamePeople(mid, after) && SameMarks(rows, mid) && SameMarks(mid, after)
    ensures SamePeople(rows, after) && SameMarks(rows, after)
  {
  }

  lemma IncludeVotes(rows: seq<ParticipantData>, mid: seq<ParticipantData>, i: nat, digest: Bytes32)
    requires SameVotes(rows, mid) && i < |mid| && mid[i].attested
    ensures SameVotes(rows, mid[i := mid[i].IncludeVerifiedReveal(digest)])
  {
  }

  lemma IncludeEffect(h: Hashes, slot: map<Pubkey, nat>, b: Batch, e: Upload) returns (i: nat, digest: Bytes32)
    requires UploadReveals.IncludeOne(h, slot, b, e).Ok?
    ensures e.wallet in slot && i == slot[e.wallet] && i < |b.rows|
    ensures var p := b.rows[i];
            && p.attested && !p.revealIncluded && h.commitment(e.plaintext) == p.proofHash
            && digest == h.disclosure(p.wallet, e.plaintext)
            && UploadReveals.IncludeOne(h, slot, b, e).value
               == UploadReveals.Batch(b.rows[i := p.IncludeVerifiedReveal(digest)],
                                      b.tally.AddVote(p.vote, p.tickets, p.attestedAt), b.digests + [digest])
  {
    i := slot[e.wallet];
    digest := h.disclosure(b.rows[i].wallet, e.plaintext);
  }

  lemma IncludeOneProgress(rows: seq<ParticipantData>, cap: nat, h: Hashes, slot: map<Pubkey, nat>, b: Batch, e: Upload, k: nat)
    requires Progress(rows, cap, b, k) && Sum(Pool(b.rows), TicketCount()) <= U64_MAX
    requires UploadReveals.IncludeOne(h, slot, b, e).Ok?
    ensures var c := UploadReveals.IncludeOne(h, slot, b, e).value;
            Progress(rows, cap, c, k + 1) && Sum(Pool(c.rows), TicketCount()) <= U64_MAX
  {
    hide UploadReveals.IncludeOne, SamePeople, SameMarks, SameVotes, Counts, Entropy, Pool;
    var i, digest := IncludeEffect(h, slot, b, e);
    IncludeRow(b.rows, i, digest);
    IncludeSums(b.rows, i, digest);
    var c := UploadReveals.IncludeOne(h, slot, b, e).value;
    SameChain(rows, b.rows, c.rows);
    IncludeVotes(rows, b.rows, i, digest);
    AddVoteCounts(b.tally, Pool(b.rows), i, Reveal(digest, b.rows[i].vote, b.rows[i].attestedAt));
    assert c.digests[..k] == b.digests;
  }

  lemma {:induction false} IncludeAllProgress(rows: seq<ParticipantData>, cap: nat, h: Hashes, slot: map<Pubkey, nat>,
                                              b: Batch, entries: seq<Upload>)
    requires Progress(rows, cap, b, 0) && Sum(Pool(b.rows), TicketCount()) <= U64_MAX
    requires UploadReveals.IncludeAll(h, slot, b, entries).Ok?
    ensures var c := UploadReveals.IncludeAll(h, slot, b, entries).value;
            Progress(rows, cap, c, |entries|) && Sum(Pool(c.rows), TicketCount()) <= U64_MAX
  {
    hide Progress, UploadReveals.IncludeOne;
    if entries != [] {
      var n := |entries| - 1;
      IncludeAllProgress(rows, cap, h, slot, b, entries[..n]);
      var mid := UploadReveals.IncludeAll(h, slot, b, entries[..n]).value;
      IncludeOneProgress(rows, cap, h, slot, mid, entries[n], n);
    }
  }

  /** The count of processed reveals is raised once per batch, after the loop. */
  lemma {:induction false} IncludeAllProcessed(h: Hashes, slot: map<Pubkey, nat>, b: Batch, entries: seq<Upload>)
    requires UploadReveals.IncludeAll(h, slot, b, entries).Ok?
    ensures UploadReveals.IncludeAll(h, slot, b, entries).value.tally.processedCount == b.tally.processedCount
  {
    if entries != [] {
      IncludeAllProcessed(h, slot, b, entries[..|entries| - 1]);
    }
  }

  // ----- the instruction -----

  /** The lottery after an outsider opened remediation, if that is what happened. */
  ghost predicate Opening(l: LotteryData, l1: LotteryData, now: int) {
    || l1 == l
    || (l.UploadElapsed(now) && l.HasMissingAttestedReveals() && l1 == l.BeginRemediation(now))
  }

  /** What the guards let through. */
  ghost predicate Admitted(l: LotteryData, l1: LotteryData, now: int) {
    && Opening(l, l1, now)
    && !l.RemediationExpired(now) && !l.settled && !l.settlementComplete && !l.uploadsComplete && l.attestedCount > 0
    && (l.UploadElapsed(now) || l.AllAttested() || l.settlementStart != 0)
  }

  /** The lottery account that a successful upload writes. */
  ghost predicate UploadedLottery(l: LotteryData, m: LotteryData, now: int, digests: seq<Bytes32>, t: Tally) {
    exists l1 ::
      && Admitted(l, l1, now)
      && l.participantsCount >= 2 && m.selectedWinners == t.SelectedWinners(l.participantsCount)
      && m == UploadReveals.Uploaded(l1.(settlementStart := if l1.settlementStart == 0 then now else l1.settlementStart),
                                     digests).(selectedWinners := m.selectedWinners)
  }

  lemma AdmitEffect(s: State, uploader: Pubkey) returns (l1: LotteryData)
    requires UploadReveals.Admit(s, uploader).Ok?
    ensures Admitted(s.lottery, l1, s.now)
    ensures UploadReveals.Admit(s, uploader).value
         == l1.(settlementStart := if l1.settlementStart == 0 then s.now else l1.settlementStart)
    ensures l1.participantsCount == s.lottery.participantsCount && l1.attestedCount == s.lottery.attestedCount
  {
    l1 := if UploadReveals.CanRemediate(s, uploader) then s.lottery.BeginRemediation(s.now) else s.lottery;
  }

  lemma CountedEffect(l: LotteryData, b: Batch)
    requires UploadReveals.Counted(l, b).Ok?
    ensures l.participantsCount >= 2
    ensures var c := b.tally.SelectedWinners(l.participantsCount);
            UploadReveals.Counted(l, b).value == UploadReveals.Uploaded(l, b.digests).(selectedWinners := c)
  {
  }

  lemma UploadParts(s: State, uploader: Pubkey, entries: seq<Upload>) returns (l: LotteryData, t: Tally, b: Batch)
    requires UploadReveals.Apply(s, uploader, entries).Ok?
    ensures UploadReveals.Admit(s, uploader) == Ok(l)
    ensures s.LoadTally(l.attestedCount, InvalidInstruction) == Ok(t)
    ensures var start := UploadReveals.Batch(s.rows, t.(totalAttested := l.attestedCount), []);
            UploadReveals.IncludeAll(s.h, s.slot, start, entries) == Ok(b)
    ensures UploadReveals.Counted(l, b).Ok?
    ensures UploadReveals.Apply(s, uploader, entries).value
         == s.(lottery := UploadReveals.Counted(l, b).value, rows := b.rows,
               tally := Some(b.tally.(processedCount := SaturatingAdd(b.tally.processedCount, |entries|, U64_MAX))))
  {
    hide UploadReveals.Admit, UploadReveals.IncludeAll, UploadReveals.Counted;
    l := UploadReveals.Admit(s, uploader).value;
    t := s.LoadTally(l.attestedCount, InvalidInstruction).value;
    b := UploadReveals.IncludeAll(s.h, s.slot, UploadReveals.Batch(s.rows, t.(totalAttested := l.attestedCount), []), entries).value;
  }

  /** What a successful upload changes: some batch of reveals is included, and the lottery counts it. */
  lemma UploadEffect(s: State, uploader: Pubkey, entries: seq<Upload>) returns (b: Batch)
    requires UploadReveals.Apply(s, uploader, entries).Ok?
    requires Voted(s.lottery, s.MaxWinners(), Pool(s.rows), s.tally, IsSelecting(s.root))
    requires Sum(Pool(s.rows), TicketCount()) <= U64_MAX
    requires forall i :: 0 <= i < |s.rows| && s.rows[i].revealIncluded ==> s.rows[i].attested
    ensures Progress(s.rows, s.MaxWinners(), b, |entries|)
    ensures entries == [] ==> b.rows == s.rows
    ensures var u := UploadReveals.Apply(s, uploader, entries).value;
            && u == s.(rows := b.rows, lottery := u.lottery, tally := u.tally) && u.tally.Some?
            && u.MaxWinners() == s.MaxWinners()
            && u.tally.value.weights == b.tally.weights && u.tally.value.firstSeen == b.tally.firstSeen
            && u.tally.value.maxWinners == b.tally.maxWinners
            && UploadedLottery(s.lottery, u.lottery, s.now, b.digests, b.tally)
            && u.tally.value.processedCount
               == SaturatingAdd(if s.tally.Some? then s.tally.value.processedCount else 0, |entries|, U64_MAX)
  {
    hide UploadReveals.Apply, UploadReveals.Admit, UploadReveals.Counted, UploadReveals.IncludeOne, Admitted, Voted,
         UploadReveals.Uploaded;
    var l, t, b0 := UploadParts(s, uploader, entries);
    b := b0;
    var l1 := AdmitEffect(s, uploader);
    CountedEffect(l, b);
    LoadedCounts(s, l.attestedCount, InvalidInstruction);
    var t0 := t.(totalAttested := l.attestedCount);
    CountsFrame(t, t0, Pool(s.rows));
    var start := UploadReveals.Batch(s.rows, t0, []);
    assert Progress(s.rows, s.MaxWinners(), start, 0);
    IncludeAllProgress(s.rows, s.MaxWinners(), s.h, s.slot, start, entries);
    IncludeAllProcessed(s.h, s.slot, start, entries);
    UploadedParticipants(l, b.digests);
    assert UploadedLottery(s.lottery, UploadReveals.Counted(l, b).value, s.now, b.digests, b.tally);
  }

  lemma UploadedParticipants(l: LotteryData, digests: seq<Bytes32>)
    ensures UploadReveals.Uploaded(l, digests).participantsCount == l.participantsCount
  {
  }

  // ----- the parts -----

  /** The fields of the written account, with nothing saturated. */
  ghost predicate UploadedFields(l: LotteryData, l1: LotteryData, m: LotteryData, now: int, digests: seq<Bytes32>, t: Tally) {
    && Admitted(l, l1, now) && l.participantsCount >= 2
    && m == l1.(settlementStart := if l1.settlementStart == 0 then now else l1.settlementStart,
                providerUploaded := l.providerUploaded + |digests|,
                uploadsComplete := l.providerUploaded + |digests| >= l.attestedCount,
                aggregate := XorAll(l.aggregate, digests),
                selectedWinners := t.SelectedWinners(l.participantsCount))
  }

  lemma NothingSaturates(l: LotteryData, m: LotteryData, now: int, digests: seq<Bytes32>, t: Tally) returns (l1: LotteryData)
    requires UploadedLottery(l, m, now, digests, t) && l.providerUploaded + |digests| <= U64_MAX
    ensures UploadedFields(l, l1, m, now, digests, t)
  {
    l1 :| && Admitted(l, l1, now)
          && m == UploadReveals.Uploaded(l1.(settlementStart := if l1.settlementStart == 0 then now else l1.settlementStart),
                                         digests).(selectedWinners := m.selectedWinners);
  }

  /** The fields other parts of the invariant read do not change. */
  lemma UploadedSame(l: LotteryData, l1: LotteryData, m: LotteryData, now: int, digests: seq<Bytes32>, t: Tally)
    requires UploadedFields(l, l1, m, now, digests, t)
    ensures m == l.(settlementStart := m.settlementStart, providerUploaded := l.providerUploaded + |digests|,
                    uploadsComplete := m.uploadsComplete, aggregate := XorAll(l.aggregate, digests),
                    selectedWinners := t.SelectedWinners(l.participantsCount),
                    remediationStart := m.remediationStart, remediationDeadline := m.remediationDeadline)
    ensures l.participantsCount >= 2 && !l.settled && !l.uploadsComplete && l.attestedCount > 0
  {
  }

  lemma UploadClock(config: Config, l: LotteryData, l1: LotteryData, m: LotteryData, now: int, digests: seq<Bytes32>,
                    t: Tally, frozen: bool)
    requires Configured(config, l) && Clockwork(l, now) && RefundReason(l, now) && (frozen ==> Frozen(l, now))
    requires UploadedFields(l, l1, m, now, digests, t)
    ensures Configured(config, m) && Clockwork(m, now) && RefundReason(m, now) && (frozen ==> Frozen(m, now))
    ensures frozen ==> l.providerUploaded >= l.attestedCount
  {
  }

  /** The batch changes inclusions only. */
  lemma UploadCounted(l: LotteryData, m: LotteryData, cap: nat, rows: seq<ParticipantData>, b: Batch, k: nat)
    requires Counted(l, cap, rows) && Progress(rows, cap, b, k) && !l.settled
    requires m.totalTickets == l.totalTickets && m.totalFunds == l.totalFunds && m.price == l.price
    requires m.attestedCount == l.attestedCount && m.providerUploaded == l.providerUploaded + k
    ensures Counted(m, cap, b.rows)
  {
    SumEq(rows, TicketsHeld(), b.rows, TicketsHeld());
    SumEq(rows, AttestedOne(), b.rows, AttestedOne());
    forall i | 0 <= i < |b.rows|
      ensures RowOk(m, cap, b.rows[i])
    {
      assert RowOk(l, cap, rows[i]);
    }
  }

  /** A batch cannot include more than has been attested. */
  lemma UploadBounds(l: LotteryData, cap: nat, rows: seq<ParticipantData>, b: Batch, k: nat)
    requires Counted(l, cap, rows) && Progress(rows, cap, b, k) && |rows| <= MAX_PARTICIPANTS
    ensures l.providerUploaded + k <= l.attestedCount <= |rows| <= U64_MAX
  {
    SumEq(rows, AttestedOne(), b.rows, AttestedOne());
    SumLe(b.rows, IncludedOne(), b.rows, AttestedOne());
    SumIndicator(rows, AttestedOne());
  }

  lemma UploadVoted(l: LotteryData, m: LotteryData, cap: nat, rows: seq<ParticipantData>, b: Batch, k: nat,
                    tally: Option<Tally>, t: Tally, selecting: bool)
    requires Voted(l, cap, Pool(rows), tally, selecting) && Progress(rows, cap, b, k)
    requires t.weights == b.tally.weights && t.firstSeen == b.tally.firstSeen && t.maxWinners == b.tally.maxWinners
    requires l.participantsCount >= 2 && cap <= l.participantsCount - 1
    requires m.participantsCount == l.participantsCount && m.attestedCount == l.attestedCount > 0
    requires m.selectedWinners == b.tally.SelectedWinners(l.participantsCount) && m.aggregate == XorAll(l.aggregate, b.digests)
    ensures Voted(m, cap, Pool(b.rows), Some(t), selecting)
  {
    SelectedWinsVote(b.tally, Pool(b.rows), l.participantsCount);
    CountsFrame(b.tally, t, Pool(b.rows));
  }

  /** Once the first chunk has been committed every attested reveal is in, so only an empty batch can succeed. */
  lemma UploadFinalizing(h: Hashes, id: nat, cap: nat, root: Option<LedgerData>, rows: seq<ParticipantData>,
                         b: Batch, k: nat, pages: map<nat, PageData>)
    requires Finalizing(h, id, cap, root, rows, Pool(rows), pages) && Progress(rows, cap, b, k)
    requires root.Some? ==> b.rows == rows
    ensures Finalizing(h, id, cap, root, b.rows, Pool(b.rows), pages)
  {
    if root.None? {
      FinalizingNone(h, id, cap, root, rows, b.rows, pages);
    }
  }

  lemma ProgressParts(rows: seq<ParticipantData>, cap: nat, b: Batch, k: nat)
    requires Progress(rows, cap, b, k)
    ensures SamePeople(rows, b.rows) && |b.digests| == k
  {
  }

  lemma IncludedAttested(l: LotteryData, cap: nat, rows: seq<ParticipantData>)
    requires Counted(l, cap, rows)
    ensures forall i :: 0 <= i < |rows| && rows[i].revealIncluded ==> rows[i].attested
  {
    assert forall i :: 0 <= i < |rows| ==> RowOk(l, cap, rows[i]);
  }

  lemma UploadInStep(tally: Option<Tally>, t: Tally, included: nat, k: nat)
    requires TallyInStep(included, tally) && (tally.None? ==> included == 0) && included + k <= U64_MAX
    requires t.processedCount == SaturatingAdd(if tally.Some? then tally.value.processedCount else 0, k, U64_MAX)
    ensures TallyInStep(included + k, Some(t))
  {
  }

  lemma UploadKeepsInv(s: State, uploader: Pubkey, entries: seq<Upload>)
    requires Inv(s) && UploadReveals.Apply(s, uploader, entries).Ok?
    ensures Inv(UploadReveals.Apply(s, uploader, entries).value)
  {
    hide *;
    Parts(s);
    var cap := s.MaxWinners();
    var k := |entries|;
    PoolTickets(s.lottery, cap, s.rows);
    IncludedAttested(s.lottery, cap, s.rows);
    RowsCounted(s.lottery, s.rows, s.slot);
    CapOf(s);
    CapBelow(s.config, s.lottery, s.lottery.participantsCount);
    var b := UploadEffect(s, uploader, entries);
    var u := UploadReveals.Apply(s, uploader, entries).value;
    ProgressParts(s.rows, cap, b, k);
    UploadBounds(s.lottery, cap, s.rows, b, k);
    var l1 := NothingSaturates(s.lottery, u.lottery, s.now, b.digests, b.tally);
    UploadedSame(s.lottery, l1, u.lottery, s.now, b.digests, b.tally);
    UploadClock(s.config, s.lottery, l1, u.lottery, s.now, b.digests, b.tally, s.root.Some?);
    UploadCounted(s.lottery, u.lottery, cap, s.rows, b, k);
    UploadVoted(s.lottery, u.lottery, cap, s.rows, b, k, s.tally, u.tally.value, IsSelecting(s.root));
    UploadFinalizing(s.h, s.lottery.id, cap, s.root, s.rows, b, k, s.pages);
    NoTallyNoReveals(s.lottery, cap, s.rows, s.tally, IsSelecting(s.root));
    UploadInStep(s.tally, u.tally.value, s.lottery.providerUploaded, k);
    PeopleRegistered(s.lottery, u.lottery, s.rows, u.rows, s.slot);
    PeopleBanked(s.lottery, u.lottery, s.rows, u.rows, s.rents, s.bank, s.vaultOpen, s.donated, s.credited);
    SettlingFrame(s.lottery, u.lottery, s.root, s.pages);
    Whole(u, cap, Pool(u.rows));
  }
}
