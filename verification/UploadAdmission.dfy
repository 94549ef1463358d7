/** Who may upload reveals and when, which batches are accepted, and exactly which participants they include. */
module UploadAdmission {
  import opened Prelude
  import opened Digests
  import opened Participants
  import opened Lotteries
  import opened Payouts
  import opened States
  import opened Steps
  import opened Invariants
  import opened AttestationKeeps
  import opened UploadKeeps
  import opened VoteAdmission
  import UploadReveals

  /** Attested reveals are missing. */
  predicate Missing(l: LotteryData) {
    l.providerUploaded < l.attestedCount
  }

  /** The challenge window was opened, has passed, and reveals are still missing. */
  predicate TooLate(l: LotteryData, now: int) {
    l.remediationStart != 0 && now > l.remediationDeadline && Missing(l)
  }

  /** The authority once attesting is over; anybody else only when reveals are missing after the deadline. */
  predicate MayUpload(s: State, uploader: Pubkey) {
    var l := s.lottery;
    && !TooLate(l, s.now)
    && (uploader == s.config.authority || (s.now > l.uploadDeadline && Missing(l)))
    && !l.settled && !l.uploadsComplete && l.attestedCount > 0
    && (s.now > l.uploadDeadline || l.attestedCount == l.participantsCount || l.settlementStart != 0)
  }

  /** The entry names an open account that has attested and has not been included, and carries the hashed phrase. */
  predicate Fits(h: Hashes, slot: map<Pubkey, nat>, rows: seq<ParticipantData>, e: Upload) {
    && e.wallet in slot && slot[e.wallet] < |rows|
    && var p := rows[slot[e.wallet]];
       p.attested && !p.revealIncluded && p.proofHash == h.commitment(e.plaintext)
  }

  /** Different wallets, short phrases, and every entry fits. */
  ghost predicate GoodEntries(s: State, entries: seq<Upload>) {
    && (forall i, j :: 0 <= i < j < |entries| ==> entries[i].wallet != entries[j].wallet)
    && (forall i :: 0 <= i < |entries| ==> |entries[i].plaintext| <= 49)
    && forall i :: 0 <= i < |entries| ==> Fits(s.h, s.slot, s.rows, entries[i])
  }

  // ----- the guards -----

  /** The lottery once the guards are passed: an outsider's first upload opens the challenge window. */
  function Entered(l: LotteryData, now: int, outsider: bool): LotteryData {
    var opens := outsider && l.remediationStart == 0;
    l.(remediationStart := if opens then now else l.remediationStart,
       remediationDeadline := if opens then now + 1800 else l.remediationDeadline,
       settlementStart := if l.settlementStart == 0 then now else l.settlementStart)
  }

  lemma AdmitIff(s: State, uploader: Pubkey)
    requires Clockwork(s.lottery, s.now) && (s.lottery.settlementComplete ==> s.lottery.settled)
    requires s.lottery.attestedCount <= s.lottery.participantsCount
    ensures UploadReveals.Admit(s, uploader).Ok? <==> MayUpload(s, uploader)
    ensures UploadReveals.Admit(s, uploader).Ok? ==>
              UploadReveals.Admit(s, uploader).value == Entered(s.lottery, s.now, uploader != s.config.authority)
  {
  }

  // ----- the batch -----

  /** No two wallets share an account. */
  ghost predicate Injective(slot: map<Pubkey, nat>) {
    forall v, w :: v in slot && w in slot && slot[v] == slot[w] ==> v == w
  }

  lemma SlotsInjective(l: LotteryData, rows: seq<ParticipantData>, slot: map<Pubkey, nat>)
    requires Registered(l, rows, slot)
    ensures Injective(slot)
  {
  }

  /** A participant with the reveal of the given phrase included. */
  function WithReveal(h: Hashes, p: ParticipantData, phrase: seq<bv8>): ParticipantData {
    p.(revealDigest := h.disclosure(p.wallet, phrase), revealIncluded := true)
  }

  /** Exactly the named participants have been included, each with the digest of its own phrase. */
  ghost predicate Included(h: Hashes, slot: map<Pubkey, nat>, rows: seq<ParticipantData>, after: seq<ParticipantData>,
                           entries: seq<Upload>) {
    && |after| == |rows|
    && (forall k :: 0 <= k < |entries| ==> entries[k].wallet in slot && slot[entries[k].wallet] < |rows|)
    && (forall k :: 0 <= k < |entries| ==>
          var i := slot[entries[k].wallet]; after[i] == WithReveal(h, rows[i], entries[k].plaintext))
    && forall i :: 0 <= i < |rows| && (forall k :: 0 <= k < |entries| ==> slot[entries[k].wallet] != i) ==> after[i] == rows[i]
  }

  lemma IncludeOneIff(h: Hashes, slot: map<Pubkey, nat>, b: Batch, e: Upload)
    ensures UploadReveals.IncludeOne(h, slot, b, e).Ok? <==> Fits(h, slot, b.rows, e)
    ensures UploadReveals.IncludeOne(h, slot, b, e).Ok? ==>
              var i := slot[e.wallet];
              && UploadReveals.IncludeOne(h, slot, b, e).value.rows == b.rows[i := WithReveal(h, b.rows[i], e.plaintext)]
              && UploadReveals.IncludeOne(h, slot, b, e).value.digests
                 == b.digests + [h.disclosure(b.rows[i].wallet, e.plaintext)]
  {
  }

  lemma IncludeAllStep(h: Hashes, slot: map<Pubkey, nat>, b: Batch, entries: seq<Upload>)
    requires entries != []
    ensures var before := UploadReveals.IncludeAll(h, slot, b, entries[..|entries| - 1]);
            UploadReveals.IncludeAll(h, slot, b, entries)
            == if before.Ok? then UploadReveals.IncludeOne(h, slot, before.value, entries[|entries| - 1]) else before
  {
    hide UploadReveals.IncludeOne;
  }

  ghost predicate Distinct(entries: seq<Upload>) {
    forall i, j :: 0 <= i < j < |entries| ==> entries[i].wallet != entries[j].wallet
  }

  function EntryDigest(h: Hashes, e: Upload): Bytes32 {
    h.disclosure(e.wallet, e.plaintext)
  }

  /** The digests of a batch, in order. */
  function BatchDigests(h: Hashes, entries: seq<Upload>): (d: seq<Bytes32>)
    ensures |d| == |entries|
  {
    seq(|entries|, k requires 0 <= k < |entries| => EntryDigest(h, entries[k]))
  }

  /** Live accounts are filed under their own wallet. */
  ghost predicate OwnWallets(slot: map<Pubkey, nat>, rows: seq<ParticipantData>) {
    forall w :: w in slot && slot[w] < |rows| ==> rows[slot[w]].wallet == w
  }

  lemma IncludedNext(h: Hashes, slot: map<Pubkey, nat>, rows: seq<ParticipantData>, mid: seq<ParticipantData>, entries: seq<Upload>)
    requires entries != [] && Injective(slot) && Distinct(entries)
    requires Included(h, slot, rows, mid, entries[..|entries| - 1])
    ensures var e := entries[|entries| - 1];
            && (Fits(h, slot, mid, e) <==> Fits(h, slot, rows, e))
            && (Fits(h, slot, mid, e) ==>
                  && mid[slot[e.wallet]] == rows[slot[e.wallet]]
                  && Included(h, slot, rows, mid[slot[e.wallet] := WithReveal(h, mid[slot[e.wallet]], e.plaintext)], entries))
  {
    var n := |entries| - 1;
    var e := entries[n];
    assert forall k :: 0 <= k < n ==> entries[..n][k] == entries[k];
    if e.wallet in slot && slot[e.wallet] < |rows| {
      var i := slot[e.wallet];
      assert forall k :: 0 <= k < n ==> slot[entries[..n][k].wallet] != i;
      assert mid[i] == rows[i];
      var after := mid[i := WithReveal(h, mid[i], e.plaintext)];
      forall j | 0 <= j < |rows| && (forall k :: 0 <= k < |entries| ==> slot[entries[k].wallet] != j)
        ensures after[j] == rows[j]
      {
        assert slot[entries[n].wallet] != j;
        assert forall k :: 0 <= k < n ==> slot[entries[..n][k].wallet] != j;
      }
    }
  }

  /** A batch is included exactly if every entry fits the accounts as they were before the batch. */
  lemma {:induction false} IncludeAllIff(h: Hashes, slot: map<Pubkey, nat>, b: Batch, entries: seq<Upload>)
    requires Injective(slot) && Distinct(entries) && OwnWallets(slot, b.rows) && b.digests == []
    ensures UploadReveals.IncludeAll(h, slot, b, entries).Ok? <==> forall k :: 0 <= k < |entries| ==> Fits(h, slot, b.rows, entries[k])
    ensures UploadReveals.IncludeAll(h, slot, b, entries).Ok? ==>
              && Included(h, slot, b.rows, UploadReveals.IncludeAll(h, slot, b, entries).value.rows, entries)
              && UploadReveals.IncludeAll(h, slot, b, entries).value.digests == BatchDigests(h, entries)
  {
    hide UploadReveals.IncludeOne, Fits, Included, WithReveal;
    if entries == [] {
      IncludedNone(h, slot, b.rows);
    } else {
      var n := |entries| - 1;
      assert forall k :: 0 <= k < n ==> entries[..n][k] == entries[k];
      IncludeAllIff(h, slot, b, entries[..n]);
      IncludeAllStep(h, slot, b, entries);
      if UploadReveals.IncludeAll(h, slot, b, entries[..n]).Ok? {
        var mid := UploadReveals.IncludeAll(h, slot, b, entries[..n]).value;
        IncludeOneIff(h, slot, mid, entries[n]);
        IncludedNext(h, slot, b.rows, mid.rows, entries);
        if Fits(h, slot, mid.rows, entries[n]) {
          FitsOwner(h, slot, b.rows, entries[n]);
        }
      }
    }
  }

  lemma IncludedNone(h: Hashes, slot: map<Pubkey, nat>, rows: seq<ParticipantData>)
    ensures Included(h, slot, rows, rows, [])
  {
  }

  lemma FitsOwner(h: Hashes, slot: map<Pubkey, nat>, rows: seq<ParticipantData>, e: Upload)
    requires Fits(h, slot, rows, e) && OwnWallets(slot, rows)
    ensures rows[slot[e.wallet]].wallet == e.wallet
  {
  }

  // ----- the instruction -----

  lemma LoadAccepts(s: State, attested: nat)
    requires s.tally.Some? ==> s.tally.value.maxWinners == s.MaxWinners()
    ensures s.LoadTally(attested, InvalidInstruction).Ok?
  {
  }

  lemma CountAccepts(l: LotteryData, b: Batch)
    ensures UploadReveals.Counted(l, b).Ok? <==> l.participantsCount >= 2
  {
  }

  /** The batch the loop starts from. */
  function StartOf(s: State, l: LotteryData): Batch
    requires s.tally.Some? ==> s.tally.value.maxWinners == s.MaxWinners()
  {
    LoadAccepts(s, l.attestedCount);
    UploadReveals.Batch(s.rows, s.LoadTally(l.attestedCount, InvalidInstruction).value.(totalAttested := l.attestedCount), [])
  }

  lemma ApplyIff(s: State, uploader: Pubkey, entries: seq<Upload>)
    requires s.tally.Some? ==> s.tally.value.maxWinners == s.MaxWinners()
    ensures UploadReveals.Apply(s, uploader, entries).Ok? <==>
              && UploadReveals.Admit(s, uploader).Ok?
              && UploadReveals.DistinctUploads(entries) && UploadReveals.ShortUploads(entries)
              && var l := UploadReveals.Admit(s, uploader).value;
                 && UploadReveals.IncludeAll(s.h, s.slot, StartOf(s, l), entries).Ok?
                 && UploadReveals.Counted(l, UploadReveals.IncludeAll(s.h, s.slot, StartOf(s, l), entries).value).Ok?
    ensures UploadReveals.Apply(s, uploader, entries).Ok? ==>
              var l := UploadReveals.Admit(s, uploader).value;
              var b := UploadReveals.IncludeAll(s.h, s.slot, StartOf(s, l), entries).value;
              var t := UploadReveals.Apply(s, uploader, entries).value;
              t == s.(lottery := UploadReveals.Counted(l, b).value, rows := b.rows, tally := t.tally)
  {
    hide UploadReveals.Admit, UploadReveals.IncludeAll, UploadReveals.Counted;
    if UploadReveals.Admit(s, uploader).Ok? {
      LoadAccepts(s, UploadReveals.Admit(s, uploader).value.attestedCount);
    }
  }

  lemma UploadFacts(s: State)
    requires Inv(s)
    ensures Clockwork(s.lottery, s.now) && (s.lottery.settlementComplete ==> s.lottery.settled)
    ensures s.lottery.providerUploaded <= s.lottery.attestedCount <= s.lottery.participantsCount == |s.rows| <= MAX_PARTICIPANTS
    ensures s.tally.Some? ==> s.tally.value.maxWinners == s.MaxWinners()
    ensures Injective(s.slot) && OwnWallets(s.slot, s.rows)
  {
    hide *;
    Parts(s);
    SettledIfComplete(s);
    AttestedBounds(s.lottery, s.MaxWinners(), s.rows);
    RowsCounted(s.lottery, s.rows, s.slot);
    TallyShape(s.lottery, s.MaxWinners(), Pool(s.rows), s.tally, IsSelecting(s.root));
    SlotsInjective(s.lottery, s.rows, s.slot);
    OwnWalletsOf(s.lottery, s.rows, s.slot);
  }

  lemma SettledIfComplete(s: State)
    requires Settling(s.lottery, s.root, s.pages)
    ensures s.lottery.settlementComplete ==> s.lottery.settled
  {
    hide PaidSet, PagePaid, PayoutPlan;
  }

  lemma OwnWalletsOf(l: LotteryData, rows: seq<ParticipantData>, slot: map<Pubkey, nat>)
    requires Registered(l, rows, slot)
    ensures OwnWallets(slot, rows)
  {
  }

  lemma EntriesGood(s: State, entries: seq<Upload>)
    ensures GoodEntries(s, entries) <==>
              && UploadReveals.DistinctUploads(entries) && UploadReveals.ShortUploads(entries)
              && forall i :: 0 <= i < |entries| ==> Fits(s.h, s.slot, s.rows, entries[i])
    ensures UploadReveals.DistinctUploads(entries) <==> Distinct(entries)
  {
    hide Fits;
  }

  lemma EnteredFields(l: LotteryData, now: int, outsider: bool)
    ensures Entered(l, now, outsider).participantsCount == l.participantsCount
    ensures Entered(l, now, outsider).attestedCount == l.attestedCount
  {
  }

  lemma StartFields(s: State, l: LotteryData)
    requires s.tally.Some? ==> s.tally.value.maxWinners == s.MaxWinners()
    ensures StartOf(s, l).rows == s.rows && StartOf(s, l).digests == []
  {
  }

  /**
   An upload succeeds exactly if the uploader may upload now, there are two or more participants, and the entries are
   distinct, short, and each matches an open account that has attested and is not included yet.
   */
  lemma UploadIff(s: State, uploader: Pubkey, entries: seq<Upload>)
    requires Inv(s)
    ensures Next(s, Step.Upload(uploader, entries)).Ok? <==>
              MayUpload(s, uploader) && s.lottery.participantsCount >= 2 && GoodEntries(s, entries)
  {
    hide *;
    UploadFacts(s);
    NextMeans(s, Step.Upload(uploader, entries));
    ApplyIff(s, uploader, entries);
    AdmitIff(s, uploader);
    EntriesGood(s, entries);
    var l := Entered(s.lottery, s.now, uploader != s.config.authority);
    EnteredFields(s.lottery, s.now, uploader != s.config.authority);
    if MayUpload(s, uploader) && Distinct(entries) {
      StartFields(s, l);
      IncludeAllIff(s.h, s.slot, StartOf(s, l), entries);
      var b := UploadReveals.IncludeAll(s.h, s.slot, StartOf(s, l), entries);
      if b.Ok? {
        CountAccepts(l, b.value);
      }
    }
  }

  // ----- what an upload changes -----

  /** The state after an upload. */
  ghost predicate UploadedBy(s: State, t: State, uploader: Pubkey, entries: seq<Upload>) {
    var l, k := s.lottery, |entries|;
    var opens := uploader != s.config.authority && l.remediationStart == 0;
    && Included(s.h, s.slot, s.rows, t.rows, entries)
    && t == s.(rows := t.rows, tally := t.tally,
               lottery := l.(remediationStart := if opens then s.now else l.remediationStart,
                             remediationDeadline := if opens then s.now + 1800 else l.remediationDeadline,
                             settlementStart := if l.settlementStart == 0 then s.now else l.settlementStart,
                             providerUploaded := l.providerUploaded + k,
                             uploadsComplete := l.providerUploaded + k == l.attestedCount,
                             aggregate := XorAll(l.aggregate, BatchDigests(s.h, entries)),
                             selectedWinners := t.lottery.selectedWinners))
    && t.tally.Some? && t.tally.value.totalAttested == l.attestedCount && t.tally.value.processedCount == l.providerUploaded + k
  }

  lemma CountedValue(s: State, l: LotteryData, b: Batch, outsider: bool, k: nat)
    requires l == Entered(s.lottery, s.now, outsider) && UploadReveals.Counted(l, b).Ok? && |b.digests| == k
    requires s.lottery.providerUploaded + k <= s.lottery.attestedCount <= MAX_PARTICIPANTS && !s.lottery.uploadsComplete
    ensures var m := UploadReveals.Counted(l, b).value;
            m == l.(providerUploaded := s.lottery.providerUploaded + k,
                    uploadsComplete := s.lottery.providerUploaded + k == s.lottery.attestedCount,
                    aggregate := XorAll(s.lottery.aggregate, b.digests), selectedWinners := m.selectedWinners)
  {
  }

  /** A batch cannot include more than has been attested. */
  lemma BatchFits(s: State, uploader: Pubkey, entries: seq<Upload>)
    requires Inv(s) && UploadReveals.Apply(s, uploader, entries).Ok?
    ensures s.lottery.providerUploaded + |entries| <= s.lottery.attestedCount
  {
    hide *;
    Parts(s);
    PoolTickets(s.lottery, s.MaxWinners(), s.rows);
    IncludedAttested(s.lottery, s.MaxWinners(), s.rows);
    RowsCounted(s.lottery, s.rows, s.slot);
    var b := UploadEffect(s, uploader, entries);
    UploadBounds(s.lottery, s.MaxWinners(), s.rows, b, |entries|);
  }

  lemma UploadedIntro(s: State, t: State, uploader: Pubkey, entries: seq<Upload>, m: LotteryData)
    requires Included(s.h, s.slot, s.rows, t.rows, entries)
    requires t == s.(rows := t.rows, tally := t.tally, lottery := m)
    requires t.tally.Some? && t.tally.value.totalAttested == s.lottery.attestedCount
    requires t.tally.value.processedCount == s.lottery.providerUploaded + |entries|
    requires m == Entered(s.lottery, s.now, uploader != s.config.authority).(
                    providerUploaded := s.lottery.providerUploaded + |entries|,
                    uploadsComplete := s.lottery.providerUploaded + |entries| == s.lottery.attestedCount,
                    aggregate := XorAll(s.lottery.aggregate, BatchDigests(s.h, entries)), selectedWinners := m.selectedWinners)
    ensures UploadedBy(s, t, uploader, entries)
  {
    hide Included, XorAll, BatchDigests;
  }

  /**
   An upload includes exactly the named participants, each with the digest of its own phrase, folds those digests into the
   entropy, counts them, and completes uploads when nothing is missing; an outsider's first upload opens a challenge window
   of 1800 seconds from now.
   */
  lemma UploadOutcome(s: State, uploader: Pubkey, entries: seq<Upload>)
    requires Inv(s) && Next(s, Step.Upload(uploader, entries)).Ok?
    ensures UploadedBy(s, Next(s, Step.Upload(uploader, entries)).value, uploader, entries)
  {
    hide *;
    UploadIff(s, uploader, entries);
    UploadFacts(s);
    NextMeans(s, Step.Upload(uploader, entries));
    ApplyIff(s, uploader, entries);
    AdmitIff(s, uploader);
    EntriesGood(s, entries);
    BatchFits(s, uploader, entries);
    MayUploadOpen(s, uploader);
    var outsider := uploader != s.config.authority;
    var l := Entered(s.lottery, s.now, outsider);
    StartFields(s, l);
    IncludeAllIff(s.h, s.slot, StartOf(s, l), entries);
    var b := UploadReveals.IncludeAll(s.h, s.slot, StartOf(s, l), entries).value;
    CountedValue(s, l, b, outsider, |entries|);
    UploadTally(s, uploader, entries);
    UploadedIntro(s, Next(s, Step.Upload(uploader, entries)).value, uploader, entries, UploadReveals.Counted(l, b).value);
  }

  lemma {:induction false} IncludeAllTotal(h: Hashes, slot: map<Pubkey, nat>, b: Batch, entries: seq<Upload>)
    requires UploadReveals.IncludeAll(h, slot, b, entries).Ok?
    ensures UploadReveals.IncludeAll(h, slot, b, entries).value.tally.totalAttested == b.tally.totalAttested
  {
    if entries != [] {
      IncludeAllTotal(h, slot, b, entries[..|entries| - 1]);
    }
  }

  /** The tally an upload writes knows how many have attested and how many reveals have been included. */
  lemma UploadTally(s: State, uploader: Pubkey, entries: seq<Upload>)
    requires Inv(s) && UploadReveals.Apply(s, uploader, entries).Ok?
    ensures var t := UploadReveals.Apply(s, uploader, entries).value;
            && t.tally.Some? && t.tally.value.totalAttested == s.lottery.attestedCount
            && t.tally.value.processedCount == t.lottery.providerUploaded
  {
    hide *;
    UploadFacts(s);
    AdmitIff(s, uploader);
    ApplyIff(s, uploader, entries);
    UploadKeepsInv(s, uploader, entries);
    var t := UploadReveals.Apply(s, uploader, entries).value;
    Parts(t);
    InStepMeans(t.lottery.providerUploaded, t.tally);
    EnteredFields(s.lottery, s.now, uploader != s.config.authority);
    LoopTotal(s, uploader, entries);
  }

  lemma LoopTotal(s: State, uploader: Pubkey, entries: seq<Upload>)
    requires UploadReveals.Apply(s, uploader, entries).Ok? && UploadReveals.Admit(s, uploader).Ok?
    ensures var t := UploadReveals.Apply(s, uploader, entries).value;
            t.tally.Some? && t.tally.value.totalAttested == UploadReveals.Admit(s, uploader).value.attestedCount
  {
    hide UploadReveals.Apply, UploadReveals.Admit, UploadReveals.IncludeAll, UploadReveals.Counted;
    var l, t0, b := UploadParts(s, uploader, entries);
    IncludeAllTotal(s.h, s.slot, UploadReveals.Batch(s.rows, t0.(totalAttested := l.attestedCount), []), entries);
  }

  lemma MayUploadOpen(s: State, uploader: Pubkey)
    ensures MayUpload(s, uploader) ==> !s.lottery.uploadsComplete
  {
  }
}
