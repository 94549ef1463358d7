/** The UploadReveals instruction: batch inclusion by the authority, and permissionless remediation. */
module UploadReveals {
  import opened Prelude
  import opened Digests
  import opened Participants
  import opened VoteTallies
  import opened Lotteries
  import opened States

  /** One submitted pair: whose reveal, and its plaintext. */
  datatype Upload = Upload(wallet: Pubkey, plaintext: seq<bv8>)

  /** What the loop over entries carries: participant rows, the tally, and the digests seen so far. */
  datatype Batch = Batch(rows: seq<ParticipantData>, tally: Tally, digests: seq<Bytes32>)

  predicate CanRemediate(s: State, uploader: Pubkey) {
    && uploader != s.config.authority
    && s.lottery.UploadElapsed(s.now)
    && s.lottery.HasMissingAttestedReveals()
    && !s.lottery.RemediationExpired(s.now)
  }

  /** The guards; passing them opens remediation when an outsider is first, and starts the settlement. */
  function Admit(s: State, uploader: Pubkey): Result<LotteryData> {
    var l := s.lottery;
    :- Require(!l.RemediationExpired(s.now), InvalidPhaseTransition);
    :- Require(uploader == s.config.authority || CanRemediate(s, uploader), Unauthorized);
    var l1 := if CanRemediate(s, uploader) then l.BeginRemediation(s.now) else l;
    :- Require(!l1.settled && !l1.settlementComplete && !l1.uploadsComplete, InvalidPhaseTransition);
    :- Require(l1.UploadElapsed(s.now) || l1.AllAttested() || l1.settlementStart != 0, InvalidPhaseTransition);
    var l2 := if l1.settlementStart == 0 then l1.(settlementStart := s.now) else l1;
    :- Require(l2.attestedCount > 0, NoAttestedParticipants);
    Ok(l2)
  }

  ghost predicate DistinctUploads(entries: seq<Upload>) {
    forall i, j :: 0 <= i < j < |entries| ==> entries[i].wallet != entries[j].wallet
  }

  ghost predicate ShortUploads(entries: seq<Upload>) {
    forall i :: 0 <= i < |entries| ==> |entries[i].plaintext| <= MAX_REVEAL_PLAINTEXT_BYTES
  }

  /** Verifies one entry against its participant account and includes it. */
  function IncludeOne(h: Hashes, slot: map<Pubkey, nat>, b: Batch, e: Upload): Result<Batch> {
    var rows := b.rows;
    :- Require(e.wallet in slot && slot[e.wallet] < |rows|, MissingAccount);
    var p := rows[slot[e.wallet]];
    :- Require(!p.revealIncluded, InvalidUploads);
    :- Require(p.attested, InvalidUploads);
    :- Require(h.commitment(e.plaintext) == p.proofHash, RevealMismatch);
    var digest := h.disclosure(p.wallet, e.plaintext);
    Ok(Batch(rows[slot[e.wallet] := p.IncludeVerifiedReveal(digest)],
             b.tally.AddVote(p.vote, p.tickets, p.attestedAt),
             b.digests + [digest]))
  }

  function IncludeAll(h: Hashes, slot: map<Pubkey, nat>, b: Batch, entries: seq<Upload>): Result<Batch> {
    if entries == [] then Ok(b)
    else
      var before :- IncludeAll(h, slot, b, entries[..|entries| - 1]);
      IncludeOne(h, slot, before, entries[|entries| - 1])
  }

  lemma {:induction false} IncludeAllFails(h: Hashes, slot: map<Pubkey, nat>, b: Batch, entries: seq<Upload>, k: nat)
    requires k <= |entries| && IncludeAll(h, slot, b, entries[..k]).Err?
    ensures IncludeAll(h, slot, b, entries) == IncludeAll(h, slot, b, entries[..k])
  {
    if k == |entries| {
      assert entries[..k] == entries;
    } else {
      assert entries[..|entries| - 1][..k] == entries[..k];
      IncludeAllFails(h, slot, b, entries[..|entries| - 1], k);
    }
  }

  /** Stores the aggregate, counts the uploads, and closes uploads when none is missing. */
  function Uploaded(l: LotteryData, digests: seq<Bytes32>): LotteryData {
    var uploaded := SaturatingAdd(l.providerUploaded, |digests|, U64_MAX);
    l.(providerUploaded := uploaded,
       uploadsComplete := l.uploadsComplete || uploaded >= l.attestedCount,
       aggregate := XorAll(l.aggregate, digests))
  }

  /** Counts the batch and re-selects the winner count from the tally. */
  function Counted(l: LotteryData, b: Batch): Result<LotteryData> {
    Uploaded(l, b.digests).SetSelectedWinners(b.tally.SelectedWinners(l.participantsCount))
  }

  ghost function Apply(s: State, uploader: Pubkey, entries: seq<Upload>): Result<State> {
    var l :- Admit(s, uploader);
    var t :- s.LoadTally(l.attestedCount, InvalidInstruction);
    :- Require(DistinctUploads(entries) && ShortUploads(entries), InvalidUploads);
    var b :- IncludeAll(s.h, s.slot, Batch(s.rows, t.(totalAttested := l.attestedCount), []), entries);
    var counted :- Counted(l, b);
    var tally := b.tally.(processedCount := SaturatingAdd(b.tally.processedCount, |entries|, U64_MAX));
    Ok(s.(lottery := counted, rows := b.rows, tally := Some(tally)))
  }

  method CheckAdmit(a: Accounts, uploader: Pubkey) returns (r: Result<LotteryData>)
    requires a.Valid()
    ensures r == Admit(a.Snapshot(), uploader)
  {
    var l := a.lottery;
    var elapsed := l.uploadDeadline > 0 && a.now > l.uploadDeadline;
    var allAttested := l.participantsCount > 0 && l.attestedCount == l.participantsCount;
    var isAuthority := uploader == a.config.authority;
    var canRemediate := !isAuthority && elapsed && l.HasMissingAttestedReveals() && !l.RemediationExpired(a.now);
    if l.RemediationExpired(a.now) {
      return Err(InvalidPhaseTransition);
    }
    if !isAuthority && !canRemediate {
      return Err(Unauthorized);
    }
    if canRemediate && l.remediationStart == 0 {
      l := l.BeginRemediation(a.now);
    }
    if l.settled || l.settlementComplete || l.uploadsComplete {
      return Err(InvalidPhaseTransition);
    }
    if !elapsed && !allAttested && l.settlementStart == 0 {
      return Err(InvalidPhaseTransition);
    }
    if l.settlementStart == 0 {
      l := l.(settlementStart := a.now);
    }
    if l.attestedCount == 0 {
      return Err(NoAttestedParticipants);
    }
    return Ok(l);
  }

  /** Rejects duplicate keys and oversized plaintexts before anything is processed. */
  method CheckEntries(entries: seq<Upload>) returns (ok: bool)
    ensures ok <==> DistinctUploads(entries) && ShortUploads(entries)
  {
    var seen: set<Pubkey> := {};
    for k := 0 to |entries|
      invariant forall w :: w in seen <==> exists i :: 0 <= i < k && entries[i].wallet == w
      invariant DistinctUploads(entries[..k]) && ShortUploads(entries[..k])
    {
      if entries[k].wallet in seen {
        return false;
      }
      if |entries[k].plaintext| > MAX_REVEAL_PLAINTEXT_BYTES {
        return false;
      }
      seen := seen + {entries[k].wallet};
    }
    return true;
  }

  /** One turn of the inclusion loop, on working copies. */
  method Include(h: Hashes, slot: map<Pubkey, nat>, b: Batch, tally: VoteTally, e: Upload) returns (r: Result<Batch>)
    requires tally.Data() == b.tally
    modifies tally
    ensures r == IncludeOne(h, slot, b, e)
    ensures r.Ok? ==> tally.Data() == r.value.tally
  {
    if e.wallet !in slot || slot[e.wallet] >= |b.rows| {
      return Err(MissingAccount);
    }
    var participant := new Participant.Read(b.rows[slot[e.wallet]]);
    if participant.RevealIncluded() {
      return Err(InvalidUploads);
    }
    if !participant.attested {
      return Err(InvalidUploads);
    }
    if h.commitment(e.plaintext) != participant.proofHash {
      return Err(RevealMismatch);
    }
    var digest := h.disclosure(participant.wallet, e.plaintext);
    var voted := participant.VotedWinners();
    if voted > 0 && voted <= tally.maxWinners {
      tally.AddVote(voted, participant.tickets, participant.attestedAt);
    }
    participant.IncludeVerifiedReveal(digest);
    return Ok(Batch(b.rows[slot[e.wallet] := participant.Data()], tally.Data(), b.digests + [digest]));
  }

  /** The loop over entries; any refusal abandons the whole batch. */
  method IncludeEntries(h: Hashes, slot: map<Pubkey, nat>, start: Batch, entries: seq<Upload>) returns (r: Result<Batch>)
    ensures r == IncludeAll(h, slot, start, entries)
  {
    var tally := new VoteTally.Read(start.tally);
    var b := start;
    for k := 0 to |entries|
      invariant IncludeAll(h, slot, start, entries[..k]) == Ok(b)
      invariant fresh(tally) && tally.Data() == b.tally
    {
      assert entries[..k + 1][..k] == entries[..k];
      var next := Include(h, slot, b, tally, entries[k]);
      if next.Err? {
        IncludeAllFails(h, slot, start, entries, k + 1);
        return next;
      }
      b := next.value;
    }
    assert entries[..|entries|] == entries;
    return Ok(b);
  }

  method CountUploads(lottery: Lottery, digests: seq<Bytes32>)
    modifies lottery
    ensures lottery.Data() == Uploaded(old(lottery.Data()), digests)
  {
    var aggregate := XorRevealDigests(lottery.aggregate, digests);
    lottery.providerUploaded := SaturatingAdd(lottery.providerUploaded, |digests|, U64_MAX);
    if lottery.providerUploaded >= lottery.attestedCount {
      lottery.uploadsComplete := true;
    }
    lottery.aggregate := aggregate;
  }

  method Count(l: LotteryData, b: Batch) returns (r: Result<LotteryData>)
    ensures r == Counted(l, b)
  {
    var lottery := new Lottery.Read(l);
    var tally := new VoteTally.Read(b.tally);
    var selected := tally.SelectedWinners(l.participantsCount);
    CountUploads(lottery, b.digests);
    var stored := lottery.SetSelectedWinners(selected);
    if stored.Err? {
      return Err(stored.error);
    }
    return Ok(lottery.Data());
  }

  method LoadTally(a: Accounts, attested: nat) returns (r: Result<Tally>)
    requires a.Valid()
    ensures r == a.Snapshot().LoadTally(attested, InvalidInstruction)
  {
    var maxWinners := a.config.EffectiveMaxWinners(a.lottery.participantsCount);
    if a.tally.None? {
      return Ok(TallyData.New(maxWinners, attested));
    }
    if a.tally.value.maxWinners != maxWinners {
      return Err(InvalidInstruction);
    }
    return Ok(a.tally.value);
  }

  /** Everything the instruction computes, without touching the stored accounts. */
  method Plan(a: Accounts, uploader: Pubkey, entries: seq<Upload>)
    returns (r: Result<()>, l: LotteryData, rows: seq<ParticipantData>, t: Tally)
    requires a.Valid()
    ensures match Apply(a.Snapshot(), uploader, entries)
            case Ok(s) => r.Ok? && s == a.Snapshot().(lottery := l, rows := rows, tally := Some(t))
            case Err(e) => r == Err(e)
  {
    l, rows, t := a.lottery, a.rows, TallyData.New(0, 0);
    var admitted := CheckAdmit(a, uploader);
    if admitted.Err? {
      r := Err(admitted.error);
      return;
    }
    l := admitted.value;
    var loaded := LoadTally(a, l.attestedCount);
    if loaded.Err? {
      r := Err(loaded.error);
      return;
    }
    var wellFormed := CheckEntries(entries);
    if !wellFormed {
      r := Err(InvalidUploads);
      return;
    }
    t := loaded.value.(totalAttested := l.attestedCount);
    var included := IncludeEntries(a.h, a.slot, Batch(rows, t, []), entries);
    if included.Err? {
      r := Err(included.error);
      return;
    }
    var counted := Count(l, included.value);
    if counted.Err? {
      r := Err(counted.error);
      return;
    }
    r, l, rows, t := Ok(()), counted.value, included.value.rows, included.value.tally;
    t := t.(processedCount := SaturatingAdd(t.processedCount, |entries|, U64_MAX));
  }

  method Process(a: Accounts, uploader: Pubkey, entries: seq<Upload>) returns (r: Result<()>)
    requires a.Valid()
    modifies a
    ensures a.Valid()
    ensures match Apply(old(a.Snapshot()), uploader, entries)
            case Ok(s) => r.Ok? && a.Snapshot() == s
            case Err(e) => r == Err(e) && a.Snapshot() == old(a.Snapshot())
  {
    var lottery, rows, tally;
    r, lottery, rows, tally := Plan(a, uploader, entries);
    if r.Ok? {
      a.lottery, a.rows, a.tally := lottery, rows, Some(tally);
    }
  }
}
