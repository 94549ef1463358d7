/** The AttestReveal instruction: attest, vote and include one's own reveal in a single step. */
module AttestReveal {
  import opened Prelude
  import opened Digests
  import opened Participants
  import opened VoteTallies
  import opened Lotteries
  import opened States

  function Admit(s: State, wallet: Pubkey, voted: U64, plaintext: seq<bv8>): Result<ParticipantData> {
    var size := |plaintext|;
    :- Require(0 < size <= MAX_REVEAL_PLAINTEXT_BYTES, InvalidUploads);
    var p :- s.Participant(wallet);
    :- Require(p.tickets > 0, InvalidInstruction);
    :- Require(!p.attested, AttestationAlreadySubmitted);
    :- Require(!p.revealIncluded, InvalidUploads);
    :- Require(s.lottery.StageAt(s.now) == Upload, OutsideTimeWindow);
    :- Require(voted != 0, InvalidInstruction);
    :- Require(voted <= s.MaxWinners(), InvalidInstruction);
    :- Require(s.h.commitment(plaintext) == p.proofHash, RevealMismatch);
    Ok(p)
  }

  /** The participant after voting, attesting and being included. */
  function Attested(p: ParticipantData, voted: U64, now: int, digest: Bytes32): Result<ParticipantData> {
    var p1 :- p.SetVote(voted);
    var p2 :- p1.AttestUpload(now);
    Ok(p2.IncludeVerifiedReveal(digest))
  }

  /** The lottery counters and entropy after one more attested and included reveal. */
  function Counted(l: LotteryData, digest: Bytes32): Result<LotteryData> {
    var l1 :- l.AddAttestation();
    Ok(l1.(providerUploaded := SaturatingAdd(l1.providerUploaded, 1, U64_MAX),
           aggregate := Xor(l1.aggregate, digest)))
  }

  /** The tally after one more vote. */
  function Tallied(s: State, attested: nat, p: ParticipantData): Result<Tally> {
    var t0 :- s.LoadTally(attested, InvalidAccountData);
    var t1 := t0.(totalAttested := attested).AddVote(p.vote, p.tickets, p.attestedAt);
    var processed :- CheckedAdd(t1.processedCount, 1, U64_MAX);
    Ok(t1.(processedCount := processed))
  }

  function WithSelection(l: LotteryData, t: Tally): Result<LotteryData> {
    if l.participantsCount > 1 then l.SetSelectedWinners(t.SelectedWinners(l.participantsCount)) else Ok(l)
  }

  /** Starts settlement when everyone has attested, and closes uploads when nothing can be missing. */
  function Advanced(l: LotteryData, now: int): LotteryData {
    var l1 := if l.AllAttested() && l.settlementStart == 0 then l.(settlementStart := now) else l;
    if l1.providerUploaded >= l1.attestedCount && (l1.AllAttested() || l1.UploadElapsed(now))
    then l1.(uploadsComplete := true)
    else l1
  }

  function Apply(s: State, wallet: Pubkey, voted: U64, plaintext: seq<bv8>): Result<State> {
    var p0 :- Admit(s, wallet, voted, plaintext);
    var digest := s.h.disclosure(wallet, plaintext);
    var p :- Attested(p0, voted, s.now, digest);
    var l1 :- Counted(s.lottery, digest);
    var t :- Tallied(s, l1.attestedCount, p);
    var l2 :- WithSelection(l1, t);
    Ok(s.WithParticipant(wallet, p).(lottery := Advanced(l2, s.now), tally := Some(t)))
  }

  method CheckAdmit(a: Accounts, wallet: Pubkey, voted: U64, plaintext: seq<bv8>) returns (r: Result<ParticipantData>)
    requires a.Valid()
    ensures r == Admit(a.Snapshot(), wallet, voted, plaintext)
  {
    if |plaintext| == 0 || |plaintext| > MAX_REVEAL_PLAINTEXT_BYTES {
      return Err(InvalidUploads);
    }
    if !a.Live(wallet) {
      return Err(InvalidAccountData);
    }
    var p := a.rows[a.slot[wallet]];
    if p.tickets == 0 {
      return Err(InvalidInstruction);
    }
    if p.attested {
      return Err(AttestationAlreadySubmitted);
    }
    if p.revealIncluded {
      return Err(InvalidUploads);
    }
    if a.lottery.StageAt(a.now) != Upload {
      return Err(OutsideTimeWindow);
    }
    if voted == 0 || voted > a.config.EffectiveMaxWinners(a.lottery.participantsCount) {
      return Err(InvalidInstruction);
    }
    if a.h.commitment(plaintext) != p.proofHash {
      return Err(RevealMismatch);
    }
    return Ok(p);
  }

  method Attest(participant: Participant, voted: U64, now: int, digest: Bytes32) returns (r: Result<()>)
    modifies participant
    ensures match Attested(old(participant.Data()), voted, now, digest)
            case Ok(p) => r.Ok? && participant.Data() == p
            case Err(e) => r == Err(e)
  {
    r := participant.SetVote(voted);
    if r.Err? {
      return;
    }
    r := participant.AttestUpload(now);
    if r.Err? {
      return;
    }
    participant.IncludeVerifiedReveal(digest);
  }

  method Count(lottery: Lottery, digest: Bytes32) returns (r: Result<()>)
    modifies lottery
    ensures match Counted(old(lottery.Data()), digest)
            case Ok(l) => r.Ok? && lottery.Data() == l
            case Err(e) => r == Err(e)
  {
    var aggregate := XorRevealDigests(lottery.aggregate, [digest]);
    assert [digest][..0] == [];
    r := lottery.AddAttestation();
    if r.Err? {
      return;
    }
    lottery.providerUploaded := SaturatingAdd(lottery.providerUploaded, 1, U64_MAX);
    lottery.aggregate := aggregate;
  }

  method AddToTally(a: Accounts, attested: nat, p: ParticipantData) returns (r: Result<()>, t: Tally)
    requires a.Valid()
    ensures match Tallied(a.Snapshot(), attested, p)
            case Ok(u) => r.Ok? && t == u
            case Err(e) => r == Err(e)
  {
    var maxWinners := a.config.EffectiveMaxWinners(a.lottery.participantsCount);
    var tally: VoteTally;
    if a.tally.None? {
      tally := new VoteTally(maxWinners, attested);
    } else {
      t := a.tally.value;
      if t.maxWinners != maxWinners {
        return Err(InvalidAccountData), t;
      }
      tally := new VoteTally.Read(t);
    }
    tally.totalAttested := attested;
    tally.AddVote(p.vote, p.tickets, p.attestedAt);
    t := tally.Data();
    if tally.processedCount + 1 > U64_MAX {
      return Err(MathOverflow), t;
    }
    tally.processedCount := tally.processedCount + 1;
    return Ok(()), tally.Data();
  }

  method Advance(lottery: Lottery, now: int)
    modifies lottery
    ensures lottery.Data() == Advanced(old(lottery.Data()), now)
  {
    var allAttested := lottery.participantsCount > 0 && lottery.attestedCount == lottery.participantsCount;
    var elapsed := lottery.uploadDeadline > 0 && now > lottery.uploadDeadline;
    if allAttested && lottery.settlementStart == 0 {
      lottery.settlementStart := now;
    }
    if lottery.providerUploaded >= lottery.attestedCount && (allAttested || elapsed) {
      lottery.uploadsComplete := true;
    }
  }

  method Select(lottery: Lottery, t: Tally) returns (r: Result<()>)
    modifies lottery
    ensures match WithSelection(old(lottery.Data()), t)
            case Ok(l) => r.Ok? && lottery.Data() == l
            case Err(e) => r == Err(e)
  {
    if lottery.participantsCount > 1 {
      var tally := new VoteTally.Read(t);
      var selected := tally.SelectedWinners(lottery.participantsCount);
      r := lottery.SetSelectedWinners(selected);
    } else {
      r := Ok(());
    }
  }

  /** Everything the instruction computes, without touching the stored accounts. */
  method Plan(a: Accounts, wallet: Pubkey, voted: U64, plaintext: seq<bv8>)
    returns (r: Result<()>, p: ParticipantData, l: LotteryData, t: Tally)
    requires a.Valid()
    ensures match Apply(a.Snapshot(), wallet, voted, plaintext)
            case Ok(s) => r.Ok? && a.Live(wallet)
                          && s == a.Snapshot().WithParticipant(wallet, p).(lottery := l, tally := Some(t))
            case Err(e) => r == Err(e)
  {
    l := a.lottery;
    p := ParticipantData.New(wallet, ZERO32, 0, 0);
    t := TallyData.New(0, 0);
    var admitted := CheckAdmit(a, wallet, voted, plaintext);
    if admitted.Err? {
      r := Err(admitted.error);
      return;
    }
    var lottery := new Lottery.Read(a.lottery);
    var participant := new Participant.Read(admitted.value);
    var digest := a.h.disclosure(wallet, plaintext);
    r := Attest(participant, voted, a.now, digest);
    if r.Err? {
      return;
    }
    p := participant.Data();
    r := Count(lottery, digest);
    if r.Err? {
      return;
    }
    r, t := AddToTally(a, lottery.Data().attestedCount, p);
    if r.Err? {
      return;
    }
    r := Select(lottery, t);
    if r.Err? {
      return;
    }
    Advance(lottery, a.now);
    l := lottery.Data();
  }

  method Process(a: Accounts, wallet: Pubkey, voted: U64, plaintext: seq<bv8>) returns (r: Result<()>)
    requires a.Valid()
    modifies a
    ensures a.Valid()
    ensures match Apply(old(a.Snapshot()), wallet, voted, plaintext)
            case Ok(s) => r.Ok? && a.Snapshot() == s
            case Err(e) => r == Err(e) && a.Snapshot() == old(a.Snapshot())
  {
    var participant, lottery, tally;
    r, participant, lottery, tally := Plan(a, wallet, voted, plaintext);
    if r.Ok? {
      a.rows := a.rows[a.slot[wallet] := participant];
      a.lottery := lottery;
      a.tally := Some(tally);
    }
  }
}
