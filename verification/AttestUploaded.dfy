/** The AttestUploaded instruction: a vote and an attestation backed by a provider receipt. */
module AttestUploaded {
  import opened Prelude
  import opened Digests
  import opened Participants
  import opened Lotteries
  import opened States

  /** The guards; `receipt` tells whether a valid provider signature over this vote precedes the call. */
  function Admit(s: State, wallet: Pubkey, voted: U64, receipt: bool): Result<ParticipantData> {
    var p :- s.Participant(wallet);
    :- Require(p.tickets > 0, InvalidInstruction);
    :- Require(s.lottery.StageAt(s.now) == Upload, OutsideTimeWindow);
    :- Require(voted != 0, InvalidInstruction);
    :- Require(voted <= s.MaxWinners(), InvalidInstruction);
    :- Require(!p.attested, AttestationAlreadySubmitted);
    :- Require(receipt, InvalidAttestation);
    Ok(p)
  }

  /** The participant after voting and attesting. */
  function Attested(p: ParticipantData, voted: U64, now: int): Result<ParticipantData> {
    var p1 :- p.SetVote(voted);
    p1.AttestUpload(now)
  }

  /** The lottery after one more attestation; the last possible one starts the settlement. */
  function Counted(l: LotteryData, now: int): Result<LotteryData> {
    var l1 :- l.AddAttestation();
    Ok(if l1.AllAttested() && l1.settlementStart == 0 then l1.(settlementStart := now) else l1)
  }

  function Apply(s: State, wallet: Pubkey, voted: U64, receipt: bool): Result<State> {
    var p0 :- Admit(s, wallet, voted, receipt);
    var p :- Attested(p0, voted, s.now);
    var l :- Counted(s.lottery, s.now);
    Ok(s.WithParticipant(wallet, p).WithLottery(l))
  }

  method CheckAdmit(a: Accounts, wallet: Pubkey, voted: U64, receipt: bool) returns (r: Result<ParticipantData>)
    requires a.Valid()
    ensures r == Admit(a.Snapshot(), wallet, voted, receipt)
  {
    if !a.Live(wallet) {
      return Err(InvalidAccountData);
    }
    var p := a.rows[a.slot[wallet]];
    if p.tickets == 0 {
      return Err(InvalidInstruction);
    }
    if a.lottery.StageAt(a.now) != Upload {
      return Err(OutsideTimeWindow);
    }
    if voted == 0 || voted > a.config.EffectiveMaxWinners(a.lottery.participantsCount) {
      return Err(InvalidInstruction);
    }
    if p.attested {
      return Err(AttestationAlreadySubmitted);
    }
    if !receipt {
      return Err(InvalidAttestation);
    }
    return Ok(p);
  }

  method Attest(participant: Participant, voted: U64, now: int) returns (r: Result<()>)
    modifies participant
    ensures match Attested(old(participant.Data()), voted, now)
            case Ok(p) => r.Ok? && participant.Data() == p
            case Err(e) => r == Err(e)
  {
    r := participant.SetVote(voted);
    if r.Ok? {
      r := participant.AttestUpload(now);
    }
  }

  method Count(lottery: Lottery, now: int) returns (r: Result<()>)
    modifies lottery
    ensures match Counted(old(lottery.Data()), now)
            case Ok(l) => r.Ok? && lottery.Data() == l
            case Err(e) => r == Err(e)
  {
    r := lottery.AddAttestation();
    if r.Err? {
      return;
    }
    if lottery.participantsCount > 0 && lottery.attestedCount == lottery.participantsCount {
      if lottery.settlementStart == 0 {
        lottery.settlementStart := now;
      }
    }
  }

  /** Everything the instruction computes, without touching the stored accounts. */
  method Plan(a: Accounts, wallet: Pubkey, voted: U64, receipt: bool)
    returns (r: Result<()>, p: ParticipantData, l: LotteryData)
    requires a.Valid()
    ensures match Apply(a.Snapshot(), wallet, voted, receipt)
            case Ok(s) => r.Ok? && a.Live(wallet) && s == a.Snapshot().WithParticipant(wallet, p).WithLottery(l)
            case Err(e) => r == Err(e)
  {
    l := a.lottery;
    p := ParticipantData.New(wallet, ZERO32, 0, 0);
    var admitted := CheckAdmit(a, wallet, voted, receipt);
    if admitted.Err? {
      r := Err(admitted.error);
      return;
    }
    var lottery := new Lottery.Read(a.lottery);
    var participant := new Participant.Read(admitted.value);
    r := Attest(participant, voted, a.now);
    if r.Err? {
      return;
    }
    p := participant.Data();
    r := Count(lottery, a.now);
    l := lottery.Data();
  }

  method Process(a: Accounts, wallet: Pubkey, voted: U64, receipt: bool) returns (r: Result<()>)
    requires a.Valid()
    modifies a
    ensures a.Valid()
    ensures match Apply(old(a.Snapshot()), wallet, voted, receipt)
            case Ok(s) => r.Ok? && a.Snapshot() == s
            case Err(e) => r == Err(e) && a.Snapshot() == old(a.Snapshot())
  {
    var participant, lottery;
    r, participant, lottery := Plan(a, wallet, voted, receipt);
    if r.Ok? {
      a.rows := a.rows[a.slot[wallet] := participant];
      a.lottery := lottery;
    }
  }
}
