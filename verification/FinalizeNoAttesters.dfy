/** The FinalizeNoAttesters instruction: opens the refund path. */
module FinalizeNoAttesters {
  import opened Prelude
  import opened Lotteries
  import opened States

  function Apply(s: State): Result<State> {
    var l := s.lottery;
    :- Require(s.vaultOpen, InvalidAccountData);
    if l.settled then Ok(s)
    else
      var single := l.participantsCount == 1 && l.uploadsComplete;
      var elapsed := l.uploadDeadline > 0 && s.now >= l.uploadDeadline;
      :- Require(single || elapsed, InvalidInstruction);
      :- Require(l.attestedCount == 0 || l.RemediationExpired(s.now), InvalidInstruction);
      Ok(s.WithLottery(l.Settle()))
  }

  method Process(a: Accounts) returns (r: Result<()>)
    requires a.Valid()
    modifies a
    ensures a.Valid()
    ensures match Apply(old(a.Snapshot()))
            case Ok(s) => r.Ok? && a.Snapshot() == s
            case Err(e) => r == Err(e) && a.Snapshot() == old(a.Snapshot())
  {
    if !a.vaultOpen {
      return Err(InvalidAccountData);
    }
    if a.lottery.settled {
      return Ok(());
    }
    var single := a.lottery.participantsCount == 1 && a.lottery.uploadsComplete;
    var elapsed := a.lottery.uploadDeadline > 0 && a.now >= a.lottery.uploadDeadline;
    if !single && !elapsed {
      return Err(InvalidInstruction);
    }
    if a.lottery.attestedCount != 0 && !a.lottery.RemediationExpired(a.now) {
      return Err(InvalidInstruction);
    }
    var lottery := new Lottery.Read(a.lottery);
    lottery.Settle();
    a.lottery := lottery.Data();
    return Ok(());
  }
}
