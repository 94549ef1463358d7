/** The CloseParticipant instruction: returns a participant account's rent after a terminal outcome. */
module CloseParticipant {
  import opened Prelude
  import opened Digests
  import opened Participants
  import opened Banks
  import opened States

  function Apply(s: State, wallet: Pubkey): Result<State> {
    var p :- s.Participant(wallet);
    var refunded := s.lottery.settled && s.lottery.winnersCount == 0 && p.refundClaimed;
    var paidOut := s.lottery.settlementComplete && s.lottery.winnersCount > 0;
    :- Require(refunded || paidOut, InvalidLotteryState);
    var rent := Balance(s.bank, ParticipantAccount(wallet));
    :- Require(rent != 0, InvalidAccount);
    :- Require(Balance(s.bank, Wallet(wallet)) + rent <= U64_MAX, MathOverflow);
    Ok(s.(slot := s.slot - {wallet}, bank := Transfer(s.bank, ParticipantAccount(wallet), Wallet(wallet), rent)))
  }

  method Process(a: Accounts, wallet: Pubkey) returns (r: Result<()>)
    requires a.Valid()
    modifies a
    ensures a.Valid()
    ensures match Apply(old(a.Snapshot()), wallet)
            case Ok(s) => r.Ok? && a.Snapshot() == s
            case Err(e) => r == Err(e) && a.Snapshot() == old(a.Snapshot())
  {
    if !a.Live(wallet) {
      return Err(InvalidAccountData);
    }
    var participant := new Participant.Read(a.rows[a.slot[wallet]]);
    var refunded := a.lottery.settled && a.lottery.winnersCount == 0 && participant.RefundClaimed();
    var paidOut := a.lottery.settlementComplete && a.lottery.winnersCount > 0;
    if !refunded && !paidOut {
      return Err(InvalidLotteryState);
    }
    var rent := Balance(a.bank, ParticipantAccount(wallet));
    if rent == 0 {
      return Err(InvalidAccount);
    }
    if Balance(a.bank, Wallet(wallet)) + rent > U64_MAX {
      return Err(MathOverflow);
    }
    a.bank := Transfer(a.bank, ParticipantAccount(wallet), Wallet(wallet), rent);
    a.slot := a.slot - {wallet};
    return Ok(());
  }
}
