/** The ClaimRefund instruction: returns one participant's ticket payments from the vault. */
module ClaimRefund {
  import opened Prelude
  import opened Digests
  import opened Participants
  import opened Banks
  import opened States

  /** The guards; passing them yields the amount to refund. */
  function Due(s: State, wallet: Pubkey): (r: Result<nat>)
    ensures r.Ok? ==> s.Live(wallet) && Balance(s.bank, Vault) >= r.value
  {
    var l := s.lottery;
    :- Require(s.vaultOpen, InvalidAccountData);
    var p :- s.Participant(wallet);
    :- Require(l.settled && l.winnersCount == 0 && l.totalPayout == 0, RefundUnavailable);
    :- Require(p.tickets != 0, RefundUnavailable);
    :- Require(!p.refundClaimed, RefundAlreadyClaimed);
    var refund :- CheckedMul(l.price, p.tickets, U64_MAX);
    :- Require(Balance(s.bank, Vault) >= refund, InsufficientFunds);
    Ok(refund)
  }

  function Apply(s: State, wallet: Pubkey): Result<State> {
    var refund :- Due(s, wallet);
    var claims :- CheckedAdd(s.lottery.batchesCompleted, 1, U32_MAX);
    Ok(s.WithParticipant(wallet, s.rows[s.slot[wallet]].MarkRefundClaimed())
        .(lottery := s.lottery.(batchesCompleted := claims),
          bank := Transfer(s.bank, Vault, Wallet(wallet), refund)))
  }

  method CheckDue(a: Accounts, wallet: Pubkey) returns (r: Result<nat>)
    requires a.Valid()
    ensures r == Due(a.Snapshot(), wallet)
  {
    if !a.vaultOpen || !a.Live(wallet) {
      return Err(InvalidAccountData);
    }
    var p := a.rows[a.slot[wallet]];
    if !a.lottery.settled || a.lottery.winnersCount != 0 || a.lottery.totalPayout != 0 {
      return Err(RefundUnavailable);
    }
    if p.tickets == 0 {
      return Err(RefundUnavailable);
    }
    if p.refundClaimed {
      return Err(RefundAlreadyClaimed);
    }
    var refund := a.lottery.price * p.tickets;
    if refund > U64_MAX {
      return Err(MathOverflow);
    }
    if Balance(a.bank, Vault) < refund {
      return Err(InsufficientFunds);
    }
    return Ok(refund);
  }

  method Process(a: Accounts, wallet: Pubkey) returns (r: Result<()>)
    requires a.Valid()
    modifies a
    ensures a.Valid()
    ensures match Apply(old(a.Snapshot()), wallet)
            case Ok(s) => r.Ok? && a.Snapshot() == s
            case Err(e) => r == Err(e) && a.Snapshot() == old(a.Snapshot())
  {
    hide Due;
    var refund := CheckDue(a, wallet);
    if refund.Err? {
      return Err(refund.error);
    }
    if a.lottery.batchesCompleted + 1 > U32_MAX {
      return Err(MathOverflow);
    }
    var participant := new Participant.Read(a.rows[a.slot[wallet]]);
    participant.MarkRefundClaimed();
    a.bank := Transfer(a.bank, Vault, Wallet(wallet), refund.value);
    a.lottery := a.lottery.(batchesCompleted := a.lottery.batchesCompleted + 1);
    a.rows := a.rows[a.slot[wallet] := participant.Data()];
    return Ok(());
  }
}
