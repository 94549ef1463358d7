/** The CloseRefundVault instruction: sweeps the vault once every refund has been claimed. */
module CloseRefundVault {
  import opened Prelude
  import opened Banks
  import opened States

  function Apply(s: State): Result<State> {
    var l := s.lottery;
    :- Require(s.vaultOpen, InvalidAccountData);
    :- Require(l.settled && l.winnersCount == 0 && l.totalPayout == 0, RefundUnavailable);
    :- Require(l.batchesCompleted >= l.participantsCount, RefundUnavailable);
    :- Require(Balance(s.bank, Vault) != 0, RefundUnavailable);
    Ok(s.(bank := Transfer(s.bank, Vault, Wallet(s.config.authority), Balance(s.bank, Vault)), vaultOpen := false,
          donated := 0))
  }

  method Process(a: Accounts) returns (r: Result<()>)
    requires a.Valid()
    modifies a
    ensures a.Valid()
    ensures match Apply(old(a.Snapshot()))
            case Ok(s) => r.Ok? && a.Snapshot() == s
            case Err(e) => r == Err(e) && a.Snapshot() == old(a.Snapshot())
  {
    if !a.vaultOpen {
      return Err(InvalidAccountData);
    }
    if !a.lottery.settled || a.lottery.winnersCount != 0 || a.lottery.totalPayout != 0 {
      return Err(RefundUnavailable);
    }
    if a.lottery.batchesCompleted < a.lottery.participantsCount {
      return Err(RefundUnavailable);
    }
    var rent := Balance(a.bank, Vault);
    if rent == 0 {
      return Err(RefundUnavailable);
    }
    a.bank := Transfer(a.bank, Vault, Wallet(a.config.authority), rent);
    a.vaultOpen := false;
    a.donated := 0;
    return Ok(());
  }
}
