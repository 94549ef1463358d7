/** The program as it runs: one entry point over account storage that takes exactly the steps of the model. */
module Program {
  import opened Prelude
  import opened Digests
  import opened Banks
  import opened States
  import opened Steps
  import opened Invariants
  import opened Runs
  import BuyTickets
  import AttestUploaded
  import AttestReveal
  import UploadReveals
  import FinalizeWinners
  import FinalizeNoAttesters
  import SettlePayoutBatch
  import ClaimRefund
  import CloseRefundVault
  import CloseParticipant
  import BeginRevealPhase

  /** Dispatches one instruction; the clock and outside transfers are the environment's moves. */
  method Execute(a: Accounts, step: Step) returns (r: Result<()>)
    requires a.Valid()
    modifies a
    ensures a.Valid() && a.Snapshot() == After(old(a.Snapshot()), step)
    ensures match Next(old(a.Snapshot()), step)
            case Ok(_) => r.Ok?
            case Err(e) => r == Err(e)
  {
    hide Next, BuyTickets.Apply, AttestUploaded.Apply, AttestReveal.Apply, UploadReveals.Apply, FinalizeWinners.Apply,
         FinalizeNoAttesters.Apply, SettlePayoutBatch.Apply, ClaimRefund.Apply, CloseRefundVault.Apply,
         CloseParticipant.Apply, BeginRevealPhase.Apply, SendLamports;
    NextMeans(a.Snapshot(), step);
    AfterMeans(a.Snapshot(), step);
    match step {
      case Tick(seconds) =>
        a.now := a.now + seconds;
        r := Ok(());
      case Send(source, to, amount) => r := TransferFromOutside(a, source, to, amount);
      case Buy(buyer, proof, count) => r := BuyTickets.Process(a, buyer, proof, count);
      case BeginReveal(caller, attestation, upload) => r := BeginRevealPhase.Process(a, caller, attestation, upload);
      case Attest(wallet, voted, receipt) => r := AttestUploaded.Process(a, wallet, voted, receipt);
      case Reveal(wallet, voted, plaintext) => r := AttestReveal.Process(a, wallet, voted, plaintext);
      case Upload(uploader, entries) => r := UploadReveals.Process(a, uploader, entries);
      case Finalize(page, keys) => r := FinalizeWinners.Process(a, page, keys);
      case Cancel => r := FinalizeNoAttesters.Process(a);
      case Payout(id, page, winners, recipients) => r := SettlePayoutBatch.Process(a, id, page, winners, recipients);
      case Refund(claimer) => r := ClaimRefund.Process(a, claimer);
      case CloseVault => r := CloseRefundVault.Process(a);
      case CloseAccount(owner) => r := CloseParticipant.Process(a, owner);
    }
  }

  method TransferFromOutside(a: Accounts, source: Pubkey, to: Account, amount: nat) returns (r: Result<()>)
    requires a.Valid()
    modifies a
    ensures a.Valid()
    ensures match SendLamports(old(a.Snapshot()), source, to, amount)
            case Ok(s) => r.Ok? && a.Snapshot() == s
            case Err(e) => r == Err(e) && a.Snapshot() == old(a.Snapshot())
  {
    if to == Wallet(source) || to.ParticipantAccount? {
      return Err(InvalidAccount);
    }
    if Balance(a.bank, Wallet(source)) < amount {
      return Err(InsufficientFunds);
    }
    a.bank := Transfer(a.bank, Wallet(source), to, amount);
    a.donated := if to == Vault then a.donated + amount else a.donated;
    return Ok(());
  }

  /** Any number of instructions, in any order, keeps the account storage in a state that satisfies the invariant. */
  method ExecuteAll(a: Accounts, steps: seq<Step>)
    requires a.Valid() && Inv(a.Snapshot())
    modifies a
    ensures a.Valid() && a.Snapshot() == Run(old(a.Snapshot()), steps) && Inv(a.Snapshot())
  {
    hide Inv, After;
    ghost var s := a.Snapshot();
    for k := 0 to |steps|
      invariant a.Valid() && a.Snapshot() == Run(s, steps[..k])
    {
      assert steps[..k + 1][..k] == steps[..k];
      var r := Execute(a, steps[k]);
    }
    assert steps[..|steps|] == steps;
    RunKeeps(s, steps);
  }
}
