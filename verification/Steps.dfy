/** Whole runs of one lottery: any interleaving of instructions, clock ticks and outside transfers. */
module Steps {
  import opened Prelude
  import opened Digests
  import opened Banks
  import opened States
  import BuyTickets
  import AttestUploaded
  import AttestReveal
  import UploadReveals
  import FinalizeWinners
  import FinalizeNoAttesters
  import SettlePayoutBatch
  import ClaimRefund
  import CloseRefundVault
  import CloseParticipant
  import BeginRevealPhase

  datatype Step =
    | Tick(seconds: nat)
    | Send(from: Pubkey, to: Account, amount: nat)
    | Buy(buyer: Pubkey, proof: Option<Bytes32>, count: U64)
    | BeginReveal(caller: Pubkey, attestationSecs: nat, uploadSecs: nat)
    | Attest(wallet: Pubkey, voted: U64, receipt: bool)
    | Reveal(wallet: Pubkey, voted: U64, plaintext: seq<bv8>)
    | Upload(uploader: Pubkey, entries: seq<UploadReveals.Upload>)
    | Finalize(page: nat, keys: seq<Pubkey>)
    | Cancel
    | Payout(lotteryId: nat, payoutPage: nat, winners: seq<SettlePayoutBatch.WinnerProof>, recipients: seq<Pubkey>)
    | Refund(claimer: Pubkey)
    | CloseVault
    | CloseAccount(owner: Pubkey)

  /** Lamports moved by outsiders between wallets or into the vault. */
  function SendLamports(s: State, from: Pubkey, to: Account, amount: nat): Result<State> {
    var held := Balance(s.bank, Wallet(from));
    :- Require(to != Wallet(from) && !to.ParticipantAccount?, InvalidAccount);
    :- Require(held >= amount, InsufficientFunds);
    Ok(s.(bank := Transfer(s.bank, Wallet(from), to, amount),
          donated := if to == Vault then s.donated + amount else s.donated))
  }

  ghost function Next(s: State, step: Step): Result<State> {
    match step
    case Tick(seconds) => Ok(s.(now := s.now + seconds))
    case Send(from, to, amount) => SendLamports(s, from, to, amount)
    case Buy(buyer, proof, count) => BuyTickets.Apply(s, buyer, proof, count)
    case BeginReveal(caller, attestation, upload) => BeginRevealPhase.Apply(s, caller, attestation, upload)
    case Attest(wallet, voted, receipt) => AttestUploaded.Apply(s, wallet, voted, receipt)
    case Reveal(wallet, voted, plaintext) => AttestReveal.Apply(s, wallet, voted, plaintext)
    case Upload(uploader, entries) => UploadReveals.Apply(s, uploader, entries)
    case Finalize(page, keys) => FinalizeWinners.Apply(s, page, keys)
    case Cancel => FinalizeNoAttesters.Apply(s)
    case Payout(id, page, winners, recipients) => SettlePayoutBatch.Apply(s, id, page, winners, recipients)
    case Refund(claimer) => ClaimRefund.Apply(s, claimer)
    case CloseVault => CloseRefundVault.Apply(s)
    case CloseAccount(owner) => CloseParticipant.Apply(s, owner)
  }

  /** A refused instruction leaves no trace. */
  ghost function After(s: State, step: Step): State {
    match Next(s, step)
    case Ok(t) => t
    case Err(_) => s
  }

  ghost function Run(s: State, steps: seq<Step>): State {
    if steps == [] then s else After(Run(s, steps[..|steps| - 1]), steps[|steps| - 1])
  }

  lemma {:induction false} RunConcat(s: State, first: seq<Step>, second: seq<Step>)
    ensures Run(s, first + second) == Run(Run(s, first), second)
  {
    if second == [] {
      assert first + second == first;
    } else {
      var n := |second| - 1;
      assert (first + second)[..|first| + n] == first + second[..n];
      RunConcat(s, first, second[..n]);
    }
  }

  lemma RunNone(s: State)
    ensures Run(s, []) == s
  {
  }

  lemma RunOne(s: State, step: Step)
    ensures Run(s, [step]) == After(s, step)
  {
    hide After;
    assert [step][..0] == [];
    assert Run(s, []) == s;
  }

  lemma RunsAfter(s: State, step: Step, rest: seq<Step>)
    ensures Run(s, [step] + rest) == Run(After(s, step), rest)
  {
    hide After;
    RunOne(s, step);
    RunConcat(s, [step], rest);
  }

  // ----- reading a step -----

  lemma AfterMeans(s: State, step: Step)
    ensures After(s, step) == if Next(s, step).Ok? then Next(s, step).value else s
  {
    hide Next;
  }

  /** Which instruction a step runs. */
  lemma NextMeans(s: State, step: Step)
    ensures Next(s, step) == match step
              case Tick(seconds) => Ok(s.(now := s.now + seconds))
              case Send(from, to, amount) => SendLamports(s, from, to, amount)
              case Buy(buyer, proof, count) => BuyTickets.Apply(s, buyer, proof, count)
              case BeginReveal(caller, attestation, upload) => BeginRevealPhase.Apply(s, caller, attestation, upload)
              case Attest(wallet, voted, receipt) => AttestUploaded.Apply(s, wallet, voted, receipt)
              case Reveal(wallet, voted, plaintext) => AttestReveal.Apply(s, wallet, voted, plaintext)
              case Upload(uploader, entries) => UploadReveals.Apply(s, uploader, entries)
              case Finalize(page, keys) => FinalizeWinners.Apply(s, page, keys)
              case Cancel => FinalizeNoAttesters.Apply(s)
              case Payout(id, page, winners, recipients) => SettlePayoutBatch.Apply(s, id, page, winners, recipients)
              case Refund(claimer) => ClaimRefund.Apply(s, claimer)
              case CloseVault => CloseRefundVault.Apply(s)
              case CloseAccount(owner) => CloseParticipant.Apply(s, owner)
  {
    hide SendLamports, BuyTickets.Apply, BeginRevealPhase.Apply, AttestUploaded.Apply, AttestReveal.Apply, UploadReveals.Apply,
         FinalizeWinners.Apply, FinalizeNoAttesters.Apply, SettlePayoutBatch.Apply, ClaimRefund.Apply, CloseRefundVault.Apply,
         CloseParticipant.Apply;
  }
}
