/** The invariant holds in every state of every run. */
module Runs {
  import opened Prelude
  import opened Digests
  import opened Payouts
  import opened Banks
  import opened States
  import opened Steps
  import opened Invariants
  import opened SimpleSteps
  import opened BuyingKeeps
  import opened AttestationKeeps
  import opened UploadKeeps
  import opened FinalizationKeeps
  import opened PayoutKeeps

  /** Every instruction, clock tick and outside transfer keeps the invariant. */
  lemma StepKeeps(s: State, step: Step)
    requires Inv(s)
    ensures Inv(After(s, step))
  {
    hide Inv;
    if Next(s, step).Ok? {
      match step
      case Tick(seconds) => TickKeeps(s, seconds);
      case Send(from, to, amount) => SendKeeps(s, from, to, amount);
      case Buy(buyer, proof, count) => BuyKeeps(s, buyer, proof, count);
      case BeginReveal(caller, attestation, upload) => BeginRevealKeeps(s, caller, attestation, upload);
      case Attest(wallet, voted, receipt) => AttestKeeps(s, wallet, voted, receipt);
      case Reveal(wallet, voted, plaintext) => RevealKeeps(s, wallet, voted, plaintext);
      case Upload(uploader, entries) => UploadKeepsInv(s, uploader, entries);
      case Finalize(page, keys) => FinalizeKeeps(s, page, keys);
      case Cancel => CancelKeeps(s);
      case Payout(id, page, winners, recipients) => PayoutKeepsInv(s, id, page, winners, recipients);
      case Refund(claimer) => RefundKeeps(s, claimer);
      case CloseVault => CloseVaultKeeps(s);
      case CloseAccount(owner) => CloseAccountKeeps(s, owner);
    }
  }

  lemma {:induction false} RunKeeps(s: State, steps: seq<Step>)
    requires Inv(s)
    ensures Inv(Run(s, steps))
  {
    hide Inv, After;
    if steps != [] {
      RunKeeps(s, steps[..|steps| - 1]);
      StepKeeps(Run(s, steps[..|steps| - 1]), steps[|steps| - 1]);
    }
  }

  /** What the creation of a lottery guarantees. */
  ghost predicate Created(h: Hashes, config: Config, rents: Rents, id: nat, now: int, bps: nat, price: nat, bank: Bank) {
    && config.Valid() && bps < 10_000 && now > 0 && rents.vault > 0 && rents.participant > 0
    && Total(bank[Vault := rents.vault]) <= U64_MAX
    && forall w :: Balance(bank, ParticipantAccount(w)) == 0
  }

  lemma CreatedInv(h: Hashes, config: Config, rents: Rents, id: nat, now: int, bps: nat, price: nat, bank: Bank)
    requires Created(h, config, rents, id, now, bps, price, bank)
    ensures Inv(Initial(h, config, rents, id, now, bps, price, bank))
  {
    hide Inv, Initial;
    InitialInv(h, config, rents, id, now, bps, price, bank);
  }

  /** A state that some run of some lottery reaches. */
  ghost predicate Reachable(s: State) {
    exists h, config, rents, id, now, bps, price, bank, steps ::
      && Created(h, config, rents, id, now, bps, price, bank)
      && s == Run(Initial(h, config, rents, id, now, bps, price, bank), steps)
  }

  /** The invariant holds in every reachable state. */
  lemma ReachableInv(s: State)
    requires Reachable(s)
    ensures Inv(s)
  {
    hide Inv, Run, Created, Initial;
    var h, config, rents, id, now, bps, price, bank, steps :|
      && Created(h, config, rents, id, now, bps, price, bank)
      && s == Run(Initial(h, config, rents, id, now, bps, price, bank), steps);
    CreatedInv(h, config, rents, id, now, bps, price, bank);
    RunKeeps(Initial(h, config, rents, id, now, bps, price, bank), steps);
  }
}
