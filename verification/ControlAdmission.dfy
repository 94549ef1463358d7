/** When the upload window can be opened early, a lottery cancelled, and refunds and the refund vault claimed. */
module ControlAdmission {
  import opened Prelude
  import opened Digests
  import opened States
  import opened Steps
  import opened Invariants
  import opened PhaseTheorems
  import opened MoneyTheorems
  import opened BuyAdmission
  import opened UploadAdmission
  import opened FinalizeAdmission
  import BeginRevealPhase
  import FinalizeNoAttesters
  import ClaimRefund
  import CloseRefundVault

  // ----- opening the upload window early -----

  lemma BeginApplies(s: State, caller: Pubkey, attestation: nat, upload: nat)
    requires Clockwork(s.lottery, s.now) && (s.lottery.settlementComplete ==> s.lottery.settled)
    ensures BeginRevealPhase.Apply(s, caller, attestation, upload).Ok? <==>
              s.config.earlyUpload && caller == s.config.authority && s.now < s.lottery.uploadStart
  {
  }

  /** In a build with early uploads the authority, and nobody else, can open the upload window, and only before it starts. */
  lemma BeginRevealIff(s: State, caller: Pubkey, attestation: nat, upload: nat)
    requires Inv(s)
    ensures Next(s, BeginReveal(caller, attestation, upload)).Ok? <==>
              s.config.earlyUpload && caller == s.config.authority && s.now < s.lottery.uploadStart
  {
    hide *;
    GateFacts(s);
    NextMeans(s, BeginReveal(caller, attestation, upload));
    BeginApplies(s, caller, attestation, upload);
  }

  /** The state after an early opening: both periods are added, each the configured one if given as zero. */
  ghost predicate OpenedEarlyBy(s: State, t: State, attestation: nat, upload: nat) {
    var l := s.lottery;
    var first := if attestation == 0 then s.config.uploadWindowSecs else attestation;
    var second := if upload == 0 then s.config.uploadWindowSecs else upload;
    var alone := l.participantsCount == 1;
    t == s.(lottery := l.(uploadStart := s.now,
                          uploadDeadline := Max(l.uploadDeadline, s.now + first) + second,
                          uploadsComplete := l.uploadsComplete || alone,
                          aggregate := if alone then s.h.noReveals else l.aggregate,
                          selectedWinners := if alone then 1 else l.selectedWinners))
  }

  lemma BeginValue(s: State, caller: Pubkey, attestation: nat, upload: nat)
    requires Clockwork(s.lottery, s.now) && BeginRevealPhase.Apply(s, caller, attestation, upload).Ok?
    ensures OpenedEarlyBy(s, BeginRevealPhase.Apply(s, caller, attestation, upload).value, attestation, upload)
  {
  }

  /** Opening early starts the window now and never shortens it; a lone participant needs no upload. */
  lemma BeginRevealOutcome(s: State, caller: Pubkey, attestation: nat, upload: nat)
    requires Inv(s) && Next(s, BeginReveal(caller, attestation, upload)).Ok?
    ensures OpenedEarlyBy(s, Next(s, BeginReveal(caller, attestation, upload)).value, attestation, upload)
  {
    hide *;
    GateFacts(s);
    NextMeans(s, BeginReveal(caller, attestation, upload));
    BeginValue(s, caller, attestation, upload);
  }

  // ----- cancelling -----

  /**
   Cancellation is due: nobody attested by the deadline (or a lone participant did not), or the challenge window has passed
   in vain.
   */
  predicate CancellationDue(s: State) {
    var l := s.lottery;
    && (s.now >= l.uploadDeadline || (l.participantsCount == 1 && l.uploadsComplete))
    && (l.attestedCount == 0 || TooLate(l, s.now))
  }

  lemma CancelApplied(s: State)
    requires Clockwork(s.lottery, s.now)
    ensures FinalizeNoAttesters.Apply(s).Ok? <==> s.vaultOpen && (s.lottery.settled || CancellationDue(s))
    ensures FinalizeNoAttesters.Apply(s).Ok? ==>
              FinalizeNoAttesters.Apply(s).value
              == if s.lottery.settled then s else s.(lottery := s.lottery.(settled := true))
  {
  }

  /** A lottery is cancelled exactly when that is due; on a settled one, as long as its vault is there, the call does nothing. */
  lemma CancelIff(s: State)
    requires Inv(s)
    ensures Next(s, Cancel).Ok? <==> s.vaultOpen && (s.lottery.settled || CancellationDue(s))
    ensures Next(s, Cancel).Ok? ==>
              Next(s, Cancel).value == if s.lottery.settled then s else s.(lottery := s.lottery.(settled := true))
  {
    hide *;
    GateFacts(s);
    NextMeans(s, Cancel);
    CancelApplied(s);
  }

  // ----- refunds and the refund vault -----

  /** A refund is paid exactly to a participant of a cancelled lottery who has not had it yet. */
  lemma RefundWho(s: State, w: Pubkey)
    requires Inv(s)
    ensures Next(s, Refund(w)).Ok? <==> Refunding(s) && s.Live(w) && !s.rows[s.slot[w]].refundClaimed
  {
    hide *;
    Parts(s);
    Filed(s, w);
    NextMeans(s, Refund(w));
    RefundApplies(s, w);
    if s.Live(w) {
      RefundIff(s, s.slot[w]);
    }
  }

  lemma ClosedRefuses(s: State)
    ensures CloseRefundVault.Apply(s).Ok? ==> s.vaultOpen
  {
  }

  /** The refund vault is closed exactly once, when the lottery was cancelled and everybody has been refunded. */
  lemma CloseVaultWhen(s: State)
    requires Inv(s)
    ensures Next(s, CloseVault).Ok? <==> s.vaultOpen && Refunding(s) && NothingOwed(s)
  {
    hide *;
    NextMeans(s, CloseVault);
    ClosedRefuses(s);
    if s.vaultOpen {
      CloseVaultIff(s);
    }
  }
}
