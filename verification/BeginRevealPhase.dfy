/** The feature-gated BeginRevealPhase instruction: opens the upload window early. */
module BeginRevealPhase {
  import opened Prelude
  import opened Digests
  import opened Lotteries
  import opened States

  function Extend(configured: nat, seconds: nat): nat {
    if seconds == 0 then configured else seconds
  }

  /** Starts the window now and only ever moves its deadline later. */
  function Opened(l: LotteryData, now: int, attestation: nat, upload: nat): LotteryData {
    var l1 := if l.uploadStart == 0 || now < l.uploadStart then l.(uploadStart := now) else l;
    l1.(uploadDeadline := Max(l1.uploadDeadline, now + attestation) + upload)
  }

  function Apply(s: State, caller: Pubkey, attestationSecs: nat, uploadSecs: nat): Result<State> {
    var before := s.lottery;
    :- Require(s.config.earlyUpload, EarlyUploadDisabled);
    :- Require(caller == s.config.authority, Unauthorized);
    :- Require(!before.settled, LotteryAlreadySettled);
    var started := before.uploadStart > 0 && s.now >= before.uploadStart;
    var complete := before.uploadsComplete || before.settlementComplete;
    :- Require(!started && !before.UploadElapsed(s.now) && before.settlementStart <= 0 && !complete,
               InvalidPhaseTransition);
    var l := Opened(before, s.now, Extend(s.config.uploadWindowSecs, attestationSecs),
                    Extend(s.config.uploadWindowSecs, uploadSecs));
    Ok(s.WithLottery(
         if l.participantsCount == 1
         then l.(uploadsComplete := true, aggregate := s.h.noReveals, selectedWinners := 1)
         else l))
  }

  /** Starts or extends the window step by step, as the instruction does. */
  method OpenWindow(start: LotteryData, now: int, attestation: nat, upload: nat) returns (l: LotteryData)
    ensures l == Opened(start, now, attestation, upload)
  {
    l := start;
    if l.uploadStart == 0 || now < l.uploadStart {
      l := l.(uploadStart := now);
    }
    if now + attestation > l.uploadDeadline {
      l := l.(uploadDeadline := now + attestation);
    }
    if l.uploadDeadline + upload > l.uploadDeadline {
      l := l.(uploadDeadline := l.uploadDeadline + upload);
    }
  }

  method Process(a: Accounts, caller: Pubkey, attestationSecs: nat, uploadSecs: nat) returns (r: Result<()>)
    requires a.Valid()
    modifies a
    ensures a.Valid()
    ensures match Apply(old(a.Snapshot()), caller, attestationSecs, uploadSecs)
            case Ok(s) => r.Ok? && a.Snapshot() == s
            case Err(e) => r == Err(e) && a.Snapshot() == old(a.Snapshot())
  {
    if !a.config.earlyUpload {
      return Err(EarlyUploadDisabled);
    }
    if caller != a.config.authority {
      return Err(Unauthorized);
    }
    var l := a.lottery;
    if l.settled {
      return Err(LotteryAlreadySettled);
    }
    var started := l.uploadStart > 0 && a.now >= l.uploadStart;
    var ended := l.uploadDeadline > 0 && a.now > l.uploadDeadline;
    if started || ended || l.settlementStart > 0 || l.uploadsComplete || l.settlementComplete {
      return Err(InvalidPhaseTransition);
    }
    var attestation := if attestationSecs == 0 then a.config.uploadWindowSecs else attestationSecs;
    var upload := if uploadSecs == 0 then a.config.uploadWindowSecs else uploadSecs;
    l := OpenWindow(l, a.now, attestation, upload);
    if l.participantsCount == 1 {
      l := l.(uploadsComplete := true, aggregate := a.h.noReveals, selectedWinners := 1);
    }
    a.lottery := l;
    return Ok(());
  }
}
