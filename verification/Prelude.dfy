/** Shared vocabulary: error codes, results, machine-integer limits and protocol constants. */
module Prelude {

  const U16_MAX: nat := 0xFFFF
  const U32_MAX: nat := 0xFFFF_FFFF
  const U64_MAX: nat := 0xFFFF_FFFF_FFFF_FFFF
  const U128_MAX: nat := 0xFFFF_FFFF_FFFF_FFFF_FFFF_FFFF_FFFF_FFFF
  const I64_MAX: int := 0x7FFF_FFFF_FFFF_FFFF

  const MAX_WINNERS: nat := 256
  const MAX_PARTICIPANTS: nat := 4096
  const WINNERS_PER_PAGE: nat := 100
  const REMEDIATION_WINDOW_SECS: int := 1800
  const DAY_SECS: int := 86400
  const MAX_REVEAL_PLAINTEXT_BYTES: nat := 49

  type U16 = x: nat | x <= U16_MAX
  type U32 = x: nat | x <= U32_MAX
  type U64 = x: nat | x <= U64_MAX
  type U128 = x: nat | x <= U128_MAX

  datatype Option<+T> = None | Some(value: T)

  datatype Error =
    | InvalidInstruction
    | MathOverflow
    | InsufficientFunds
    | Unauthorized
    | InvalidLotteryState
    | InvalidAttestation
    | InvalidUploads
    | ProofHashMismatch
    | OutsideTimeWindow
    | InvalidAccountData
    | InvalidAccount
    | InvalidSeeds
    | MissingAccount
    | MissingProofOfChance
    | InvalidTicketCount
    | ParticipantLimitReached
    | AttestationAlreadySubmitted
    | RevealMismatch
    | InvalidPhaseTransition
    | NoAttestedParticipants
    | WinnerSelectionFailed
    | WinnerNotFound
    | WinnerAlreadyPaid
    | LotteryAlreadySettled
    | RefundUnavailable
    | RefundAlreadyClaimed
    | EarlyUploadDisabled

  /** The outcome of an operation that may be refused; usable with `:-`. */
  datatype Result<+T> = Ok(value: T) | Err(error: Error) {
    predicate IsFailure() { Err? }

    function PropagateFailure<U>(): Result<U>
      requires Err?
    {
      Err(error)
    }

    function Extract(): T
      requires Ok?
    {
      value
    }
  }

  function Min(a: int, b: int): int { if a <= b then a else b }

  function Max(a: int, b: int): int { if a >= b then a else b }

  /** A guard: passes silently or refuses. */
  datatype Guard = Holds | Fails(error: Error) {
    predicate IsFailure() { Fails? }

    function PropagateFailure<U>(): Result<U>
      requires Fails?
    {
      Err(error)
    }
  }

  /** Refuses with `error` unless the condition holds. */
  function Require(condition: bool, error: Error): Guard {
    if condition then Holds else Fails(error)
  }

  function CheckedAdd(a: nat, b: nat, limit: nat): (r: Result<nat>)
    ensures r.Ok? ==> r.value <= limit
  {
    if a + b <= limit then Ok(a + b) else Err(MathOverflow)
  }

  function CheckedSub(a: nat, b: nat): Result<nat> {
    if b <= a then Ok(a - b) else Err(MathOverflow)
  }

  function CheckedMul(a: nat, b: nat, limit: nat): (r: Result<nat>)
    ensures r.Ok? ==> r.value <= limit
  {
    if a * b <= limit then Ok(a * b) else Err(MathOverflow)
  }

  function SaturatingAdd(a: nat, b: nat, limit: nat): nat {
    if a + b <= limit then a + b else limit
  }

  function SaturatingSub(a: nat, b: nat): nat {
    if b <= a then a - b else 0
  }
}
