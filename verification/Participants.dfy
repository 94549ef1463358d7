/** Participant accounts: the stored value, the packed vote-and-flags word, and the pool entry they contribute. */
module Participants {
  import opened Prelude
  import opened Digests

  // The three top bits of the 64-bit vote word are flags; the word is handled as an integer, so that
  // masking the flags is a remainder and testing or setting one flag is a division or an addition.
  const REFUND_CLAIMED_FLAG: nat := 0x2000_0000_0000_0000
  const SETTLEMENT_INCLUDED_FLAG: nat := 0x4000_0000_0000_0000
  const REVEAL_INCLUDED_FLAG: nat := 0x8000_0000_0000_0000

  /** A vote leaves the flag bits free. */
  type Vote = v: nat | v < REFUND_CLAIMED_FLAG

  /** `word & !STATE_FLAGS_MASK`. */
  function VoteBits(word: U64): Vote {
    word % REFUND_CLAIMED_FLAG
  }

  /** `word & flag != 0` for one of the three flags. */
  predicate HasFlag(word: U64, flag: nat)
    requires flag == REFUND_CLAIMED_FLAG || flag == SETTLEMENT_INCLUDED_FLAG || flag == REVEAL_INCLUDED_FLAG
  {
    word / flag % 2 == 1
  }

  /** `word | flag` for one of the three flags. */
  function WithFlag(word: U64, flag: nat): U64
    requires flag == REFUND_CLAIMED_FLAG || flag == SETTLEMENT_INCLUDED_FLAG || flag == REVEAL_INCLUDED_FLAG
  {
    if HasFlag(word, flag) then word else word + flag
  }

  /** Setting `flag` keeps the vote and the other flags, and sets the flag. */
  ghost predicate OnlySets(word: U64, flag: nat, a: nat, b: nat)
    requires flag in {REFUND_CLAIMED_FLAG, SETTLEMENT_INCLUDED_FLAG, REVEAL_INCLUDED_FLAG}
    requires a in {REFUND_CLAIMED_FLAG, SETTLEMENT_INCLUDED_FLAG, REVEAL_INCLUDED_FLAG}
    requires b in {REFUND_CLAIMED_FLAG, SETTLEMENT_INCLUDED_FLAG, REVEAL_INCLUDED_FLAG}
  {
    var w := WithFlag(word, flag);
    VoteBits(w) == VoteBits(word) && HasFlag(w, flag) && HasFlag(w, a) == HasFlag(word, a) && HasFlag(w, b) == HasFlag(word, b)
  }

  lemma SetsReveal(word: U64)
    ensures OnlySets(word, REVEAL_INCLUDED_FLAG, REFUND_CLAIMED_FLAG, SETTLEMENT_INCLUDED_FLAG)
  {
  }

  lemma SetsRefund(word: U64)
    ensures OnlySets(word, REFUND_CLAIMED_FLAG, REVEAL_INCLUDED_FLAG, SETTLEMENT_INCLUDED_FLAG)
  {
  }

  lemma SetsSettlement(word: U64)
    ensures OnlySets(word, SETTLEMENT_INCLUDED_FLAG, REVEAL_INCLUDED_FLAG, REFUND_CLAIMED_FLAG)
  {
  }

  /** The packed word never loses a vote or a flag: setting a flag changes that flag only. */
  lemma FlagsIndependent(word: U64)
    ensures OnlySets(word, REVEAL_INCLUDED_FLAG, REFUND_CLAIMED_FLAG, SETTLEMENT_INCLUDED_FLAG)
    ensures OnlySets(word, REFUND_CLAIMED_FLAG, REVEAL_INCLUDED_FLAG, SETTLEMENT_INCLUDED_FLAG)
    ensures OnlySets(word, SETTLEMENT_INCLUDED_FLAG, REVEAL_INCLUDED_FLAG, REFUND_CLAIMED_FLAG)
  {
    hide OnlySets;
    SetsReveal(word);
    SetsRefund(word);
    SetsSettlement(word);
  }

  /** What one verified reveal contributes to the settlement. */
  datatype Reveal = Reveal(digest: Bytes32, vote: nat, attestedAt: int)

  /** The part of a participant that the draw, the vote and the entropy depend on. */
  datatype Entry = Entry(wallet: Pubkey, tickets: U64, shown: Option<Reveal>)

  /** The value stored in a participant account; the packed word appears as its vote and its flags. */
  datatype ParticipantData = ParticipantData(
    wallet: Pubkey,
    proofHash: Bytes32,
    tickets: U64,
    attested: bool,
    attestedAt: int,
    vote: Vote,
    revealIncluded: bool,
    refundClaimed: bool,
    index: nat,
    revealDigest: Bytes32,
    finalizationGeneration: nat,
    selectedGeneration: nat,
    selectedRound: nat)
  {
    static function New(wallet: Pubkey, proofHash: Bytes32, tickets: U64, index: nat): ParticipantData {
      ParticipantData(wallet, proofHash, tickets, false, 0, 0, false, false, index, ZERO32, 0, 0, 0)
    }

    function AddTickets(count: nat): Result<ParticipantData> {
      var total :- CheckedAdd(tickets, count, U64_MAX);
      Ok(this.(tickets := total))
    }

    /** Overwrites the whole word: the flags are cleared with the old vote. */
    function SetVote(voted: U64): Result<ParticipantData> {
      if attested then Err(InvalidInstruction)
      else Ok(this.(vote := VoteBits(voted), revealIncluded := false, refundClaimed := false))
    }

    function AttestUpload(timestamp: int): Result<ParticipantData> {
      if attested then Err(InvalidInstruction)
      else Ok(this.(attested := true, attestedAt := timestamp))
    }

    function IncludeVerifiedReveal(digest: Bytes32): ParticipantData {
      this.(revealDigest := digest, revealIncluded := true)
    }

    function MarkRefundClaimed(): ParticipantData {
      this.(refundClaimed := true)
    }

    function MarkFinalized(generation: nat): ParticipantData {
      this.(finalizationGeneration := generation)
    }

    predicate SelectedIn(generation: nat) {
      generation != 0 && selectedGeneration == generation
    }

    function MarkSelected(generation: nat, round: nat): ParticipantData {
      this.(selectedGeneration := generation, selectedRound := round)
    }

    function AsEntry(): Entry {
      Entry(wallet, tickets, if revealIncluded then Some(Reveal(revealDigest, vote, attestedAt)) else None)
    }
  }

  /** The pool: every participant in join order, as the settlement sees it. */
  function Pool(rows: seq<ParticipantData>): (pool: seq<Entry>)
    ensures |pool| == |rows|
    ensures forall i :: 0 <= i < |rows| ==> pool[i] == rows[i].AsEntry()
  {
    seq(|rows|, i requires 0 <= i < |rows| => rows[i].AsEntry())
  }

  /** A working copy of a participant account, with the vote word packed as on chain. */
  class Participant {
    var wallet: Pubkey
    var proofHash: Bytes32
    var tickets: U64
    var attested: bool
    var attestedAt: int
    var word: U64
    var index: nat
    var revealDigest: Bytes32
    var finalizationGeneration: nat
    var selectedGeneration: nat
    var selectedRound: nat

    /** The account value this working copy stands for. */
    function Data(): ParticipantData
      reads this
    {
      ParticipantData(wallet, proofHash, tickets, attested, attestedAt, VoteBits(word),
                      HasFlag(word, REVEAL_INCLUDED_FLAG), HasFlag(word, REFUND_CLAIMED_FLAG),
                      index, revealDigest, finalizationGeneration, selectedGeneration, selectedRound)
    }

    constructor Read(d: ParticipantData)
      ensures Data() == d
    {
      wallet, proofHash, tickets := d.wallet, d.proofHash, d.tickets;
      attested, attestedAt := d.attested, d.attestedAt;
      word := d.vote
              + (if d.revealIncluded then REVEAL_INCLUDED_FLAG else 0)
              + (if d.refundClaimed then REFUND_CLAIMED_FLAG else 0);
      index, revealDigest := d.index, d.revealDigest;
      finalizationGeneration, selectedGeneration, selectedRound :=
        d.finalizationGeneration, d.selectedGeneration, d.selectedRound;
    }

    method AddTickets(count: nat) returns (r: Result<()>)
      modifies this
      ensures match old(Data()).AddTickets(count)
              case Ok(d) => r.Ok? && Data() == d
              case Err(e) => r == Err(e)
    {
      if tickets + count > U64_MAX {
        return Err(MathOverflow);
      }
      tickets := tickets + count;
      return Ok(());
    }

    method SetVote(voted: U64) returns (r: Result<()>)
      modifies this
      ensures match old(Data()).SetVote(voted)
              case Ok(d) => r.Ok? && Data() == d
              case Err(e) => r == Err(e)
    {
      if attested {
        return Err(InvalidInstruction);
      }
      word := VoteBits(voted);
      return Ok(());
    }

    method AttestUpload(timestamp: int) returns (r: Result<()>)
      modifies this
      ensures match old(Data()).AttestUpload(timestamp)
              case Ok(d) => r.Ok? && Data() == d
              case Err(e) => r == Err(e)
    {
      if attested {
        return Err(InvalidInstruction);
      }
      attested := true;
      attestedAt := timestamp;
      return Ok(());
    }

    function VotedWinners(): (v: Vote)
      reads this
      ensures v == Data().vote
    {
      VoteBits(word)
    }

    predicate RevealIncluded()
      reads this
      ensures RevealIncluded() == Data().revealIncluded
    {
      HasFlag(word, REVEAL_INCLUDED_FLAG)
    }

    predicate RefundClaimed()
      reads this
      ensures RefundClaimed() == Data().refundClaimed
    {
      HasFlag(word, REFUND_CLAIMED_FLAG)
    }

    method IncludeVerifiedReveal(digest: Bytes32)
      modifies this
      ensures Data() == old(Data()).IncludeVerifiedReveal(digest)
    {
      revealDigest := digest;
      FlagsIndependent(word);
      word := WithFlag(word, REVEAL_INCLUDED_FLAG);
    }

    method MarkRefundClaimed()
      modifies this
      ensures Data() == old(Data()).MarkRefundClaimed()
    {
      FlagsIndependent(word);
      word := WithFlag(word, REFUND_CLAIMED_FLAG);
    }

    method MarkFinalized(generation: nat)
      modifies this
      ensures Data() == old(Data()).MarkFinalized(generation)
    {
      finalizationGeneration := generation;
    }

    method MarkSelected(generation: nat, round: nat)
      modifies this
      ensures Data() == old(Data()).MarkSelected(generation, round)
    {
      selectedGeneration := generation;
      selectedRound := round;
    }
  }
}
