/** The resumable cursor of winner finalization: everything that survives between two chunks. */
module FinalizationLedgers {
  import opened Prelude
  import opened Digests
  import opened WinnerPages

  datatype Phase = Aggregating | Selecting | Completed

  datatype LedgerData = LedgerData(
    phase: Phase,
    generation: U32,
    requiredCount: nat,
    processedCount: nat,
    eligibleCount: nat,
    totalEligibleTickets: U64,
    seed: Bytes32,
    participantsCommitment: Bytes32,
    targetWinners: nat,
    currentRound: nat,
    selectedCount: U32,
    selectedTicketsTotal: nat,
    roundProcessedCount: nat,
    roundTicketsSeen: nat,
    roundDrawIndex: nat,
    pendingWinner: Pubkey,
    pendingWinnerTickets: U64,
    pendingWinnerFound: bool,
    winnersCommitment: Bytes32,
    completed: bool,
    startedAt: int,
    completedAt: int)
  {
    static function New(requiredCount: nat, startedAt: int): LedgerData {
      LedgerData(Aggregating, 1, requiredCount, 0, 0, 0, ZERO32, ZERO32, 0, 0, 0, 0, 0, 0, 0,
                 ZERO32, 0, false, ZERO32, false, startedAt, 0)
    }

    function BeginSelectionRound(draw: nat): LedgerData {
      this.(phase := Selecting, roundProcessedCount := 0, roundTicketsSeen := 0, roundDrawIndex := draw,
            pendingWinner := ZERO32, pendingWinnerTickets := 0, pendingWinnerFound := false)
    }

    function RemainingTickets(): (r: Result<nat>)
      ensures r.Ok? ==> r.value <= U64_MAX
    {
      CheckedSub(totalEligibleTickets, selectedTicketsTotal)
    }

    function RecordWinner(h: Hashes, w: SelectedWinner): Result<LedgerData> {
      if selectedCount >= targetWinners then Err(InvalidInstruction)
      else
        var count :- CheckedAdd(selectedCount, 1, U32_MAX);
        var total :- CheckedAdd(selectedTicketsTotal, w.tickets, U64_MAX);
        Ok(this.(selectedCount := count, selectedTicketsTotal := total,
                 winnersCommitment := h.winners(winnersCommitment, count - 1, w.wallet, w.tickets)))
    }

    function Complete(timestamp: int): LedgerData {
      this.(phase := Completed, completed := true, completedAt := timestamp)
    }
  }

  /** A working copy of the ledger account. */
  class FinalizationLedger {
    var phase: Phase
    var generation: U32
    var requiredCount: nat
    var processedCount: nat
    var eligibleCount: nat
    var totalEligibleTickets: U64
    var seed: Bytes32
    var participantsCommitment: Bytes32
    var targetWinners: nat
    var currentRound: nat
    var selectedCount: U32
    var selectedTicketsTotal: nat
    var roundProcessedCount: nat
    var roundTicketsSeen: nat
    var roundDrawIndex: nat
    var pendingWinner: Pubkey
    var pendingWinnerTickets: U64
    var pendingWinnerFound: bool
    var winnersCommitment: Bytes32
    var completed: bool
    var startedAt: int
    var completedAt: int

    function Data(): LedgerData
      reads this
    {
      LedgerData(phase, generation, requiredCount, processedCount, eligibleCount, totalEligibleTickets,
                 seed, participantsCommitment, targetWinners, currentRound, selectedCount,
                 selectedTicketsTotal, roundProcessedCount, roundTicketsSeen, roundDrawIndex,
                 pendingWinner, pendingWinnerTickets, pendingWinnerFound, winnersCommitment,
                 completed, startedAt, completedAt)
    }

    constructor Read(d: LedgerData)
      ensures Data() == d
    {
      phase, generation, requiredCount, processedCount := d.phase, d.generation, d.requiredCount, d.processedCount;
      eligibleCount, totalEligibleTickets, seed := d.eligibleCount, d.totalEligibleTickets, d.seed;
      participantsCommitment, targetWinners := d.participantsCommitment, d.targetWinners;
      currentRound, selectedCount, selectedTicketsTotal := d.currentRound, d.selectedCount, d.selectedTicketsTotal;
      roundProcessedCount, roundTicketsSeen := d.roundProcessedCount, d.roundTicketsSeen;
      roundDrawIndex, pendingWinner := d.roundDrawIndex, d.pendingWinner;
      pendingWinnerTickets, pendingWinnerFound := d.pendingWinnerTickets, d.pendingWinnerFound;
      winnersCommitment, completed := d.winnersCommitment, d.completed;
      startedAt, completedAt := d.startedAt, d.completedAt;
    }

    method BeginSelectionRound(draw: nat)
      modifies this
      ensures Data() == old(Data()).BeginSelectionRound(draw)
    {
      phase := Selecting;
      roundProcessedCount := 0;
      roundTicketsSeen := 0;
      roundDrawIndex := draw;
      pendingWinner := ZERO32;
      pendingWinnerTickets := 0;
      pendingWinnerFound := false;
    }

    function RemainingTickets(): Result<nat>
      reads this
      ensures RemainingTickets() == Data().RemainingTickets()
    {
      if selectedTicketsTotal <= totalEligibleTickets then Ok(totalEligibleTickets - selectedTicketsTotal)
      else Err(MathOverflow)
    }

    method RecordWinner(h: Hashes, w: SelectedWinner) returns (r: Result<()>)
      modifies this
      ensures match old(Data()).RecordWinner(h, w)
              case Ok(d) => r.Ok? && Data() == d
              case Err(e) => r == Err(e)
    {
      if selectedCount >= targetWinners {
        return Err(InvalidInstruction);
      }
      if selectedCount + 1 > U32_MAX {
        return Err(MathOverflow);
      }
      selectedCount := selectedCount + 1;
      if selectedTicketsTotal + w.tickets > U64_MAX {
        return Err(MathOverflow);
      }
      selectedTicketsTotal := selectedTicketsTotal + w.tickets;
      winnersCommitment := h.winners(winnersCommitment, selectedCount - 1, w.wallet, w.tickets);
      return Ok(());
    }

    method Complete(timestamp: int)
      modifies this
      ensures Data() == old(Data()).Complete(timestamp)
    {
      phase := Completed;
      completed := true;
      completedAt := timestamp;
    }
  }
}
