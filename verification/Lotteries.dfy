/** The lottery account: windows, phases, counters and settlement state. */
module Lotteries {
  import opened Prelude
  import opened Digests
  import opened Bits

  datatype Stage = Buy | Upload | Remediation | Settlement | Settled

  /** The paid bitmap is allocated for 256 winners at creation and never shrinks. */
  type Bitmap = b: seq<bv8> | |b| >= 32 witness Zeros(32)

  /** A bitmap with its first bytes zeroed. */
  function Cleared(bitmap: Bitmap, bytes: nat): Bitmap
    requires bytes <= |bitmap|
  {
    Zeros(bytes) + bitmap[bytes..]
  }

  datatype LotteryData = LotteryData(
    id: nat,
    createdAt: int,
    buyStart: int,
    buyDeadline: int,
    uploadStart: int,
    uploadDeadline: int,
    settlementStart: int,
    totalTickets: nat,
    totalFunds: nat,
    providerUploaded: nat,
    aggregate: Bytes32,
    uploadsComplete: bool,
    settled: bool,
    attestedCount: nat,
    participantsCount: nat,
    selectedWinners: nat,
    winnersRoot: Bytes32,
    winnersCount: nat,
    totalPayout: nat,
    paidBitmap: Bitmap,
    batchesCompleted: nat,
    settlementComplete: bool,
    remediationStart: int,
    remediationDeadline: int,
    bps: nat,
    price: nat)
  {
    static function New(id: nat, now: int, bps: nat, price: nat): LotteryData {
      LotteryData(id, now, now, now + DAY_SECS, now + DAY_SECS, now + 2 * DAY_SECS, 0,
                  0, 0, 0, ZERO32, false, false, 0, 0, 1,
                  ZERO32, 0, 0, Zeros(32), 0, false, 0, 0, bps, price)
    }

    predicate InBuyWindow(t: int) {
      && !(uploadStart > 0 && t >= uploadStart)
      && buyStart > 0 && buyStart <= t < buyDeadline
    }

    predicate UploadElapsed(t: int) {
      uploadDeadline > 0 && t > uploadDeadline
    }

    predicate AllAttested() {
      participantsCount > 0 && attestedCount == participantsCount
    }

    predicate HasMissingAttestedReveals() {
      attestedCount > 0 && providerUploaded < attestedCount
    }

    predicate RemediationActive(t: int) {
      && remediationStart > 0 && remediationDeadline > 0 && t <= remediationDeadline
      && HasMissingAttestedReveals()
    }

    predicate RemediationExpired(t: int) {
      && remediationDeadline > 0 && t > remediationDeadline
      && HasMissingAttestedReveals()
    }

    function StageAt(t: int): Stage {
      if settled then Settled
      else if participantsCount == 1 && UploadElapsed(t) then Settled
      else if RemediationActive(t) then Remediation
      else if settlementStart > 0 then Settlement
      else if uploadStart > 0 && uploadStart <= t <= uploadDeadline then Upload
      else if t <= buyDeadline then Buy
      else Settlement
    }

    function BeginRemediation(t: int): LotteryData {
      if remediationStart == 0
      then this.(remediationStart := t, remediationDeadline := t + REMEDIATION_WINDOW_SECS)
      else this
    }

    function AddTickets(count: nat, lamports: nat): Result<LotteryData> {
      var tickets :- CheckedAdd(totalTickets, count, U64_MAX);
      var funds :- CheckedAdd(totalFunds, lamports, U64_MAX);
      Ok(this.(totalTickets := tickets, totalFunds := funds))
    }

    function AddAttestation(): Result<LotteryData> {
      var count :- CheckedAdd(attestedCount, 1, U64_MAX);
      Ok(this.(attestedCount := count))
    }

    function AddParticipant(): Result<LotteryData> {
      var count :- CheckedAdd(participantsCount, 1, U64_MAX);
      Ok(this.(participantsCount := count))
    }

    function SetSelectedWinners(count: nat): Result<LotteryData> {
      if count == 0 || participantsCount <= 1 || count > participantsCount - 1 then Err(InvalidInstruction)
      else Ok(this.(selectedWinners := count))
    }

    function Settle(): LotteryData {
      this.(settled := true)
    }

    function ClearedBitmap(winners: nat): Bitmap
      requires winners <= MAX_WINNERS
    {
      Cleared(paidBitmap, (winners + 7) / 8)
    }

    function InitializeSettlement(root: Bytes32, winners: nat, total: nat): Result<LotteryData> {
      if settlementComplete then Err(LotteryAlreadySettled)
      else if winners > MAX_WINNERS then Err(InvalidInstruction)
      else Ok(this.(winnersRoot := root, winnersCount := winners, totalPayout := total,
                    paidBitmap := ClearedBitmap(winners)))
    }

    predicate IsWinnerPaid(i: nat) {
      i < winnersCount && i / 8 < |paidBitmap| && Bit(paidBitmap[i / 8], i % 8)
    }

    function Extended(bytes: nat): Bitmap {
      if bytes <= |paidBitmap| then paidBitmap else paidBitmap + Zeros(bytes - |paidBitmap|)
    }

    function MarkWinnerPaid(i: nat): Result<LotteryData> {
      if i >= winnersCount then Err(InvalidInstruction)
      else
        var bitmap := Extended(i / 8 + 1);
        Ok(this.(paidBitmap := bitmap[i / 8 := bitmap[i / 8] | Mask(i % 8)]))
    }

    function IncrementBatch(): LotteryData {
      this.(batchesCompleted := SaturatingAdd(batchesCompleted, 1, U32_MAX))
    }

    predicate AllWinnersPaid() {
      forall i :: 0 <= i < winnersCount ==> IsWinnerPaid(i)
    }

    function CompleteSettlement(): Result<LotteryData> {
      if !AllWinnersPaid() then Err(InvalidInstruction)
      else Ok(this.(settlementComplete := true, settled := true))
    }
  }

  /** The winner indices marked as paid in a bitmap. */
  ghost function PaidSet(bitmap: seq<bv8>, winners: nat): set<nat> {
    set i: nat | i < winners && i / 8 < |bitmap| && Bit(bitmap[i / 8], i % 8)
  }

  lemma PaidSetMeaning(l: LotteryData)
    ensures forall i :: l.IsWinnerPaid(i) <==> i in PaidSet(l.paidBitmap, l.winnersCount)
    ensures |PaidSet(l.paidBitmap, l.winnersCount)| <= l.winnersCount
    ensures l.AllWinnersPaid() <==> |PaidSet(l.paidBitmap, l.winnersCount)| == l.winnersCount
  {
    var paid := PaidSet(l.paidBitmap, l.winnersCount);
    SetBelow(paid, l.winnersCount);
  }

  /** A set of numbers below n has at most n elements, and n only when it is all of them. */
  lemma {:induction false} SetBelow(s: set<nat>, n: nat)
    requires forall i :: i in s ==> i < n
    ensures |s| <= n
    ensures |s| == n <==> forall i :: 0 <= i < n ==> i in s
  {
    if n > 0 {
      SetBelow(s - {n - 1}, n - 1);
      if n - 1 in s {
        assert |s| == |s - {n - 1}| + 1;
      } else {
        assert s - {n - 1} == s;
      }
    } else {
      assert s == {};
    }
  }

  /** Initializing a settlement leaves no winner marked as paid. */
  lemma InitializedUnpaid(l: LotteryData, root: Bytes32, winners: nat, total: nat)
    requires l.InitializeSettlement(root, winners, total).Ok?
    ensures PaidSet(l.InitializeSettlement(root, winners, total).value.paidBitmap, winners) == {}
  {
    forall i: nat | i < winners
      ensures !Bit(l.ClearedBitmap(winners)[i / 8], i % 8)
    {
      ZeroBits(i % 8);
    }
  }

  /** Setting bit i of a bitmap changes that bit and no other. */
  lemma BitmapSet(bitmap: seq<bv8>, i: nat, j: nat)
    requires i / 8 < |bitmap| && j / 8 < |bitmap|
    ensures Bit(bitmap[i / 8 := bitmap[i / 8] | Mask(i % 8)][j / 8], j % 8) == (j == i || Bit(bitmap[j / 8], j % 8))
  {
    if j / 8 == i / 8 {
      SetBit(bitmap[i / 8], i % 8, j % 8);
    }
  }

  /** Marking one winner adds that winner to the paid set and nobody else. */
  lemma MarkedPaid(l: LotteryData, i: nat)
    requires i < l.winnersCount
    ensures PaidSet(l.MarkWinnerPaid(i).value.paidBitmap, l.winnersCount) == PaidSet(l.paidBitmap, l.winnersCount) + {i}
  {
    var before, after := PaidSet(l.paidBitmap, l.winnersCount), PaidSet(l.MarkWinnerPaid(i).value.paidBitmap, l.winnersCount);
    forall j: nat
      ensures j in after <==> j == i || j in before
    {
      MarkedPaidAt(l, i, j);
    }
  }

  lemma MarkedPaidAt(l: LotteryData, i: nat, j: nat)
    requires i < l.winnersCount
    ensures j in PaidSet(l.MarkWinnerPaid(i).value.paidBitmap, l.winnersCount)
       <==> j == i || j in PaidSet(l.paidBitmap, l.winnersCount)
  {
    var bitmap := l.Extended(i / 8 + 1);
    if j / 8 < |bitmap| {
      BitmapSet(bitmap, i, j);
      ZeroBits(j % 8);
    }
  }

  /** Zeroes the first bytes of a bitmap one by one. */
  method ClearBitmap(bitmap: Bitmap, bytes: nat) returns (cleared: Bitmap)
    requires bytes <= |bitmap|
    ensures cleared == Cleared(bitmap, bytes)
  {
    cleared := bitmap;
    for i := 0 to bytes
      invariant |cleared| == |bitmap|
      invariant forall j :: 0 <= j < i ==> cleared[j] == 0
      invariant forall j :: i <= j < |bitmap| ==> cleared[j] == bitmap[j]
    {
      cleared := cleared[i := 0];
    }
  }

  /** A working copy of the lottery account. */
  class Lottery {
    var id: nat
    var createdAt: int
    var buyStart: int
    var buyDeadline: int
    var uploadStart: int
    var uploadDeadline: int
    var settlementStart: int
    var totalTickets: nat
    var totalFunds: nat
    var providerUploaded: nat
    var aggregate: Bytes32
    var uploadsComplete: bool
    var settled: bool
    var attestedCount: nat
    var participantsCount: nat
    var selectedWinners: nat
    var winnersRoot: Bytes32
    var winnersCount: nat
    var totalPayout: nat
    var paidBitmap: Bitmap
    var batchesCompleted: nat
    var settlementComplete: bool
    var remediationStart: int
    var remediationDeadline: int
    var bps: nat
    var price: nat

    function Data(): LotteryData
      reads this
    {
      LotteryData(id, createdAt, buyStart, buyDeadline, uploadStart, uploadDeadline, settlementStart, totalTickets,
                  totalFunds, providerUploaded, aggregate, uploadsComplete, settled, attestedCount,
                  participantsCount, selectedWinners, winnersRoot, winnersCount, totalPayout, paidBitmap,
                  batchesCompleted, settlementComplete, remediationStart, remediationDeadline, bps, price)
    }

    constructor Read(d: LotteryData)
      ensures Data() == d
    {
      id, createdAt, buyStart, buyDeadline := d.id, d.createdAt, d.buyStart, d.buyDeadline;
      uploadStart, uploadDeadline, settlementStart, totalTickets := d.uploadStart, d.uploadDeadline, d.settlementStart, d.totalTickets;
      totalFunds, providerUploaded, aggregate, uploadsComplete := d.totalFunds, d.providerUploaded, d.aggregate, d.uploadsComplete;
      settled, attestedCount, participantsCount, selectedWinners := d.settled, d.attestedCount, d.participantsCount, d.selectedWinners;
      winnersRoot, winnersCount, totalPayout, paidBitmap := d.winnersRoot, d.winnersCount, d.totalPayout, d.paidBitmap;
      batchesCompleted, settlementComplete := d.batchesCompleted, d.settlementComplete;
      remediationStart, remediationDeadline := d.remediationStart, d.remediationDeadline;
      bps, price := d.bps, d.price;
    }

    method BeginRemediation(t: int)
      modifies this
      ensures Data() == old(Data()).BeginRemediation(t)
    {
      if remediationStart == 0 {
        remediationStart := t;
        remediationDeadline := t + REMEDIATION_WINDOW_SECS;
      }
    }

    method AddTickets(count: nat, lamports: nat) returns (r: Result<()>)
      modifies this
      ensures match old(Data()).AddTickets(count, lamports)
              case Ok(d) => r.Ok? && Data() == d
              case Err(e) => r == Err(e)
    {
      if totalTickets + count > U64_MAX {
        return Err(MathOverflow);
      }
      totalTickets := totalTickets + count;
      if totalFunds + lamports > U64_MAX {
        return Err(MathOverflow);
      }
      totalFunds := totalFunds + lamports;
      return Ok(());
    }

    method AddAttestation() returns (r: Result<()>)
      modifies this
      ensures match old(Data()).AddAttestation()
              case Ok(d) => r.Ok? && Data() == d
              case Err(e) => r == Err(e)
    {
      if attestedCount + 1 > U64_MAX {
        return Err(MathOverflow);
      }
      attestedCount := attestedCount + 1;
      return Ok(());
    }

    method AddParticipant() returns (r: Result<()>)
      modifies this
      ensures match old(Data()).AddParticipant()
              case Ok(d) => r.Ok? && Data() == d
              case Err(e) => r == Err(e)
    {
      if participantsCount + 1 > U64_MAX {
        return Err(MathOverflow);
      }
      participantsCount := participantsCount + 1;
      return Ok(());
    }

    method SetSelectedWinners(count: nat) returns (r: Result<()>)
      modifies this
      ensures match old(Data()).SetSelectedWinners(count)
              case Ok(d) => r.Ok? && Data() == d
              case Err(e) => r == Err(e)
    {
      if count == 0 {
        return Err(InvalidInstruction);
      }
      if participantsCount <= 1 {
        return Err(InvalidInstruction);
      }
      if count > participantsCount - 1 {
        return Err(InvalidInstruction);
      }
      selectedWinners := count;
      return Ok(());
    }

    method Settle()
      modifies this
      ensures Data() == old(Data()).Settle()
    {
      settled := true;
    }

    method RecordSettlement(root: Bytes32, winners: nat, total: nat, bitmap: Bitmap)
      modifies this
      ensures Data() == old(Data()).(winnersRoot := root, winnersCount := winners, totalPayout := total, paidBitmap := bitmap)
    {
      winnersRoot := root;
      winnersCount := winners;
      totalPayout := total;
      paidBitmap := bitmap;
    }

    method InitializeSettlement(root: Bytes32, winners: nat, total: nat) returns (r: Result<()>)
      modifies this
      ensures match old(Data()).InitializeSettlement(root, winners, total)
              case Ok(d) => r.Ok? && Data() == d
              case Err(e) => r == Err(e)
    {
      hide Cleared, Zeros;
      if settlementComplete {
        return Err(LotteryAlreadySettled);
      }
      if winners > MAX_WINNERS {
        return Err(InvalidInstruction);
      }
      var bitmap := ClearBitmap(paidBitmap, (winners + 7) / 8);
      RecordSettlement(root, winners, total, bitmap);
      return Ok(());
    }

    /** `(bitmap[i / 8] >> (i % 8)) & 1 == 1` for a winner index in range. */
    predicate IsWinnerPaid(i: nat)
      reads this
      ensures IsWinnerPaid(i) == Data().IsWinnerPaid(i)
    {
      if i >= winnersCount then false
      else if i / 8 >= |paidBitmap| then false
      else
        ShiftTest(paidBitmap[i / 8], i % 8);
        (paidBitmap[i / 8] >> (i % 8)) & 1 == 1
    }

    method MarkWinnerPaid(i: nat) returns (r: Result<()>)
      modifies this
      ensures match old(Data()).MarkWinnerPaid(i)
              case Ok(d) => r.Ok? && Data() == d
              case Err(e) => r == Err(e)
    {
      if i >= winnersCount {
        return Err(InvalidInstruction);
      }
      ghost var before := Data();
      while i / 8 >= |paidBitmap|
        invariant |before.paidBitmap| <= |paidBitmap| <= Max(|before.paidBitmap|, i / 8 + 1)
        invariant paidBitmap == before.paidBitmap + Zeros(|paidBitmap| - |before.paidBitmap|)
        invariant Data() == before.(paidBitmap := paidBitmap)
        decreases i / 8 + 1 - |paidBitmap|
      {
        paidBitmap := paidBitmap + [0];
      }
      assert paidBitmap == before.Extended(i / 8 + 1);
      paidBitmap := paidBitmap[i / 8 := paidBitmap[i / 8] | Mask(i % 8)];
      return Ok(());
    }

    method IncrementBatch()
      modifies this
      ensures Data() == old(Data()).IncrementBatch()
    {
      batchesCompleted := SaturatingAdd(batchesCompleted, 1, U32_MAX);
    }

    method AllWinnersPaid() returns (all: bool)
      ensures all == Data().AllWinnersPaid()
    {
      if winnersCount == 0 {
        return true;
      }
      for i := 0 to winnersCount
        invariant forall j :: 0 <= j < i ==> Data().IsWinnerPaid(j)
      {
        if !IsWinnerPaid(i) {
          return false;
        }
      }
      return true;
    }

    method CompleteSettlement() returns (r: Result<()>)
      modifies this
      ensures match old(Data()).CompleteSettlement()
              case Ok(d) => r.Ok? && Data() == d
              case Err(e) => r == Err(e)
    {
      var all := AllWinnersPaid();
      if !all {
        return Err(InvalidInstruction);
      }
      settlementComplete := true;
      settled := true;
      return Ok(());
    }
  }
}
