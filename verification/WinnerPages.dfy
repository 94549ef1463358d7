/** Winner pages: an append-only list of winners and a paid bitmap laid out in raw account bytes. */
module WinnerPages {
  import opened Prelude
  import opened Digests
  import opened Bits

  const ENTRY_SIZE: nat := 40
  const HEADER_SIZE: nat := 114
  const ENTRIES_OFFSET: nat := HEADER_SIZE
  const BITMAP_OFFSET: nat := ENTRIES_OFFSET + WINNERS_PER_PAGE * ENTRY_SIZE
  const BITMAP_SIZE: nat := 13
  const PAGE_SIZE: nat := BITMAP_OFFSET + BITMAP_SIZE

  datatype SelectedWinner = SelectedWinner(wallet: Pubkey, tickets: U64)

  /** The meaning of a page: who was appended, in order, and which offsets are paid. */
  datatype PageData = PageData(generation: nat, pageIndex: nat, winners: seq<SelectedWinner>, paid: set<nat>) {
    static function New(generation: nat, pageIndex: nat): PageData {
      PageData(generation, pageIndex, [], {})
    }

    function Append(w: SelectedWinner): Result<PageData> {
      if |winners| >= WINNERS_PER_PAGE then Err(InvalidInstruction)
      else Ok(this.(winners := winners + [w]))
    }

    function Winner(offset: nat): Option<SelectedWinner> {
      if offset < |winners| then Some(winners[offset]) else None
    }

    predicate IsPaid(offset: nat) {
      offset < |winners| && offset in paid
    }

    function MarkPaid(offset: nat): Result<PageData> {
      if offset >= |winners| || IsPaid(offset) then Err(WinnerAlreadyPaid)
      else Ok(this.(paid := paid + {offset}))
    }
  }

  // ----- byte layout -----

  function EntryOffset(offset: nat): nat {
    ENTRIES_OFFSET + offset * ENTRY_SIZE
  }

  function EncodeEntry(w: SelectedWinner): (s: seq<bv8>)
    ensures |s| == ENTRY_SIZE
  {
    w.wallet + ToLe(w.tickets, 8)
  }

  lemma EightBytes()
    ensures Pow256(8) == U64_MAX + 1
  {
    assert Pow256(4) == 256 * 256 * 256 * 256;
    assert Pow256(6) == 256 * 256 * Pow256(4);
  }

  function DecodeEntry(s: seq<bv8>): SelectedWinner
    requires |s| == ENTRY_SIZE
  {
    FromLeBound(s[32..]);
    EightBytes();
    SelectedWinner(s[..32], FromLe(s[32..]))
  }

  lemma EntryRoundTrip(w: SelectedWinner)
    ensures DecodeEntry(EncodeEntry(w)) == w
  {
    EightBytes();
    LeRoundTrip(w.tickets, 8);
    assert EncodeEntry(w)[..32] == w.wallet;
    assert EncodeEntry(w)[32..] == ToLe(w.tickets, 8);
  }

  function EntryAt(bytes: seq<bv8>, offset: nat): SelectedWinner
    requires |bytes| >= PAGE_SIZE && offset < WINNERS_PER_PAGE
  {
    DecodeEntry(bytes[EntryOffset(offset)..EntryOffset(offset) + ENTRY_SIZE])
  }

  predicate PaidBit(bytes: seq<bv8>, offset: nat)
    requires |bytes| >= PAGE_SIZE && offset < WINNERS_PER_PAGE
  {
    Bit(bytes[BITMAP_OFFSET + offset / 8], offset % 8)
  }

  /** No paid bit is set at or beyond the number of winners. */
  ghost predicate WellFormed(count: nat, bytes: seq<bv8>) {
    && |bytes| >= PAGE_SIZE && count <= WINNERS_PER_PAGE
    && forall k :: count <= k < WINNERS_PER_PAGE ==> !PaidBit(bytes, k)
  }

  function Decode(generation: nat, pageIndex: nat, count: nat, bytes: seq<bv8>): PageData
    requires |bytes| >= PAGE_SIZE && count <= WINNERS_PER_PAGE
  {
    PageData(generation, pageIndex,
             seq(count, k requires 0 <= k < count => EntryAt(bytes, k)),
             set k | 0 <= k < WINNERS_PER_PAGE && PaidBit(bytes, k))
  }

  /** The deserialized header of a page. */
  datatype PageHeader = PageHeader(lottery: Pubkey, generation: U32, pageIndex: U32, count: U16)

  /** The eight bytes that open every account of one type. */
  type Discriminator = d: seq<bv8> | |d| == 8 witness Zeros(8)

  /** The serialized header: discriminator, lottery, generation, page index, count, reserved bytes. */
  function EncodeHeader(discriminator: Discriminator, h: PageHeader): (s: seq<bv8>)
    ensures |s| == HEADER_SIZE
  {
    discriminator + h.lottery + ToLe(h.generation, 4) + ToLe(h.pageIndex, 4) + ToLe(h.count, 2) + Zeros(64)
  }

  lemma SmallPowers()
    ensures Pow256(2) == U16_MAX + 1 && Pow256(4) == U32_MAX + 1
  {
    assert Pow256(2) == 256 * 256;
    assert Pow256(4) == 256 * 256 * Pow256(2);
  }

  function LeU32(s: seq<bv8>): U32
    requires |s| == 4
  {
    FromLeBound(s);
    SmallPowers();
    FromLe(s)
  }

  function LeU16(s: seq<bv8>): U16
    requires |s| == 2
  {
    FromLeBound(s);
    SmallPowers();
    FromLe(s)
  }

  /** read_account_data for a page: the header as the account bytes spell it. */
  function ReadHeader(bytes: seq<bv8>): PageHeader
    requires |bytes| >= HEADER_SIZE
  {
    PageHeader(bytes[8..40], LeU32(bytes[40..44]), LeU32(bytes[44..48]), LeU16(bytes[48..50]))
  }

  /** Whatever follows it, an encoded header reads back as it was written. */
  lemma HeaderRoundTrip(discriminator: Discriminator, h: PageHeader, bytes: seq<bv8>)
    requires |bytes| >= HEADER_SIZE && bytes[..HEADER_SIZE] == EncodeHeader(discriminator, h)
    ensures ReadHeader(bytes) == h && bytes[..8] == discriminator
  {
    hide ToLe, FromLe, Pow256, Zeros;
    var s := EncodeHeader(discriminator, h);
    assert bytes[..8] == s[..8] == discriminator;
    assert bytes[8..40] == s[8..40] == h.lottery;
    assert bytes[40..44] == s[40..44] == ToLe(h.generation, 4);
    assert bytes[44..48] == s[44..48] == ToLe(h.pageIndex, 4);
    assert bytes[48..50] == s[48..50] == ToLe(h.count, 2);
    SmallPowers();
    LeRoundTrip(h.generation, 4);
    LeRoundTrip(h.pageIndex, 4);
    LeRoundTrip(h.count, 2);
  }

  /** The header depends on the first bytes only. */
  lemma SameHeader(before: seq<bv8>, after: seq<bv8>)
    requires |before| >= HEADER_SIZE && |after| >= HEADER_SIZE && before[..HEADER_SIZE] == after[..HEADER_SIZE]
    ensures ReadHeader(after) == ReadHeader(before)
  {
    assert forall i, j :: 0 <= i <= j <= HEADER_SIZE ==>
             before[..HEADER_SIZE][i..j] == before[i..j] && after[..HEADER_SIZE][i..j] == after[i..j];
  }

  // ----- writing bytes -----

  function WithEntry(bytes: seq<bv8>, offset: nat, w: SelectedWinner): (after: seq<bv8>)
    requires |bytes| >= PAGE_SIZE && offset < WINNERS_PER_PAGE
    ensures |after| == |bytes|
  {
    bytes[..EntryOffset(offset)] + EncodeEntry(w) + bytes[EntryOffset(offset) + ENTRY_SIZE..]
  }

  function WithBit(bytes: seq<bv8>, offset: nat): (after: seq<bv8>)
    requires |bytes| >= PAGE_SIZE && offset < WINNERS_PER_PAGE
    ensures |after| == |bytes|
  {
    var p := BITMAP_OFFSET + offset / 8;
    bytes[p := bytes[p] | Mask(offset % 8)]
  }

  function WithHeader(bytes: seq<bv8>, discriminator: Discriminator, h: PageHeader): (after: seq<bv8>)
    requires |bytes| >= HEADER_SIZE
    ensures |after| == |bytes|
  {
    EncodeHeader(discriminator, h) + bytes[HEADER_SIZE..]
  }

  /** Entries lie apart from each other and before the bitmap. */
  lemma EntriesApart(offset: nat, k: nat)
    requires offset < WINNERS_PER_PAGE && k < WINNERS_PER_PAGE && k != offset
    ensures EntryOffset(k) + ENTRY_SIZE <= EntryOffset(offset) || EntryOffset(offset) + ENTRY_SIZE <= EntryOffset(k)
    ensures HEADER_SIZE <= EntryOffset(k) && EntryOffset(k) + ENTRY_SIZE <= BITMAP_OFFSET
    ensures HEADER_SIZE <= EntryOffset(offset) && EntryOffset(offset) + ENTRY_SIZE <= BITMAP_OFFSET
  {
  }

  lemma OtherEntryKept(before: seq<bv8>, after: seq<bv8>, offset: nat, entry: seq<bv8>, k: nat)
    requires |before| == |after| && |before| >= PAGE_SIZE && |entry| == ENTRY_SIZE
    requires offset < WINNERS_PER_PAGE && k < WINNERS_PER_PAGE && k != offset
    requires after == before[..EntryOffset(offset)] + entry + before[EntryOffset(offset) + ENTRY_SIZE..]
    ensures EntryAt(after, k) == EntryAt(before, k)
  {
    hide DecodeEntry;
    EntriesApart(offset, k);
    var b := EntryOffset(k);
    assert after[b..b + ENTRY_SIZE] == before[b..b + ENTRY_SIZE];
  }

  /** Writing one entry leaves the header, every other entry and every paid bit alone. */
  lemma WriteEntryFrame(before: seq<bv8>, offset: nat, w: SelectedWinner)
    requires |before| >= PAGE_SIZE && offset < WINNERS_PER_PAGE
    ensures var after := WithEntry(before, offset, w);
            && after[..HEADER_SIZE] == before[..HEADER_SIZE]
            && EntryAt(after, offset) == w
            && (forall k :: 0 <= k < WINNERS_PER_PAGE && k != offset ==> EntryAt(after, k) == EntryAt(before, k))
            && (forall k :: 0 <= k < WINNERS_PER_PAGE ==> PaidBit(after, k) == PaidBit(before, k))
  {
    var after := WithEntry(before, offset, w);
    forall k | 0 <= k < WINNERS_PER_PAGE && k != offset
      ensures EntryAt(after, k) == EntryAt(before, k)
    {
      OtherEntryKept(before, after, offset, EncodeEntry(w), k);
    }
    hide DecodeEntry, EncodeEntry, Bit;
    var at := EntryOffset(offset);
    assert after[at..at + ENTRY_SIZE] == EncodeEntry(w);
    EntryRoundTrip(w);
  }

  /** Setting one paid bit leaves the header, every entry and every other bit alone. */
  lemma WriteBitFrame(before: seq<bv8>, offset: nat)
    requires |before| >= PAGE_SIZE && offset < WINNERS_PER_PAGE
    ensures var after := WithBit(before, offset);
            && after[..HEADER_SIZE] == before[..HEADER_SIZE]
            && (forall k :: 0 <= k < WINNERS_PER_PAGE ==> EntryAt(after, k) == EntryAt(before, k))
            && (forall k :: 0 <= k < WINNERS_PER_PAGE ==> PaidBit(after, k) == (k == offset || PaidBit(before, k)))
  {
    var p := BITMAP_OFFSET + offset / 8;
    var after := WithBit(before, offset);
    forall k | 0 <= k < WINNERS_PER_PAGE
      ensures EntryAt(after, k) == EntryAt(before, k)
    {
      var b := EntryOffset(k);
      assert after[b..b + ENTRY_SIZE] == before[b..b + ENTRY_SIZE];
    }
    forall k | 0 <= k < WINNERS_PER_PAGE
      ensures PaidBit(after, k) == (k == offset || PaidBit(before, k))
    {
      if k / 8 == offset / 8 {
        SetBit(before[p], offset % 8, k % 8);
      }
    }
  }

  /** A rewritten header reads back, and leaves every entry and every bit alone. */
  lemma WriteHeaderFrame(before: seq<bv8>, discriminator: Discriminator, h: PageHeader)
    requires |before| >= PAGE_SIZE
    ensures var after := WithHeader(before, discriminator, h);
            && after[..HEADER_SIZE] == EncodeHeader(discriminator, h) && ReadHeader(after) == h
            && (forall k :: 0 <= k < WINNERS_PER_PAGE ==> EntryAt(after, k) == EntryAt(before, k))
            && (forall k :: 0 <= k < WINNERS_PER_PAGE ==> PaidBit(after, k) == PaidBit(before, k))
  {
    var after := WithHeader(before, discriminator, h);
    hide EncodeHeader, DecodeEntry, Bit, ReadHeader;
    forall k | 0 <= k < WINNERS_PER_PAGE
      ensures EntryAt(after, k) == EntryAt(before, k)
    {
      var b := EntryOffset(k);
      assert after[b..b + ENTRY_SIZE] == before[b..b + ENTRY_SIZE];
    }
    HeaderRoundTrip(discriminator, h, after);
  }

  // ----- account data -----

  /** Page account data as the program leaves it: a canonical header that belongs to the lottery, and no stray paid bit. */
  ghost predicate ValidFile(bytes: seq<bv8>, discriminator: Discriminator, lottery: Pubkey) {
    && |bytes| >= PAGE_SIZE
    && bytes[..HEADER_SIZE] == EncodeHeader(discriminator, ReadHeader(bytes))
    && ReadHeader(bytes).lottery == lottery
    && WellFormed(ReadHeader(bytes).count, bytes)
  }

  /** The page that account data spells, its own header included. */
  function PageOf(bytes: seq<bv8>): PageData
    requires |bytes| >= PAGE_SIZE && ReadHeader(bytes).count <= WINNERS_PER_PAGE
  {
    Decode(ReadHeader(bytes).generation, ReadHeader(bytes).pageIndex, ReadHeader(bytes).count, bytes)
  }

  lemma FreshBits(k: nat)
    requires k < WINNERS_PER_PAGE
    ensures !PaidBit(Zeros(PAGE_SIZE), k)
  {
    ZeroBits(k % 8);
  }

  /** A fresh page: zeroed account bytes hold no winners and no paid bits. */
  lemma FreshPage(generation: nat, pageIndex: nat, bytes: seq<bv8>)
    requires bytes == Zeros(PAGE_SIZE)
    ensures WellFormed(0, bytes)
    ensures Decode(generation, pageIndex, 0, bytes) == PageData.New(generation, pageIndex)
  {
    forall k | 0 <= k < WINNERS_PER_PAGE
      ensures !PaidBit(bytes, k)
    {
      FreshBits(k);
    }
  }

  /** Setting a bit in the bytes is marking the offset on the page they spell. */
  lemma DecodedWithBit(generation: nat, pageIndex: nat, count: nat, bytes: seq<bv8>, offset: nat)
    requires WellFormed(count, bytes) && offset < count && !PaidBit(bytes, offset)
    ensures WellFormed(count, WithBit(bytes, offset))
    ensures Decode(generation, pageIndex, count, bytes).MarkPaid(offset)
         == Ok(Decode(generation, pageIndex, count, WithBit(bytes, offset)))
  {
    WriteBitFrame(bytes, offset);
    hide EntryAt, PaidBit, WithBit;
    var p, q := Decode(generation, pageIndex, count, bytes), Decode(generation, pageIndex, count, WithBit(bytes, offset));
    assert q.winners == p.winners;
    assert q.paid == p.paid + {offset};
  }

  /** A page carries the identity in its header, and as many winners as the header counts. */
  lemma PageIdentity(bytes: seq<bv8>)
    requires |bytes| >= PAGE_SIZE && ReadHeader(bytes).count <= WINNERS_PER_PAGE
    ensures PageOf(bytes).generation == ReadHeader(bytes).generation
    ensures PageOf(bytes).pageIndex == ReadHeader(bytes).pageIndex
    ensures |PageOf(bytes).winners| == ReadHeader(bytes).count
  {
    hide ReadHeader, EntryAt, PaidBit;
  }

  /** Which page account a winner goes to. */
  datatype PageSite = PageSite(discriminator: Discriminator, lottery: Pubkey, generation: U32, index: U32) {
    function Header(count: U16): PageHeader {
      PageHeader(lottery, generation, index, count)
    }
  }

  /** Account data after recording a winner: load or create the page, append, rewrite the header. No data means no account yet. */
  function RecordIn(data: seq<bv8>, site: PageSite, w: SelectedWinner): Result<seq<bv8>> {
    var bytes := if data == [] then Zeros(PAGE_SIZE) else data;
    :- Require(|bytes| >= HEADER_SIZE, InvalidAccountData);
    var h := if data == [] then site.Header(0) else ReadHeader(bytes);
    :- Require(h == site.Header(h.count), InvalidAccountData);
    :- Require(h.count < WINNERS_PER_PAGE && |bytes| >= PAGE_SIZE, InvalidInstruction);
    Ok(WithHeader(WithEntry(bytes, h.count, w), site.discriminator, h.(count := h.count + 1)))
  }

  /** Account data after marking an offset as paid; the header is read but not rewritten. */
  function PayIn(data: seq<bv8>, site: PageSite, offset: nat): Result<seq<bv8>> {
    if |data| < HEADER_SIZE then Err(InvalidAccountData)
    else
      var h := ReadHeader(data);
      :- Require(h.lottery == site.lottery && h.pageIndex == site.index, InvalidAccountData);
      :- Require(offset < Min(h.count, WINNERS_PER_PAGE) && |data| >= PAGE_SIZE, WinnerAlreadyPaid);
      :- Require(!PaidBit(data, offset), WinnerAlreadyPaid);
      Ok(WithBit(data, offset))
  }

  /** The in-memory header of a page; entries and bits live in the account bytes passed to each method. */
  class WinnerPage {
    const lottery: Pubkey
    const generation: U32
    const pageIndex: U32
    var count: U16

    /** The header of a page that is about to be created. */
    constructor (lottery: Pubkey, generation: U32, pageIndex: U32)
      ensures Header() == PageHeader(lottery, generation, pageIndex, 0)
    {
      this.lottery, this.generation, this.pageIndex, this.count := lottery, generation, pageIndex, 0;
    }

    /** The header as stored in an existing page account. */
    constructor Read(bytes: array<bv8>)
      requires bytes.Length >= HEADER_SIZE
      ensures Header() == ReadHeader(bytes[..])
    {
      var h := ReadHeader(bytes[..]);
      lottery, generation, pageIndex, count := h.lottery, h.generation, h.pageIndex, h.count;
    }

    function Header(): PageHeader
      reads this
    {
      PageHeader(lottery, generation, pageIndex, count)
    }

    ghost predicate Valid(bytes: array<bv8>)
      reads this, bytes
    {
      WellFormed(count, bytes[..])
    }

    function Data(bytes: array<bv8>): PageData
      requires bytes.Length >= PAGE_SIZE && count <= WINNERS_PER_PAGE
      reads this, bytes
    {
      Decode(generation, pageIndex, count, bytes[..])
    }

    method Append(bytes: array<bv8>, w: SelectedWinner) returns (r: Result<nat>)
      modifies `count, bytes
      ensures old(count) >= WINNERS_PER_PAGE || bytes.Length < PAGE_SIZE ==>
                r == Err(InvalidInstruction) && unchanged(this) && unchanged(bytes)
      ensures old(count) < WINNERS_PER_PAGE && bytes.Length >= PAGE_SIZE ==>
                && r == Ok(old(count)) && count == old(count) + 1
                && bytes[..] == WithEntry(old(bytes[..]), old(count), w)
                && bytes[..HEADER_SIZE] == old(bytes[..HEADER_SIZE])
      ensures old(Valid(bytes)) && r.Ok? ==> Valid(bytes) && old(Data(bytes)).Append(w) == Ok(Data(bytes))
    {
      hide EncodeEntry, DecodeEntry, Bit;
      var offset := count;
      if offset >= WINNERS_PER_PAGE || bytes.Length < PAGE_SIZE {
        return Err(InvalidInstruction);
      }
      ghost var before := bytes[..];
      var start := EntryOffset(offset);
      WriteEntry(bytes, start, w);
      count := count + 1;
      assert bytes[..] == WithEntry(before, offset, w);
      WriteEntryFrame(before, offset, w);
      if old(Valid(bytes)) {
        assert Data(bytes).winners == old(Data(bytes)).winners + [w];
        assert Data(bytes).paid == old(Data(bytes)).paid;
      }
      return Ok(offset);
    }

    /** Copies wallet and ticket count into their place. */
    static method WriteEntry(bytes: array<bv8>, start: nat, w: SelectedWinner)
      requires start + ENTRY_SIZE <= bytes.Length
      modifies bytes
      ensures bytes[..] == old(bytes[..start]) + EncodeEntry(w) + old(bytes[start + ENTRY_SIZE..])
    {
      var tickets := ToLe(w.tickets, 8);
      forall i | 0 <= i < 32 {
        bytes[start + i] := w.wallet[i];
      }
      forall i | 0 <= i < 8 {
        bytes[start + 32 + i] := tickets[i];
      }
    }

    method Winner(bytes: array<bv8>, offset: nat) returns (w: Option<SelectedWinner>)
      ensures bytes.Length < PAGE_SIZE ==> w == None
      ensures Valid(bytes) ==> w == Data(bytes).Winner(offset)
    {
      if offset >= count || bytes.Length < PAGE_SIZE || count > WINNERS_PER_PAGE {
        return None;
      }
      var start := EntryOffset(offset);
      return Some(DecodeEntry(bytes[start..start + ENTRY_SIZE]));
    }

    predicate IsPaid(bytes: array<bv8>, offset: nat)
      requires count <= WINNERS_PER_PAGE
      reads this, bytes
      ensures Valid(bytes) ==> IsPaid(bytes, offset) == Data(bytes).IsPaid(offset)
    {
      offset < count && bytes.Length >= PAGE_SIZE && PaidBit(bytes[..], offset)
    }

    method MarkPaid(bytes: array<bv8>, offset: nat) returns (r: Result<()>)
      requires count <= WINNERS_PER_PAGE
      modifies bytes
      ensures r.Err? ==> unchanged(bytes)
      ensures r.Ok? ==>
                && offset < count && bytes.Length >= PAGE_SIZE
                && bytes[..] == WithBit(old(bytes[..]), offset)
                && bytes[..HEADER_SIZE] == old(bytes[..HEADER_SIZE])
      ensures old(Valid(bytes)) ==>
                match old(Data(bytes)).MarkPaid(offset)
                case Ok(d) => r.Ok? && Valid(bytes) && Data(bytes) == d
                case Err(e) => r == Err(e)
    {
      if offset >= count || bytes.Length < PAGE_SIZE || IsPaid(bytes, offset) {
        return Err(WinnerAlreadyPaid);
      }
      ghost var before := bytes[..];
      SetBitAt(bytes, BITMAP_OFFSET + offset / 8, offset % 8);
      assert bytes[..] == WithBit(before, offset);
      if old(Valid(bytes)) {
        DecodedWithBit(generation, pageIndex, count, before, offset);
      }
      hide EntryAt, PaidBit, WithBit, WellFormed;
      WriteBitFrame(before, offset);
      return Ok(());
    }

    static method SetBitAt(bytes: array<bv8>, p: nat, k: nat)
      requires p < bytes.Length && k < 8
      modifies bytes
      ensures bytes[..] == old(bytes[..])[p := old(bytes[p]) | Mask(k)]
    {
      bytes[p] := bytes[p] | Mask(k);
    }

    /** write_account_data for the header: discriminator and fields, never an entry or a bit. */
    method WriteHeader(bytes: array<bv8>, discriminator: Discriminator) returns (r: Result<()>)
      modifies bytes
      ensures bytes.Length < HEADER_SIZE ==> r == Err(InvalidAccountData) && unchanged(bytes)
      ensures bytes.Length >= HEADER_SIZE ==> r.Ok? && bytes[..] == WithHeader(old(bytes[..]), discriminator, Header())
      ensures old(Valid(bytes)) ==>
                && Valid(bytes) && Data(bytes) == old(Data(bytes))
                && bytes[..HEADER_SIZE] == EncodeHeader(discriminator, Header()) && ReadHeader(bytes[..]) == Header()
    {
      hide EncodeHeader, DecodeEntry, Bit, ReadHeader;
      if bytes.Length < HEADER_SIZE {
        return Err(InvalidAccountData);
      }
      ghost var before := bytes[..];
      var header := EncodeHeader(discriminator, Header());
      forall i | 0 <= i < HEADER_SIZE {
        bytes[i] := header[i];
      }
      assert bytes[..] == WithHeader(before, discriminator, Header());
      if bytes.Length >= PAGE_SIZE {
        WriteHeaderFrame(before, discriminator, Header());
      }
      return Ok(());
    }
  }
}
