/** What the bytes of a winner page spell after any history of recordings and payments. */
module PageHistories {
  import opened Prelude
  import opened Digests
  import opened WinnerPages

  datatype PageOp = Record(winner: SelectedWinner) | Pay(offset: nat)

  /** One operation on the account data of a page; a refused one changes nothing. */
  function AfterOp(site: PageSite, data: seq<bv8>, op: PageOp): seq<bv8> {
    var r := match op
             case Record(w) => RecordIn(data, site, w)
             case Pay(offset) => PayIn(data, site, offset);
    if r.Ok? then r.value else data
  }

  /** The account data after a whole history; the account does not exist at first. */
  function AfterOps(site: PageSite, ops: seq<PageOp>): seq<bv8> {
    if ops == [] then [] else AfterOp(site, AfterOps(site, ops[..|ops| - 1]), ops[|ops| - 1])
  }

  /** The winners of all recordings in a history, in order. */
  function Recorded(ops: seq<PageOp>): seq<SelectedWinner> {
    if ops == [] then []
    else Recorded(ops[..|ops| - 1]) + match ops[|ops| - 1] case Record(w) => [w] case Pay(_) => []
  }

  /** As many of them as fit on a page. */
  function Kept(ops: seq<PageOp>): (winners: seq<SelectedWinner>)
    ensures |winners| <= WINNERS_PER_PAGE
  {
    Recorded(ops)[..Min(|Recorded(ops)|, WINNERS_PER_PAGE)]
  }

  /** Some payment of offset k came after winner k had been recorded. */
  ghost predicate PaidIn(ops: seq<PageOp>, k: nat) {
    exists j :: 0 <= j < |ops| && ops[j] == Pay(k) && k < |Kept(ops[..j])|
  }

  /** Account data that spells a list of winners and a set of paid offsets, under the header of its page. */
  ghost predicate Spells(site: PageSite, data: seq<bv8>, winners: seq<SelectedWinner>, ops: seq<PageOp>)
    requires |winners| <= WINNERS_PER_PAGE
  {
    if winners == [] then data == []
    else
      && |data| == PAGE_SIZE
      && data[..HEADER_SIZE] == EncodeHeader(site.discriminator, site.Header(|winners|))
      && ReadHeader(data) == site.Header(|winners|)
      && (forall k :: 0 <= k < |winners| ==> EntryAt(data, k) == winners[k])
      && (forall k :: 0 <= k < WINNERS_PER_PAGE ==> (PaidBit(data, k) <==> PaidIn(ops, k)))
  }

  /**
   The bytes of a page after any history of recordings and payments, refused ones included. There is no account before
   the first recording. From then on the header decodes to the page's own identity and the number of winners, entry k
   decodes to the k-th recorded winner, and bit k is set exactly if offset k was paid after it had been recorded.
   */
  lemma {:induction false} PageHistory(site: PageSite, ops: seq<PageOp>)
    ensures var data, winners := AfterOps(site, ops), Kept(ops);
            if winners == [] then data == []
            else
              && |data| == PAGE_SIZE
              && data[..HEADER_SIZE] == EncodeHeader(site.discriminator, site.Header(|winners|))
              && ReadHeader(data) == PageHeader(site.lottery, site.generation, site.index, |winners|)
              && (forall k :: 0 <= k < |winners| ==> EntryAt(data, k) == winners[k])
              && (forall k :: 0 <= k < WINNERS_PER_PAGE ==> (PaidBit(data, k) <==> PaidIn(ops, k)))
  {
    hide EncodeHeader, ReadHeader, EntryAt, PaidBit, PaidIn, AfterOp;
    if ops != [] {
      var n := |ops| - 1;
      var before := AfterOps(site, ops[..n]);
      PageHistory(site, ops[..n]);
      match ops[n]
      case Record(w) => RecordSpells(site, before, ops, w);
      case Pay(offset) => PaySpells(site, before, ops, offset);
    }
  }

  /** Nothing can be paid before it has been recorded. */
  lemma PaidWasKept(ops: seq<PageOp>, k: nat)
    requires PaidIn(ops, k)
    ensures k < |Kept(ops)|
  {
    var j :| 0 <= j < |ops| && ops[j] == Pay(k) && k < |Kept(ops[..j])|;
    RecordedGrows(ops, j);
  }

  lemma {:induction false} RecordedGrows(ops: seq<PageOp>, j: nat)
    requires j <= |ops|
    ensures |Recorded(ops[..j])| <= |Recorded(ops)|
  {
    if j == |ops| {
      assert ops[..j] == ops;
    } else {
      assert ops[..|ops| - 1][..j] == ops[..j];
      RecordedGrows(ops[..|ops| - 1], j);
    }
  }

  lemma PaidInStep(ops: seq<PageOp>, k: nat)
    requires ops != []
    ensures var n := |ops| - 1;
            PaidIn(ops, k) <==> PaidIn(ops[..n], k) || (ops[n] == Pay(k) && k < |Kept(ops[..n])|)
  {
    hide Kept;
    var n := |ops| - 1;
    assert forall j :: 0 <= j <= n ==> ops[..n][..j] == ops[..j];
    if PaidIn(ops, k) {
      var j :| 0 <= j < |ops| && ops[j] == Pay(k) && k < |Kept(ops[..j])|;
      if j < n {
        assert ops[..n][j] == Pay(k) && k < |Kept(ops[..n][..j])|;
      }
    }
    if PaidIn(ops[..n], k) {
      var j :| 0 <= j < n && ops[..n][j] == Pay(k) && k < |Kept(ops[..n][..j])|;
      assert ops[j] == Pay(k) && k < |Kept(ops[..j])|;
    }
  }

  lemma RecordSpells(site: PageSite, before: seq<bv8>, ops: seq<PageOp>, w: SelectedWinner)
    requires ops != [] && ops[|ops| - 1] == Record(w)
    requires Spells(site, before, Kept(ops[..|ops| - 1]), ops[..|ops| - 1])
    ensures Spells(site, AfterOp(site, before, Record(w)), Kept(ops), ops)
  {
    hide EncodeHeader, ReadHeader, EntryAt, PaidBit, PaidIn, WithEntry, WithHeader;
    var n := |ops| - 1;
    var listed := Kept(ops[..n]);
    forall k | 0 <= k < WINNERS_PER_PAGE
      ensures PaidIn(ops, k) == PaidIn(ops[..n], k)
    {
      PaidInStep(ops, k);
    }
    if |listed| < WINNERS_PER_PAGE {
      assert Kept(ops) == listed + [w];
      var bytes := if before == [] then Zeros(PAGE_SIZE) else before;
      var written := WithEntry(bytes, |listed|, w);
      WriteEntryFrame(bytes, |listed|, w);
      WriteHeaderFrame(written, site.discriminator, site.Header(|listed| + 1));
      if before == [] {
        forall k | 0 <= k < WINNERS_PER_PAGE
          ensures !PaidBit(bytes, k) && !PaidIn(ops, k)
        {
          FreshBits(k);
          if PaidIn(ops[..n], k) {
            PaidWasKept(ops[..n], k);
          }
        }
      }
    } else {
      assert Kept(ops) == listed;
    }
  }

  lemma PaySpells(site: PageSite, before: seq<bv8>, ops: seq<PageOp>, offset: nat)
    requires ops != [] && ops[|ops| - 1] == Pay(offset)
    requires Spells(site, before, Kept(ops[..|ops| - 1]), ops[..|ops| - 1])
    ensures Spells(site, AfterOp(site, before, Pay(offset)), Kept(ops), ops)
  {
    hide EncodeHeader, ReadHeader, EntryAt, PaidBit, PaidIn, WithBit;
    var n := |ops| - 1;
    var listed := Kept(ops[..n]);
    assert Kept(ops) == listed;
    forall k | 0 <= k < WINNERS_PER_PAGE
      ensures PaidIn(ops, k) <==> PaidIn(ops[..n], k) || (k == offset && k < |listed|)
    {
      PaidInStep(ops, k);
    }
    if offset < |listed| {
      WriteBitFrame(before, offset);
      SameHeader(before, WithBit(before, offset));
    }
  }
}
