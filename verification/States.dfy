/** Everything one lottery keeps on chain, as a value and as mutable account storage. */
module States {
  import opened Prelude
  import opened Digests
  import opened Participants
  import opened VoteTallies
  import opened WinnerPages
  import opened FinalizationLedgers
  import opened Lotteries
  import opened Payouts
  import opened Banks

  /** Rent-exempt minimums of the accounts whose rent the program moves. */
  datatype Rents = Rents(vault: nat, participant: nat)

  /**
   The on-chain state of one lottery.
   `rows` holds participant accounts in the order in which they were created and `slot` maps a wallet to the
   row of its live account; closing an account removes its slot, and the row keeps the account's last value.
   `donated` and `credited` are history: lamports outsiders have sent to the vault address since the vault was created
   (or, once it has been swept, since then), and lamports the program has moved out of the vault for each winner index.
   */
  datatype State = State(
    h: Hashes,
    config: Config,
    rents: Rents,
    now: int,
    lottery: LotteryData,
    rows: seq<ParticipantData>,
    slot: map<Pubkey, nat>,
    tally: Option<Tally>,
    root: Option<LedgerData>,
    pages: map<nat, PageData>,
    bank: Bank,
    vaultOpen: bool,
    donated: nat,
    credited: map<nat, nat>)
  {
    /** The live participant account of a wallet, if there is one. */
    predicate Live(w: Pubkey) {
      w in slot && slot[w] < |rows|
    }

    function Participant(w: Pubkey): Result<ParticipantData> {
      if Live(w) then Ok(rows[slot[w]]) else Err(InvalidAccountData)
    }

    function WithParticipant(w: Pubkey, p: ParticipantData): State
      requires Live(w)
    {
      this.(rows := rows[slot[w] := p])
    }

    function WithLottery(l: LotteryData): State {
      this.(lottery := l)
    }

    function MaxWinners(): nat {
      config.EffectiveMaxWinners(lottery.participantsCount)
    }

    /** Loads the tally account, or creates it on first use. */
    function LoadTally(attested: nat, mismatch: Error): Result<Tally> {
      match tally
      case None => Ok(TallyData.New(MaxWinners(), attested))
      case Some(t) => if t.maxWinners != MaxWinners() then Err(mismatch) else Ok(t)
    }
  }

  /** A freshly created lottery with its vault, before any participant. */
  function Initial(h: Hashes, config: Config, rents: Rents, id: nat, now: int, bps: nat, price: nat, bank: Bank): State {
    State(h, config, rents, now, LotteryData.New(id, now, bps, price), [], map[], None, None, map[],
          bank[Vault := rents.vault], true, 0, map[])
  }

  /** Every page account holds a page of this lottery, its header included. */
  ghost predicate ValidFiles(files: map<nat, seq<bv8>>, discriminator: Discriminator, lottery: Pubkey) {
    forall i :: i in files ==> ValidFile(files[i], discriminator, lottery)
  }

  /** The pages that the account data spell. */
  ghost function PagesOf(files: map<nat, seq<bv8>>): map<nat, PageData>
    requires forall i :: i in files ==> |files[i]| >= PAGE_SIZE && ReadHeader(files[i]).count <= WINNERS_PER_PAGE
  {
    map i | i in files :: PageOf(files[i])
  }

  /** Storing one page changes that page and no other. */
  lemma PagesOfUpdate(files: map<nat, seq<bv8>>, discriminator: Discriminator, lottery: Pubkey, i: nat, f: seq<bv8>)
    requires ValidFiles(files, discriminator, lottery) && ValidFile(f, discriminator, lottery)
    ensures ValidFiles(files[i := f], discriminator, lottery)
    ensures PagesOf(files[i := f]) == PagesOf(files)[i := PageOf(f)]
  {
    hide PageOf, ReadHeader, EncodeHeader;
  }

  /** Account storage: what instructions load from and, when they succeed, write back to. */
  class Accounts {
    const h: Hashes
    const config: Config
    const rents: Rents
    const address: Pubkey
    const discriminator: Discriminator
    var now: int
    var lottery: LotteryData
    var rows: seq<ParticipantData>
    var slot: map<Pubkey, nat>
    var tally: Option<Tally>
    var root: Option<LedgerData>
    var pageFiles: map<nat, seq<bv8>>
    var bank: Bank
    var vaultOpen: bool
    ghost var donated: nat
    ghost var credited: map<nat, nat>

    ghost predicate Valid()
      reads this
    {
      ValidFiles(pageFiles, discriminator, address)
    }

    ghost function Snapshot(): State
      requires Valid()
      reads this
    {
      State(h, config, rents, now, lottery, rows, slot, tally, root, PagesOf(pageFiles), bank, vaultOpen, donated, credited)
    }

    constructor (h: Hashes, config: Config, rents: Rents, address: Pubkey, discriminator: Discriminator,
                 id: nat, now: int, bps: nat, price: nat, bank: Bank)
      ensures Valid() && Snapshot() == Initial(h, config, rents, id, now, bps, price, bank)
    {
      this.h, this.config, this.rents, this.now := h, config, rents, now;
      this.address, this.discriminator := address, discriminator;
      lottery := LotteryData.New(id, now, bps, price);
      rows, slot, tally, root, pageFiles := [], map[], None, None, map[];
      this.bank := bank[Vault := rents.vault];
      vaultOpen := true;
      donated := 0;
      credited := map[];
    }

    predicate Live(w: Pubkey)
      reads this
    {
      w in slot && slot[w] < |rows|
    }
  }
}
