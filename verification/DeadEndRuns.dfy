/** The dead ends are reached: for each kind of stuck lottery a run from its creation, after which no run helps any more. */
module DeadEndRuns {
  import opened Prelude
  import opened Digests
  import opened Sums
  import opened Participants
  import opened VoteTallies
  import opened TicketDraw
  import opened DrawIndex
  import opened Lotteries
  import opened Payouts
  import opened Banks
  import opened States
  import opened Steps
  import opened Invariants
  import opened SimpleSteps
  import opened AttestationKeeps
  import opened DrawTheorems
  import opened Runs
  import opened ChunkSuccess
  import opened Progress
  import opened AccountClosings
  import opened DeadEnds
  import AttestReveal
  import BuyTickets

  // ----- a single participant -----

  /** One wallet alone buys one ticket for one lamport. */
  lemma LoneBuyer(s: State, w: Pubkey)
    requires s == Initial(s.h, s.config, Rents(1, 1), 0, 1, 0, 1, map[Wallet(w) := 10]) && Inv(s)
    ensures var t := After(s, Step.Buy(w, Some(ZERO32), 1));
            && t.lottery == s.lottery.(participantsCount := 1, totalTickets := 1, totalFunds := 1)
            && t.slot == map[w := 0] && t.rows == [ParticipantData.New(w, ZERO32, 1, 0)]
            && t.now == 1 && t.config == s.config
  {
    LoneOpen(s, w);
    hide Inv, Initial;
    FreshBuy(s, w, ZERO32);
  }

  lemma LoneOpen(s: State, w: Pubkey)
    requires s == Initial(s.h, s.config, Rents(1, 1), 0, 1, 0, 1, map[Wallet(w) := 10])
    ensures w !in s.slot && s.vaultOpen && s.rents == Rents(1, 1) && s.lottery == LotteryData.New(0, 1, 0, 1) && s.now == 1
    ensures s.rows == [] && s.slot == map[] && Balance(s.bank, Wallet(w)) == 10
  {
  }

  lemma LoneAttests(s: State, w: Pubkey)
    requires s.slot == map[w := 0] && s.rows == [ParticipantData.New(w, ZERO32, 1, 0)] && s.now == 1 + DAY_SECS
    requires s.lottery == LotteryData.New(0, 1, 0, 1).(participantsCount := 1, totalTickets := 1, totalFunds := 1)
    ensures var t := After(s, Attest(w, 1, true));
            t.lottery.participantsCount == 1 && t.lottery.attestedCount == 1 && !t.lottery.settled
  {
  }

  /**
   A single participant buys, the upload window opens, the participant attests, and from then on no run whatsoever
   settles the lottery or empties its vault.
   */
  lemma LoneAttesterIsStuck(h: Hashes, config: Config, w: Pubkey, steps: seq<Step>)
    requires config.Valid()
    ensures var s := Initial(h, config, Rents(1, 1), 0, 1, 0, 1, map[Wallet(w) := 10]);
            var t := Run(s, [Step.Buy(w, Some(ZERO32), 1), Tick(DAY_SECS), Attest(w, 1, true)]);
            Stuck(t) && !Run(t, steps).lottery.settled && !Drained(Run(t, steps))
  {
    var s := Initial(h, config, Rents(1, 1), 0, 1, 0, 1, map[Wallet(w) := 10]);
    var buy, tick, attest := Step.Buy(w, Some(ZERO32), 1), Tick(DAY_SECS), Attest(w, 1, true);
    var day: nat := DAY_SECS;
    hide *;
    LoneStart(h, config, w);
    LoneBuyer(s, w);
    var s1 := After(s, buy);
    TickAfter(s1, day);
    var s2 := After(s1, tick);
    LoneAttests(s2, w);
    RunOne(s2, attest);
    RunsAfter(s1, tick, [attest]);
    RunsAfter(s, buy, [tick] + [attest]);
    assert [buy] + ([tick] + [attest]) == [buy, tick, attest];
    var t := Run(s, [buy, tick, attest]);
    RunKeeps(s, [buy, tick, attest]);
    StuckMeans(t);
    StuckForever(t, steps);
  }

  lemma LoneStart(h: Hashes, config: Config, w: Pubkey)
    requires config.Valid()
    ensures var s := Initial(h, config, Rents(1, 1), 0, 1, 0, 1, map[Wallet(w) := 10]);
            && Inv(s) && s.lottery == LotteryData.New(0, 1, 0, 1)
            && s == Initial(s.h, s.config, Rents(1, 1), 0, 1, 0, 1, map[Wallet(w) := 10])
  {
    hide Inv;
    var bank: Bank := map[Wallet(w) := 10];
    TotalUpdate(map[], Wallet(w), 10);
    TotalUpdate(bank, Vault, 1);
    InitialInv(h, config, Rents(1, 1), 0, 1, 0, 1, bank);
  }

  // ----- first purchases -----

  lemma OpenFresh(s: State, w: Pubkey, hash: Bytes32)
    requires w !in s.slot && s.lottery.participantsCount < MAX_PARTICIPANTS
    requires Balance(s.bank, Wallet(w)) >= s.rents.participant
    ensures BuyTickets.Open(s, w, Some(hash))
         == Ok(s.(lottery := s.lottery.(participantsCount := s.lottery.participantsCount + 1),
                  rows := s.rows + [ParticipantData.New(w, hash, 0, s.lottery.participantsCount)],
                  slot := s.slot[w := |s.rows|],
                  bank := Transfer(s.bank, Wallet(w), ParticipantAccount(w), s.rents.participant)))
  {
  }

  lemma PayFresh(s: State, w: Pubkey, cost: nat)
    requires s.Live(w) && s.rows[s.slot[w]].tickets == 0 && Balance(s.bank, Wallet(w)) >= cost
    requires s.lottery.totalTickets < U64_MAX && s.lottery.totalFunds + cost <= U64_MAX
    ensures BuyTickets.Pay(s, w, 1, cost)
         == Ok(s.(rows := s.rows[s.slot[w] := s.rows[s.slot[w]].(tickets := 1)],
                  lottery := s.lottery.(totalTickets := s.lottery.totalTickets + 1, totalFunds := s.lottery.totalFunds + cost),
                  bank := Transfer(s.bank, Wallet(w), Vault, cost)))
  {
  }

  lemma CostOne(s: State, w: Pubkey)
    requires w !in s.slot && s.vaultOpen && !s.lottery.settled && s.lottery.price == 1
    requires s.lottery.InBuyWindow(s.now)
    ensures BuyTickets.Cost(s, w, 1) == Ok(1)
  {
  }

  lemma ApplyFresh(s: State, w: Pubkey, hash: Bytes32, entered: State)
    requires w !in s.slot && BuyTickets.Cost(s, w, 1) == Ok(1)
    requires BuyTickets.Open(s, w, Some(hash)) == Ok(entered) && entered.Live(w)
    ensures BuyTickets.Apply(s, w, Some(hash), 1) == BuyTickets.Pay(entered, w, 1, 1)
  {
    hide BuyTickets.Pay, BuyTickets.Open, BuyTickets.Cost;
  }

  /** The vault is open, tickets cost one lamport, and purchases are accepted. */
  ghost predicate Selling(s: State) {
    && s.vaultOpen && !s.lottery.settled && s.lottery.price == 1 && s.rents == Rents(1, 1)
    && s.lottery.InBuyWindow(s.now) && s.lottery.participantsCount == |s.rows| < MAX_PARTICIPANTS
    && s.lottery.totalTickets < U64_MAX && s.lottery.totalFunds < U64_MAX
  }

  /** What a newcomer's first purchase of one ticket changes, apart from balances. */
  function AfterFresh(s: State, w: Pubkey, hash: Bytes32, bank: Bank): State {
    s.(lottery := s.lottery.(participantsCount := |s.rows| + 1, totalTickets := s.lottery.totalTickets + 1,
                             totalFunds := s.lottery.totalFunds + 1),
       rows := s.rows + [ParticipantData.New(w, hash, 1, |s.rows|)], slot := s.slot[w := |s.rows|], bank := bank)
  }

  lemma FreshApplies(s: State, w: Pubkey, hash: Bytes32) returns (bank: Bank)
    requires Selling(s) && w !in s.slot && Balance(s.bank, Wallet(w)) >= 2 && Total(s.bank) <= U64_MAX
    ensures BuyTickets.Apply(s, w, Some(hash), 1) == Ok(AfterFresh(s, w, hash, bank))
    ensures forall v :: v != w ==> Balance(bank, Wallet(v)) == Balance(s.bank, Wallet(v))
  {
    hide BuyTickets.Apply, BuyTickets.Pay, BuyTickets.Open, BuyTickets.Cost, Transfer, Balance;
    CostOne(s, w);
    OpenFresh(s, w, hash);
    TransferExact(s.bank, Wallet(w), ParticipantAccount(w), 1);
    var entered := BuyTickets.Open(s, w, Some(hash)).value;
    ApplyFresh(s, w, hash, entered);
    PayFresh(entered, w, 1);
    TransferExact(entered.bank, Wallet(w), Vault, 1);
    bank := Transfer(entered.bank, Wallet(w), Vault, 1);
    assert entered.rows[|s.rows| := entered.rows[|s.rows|].(tickets := 1)]
        == s.rows + [ParticipantData.New(w, hash, 1, |s.rows|)];
  }

  /** The state after a newcomer's first purchase of one ticket. */
  lemma FreshBuy(s: State, w: Pubkey, hash: Bytes32)
    requires Inv(s) && Selling(s) && w !in s.slot && Balance(s.bank, Wallet(w)) >= 2
    ensures var t := After(s, Step.Buy(w, Some(hash), 1));
            && Inv(t) && t == AfterFresh(s, w, hash, t.bank)
            && forall v :: v != w ==> Balance(t.bank, Wallet(v)) == Balance(s.bank, Wallet(v))
  {
    var step := Step.Buy(w, Some(hash), 1);
    hide *;
    Parts(s);
    BankFits(s.lottery, s.rows, s.rents, s.bank, s.vaultOpen, s.donated, s.credited);
    var bank := FreshApplies(s, w, hash);
    FreshBank(s, w, hash, bank);
    AfterMeans(s, step);
    NextMeans(s, step);
    StepKeeps(s, step);
  }

  lemma FreshBank(s: State, w: Pubkey, hash: Bytes32, bank: Bank)
    ensures AfterFresh(s, w, hash, bank).bank == bank
  {
  }

  // ----- three participants who vote for two winners -----

  /** A participant of the scenario, with the phrase behind the proof hash. */
  datatype Player = Player(wallet: Pubkey, phrase: seq<bv8>)

  /** Three different wallets with phrases that fit a reveal. */
  ghost predicate Cast(ps: seq<Player>) {
    && |ps| == 3
    && (forall i, j :: 0 <= i < j < 3 ==> ps[i].wallet != ps[j].wallet)
    && forall i :: 0 <= i < 3 ==> 0 < |ps[i].phrase| <= MAX_REVEAL_PLAINTEXT_BYTES
  }

  function Purse(ps: seq<Player>): Bank
    requires |ps| == 3
  {
    map[Wallet(ps[0].wallet) := 10, Wallet(ps[1].wallet) := 10, Wallet(ps[2].wallet) := 10]
  }

  function Buying(h: Hashes, p: Player): Step {
    Step.Buy(p.wallet, Some(h.commitment(p.phrase)), 1)
  }

  function Revealing(p: Player): Step {
    Step.Reveal(p.wallet, 2, p.phrase)
  }

  /** Each buys one ticket for one lamport, the upload window opens, and each reveals, voting for two winners. */
  function Script(h: Hashes, ps: seq<Player>): seq<Step>
    requires |ps| == 3
  {
    [Buying(h, ps[0]), Buying(h, ps[1]), Buying(h, ps[2]), Tick(DAY_SECS),
     Revealing(ps[0]), Revealing(ps[1]), Revealing(ps[2])]
  }

  function Bought(h: Hashes, p: Player, i: nat): ParticipantData {
    ParticipantData.New(p.wallet, h.commitment(p.phrase), 1, i)
  }

  function LotteryAfter(bps: nat, n: nat): LotteryData {
    LotteryData.New(0, 1, bps, 1).(participantsCount := n, totalTickets := n, totalFunds := n)
  }

  /** The first n players have bought their tickets. */
  ghost predicate InSale(s: State, h: Hashes, config: Config, bps: nat, ps: seq<Player>, n: nat)
    requires Cast(ps) && n <= 3
  {
    && Inv(s) && s.h == h && s.config == config && s.now == 1 && s.rents == Rents(1, 1) && s.vaultOpen
    && s.lottery == LotteryAfter(bps, n)
    && |s.rows| == n && (forall i :: 0 <= i < n ==> s.rows[i] == Bought(h, ps[i], i))
    && forall i :: n <= i < 3 ==> Balance(s.bank, Wallet(ps[i].wallet)) == 10
  }

  lemma SaleStart(h: Hashes, config: Config, bps: nat, ps: seq<Player>)
    requires config.Valid() && bps < 10_000 && Cast(ps)
    ensures InSale(Initial(h, config, Rents(1, 1), 0, 1, bps, 1, Purse(ps)), h, config, bps, ps, 0)
  {
    hide Inv;
    var b0: Bank := map[];
    var b1 := b0[Wallet(ps[0].wallet) := 10];
    var b2 := b1[Wallet(ps[1].wallet) := 10];
    var b3 := b2[Wallet(ps[2].wallet) := 10];
    TotalUpdate(b0, Wallet(ps[0].wallet), 10);
    TotalUpdate(b1, Wallet(ps[1].wallet), 10);
    TotalUpdate(b2, Wallet(ps[2].wallet), 10);
    TotalUpdate(b3, Vault, 1);
    assert b3 == Purse(ps);
    InitialInv(h, config, Rents(1, 1), 0, 1, bps, 1, b3);
  }

  lemma NotYetIn(s: State, h: Hashes, config: Config, bps: nat, ps: seq<Player>, n: nat)
    requires Cast(ps) && n < 3 && InSale(s, h, config, bps, ps, n) && Registered(s.lottery, s.rows, s.slot)
    ensures ps[n].wallet !in s.slot && Selling(s)
  {
    hide Inv;
    assert forall i :: 0 <= i < n ==> s.rows[i].wallet == ps[i].wallet;
  }

  lemma SaleStep(s: State, h: Hashes, config: Config, bps: nat, ps: seq<Player>, n: nat)
    requires Cast(ps) && n < 3 && InSale(s, h, config, bps, ps, n)
    ensures InSale(After(s, Buying(h, ps[n])), h, config, bps, ps, n + 1)
  {
    hide Inv, After, Registered, Balance;
    Parts(s);
    NotYetIn(s, h, config, bps, ps, n);
    FreshBuy(s, ps[n].wallet, h.commitment(ps[n].phrase));
  }

  /** The lottery account once k of the three have revealed. */
  ghost predicate WindowOpen(l: LotteryData, bps: nat, k: nat) {
    && l.participantsCount == 3 && l.totalFunds == 3 && l.bps == bps && l.id == 0 && !l.settled
    && l.attestedCount == k && l.providerUploaded == k
    && l.uploadStart == 1 + DAY_SECS && l.uploadDeadline == 1 + 2 * DAY_SECS && l.remediationDeadline == 0
    && (k < 3 ==> l.settlementStart == 0)
  }

  ghost predicate Shown(p: ParticipantData) {
    p.attested && p.revealIncluded && p.vote == 2 && p.tickets == 1
  }

  /** The first k players have attested and revealed. */
  ghost predicate InReveal(s: State, h: Hashes, config: Config, bps: nat, ps: seq<Player>, k: nat)
    requires Cast(ps) && k <= 3
  {
    && Inv(s) && s.h == h && s.config == config && s.now == 1 + DAY_SECS
    && WindowOpen(s.lottery, bps, k)
    && |s.rows| == 3 && (forall i :: 0 <= i < k ==> Shown(s.rows[i]))
    && (forall i :: k <= i < 3 ==> s.rows[i] == Bought(h, ps[i], i))
    && (s.tally.Some? ==> s.tally.value.processedCount == k)
  }

  lemma SaleOver(s: State, h: Hashes, config: Config, bps: nat, ps: seq<Player>)
    requires Cast(ps) && InSale(s, h, config, bps, ps, 3)
    ensures InReveal(After(s, Tick(DAY_SECS)), h, config, bps, ps, 0)
  {
    hide Inv, After;
    var day: nat := DAY_SECS;
    TickAfter(s, day);
    StepKeeps(s, Tick(day));
    Parts(s);
    NoTallyYet(s.lottery, s.MaxWinners(), Pool(s.rows), s.tally, IsSelecting(s.root));
  }

  lemma NoTallyYet(l: LotteryData, cap: nat, pool: seq<Entry>, tally: Option<Tally>, selecting: bool)
    requires Voted(l, cap, pool, tally, selecting) && l.attestedCount == 0
    ensures tally.None?
  {
  }

  /** An AttestReveal that is admitted succeeds. */
  lemma RevealApplies(s: State, wallet: Pubkey, voted: U64, phrase: seq<bv8>, p: ParticipantData)
    requires AttestReveal.Admit(s, wallet, voted, phrase) == Ok(p) && s.Live(wallet)
    requires s.lottery.participantsCount >= 2 && s.lottery.attestedCount < U64_MAX
    requires s.tally.Some? ==> s.tally.value.maxWinners == s.MaxWinners() && s.tally.value.processedCount < U64_MAX
    ensures AttestReveal.Apply(s, wallet, voted, phrase).Ok?
  {
    hide AttestReveal.Admit, AttestReveal.Advanced;
    RevealAdmitted(s, wallet, voted, phrase);
    var digest := s.h.disclosure(wallet, phrase);
    var q := AttestReveal.Attested(p, voted, s.now, digest).value;
    var l1 := AttestReveal.Counted(s.lottery, digest).value;
    TallyApplies(s, l1.attestedCount, q);
    SelectionApplies(l1, AttestReveal.Tallied(s, l1.attestedCount, q).value);
  }

  lemma TallyApplies(s: State, attested: nat, p: ParticipantData)
    requires s.tally.Some? ==> s.tally.value.maxWinners == s.MaxWinners() && s.tally.value.processedCount < U64_MAX
    ensures AttestReveal.Tallied(s, attested, p).Ok?
  {
  }

  lemma SelectionApplies(l: LotteryData, t: Tally)
    requires l.participantsCount >= 2
    ensures AttestReveal.WithSelection(l, t).Ok?
  {
  }

  lemma TwoAllowed(s: State)
    requires s.config.Valid() && s.config.maxWinnersCap >= 2 && s.lottery.participantsCount == 3
    ensures s.MaxWinners() == 2
  {
  }

  lemma Admitted(s: State, h: Hashes, config: Config, bps: nat, ps: seq<Player>, k: nat)
    requires Cast(ps) && k < 3 && InReveal(s, h, config, bps, ps, k) && s.MaxWinners() == 2 && AllOpen(s.rows, s.slot)
    ensures s.Live(ps[k].wallet) && s.slot[ps[k].wallet] == k
    ensures AttestReveal.Admit(s, ps[k].wallet, 2, ps[k].phrase) == Ok(s.rows[k])
  {
    hide Inv;
    assert s.rows[k] == Bought(h, ps[k], k);
  }

  lemma TallyCap(l: LotteryData, cap: nat, pool: seq<Entry>, tally: Option<Tally>, selecting: bool)
    requires Voted(l, cap, pool, tally, selecting)
    ensures tally.Some? ==> tally.value.maxWinners == cap
  {
  }

  lemma Reveals(s: State, u: State, h: Hashes, config: Config, bps: nat, ps: seq<Player>, k: nat, digest: Bytes32, t: Tally)
    requires Cast(ps) && k < 3 && InReveal(s, h, config, bps, ps, k) && Inv(u)
    requires u == s.(rows := s.rows[k := Revealer(s.rows[k], 2, s.now, digest)], lottery := u.lottery, tally := Some(t))
    requires RevealedLottery(s.lottery, u.lottery, s.now, digest, t) && t.processedCount == k + 1
    ensures InReveal(u, h, config, bps, ps, k + 1)
  {
    hide Inv;
    assert s.rows[k] == Bought(h, ps[k], k);
    assert Shown(u.rows[k]);
  }

  /** The next player's reveal is accepted. */
  lemma RevealAccepted(s: State, h: Hashes, config: Config, bps: nat, ps: seq<Player>, k: nat)
    requires Cast(ps) && k < 3 && InReveal(s, h, config, bps, ps, k) && config.Valid() && config.maxWinnersCap >= 2
    ensures ps[k].wallet in s.slot && s.slot[ps[k].wallet] == k
    ensures AttestReveal.Apply(s, ps[k].wallet, 2, ps[k].phrase).Ok?
    ensures s.tally.None? ==> k == 0
  {
    hide Inv, Registered, Counted, Voted, Settling, AttestReveal.Apply, AttestReveal.Admit, AllOpen, Bought;
    Parts(s);
    TwoAllowed(s);
    NotSettled(s.lottery, s.root, s.pages);
    OpenAccounts(s.lottery, s.MaxWinners(), s.rows, s.slot);
    Admitted(s, h, config, bps, ps, k);
    TallyCap(s.lottery, s.MaxWinners(), Pool(s.rows), s.tally, IsSelecting(s.root));
    FirstTally(s.lottery, s.MaxWinners(), Pool(s.rows), s.tally, IsSelecting(s.root), s.rows, k);
    RevealApplies(s, ps[k].wallet, 2, ps[k].phrase, s.rows[k]);
  }

  lemma RevealStep(s: State, h: Hashes, config: Config, bps: nat, ps: seq<Player>, k: nat)
    requires Cast(ps) && k < 3 && InReveal(s, h, config, bps, ps, k) && config.Valid() && config.maxWinnersCap >= 2
    ensures InReveal(After(s, Revealing(ps[k])), h, config, bps, ps, k + 1)
  {
    hide Inv, After, Next, RevealedLottery, AttestReveal.Apply, AttestReveal.Tallied, Revealer, Bought;
    var step := Revealing(ps[k]);
    RevealAccepted(s, h, config, bps, ps, k);
    var t := RevealEffect(s, ps[k].wallet, 2, ps[k].phrase);
    AfterMeans(s, step);
    NextMeans(s, step);
    StepKeeps(s, step);
    var digest := s.h.disclosure(ps[k].wallet, ps[k].phrase);
    CountTally(s, s.lottery.attestedCount + 1, Revealer(s.rows[k], 2, s.now, digest));
    Reveals(s, After(s, step), h, config, bps, ps, k, digest, t);
  }

  lemma CountTally(s: State, attested: nat, p: ParticipantData)
    requires AttestReveal.Tallied(s, attested, p).Ok?
    ensures AttestReveal.Tallied(s, attested, p).value.processedCount
         == 1 + if s.tally.Some? then s.tally.value.processedCount else 0
  {
  }

  /** Without a tally nobody has revealed yet. */
  lemma FirstTally(l: LotteryData, cap: nat, pool: seq<Entry>, tally: Option<Tally>, selecting: bool,
                   rows: seq<ParticipantData>, k: nat)
    requires Voted(l, cap, pool, tally, selecting) && pool == Pool(rows) && k <= |rows|
    requires forall i :: 0 <= i < k ==> Shown(rows[i])
    ensures tally.None? ==> k == 0
  {
    if k > 0 {
      assert Shown(rows[0]);
      assert pool[0].shown.Some?;
    }
  }

  /** The whole script leads to a lottery in which all three have revealed. */
  lemma ScriptRuns(h: Hashes, config: Config, bps: nat, ps: seq<Player>)
    requires config.Valid() && config.maxWinnersCap >= 2 && bps < 10_000 && Cast(ps)
    ensures InReveal(Run(Initial(h, config, Rents(1, 1), 0, 1, bps, 1, Purse(ps)), Script(h, ps)), h, config, bps, ps, 3)
  {
    hide Inv, After, Initial, InSale, InReveal;
    var s0 := Initial(h, config, Rents(1, 1), 0, 1, bps, 1, Purse(ps));
    var script := Script(h, ps);
    SaleStart(h, config, bps, ps);
    RunNone(s0);
    assert script[..0] == [];
    RunPrefix(s0, script, 0);
    SaleStep(Run(s0, script[..0]), h, config, bps, ps, 0);
    RunPrefix(s0, script, 1);
    SaleStep(Run(s0, script[..1]), h, config, bps, ps, 1);
    RunPrefix(s0, script, 2);
    SaleStep(Run(s0, script[..2]), h, config, bps, ps, 2);
    RunPrefix(s0, script, 3);
    SaleOver(Run(s0, script[..3]), h, config, bps, ps);
    RunPrefix(s0, script, 4);
    RevealStep(Run(s0, script[..4]), h, config, bps, ps, 0);
    RunPrefix(s0, script, 5);
    RevealStep(Run(s0, script[..5]), h, config, bps, ps, 1);
    RunPrefix(s0, script, 6);
    RevealStep(Run(s0, script[..6]), h, config, bps, ps, 2);
    assert script[..7] == script;
  }

  lemma RunPrefix(s: State, steps: seq<Step>, n: nat)
    requires n < |steps|
    ensures Run(s, steps[..n + 1]) == After(Run(s, steps[..n]), steps[n])
  {
    hide After;
    assert steps[..n + 1][..n] == steps[..n];
  }

  // ----- what the script leads to -----

  /** With three revealed tickets that all ask for two winners, two is the only possible target. */
  lemma TargetIsTwo(pool: seq<Entry>, target: nat)
    requires |pool| == 3 && TargetOf(pool, 2, target)
    requires forall i :: 0 <= i < 3 ==> pool[i].shown.Some? && pool[i].shown.value.vote == 2 && pool[i].tickets == 1
    ensures target == 2
  {
    var votes: nat :| WinsVote(pool, 2, votes) && target == Min(Min(votes, 2), Sum(pool, EligibleOne()));
    SumIndicator(pool, EligibleOne());
    SumElement(pool, 0, VoteWeight(2));
    SumZero(pool, VoteWeight(1));
    assert WeightOf(pool, 2) > 0;
  }

  /** All three tickets are in the draw. */
  lemma ThreeTickets(pool: seq<Entry>)
    requires |pool| == 3 && forall i :: 0 <= i < 3 ==> pool[i].shown.Some? && pool[i].tickets == 1
    ensures |TicketList(pool, [])| == 3
  {
    TicketListAll(pool);
    SumIndicator(pool, EligibleTickets());
  }

  lemma ScriptPool(s: State, h: Hashes, config: Config, bps: nat, ps: seq<Player>)
    requires Cast(ps) && InReveal(s, h, config, bps, ps, 3)
    ensures var pool := Pool(s.rows);
            && |pool| == 3
            && forall i :: 0 <= i < 3 ==> pool[i].shown.Some? && pool[i].shown.value.vote == 2 && pool[i].tickets == 1
    ensures AllIncluded(s.lottery, s.now) && s.lottery.attestedCount == 3 && s.lottery.participantsCount == 3
    ensures !s.lottery.settled && s.lottery.totalFunds == 3 && s.lottery.bps == bps && s.h == h && s.config == config && Inv(s)
  {
    hide Inv;
    assert forall i :: 0 <= i < 3 ==> Shown(s.rows[i]);
  }

  lemma UnpayableIsStuck(s: State, steps: seq<Step>)
    requires Inv(s) && AllIncluded(s.lottery, s.now) && !s.lottery.settled && s.lottery.attestedCount > 0 && !CanPayOut(s)
    ensures Stuck(s) && !Run(s, steps).lottery.settled && !Drained(Run(s, steps))
  {
    hide *;
    StuckMeans(s);
    StuckForever(s, steps);
  }

  /** Three lamports at a fee of 99.99 percent leave one, which two winners cannot share. */
  lemma OneLamportLeft()
    ensures PayoutPlan(3, 9_999, 2).Err?
  {
  }

  /** With two as the only target, an impossible split or an impossible draw rules out a payout. */
  lemma CannotPayTwo(s: State)
    requires var pool := Pool(s.rows);
             && |pool| == 3 && s.MaxWinners() == 2
             && (forall i :: 0 <= i < 3 ==> pool[i].shown.Some? && pool[i].shown.value.vote == 2 && pool[i].tickets == 1)
             && (|| PayoutPlan(s.lottery.totalFunds, s.lottery.bps, 2).Err?
                 || (SmallPool(pool) ==> Winners(s.h, SeedFor(s.h, s.lottery.id, pool), pool, 2).None?))
    ensures !CanPayOut(s)
  {
    if CanPayOut(s) {
      var target := CanPayOutWith(s);
      hide CanPayOut, Winners, PayoutPlan, TargetOf, SeedFor;
      TargetIsTwo(Pool(s.rows), target);
      assert false;
    }
  }

  /**
   A pot too small for its winners: three participants buy a ticket of one lamport each at a fee of 99.99 percent, all
   reveal and ask for two winners, and from then on no run whatsoever settles the lottery or empties its vault.
   */
  lemma PotTooSmallIsStuck(h: Hashes, config: Config, ps: seq<Player>, steps: seq<Step>)
    requires config.Valid() && config.maxWinnersCap >= 2 && Cast(ps)
    ensures var t := Run(Initial(h, config, Rents(1, 1), 0, 1, 9_999, 1, Purse(ps)), Script(h, ps));
            && t.lottery.participantsCount == 3 && t.lottery.attestedCount == 3
            && Stuck(t) && !Run(t, steps).lottery.settled && !Drained(Run(t, steps))
  {
    hide Run, Initial, Inv, InReveal, Stuck, Drained, CanPayOut, AllIncluded, Pool, PayoutPlan;
    var t := Run(Initial(h, config, Rents(1, 1), 0, 1, 9_999, 1, Purse(ps)), Script(h, ps));
    ScriptRuns(h, config, 9_999, ps);
    ScriptPool(t, h, config, 9_999, ps);
    TwoAllowed(t);
    OneLamportLeft();
    CannotPayTwo(t);
    UnpayableIsStuck(t, steps);
  }

  /** If every attempt yields zero, which is always rejected when three tickets remain, the first round cannot be drawn. */
  lemma NoDraw(h: Hashes, seed: Bytes32, pool: seq<Entry>)
    requires forall seed, round, n :: h.sample(seed, round, n) == 0
    requires |pool| == 3 && SmallPool(pool) && forall i :: 0 <= i < 3 ==> pool[i].shown.Some? && pool[i].tickets == 1
    ensures Winners(h, seed, pool, 2).None?
  {
    SumIndicator(pool, EligibleOne());
    ThreeTickets(pool);
    OnlyRejectionFails(h, seed, pool, 0);
    assert !Accepted(0, 3);
    assert Winners(h, seed, pool, 1).None?;
  }

  /**
   A draw that is always rejected: with the same three participants, any fee, and hashes whose samples are all zero, no
   run whatsoever settles the lottery or empties its vault.
   */
  lemma RejectedDrawIsStuck(h: Hashes, config: Config, bps: nat, ps: seq<Player>, steps: seq<Step>)
    requires config.Valid() && config.maxWinnersCap >= 2 && bps < 10_000 && Cast(ps)
    requires forall seed, round, n :: h.sample(seed, round, n) == 0
    ensures var t := Run(Initial(h, config, Rents(1, 1), 0, 1, bps, 1, Purse(ps)), Script(h, ps));
            && t.lottery.participantsCount == 3 && t.lottery.attestedCount == 3
            && Stuck(t) && !Run(t, steps).lottery.settled && !Drained(Run(t, steps))
  {
    hide Run, Initial, Inv, InReveal, Stuck, Drained, CanPayOut, AllIncluded, Pool, SeedFor, Winners, SmallPool;
    var t := Run(Initial(h, config, Rents(1, 1), 0, 1, bps, 1, Purse(ps)), Script(h, ps));
    ScriptRuns(h, config, bps, ps);
    ScriptPool(t, h, config, bps, ps);
    TwoAllowed(t);
    if SmallPool(Pool(t.rows)) {
      NoDraw(h, SeedFor(h, t.lottery.id, Pool(t.rows)), Pool(t.rows));
    }
    CannotPayTwo(t);
    UnpayableIsStuck(t, steps);
  }
}
