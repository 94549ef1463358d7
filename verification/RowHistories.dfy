/** What no step ever changes about a participant, and where every included reveal comes from. */
module RowHistories {
  import opened Prelude
  import opened Digests
  import opened Participants
  import opened Lotteries
  import opened Payouts
  import opened Banks
  import opened States
  import opened Steps
  import opened Invariants
  import opened SimpleSteps
  import opened BuyingKeeps
  import opened AggregationKeeps
  import opened FinalizationKeeps
  import opened FrozenPool
  import opened MoneyTheorems
  import opened Runs
  import opened BuyAdmission
  import opened VoteAdmission
  import opened UploadAdmission
  import FinalizeWinners
  import PayoutKeeps
  import SettlePayoutBatch
  import UploadKeeps

  /** The digest is that of a phrase whose hash the participant committed to when joining. */
  ghost predicate Honest(h: Hashes, p: ParticipantData) {
    exists phrase :: |phrase| <= 49
                     && h.commitment(phrase) == p.proofHash && p.revealDigest == h.disclosure(p.wallet, phrase)
  }

  /**
   The same person at the same place with the same proof hash and at least as many tickets. An attestation, with its vote,
   its time and the tickets it weighs, an included digest and a claimed refund are there to stay.
   */
  ghost predicate RowGrows(p: ParticipantData, q: ParticipantData) {
    && q.wallet == p.wallet && q.proofHash == p.proofHash && q.index == p.index && q.tickets >= p.tickets
    && (p.attested ==> q.attested && q.vote == p.vote && q.attestedAt == p.attestedAt && q.tickets == p.tickets)
    && (p.revealIncluded ==> q.revealIncluded && q.revealDigest == p.revealDigest)
    && (p.refundClaimed ==> q.refundClaimed)
  }

  /** One step of a participant: a new attestation carries the current time, a new reveal is honest. */
  ghost predicate RowStep(h: Hashes, now: int, p: ParticipantData, q: ParticipantData) {
    && RowGrows(p, q)
    && (!p.attested && q.attested ==> q.attestedAt == now)
    && (!p.revealIncluded && q.revealIncluded ==> Honest(h, q))
  }

  ghost predicate RowsStep(h: Hashes, now: int, rows: seq<ParticipantData>, after: seq<ParticipantData>) {
    && |rows| <= |after|
    && (forall i :: 0 <= i < |rows| ==> RowStep(h, now, rows[i], after[i]))
    && forall i :: |rows| <= i < |after| ==> !after[i].attested && !after[i].revealIncluded && !after[i].refundClaimed
  }

  lemma RowsStay(h: Hashes, now: int, rows: seq<ParticipantData>)
    ensures RowsStep(h, now, rows, rows)
  {
    hide Honest;
  }

  lemma OneRowStep(h: Hashes, now: int, rows: seq<ParticipantData>, i: nat, q: ParticipantData)
    requires i < |rows| && RowStep(h, now, rows[i], q)
    ensures RowsStep(h, now, rows, rows[i := q])
  {
    hide Honest;
  }

  // ----- step by step -----

  lemma BuyRows(s: State, t: State, buyer: Pubkey, proof: Option<Bytes32>, count: U64)
    requires Purchased(s, t, buyer, proof, count) && Untouched(s.rows)
    ensures RowsStep(s.h, s.now, s.rows, t.rows)
  {
    hide Honest, Charged;
  }

  lemma EarlyRows(l: LotteryData, cap: nat, rows: seq<ParticipantData>, now: int)
    requires Clockwork(l, now) && Counted(l, cap, rows) && now < l.uploadStart
    ensures Untouched(rows)
  {
    NobodyAttested(l, cap, rows);
  }

  lemma CanBuyEarly(s: State, buyer: Pubkey, proof: Option<Bytes32>, count: U64)
    ensures CanBuy(s, buyer, proof, count) ==> s.now < s.lottery.uploadStart
  {
  }

  lemma AttestRows(s: State, t: State, w: Pubkey, voted: U64)
    requires AttestedBy(s, t, w, voted) && w in s.slot && s.slot[w] < |s.rows|
    requires !s.rows[s.slot[w]].attested && !s.rows[s.slot[w]].revealIncluded
    ensures RowsStep(s.h, s.now, s.rows, t.rows)
  {
    hide Honest;
    OneRowStep(s.h, s.now, s.rows, s.slot[w], t.rows[s.slot[w]]);
  }

  lemma RevealRows(s: State, t: State, w: Pubkey, voted: U64, phrase: seq<bv8>)
    requires RevealedBy(s, t, w, voted, phrase) && w in s.slot && s.slot[w] < |s.rows| && s.rows[s.slot[w]].wallet == w
    requires !s.rows[s.slot[w]].attested && !s.rows[s.slot[w]].revealIncluded
    requires |phrase| <= 49 && s.rows[s.slot[w]].proofHash == s.h.commitment(phrase)
    ensures RowsStep(s.h, s.now, s.rows, t.rows)
  {
    var q := t.rows[s.slot[w]];
    assert Honest(s.h, q);
    hide Honest;
    OneRowStep(s.h, s.now, s.rows, s.slot[w], q);
  }

  lemma Attestable(s: State, w: Pubkey, voted: U64)
    ensures CanAttest(s, w, voted) ==> s.Live(w) && !s.rows[s.slot[w]].attested
  {
  }

  lemma UploadRows(s: State, rows: seq<ParticipantData>, entries: seq<UploadKeeps.Upload>)
    requires Included(s.h, s.slot, s.rows, rows, entries) && GoodEntries(s, entries)
    ensures RowsStep(s.h, s.now, s.rows, rows)
  {
    forall i | 0 <= i < |s.rows|
      ensures RowStep(s.h, s.now, s.rows[i], rows[i])
    {
      if k :| 0 <= k < |entries| && s.slot[entries[k].wallet] == i {
        assert Fits(s.h, s.slot, s.rows, entries[k]);
        assert rows[i] == WithReveal(s.h, s.rows[i], entries[k].plaintext);
        assert Honest(s.h, rows[i]);
      } else {
        assert rows[i] == s.rows[i];
      }
    }
  }

  lemma UploadedRows(s: State, t: State, uploader: Pubkey, entries: seq<UploadKeeps.Upload>)
    requires UploadedBy(s, t, uploader, entries)
    ensures Included(s.h, s.slot, s.rows, t.rows, entries)
  {
    hide Included;
  }

  lemma MarkedRows(h: Hashes, now: int, rows: seq<ParticipantData>, after: seq<ParticipantData>)
    requires OnlyMarks(rows, after)
    ensures RowsStep(h, now, rows, after)
  {
    hide Honest;
  }

  /** A chunk changes marks only. */
  lemma ChunkRows(s: State, page: nat, keys: seq<Pubkey>)
    requires Inv(s) && FinalizeWinners.Apply(s, page, keys).Ok?
    ensures RowsStep(s.h, s.now, s.rows, FinalizeWinners.Apply(s, page, keys).value.rows)
  {
    hide *;
    RowsStay(s.h, s.now, s.rows);
    FinalizationKeeps.ApplyEffect(s, page, keys);
    if FinalizeWinners.Check(s, keys).value == FinalizeWinners.Proceed {
      Parts(s);
      ChunkStart(s, page, keys);
      var root := FinalizeWinners.LoadRoot(s).value;
      match root.phase {
        case Aggregating =>
          var l, r, rows := AggregateResult(s, root, keys);
          MarkedRows(s.h, s.now, s.rows, rows);
        case Selecting =>
          NotComplete(s, root);
          NoWinnersYet(s.lottery, s.root, s.pages);
          var l, r, rows, pages := SelectResult(s, root, keys);
          MarkedRows(s.h, s.now, s.rows, rows);
        case Completed =>
      }
    }
  }

  lemma RefundRows(h: Hashes, now: int, rows: seq<ParticipantData>, i: nat)
    requires i < |rows|
    ensures RowsStep(h, now, rows, rows[i := rows[i].MarkRefundClaimed()])
  {
    hide Honest;
  }

  /** Every step lets participants grow, and nothing else. */
  lemma StepRows(s: State, step: Step)
    requires Inv(s)
    ensures RowsStep(s.h, s.now, s.rows, After(s, step).rows) && After(s, step).h == s.h
  {
    hide *;
    AfterMeans(s, step);
    RowsStay(s.h, s.now, s.rows);
    if Next(s, step).Ok? {
      NextMeans(s, step);
      match step
      case Tick(seconds) =>
      case Send(from, to, amount) => SendFields(s, from, to, amount);
      case Buy(buyer, proof, count) => StepBuys(s, buyer, proof, count);
      case BeginReveal(caller, attestation, upload) => BeginRevealEffect(s, caller, attestation, upload);
      case Attest(w, voted, receipt) => StepAttests(s, w, voted, receipt);
      case Reveal(w, voted, phrase) => StepReveals(s, w, voted, phrase);
      case Upload(uploader, entries) => StepUploads(s, uploader, entries);
      case Finalize(page, keys) => ChunkRows(s, page, keys); ChunkHashes(s, page, keys);
      case Cancel => CancelEffect(s);
      case Payout(id, page, winners, recipients) =>
        PayoutRows(s, id, page, winners, recipients);
        PayoutHashes(s, id, page, winners, recipients);
      case Refund(claimer) => RefundEffect(s, claimer); LiveMeans(s, claimer); RefundRows(s.h, s.now, s.rows, s.slot[claimer]);
      case CloseVault => Parts(s); CloseVaultEffect(s);
      case CloseAccount(owner) => CloseAccountEffect(s, owner);
    }
  }

  lemma StepBuys(s: State, buyer: Pubkey, proof: Option<Bytes32>, count: U64)
    requires Inv(s) && Next(s, Step.Buy(buyer, proof, count)).Ok?
    ensures var t := Next(s, Step.Buy(buyer, proof, count)).value;
            RowsStep(s.h, s.now, s.rows, t.rows) && t.h == s.h
  {
    hide *;
    Parts(s);
    BuyIff(s, buyer, proof, count);
    CanBuyEarly(s, buyer, proof, count);
    BuyOutcome(s, buyer, proof, count);
    EarlyRows(s.lottery, s.MaxWinners(), s.rows, s.now);
    BuyRows(s, Next(s, Step.Buy(buyer, proof, count)).value, buyer, proof, count);
    PurchasedHashes(s, Next(s, Step.Buy(buyer, proof, count)).value, buyer, proof, count);
  }

  lemma PurchasedHashes(s: State, t: State, buyer: Pubkey, proof: Option<Bytes32>, count: U64)
    requires Purchased(s, t, buyer, proof, count)
    ensures t.h == s.h
  {
    hide Charged;
  }

  lemma StepAttests(s: State, w: Pubkey, voted: U64, receipt: bool)
    requires Inv(s) && Next(s, Attest(w, voted, receipt)).Ok?
    ensures var t := Next(s, Attest(w, voted, receipt)).value;
            RowsStep(s.h, s.now, s.rows, t.rows) && t.h == s.h
  {
    var step := Attest(w, voted, receipt);
    hide *;
    AttestIff(s, w, voted, receipt);
    Attestable(s, w, voted);
    OutcomeFacts(s, w, voted);
    AttestOutcome(s, w, voted, receipt);
    AttestRows(s, Next(s, step).value, w, voted);
    AttestedHashes(s, Next(s, step).value, w, voted);
  }

  lemma AttestedHashes(s: State, t: State, w: Pubkey, voted: U64)
    requires AttestedBy(s, t, w, voted)
    ensures t.h == s.h
  {
  }

  lemma StepReveals(s: State, w: Pubkey, voted: U64, phrase: seq<bv8>)
    requires Inv(s) && Next(s, Step.Reveal(w, voted, phrase)).Ok?
    ensures var t := Next(s, Step.Reveal(w, voted, phrase)).value;
            RowsStep(s.h, s.now, s.rows, t.rows) && t.h == s.h
  {
    var step := Step.Reveal(w, voted, phrase);
    hide *;
    RevealIff(s, w, voted, phrase);
    Attestable(s, w, voted);
    OutcomeFacts(s, w, voted);
    VoteFacts(s, w);
    RevealOutcome(s, w, voted, phrase);
    RevealRows(s, Next(s, step).value, w, voted, phrase);
    RevealedHashes(s, Next(s, step).value, w, voted, phrase);
  }

  lemma RevealedHashes(s: State, t: State, w: Pubkey, voted: U64, phrase: seq<bv8>)
    requires RevealedBy(s, t, w, voted, phrase)
    ensures t.h == s.h
  {
  }

  lemma StepUploads(s: State, uploader: Pubkey, entries: seq<UploadKeeps.Upload>)
    requires Inv(s) && Next(s, Step.Upload(uploader, entries)).Ok?
    ensures var t := Next(s, Step.Upload(uploader, entries)).value;
            RowsStep(s.h, s.now, s.rows, t.rows) && t.h == s.h
  {
    hide *;
    UploadIff(s, uploader, entries);
    UploadOutcome(s, uploader, entries);
    var t := Next(s, Step.Upload(uploader, entries)).value;
    UploadedRows(s, t, uploader, entries);
    UploadRows(s, t.rows, entries);
    UploadedHashes(s, t, uploader, entries);
  }

  lemma UploadedHashes(s: State, t: State, uploader: Pubkey, entries: seq<UploadKeeps.Upload>)
    requires UploadedBy(s, t, uploader, entries)
    ensures t.h == s.h
  {
    hide Included, XorAll, BatchDigests;
  }

  lemma ChunkHashes(s: State, page: nat, keys: seq<Pubkey>)
    requires FinalizeWinners.Apply(s, page, keys).Ok?
    ensures FinalizeWinners.Apply(s, page, keys).value.h == s.h
  {
    hide FinalizeWinners.AggregateAll, FinalizeWinners.SelectAll, FinalizeWinners.EndAggregation, FinalizeWinners.EndSelection;
  }

  lemma PayoutHashes(s: State, id: nat, page: nat, winners: seq<PayoutKeeps.WinnerProof>, recipients: seq<Pubkey>)
    requires SettlePayoutBatch.Apply(s, id, page, winners, recipients).Ok?
    ensures SettlePayoutBatch.Apply(s, id, page, winners, recipients).value.h == s.h
  {
    hide *;
    PayoutKeeps.ApplyEffect(s, id, page, winners, recipients);
  }

  // ----- over runs -----

  /** What every run keeps of the participants so far. */
  ghost predicate RowsGrow(rows: seq<ParticipantData>, after: seq<ParticipantData>) {
    |rows| <= |after| && forall i :: 0 <= i < |rows| ==> RowGrows(rows[i], after[i])
  }

  lemma GrowOn(h: Hashes, now: int, rows: seq<ParticipantData>, mid: seq<ParticipantData>, after: seq<ParticipantData>)
    requires RowsGrow(rows, mid) && RowsStep(h, now, mid, after)
    ensures RowsGrow(rows, after)
  {
    hide Honest;
    forall i | 0 <= i < |rows|
      ensures RowGrows(rows[i], after[i])
    {
      assert RowGrows(rows[i], mid[i]) && RowStep(h, now, mid[i], after[i]);
    }
  }

  /** No run changes who a participant is, the proof hash given when joining, or an attestation, vote, reveal or claim once made. */
  lemma {:induction false} RunRows(s: State, steps: seq<Step>)
    requires Inv(s)
    ensures RowsGrow(s.rows, Run(s, steps).rows)
  {
    hide Inv, After, RowsGrow, RowsStep;
    if steps == [] {
      GrowNothing(s.rows);
    } else {
      var n := |steps| - 1;
      RunRows(s, steps[..n]);
      RunKeeps(s, steps[..n]);
      var mid := Run(s, steps[..n]);
      StepRows(mid, steps[n]);
      GrowOn(mid.h, mid.now, s.rows, mid.rows, Run(s, steps).rows);
    }
  }

  lemma GrowNothing(rows: seq<ParticipantData>)
    ensures RowsGrow(rows, rows)
  {
  }

  ghost predicate AllHonest(s: State) {
    forall i :: 0 <= i < |s.rows| && s.rows[i].revealIncluded ==> Honest(s.h, s.rows[i])
  }

  lemma HonestOn(s: State, t: State)
    requires AllHonest(s) && RowsStep(s.h, s.now, s.rows, t.rows) && t.h == s.h
    ensures AllHonest(t)
  {
    forall i | 0 <= i < |t.rows| && t.rows[i].revealIncluded
      ensures Honest(t.h, t.rows[i])
    {
      if i < |s.rows| && s.rows[i].revealIncluded {
        assert RowStep(s.h, s.now, s.rows[i], t.rows[i]);
        var phrase :| |phrase| <= 49 && s.h.commitment(phrase) == s.rows[i].proofHash
                      && s.rows[i].revealDigest == s.h.disclosure(s.rows[i].wallet, phrase);
        assert t.h.commitment(phrase) == t.rows[i].proofHash && t.rows[i].revealDigest == t.h.disclosure(t.rows[i].wallet, phrase);
      }
    }
  }

  lemma {:induction false} RunHonest(s: State, steps: seq<Step>)
    requires Inv(s) && AllHonest(s)
    ensures AllHonest(Run(s, steps))
  {
    hide Inv, After, AllHonest, RowsStep;
    if steps != [] {
      var n := |steps| - 1;
      RunHonest(s, steps[..n]);
      RunKeeps(s, steps[..n]);
      StepRows(Run(s, steps[..n]), steps[n]);
      HonestOn(Run(s, steps[..n]), Run(s, steps));
    }
  }

  /** In every reachable state each included digest discloses a phrase that hashes to what its owner committed to when joining. */
  lemma RevealsAreHonest(s: State, i: nat)
    requires Reachable(s) && i < |s.rows| && s.rows[i].revealIncluded
    ensures exists phrase :: |phrase| <= 49 && s.h.commitment(phrase) == s.rows[i].proofHash
                             && s.rows[i].revealDigest == s.h.disclosure(s.rows[i].wallet, phrase)
  {
    hide Inv, Run, Created, Initial;
    var h, config, rents, id, now, bps, price, bank, steps :|
      && Created(h, config, rents, id, now, bps, price, bank)
      && s == Run(Initial(h, config, rents, id, now, bps, price, bank), steps);
    var s0 := Initial(h, config, rents, id, now, bps, price, bank);
    CreatedInv(h, config, rents, id, now, bps, price, bank);
    NobodyYet(h, config, rents, id, now, bps, price, bank);
    RunHonest(s0, steps);
    assert Honest(s.h, s.rows[i]);
  }

  lemma NobodyYet(h: Hashes, config: Config, rents: Rents, id: nat, now: int, bps: nat, price: nat, bank: Bank)
    ensures AllHonest(Initial(h, config, rents, id, now, bps, price, bank))
  {
  }
}
