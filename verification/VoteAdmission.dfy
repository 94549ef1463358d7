/** Whose attestation and vote is accepted, with a provider receipt or with the phrase itself, and what it changes. */
module VoteAdmission {
  import opened Prelude
  import opened Digests
  import opened Participants
  import opened VoteTallies
  import opened Lotteries
  import opened Payouts
  import opened States
  import opened Steps
  import opened Invariants
  import opened AttestationKeeps
  import AttestReveal
  import AttestUploaded

  /** The upload window is open and the settlement has not started. */
  predicate InUploadWindow(s: State) {
    && !s.lottery.settled && s.lottery.settlementStart == 0
    && s.lottery.uploadStart <= s.now <= s.lottery.uploadDeadline
  }

  /** The highest number of winners one can vote for. */
  function HighestVote(s: State): nat {
    if s.lottery.participantsCount <= 1 then 1 else Min(s.config.maxWinnersCap, s.lottery.participantsCount - 1)
  }

  /** A participant who has not attested yet, inside the window, with a vote in range. */
  predicate CanAttest(s: State, w: Pubkey, voted: U64) {
    && InUploadWindow(s) && s.Live(w) && !s.rows[s.slot[w]].attested
    && 1 <= voted <= HighestVote(s)
  }

  /** The derived upload phase, in terms of the fields. */
  lemma UploadStage(l: LotteryData, now: int)
    requires Clockwork(l, now)
    ensures l.StageAt(now) == Stage.Upload <==>
              !l.settled && l.settlementStart == 0 && l.uploadStart <= now <= l.uploadDeadline
  {
  }

  lemma HighestIsCap(s: State)
    requires s.config.Valid()
    ensures HighestVote(s) == s.MaxWinners() <= MAX_WINNERS
  {
    EffectiveMaxWinnersRange(s.config, s.lottery.participantsCount);
  }

  /** What the guards rely on. */
  lemma VoteFacts(s: State, w: Pubkey)
    requires Inv(s)
    ensures s.lottery.StageAt(s.now) == Stage.Upload <==> InUploadWindow(s)
    ensures HighestVote(s) == s.MaxWinners() <= MAX_WINNERS && s.lottery.attestedCount <= |s.rows| <= MAX_PARTICIPANTS
    ensures s.lottery.participantsCount == |s.rows| && (s.Live(w) ==> s.lottery.participantsCount > 0)
    ensures s.Live(w) ==> s.rows[s.slot[w]].tickets > 0 && s.rows[s.slot[w]].wallet == w
    ensures s.Live(w) && !s.rows[s.slot[w]].attested ==> !s.rows[s.slot[w]].revealIncluded
    ensures s.tally.Some? ==> s.tally.value.maxWinners == s.MaxWinners() && s.tally.value.processedCount <= MAX_PARTICIPANTS
    ensures s.lottery.providerUploaded <= s.lottery.attestedCount
  {
    hide *;
    Parts(s);
    UploadStage(s.lottery, s.now);
    UploadWindowMeans(s);
    ConfigValid(s.config, s.lottery);
    HighestIsCap(s);
    AttestedBounds(s.lottery, s.MaxWinners(), s.rows);
    RowsCounted(s.lottery, s.rows, s.slot);
    TallyShape(s.lottery, s.MaxWinners(), Pool(s.rows), s.tally, IsSelecting(s.root));
    InStepMeans(s.lottery.providerUploaded, s.tally);
    LiveRow(s, w);
    if s.Live(w) {
      RowVotes(s.lottery, s.MaxWinners(), s.rows, s.slot[w]);
    }
  }

  lemma UploadWindowMeans(s: State)
    ensures InUploadWindow(s) <==>
              !s.lottery.settled && s.lottery.settlementStart == 0 && s.lottery.uploadStart <= s.now <= s.lottery.uploadDeadline
  {
  }

  lemma ConfigValid(config: Config, l: LotteryData)
    requires Configured(config, l)
    ensures config.Valid()
  {
  }

  lemma InStepMeans(included: nat, tally: Option<Tally>)
    requires TallyInStep(included, tally)
    ensures tally.Some? ==> tally.value.processedCount == included
  {
  }

  lemma TallyShape(l: LotteryData, cap: nat, pool: seq<Entry>, tally: Option<Tally>, selecting: bool)
    requires Voted(l, cap, pool, tally, selecting)
    ensures tally.Some? ==> tally.value.maxWinners == cap
  {
  }

  lemma LiveRow(s: State, w: Pubkey)
    requires Registered(s.lottery, s.rows, s.slot)
    ensures s.Live(w) ==>
              w in s.slot && s.slot[w] < |s.rows| && s.rows[s.slot[w]].tickets > 0 && s.rows[s.slot[w]].wallet == w
  {
  }

  lemma RowVotes(l: LotteryData, cap: nat, rows: seq<ParticipantData>, i: nat)
    requires Counted(l, cap, rows) && i < |rows|
    ensures rows[i].revealIncluded ==> rows[i].attested
    ensures rows[i].refundClaimed ==> l.settled && l.winnersCount == 0
  {
    assert RowOk(l, cap, rows[i]);
  }

  // ----- AttestUploaded -----

  lemma AttestAdmitted(s: State, w: Pubkey, voted: U64, receipt: bool)
    requires s.Live(w) ==> s.rows[s.slot[w]].tickets > 0
    ensures AttestUploaded.Admit(s, w, voted, receipt).Ok? <==>
              && s.Live(w) && !s.rows[s.slot[w]].attested && s.lottery.StageAt(s.now) == Stage.Upload
              && 1 <= voted <= s.MaxWinners() && receipt
    ensures AttestUploaded.Admit(s, w, voted, receipt).Ok? ==> AttestUploaded.Admit(s, w, voted, receipt).value == s.rows[s.slot[w]]
  {
  }

  lemma AttestApplies(s: State, w: Pubkey, voted: U64, receipt: bool)
    requires s.lottery.attestedCount < U64_MAX
    requires AttestUploaded.Admit(s, w, voted, receipt).Ok? ==>
               s.Live(w) && AttestUploaded.Admit(s, w, voted, receipt).value == s.rows[s.slot[w]] && !s.rows[s.slot[w]].attested
    ensures AttestUploaded.Apply(s, w, voted, receipt).Ok? <==> AttestUploaded.Admit(s, w, voted, receipt).Ok?
  {
    hide AttestUploaded.Admit;
  }

  /** An attestation is accepted exactly with a provider receipt, once per participant, inside the window, for a vote in range. */
  lemma AttestIff(s: State, w: Pubkey, voted: U64, receipt: bool)
    requires Inv(s)
    ensures Next(s, Attest(w, voted, receipt)).Ok? <==> CanAttest(s, w, voted) && receipt
  {
    hide Inv, Next, InUploadWindow, HighestVote, AttestUploaded.Admit, AttestUploaded.Apply, LotteryData.StageAt, State.MaxWinners;
    VoteFacts(s, w);
    NextMeans(s, Attest(w, voted, receipt));
    AttestAdmitted(s, w, voted, receipt);
    AttestApplies(s, w, voted, receipt);
  }

  /** The state after an attestation: the vote and the time in the participant's account, and one attestation more. */
  ghost predicate AttestedBy(s: State, t: State, w: Pubkey, voted: U64) {
    var l := s.lottery;
    && s.Live(w) && voted <= MAX_WINNERS
    && t == s.(rows := s.rows[s.slot[w] := s.rows[s.slot[w]].(vote := voted, attested := true, attestedAt := s.now)],
               lottery := l.(attestedCount := l.attestedCount + 1,
                             settlementStart := if l.attestedCount + 1 == l.participantsCount then s.now else 0))
  }

  lemma VoterFields(p: ParticipantData, voted: U64, now: int)
    requires !p.revealIncluded && !p.refundClaimed && voted <= MAX_WINNERS
    ensures Voter(p, voted, now) == p.(vote := voted, attested := true, attestedAt := now)
  {
  }

  /** What the description of the new state relies on. */
  lemma OutcomeFacts(s: State, w: Pubkey, voted: U64)
    requires Inv(s) && CanAttest(s, w, voted)
    ensures w in s.slot && s.slot[w] < |s.rows| && s.Live(w) && voted <= MAX_WINNERS && s.lottery.settlementStart == 0
    ensures s.lottery.uploadStart <= s.now <= s.lottery.uploadDeadline
    ensures !s.rows[s.slot[w]].revealIncluded && !s.rows[s.slot[w]].refundClaimed
    ensures s.lottery.providerUploaded <= s.lottery.attestedCount <= MAX_PARTICIPANTS && s.lottery.participantsCount > 0
  {
    VoteFacts(s, w);
    hide Inv, HighestVote;
    Parts(s);
    LiveRow(s, w);
    RowVotes(s.lottery, s.MaxWinners(), s.rows, s.slot[w]);
  }

  lemma AttestedIntro(s: State, t: State, w: Pubkey, voted: U64)
    requires w in s.slot && s.slot[w] < |s.rows| && voted <= MAX_WINNERS && s.lottery.settlementStart == 0
    requires !s.rows[s.slot[w]].revealIncluded && !s.rows[s.slot[w]].refundClaimed
    requires var l := s.lottery;
             t == s.(rows := s.rows[s.slot[w] := Voter(s.rows[s.slot[w]], voted, s.now)],
                     lottery := l.(attestedCount := l.attestedCount + 1,
                                   settlementStart := if l.attestedCount + 1 == l.participantsCount && l.settlementStart == 0
                                                      then s.now else l.settlementStart))
    ensures AttestedBy(s, t, w, voted)
  {
    VoterFields(s.rows[s.slot[w]], voted, s.now);
  }

  lemma AttestOutcome(s: State, w: Pubkey, voted: U64, receipt: bool)
    requires Inv(s) && Next(s, Attest(w, voted, receipt)).Ok?
    ensures AttestedBy(s, Next(s, Attest(w, voted, receipt)).value, w, voted)
  {
    var step := Attest(w, voted, receipt);
    hide *;
    AttestIff(s, w, voted, receipt);
    OutcomeFacts(s, w, voted);
    NextMeans(s, step);
    AttestEffect(s, w, voted, receipt);
    AttestedIntro(s, Next(s, step).value, w, voted);
  }

  // ----- AttestReveal -----

  lemma RevealAdmits(s: State, w: Pubkey, voted: U64, phrase: seq<bv8>)
    requires s.Live(w) ==> s.rows[s.slot[w]].tickets > 0
    requires s.Live(w) && !s.rows[s.slot[w]].attested ==> !s.rows[s.slot[w]].revealIncluded
    ensures AttestReveal.Admit(s, w, voted, phrase).Ok? <==>
              && 1 <= |phrase| <= 49
              && s.Live(w) && !s.rows[s.slot[w]].attested && s.lottery.StageAt(s.now) == Stage.Upload
              && 1 <= voted <= s.MaxWinners() && s.rows[s.slot[w]].proofHash == s.h.commitment(phrase)
    ensures AttestReveal.Admit(s, w, voted, phrase).Ok? ==> AttestReveal.Admit(s, w, voted, phrase).value == s.rows[s.slot[w]]
  {
  }

  lemma TallyAccepts(s: State, attested: nat, p: ParticipantData)
    requires s.tally.Some? ==> s.tally.value.maxWinners == s.MaxWinners() && s.tally.value.processedCount < U64_MAX
    ensures AttestReveal.Tallied(s, attested, p).Ok?
  {
  }

  lemma SelectionAccepts(l: LotteryData, t: Tally)
    ensures AttestReveal.WithSelection(l, t).Ok?
  {
  }

  lemma RevealApplied(s: State, w: Pubkey, voted: U64, phrase: seq<bv8>)
    requires s.lottery.attestedCount < U64_MAX
    requires s.tally.Some? ==> s.tally.value.maxWinners == s.MaxWinners() && s.tally.value.processedCount < U64_MAX
    requires AttestReveal.Admit(s, w, voted, phrase).Ok? ==>
               s.Live(w) && AttestReveal.Admit(s, w, voted, phrase).value == s.rows[s.slot[w]] && !s.rows[s.slot[w]].attested
    ensures AttestReveal.Apply(s, w, voted, phrase).Ok? <==> AttestReveal.Admit(s, w, voted, phrase).Ok?
  {
    hide AttestReveal.Admit, AttestReveal.Tallied, AttestReveal.WithSelection, AttestReveal.Advanced;
    if AttestReveal.Admit(s, w, voted, phrase).Ok? {
      var digest := s.h.disclosure(w, phrase);
      var p := AttestReveal.Attested(s.rows[s.slot[w]], voted, s.now, digest).value;
      var l1 := AttestReveal.Counted(s.lottery, digest).value;
      TallyAccepts(s, l1.attestedCount, p);
      SelectionAccepts(l1, AttestReveal.Tallied(s, l1.attestedCount, p).value);
    }
  }

  /** A reveal is accepted exactly from a participant who could attest, with the phrase whose hash the account stores. */
  lemma RevealIff(s: State, w: Pubkey, voted: U64, phrase: seq<bv8>)
    requires Inv(s)
    ensures Next(s, Step.Reveal(w, voted, phrase)).Ok? <==>
              && CanAttest(s, w, voted) && 1 <= |phrase| <= 49
              && s.rows[s.slot[w]].proofHash == s.h.commitment(phrase)
  {
    hide Inv, Next, InUploadWindow, HighestVote, AttestReveal.Admit, AttestReveal.Apply, LotteryData.StageAt, State.MaxWinners;
    VoteFacts(s, w);
    NextMeans(s, Step.Reveal(w, voted, phrase));
    RevealAdmits(s, w, voted, phrase);
    RevealApplied(s, w, voted, phrase);
  }

  /**
   The state after a reveal: as after an attestation, with the digest of the phrase stored and folded into the entropy and
   one included reveal more; uploads are complete once everybody has attested and nothing is missing.
   */
  ghost predicate RevealedBy(s: State, t: State, w: Pubkey, voted: U64, phrase: seq<bv8>) {
    var l, digest := s.lottery, s.h.disclosure(w, phrase);
    var all := l.attestedCount + 1 == l.participantsCount;
    && s.Live(w) && voted <= MAX_WINNERS
    && t == s.(rows := s.rows[s.slot[w] := s.rows[s.slot[w]].(vote := voted, attested := true, attestedAt := s.now,
                                                              revealDigest := digest, revealIncluded := true)],
               tally := t.tally,
               lottery := l.(attestedCount := l.attestedCount + 1, providerUploaded := l.providerUploaded + 1,
                             aggregate := Xor(l.aggregate, digest), selectedWinners := t.lottery.selectedWinners,
                             settlementStart := if all then s.now else 0,
                             uploadsComplete := l.uploadsComplete || (all && l.providerUploaded == l.attestedCount)))
    && t.tally.Some? && t.tally.value.totalAttested == l.attestedCount + 1
    && t.tally.value.processedCount == l.providerUploaded + 1
  }

  lemma RevealedAll(l: LotteryData, m: LotteryData, now: int, digest: Bytes32, t: Tally)
    requires RevealedLottery(l, m, now, digest, t) && l.settlementStart == 0 && l.uploadStart <= now <= l.uploadDeadline
    requires l.providerUploaded <= l.attestedCount <= MAX_PARTICIPANTS
    ensures var all := l.attestedCount + 1 == l.participantsCount;
            m == l.(attestedCount := l.attestedCount + 1, providerUploaded := l.providerUploaded + 1,
                    aggregate := Xor(l.aggregate, digest), selectedWinners := m.selectedWinners,
                    settlementStart := if all then now else 0,
                    uploadsComplete := l.uploadsComplete || (all && l.providerUploaded == l.attestedCount))
  {
  }

  /** The tally a reveal writes knows how many have attested. */
  lemma TalliedTotal(s: State, attested: nat, p: ParticipantData)
    requires AttestReveal.Tallied(s, attested, p).Ok?
    ensures AttestReveal.Tallied(s, attested, p).value.totalAttested == attested
  {
  }

  lemma RevealedIntro(s: State, u: State, w: Pubkey, voted: U64, phrase: seq<bv8>, t: Tally)
    requires w in s.slot && s.slot[w] < |s.rows| && voted <= MAX_WINNERS && s.lottery.settlementStart == 0
    requires s.lottery.uploadStart <= s.now <= s.lottery.uploadDeadline
    requires s.lottery.providerUploaded <= s.lottery.attestedCount <= MAX_PARTICIPANTS
    requires !s.rows[s.slot[w]].revealIncluded && !s.rows[s.slot[w]].refundClaimed
    requires var p := Revealer(s.rows[s.slot[w]], voted, s.now, s.h.disclosure(w, phrase));
             u == s.(rows := s.rows[s.slot[w] := p], lottery := u.lottery, tally := Some(t))
    requires RevealedLottery(s.lottery, u.lottery, s.now, s.h.disclosure(w, phrase), t)
    requires t.totalAttested == s.lottery.attestedCount + 1 && t.processedCount == s.lottery.providerUploaded + 1
    ensures RevealedBy(s, u, w, voted, phrase)
  {
    hide Revealer, Voter, RevealedLottery;
    VoterFields(s.rows[s.slot[w]], voted, s.now);
    RevealerFacts(s.rows[s.slot[w]], voted, s.now, s.h.disclosure(w, phrase));
    RevealedAll(s.lottery, u.lottery, s.now, s.h.disclosure(w, phrase), t);
  }

  lemma RevealedCount(l: LotteryData, m: LotteryData, now: int, digest: Bytes32, t: Tally)
    requires RevealedLottery(l, m, now, digest, t) && l.providerUploaded <= MAX_PARTICIPANTS
    ensures m.providerUploaded == l.providerUploaded + 1
  {
  }

  lemma RevealOutcome(s: State, w: Pubkey, voted: U64, phrase: seq<bv8>)
    requires Inv(s) && Next(s, Step.Reveal(w, voted, phrase)).Ok?
    ensures RevealedBy(s, Next(s, Step.Reveal(w, voted, phrase)).value, w, voted, phrase)
  {
    var step := Step.Reveal(w, voted, phrase);
    hide *;
    RevealIff(s, w, voted, phrase);
    OutcomeFacts(s, w, voted);
    NextMeans(s, step);
    var t := RevealEffect(s, w, voted, phrase);
    TalliedTotal(s, s.lottery.attestedCount + 1, Revealer(s.rows[s.slot[w]], voted, s.now, s.h.disclosure(w, phrase)));
    RevealKeeps(s, w, voted, phrase);
    Parts(Next(s, step).value);
    InStepMeans(Next(s, step).value.lottery.providerUploaded, Next(s, step).value.tally);
    RevealedCount(s.lottery, Next(s, step).value.lottery, s.now, s.h.disclosure(w, phrase), t);
    RevealedIntro(s, Next(s, step).value, w, voted, phrase, t);
  }
}
