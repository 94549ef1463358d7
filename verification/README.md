# Daily lottery

A verification model of the on-chain daily lottery program. Participants buy tickets with the hash of a secret phrase,
attest and reveal it inside an upload window, vote on the number of winners, and anyone may then finalize the draw in
chunks, pay the winners, or, when the lottery is cancelled, claim refunds.

The project follows one lottery through its whole life.

* **State and program.** `States` holds everything one lottery keeps on chain, as a value (`State`) and as mutable
  account storage (`Accounts`). Each instruction is a module with a specification function `Apply` on values and a method
  `Process` on storage, proved equal: a refused instruction leaves storage untouched. Working copies of accounts
  (`Participant`, `Lottery`, `VoteTally`, `FinalizationLedger`, `WinnerPage`) are classes updated in place; winner pages are
  raw bytes, header included. Hashes are parameters, so every theorem holds for all hash functions. Lamports are a map from accounts.
  `Steps` adds clock ticks and outside transfers, and `Program.Execute` is the dispatcher over storage.
* **Invariant.** `Invariants.Inv` relates counters, windows, votes, entropy, ledger, pages, bitmaps and lamports.
  `SimpleSteps`, `BuyingKeeps`, `AttestationKeeps`, `UploadKeeps`, `AggregationKeeps`, `RoundKeeps`, `SelectionKeeps`,
  `LedgerKeeps`, `FinalizationKeeps` and `PayoutKeeps` prove that every step keeps it; `Runs` lifts this to all runs.
* **Theorems.** `TicketDraw` states the draw the program must implement without cursors; `DrawTheorems`, `PassTheorems` and
  `Visits` prove that chunked finalization refines it, is deterministic and terminates. `FrozenPool`, `Phases` and
  `PhaseTheorems` cover the pool, phases and outcomes; `CountTheorems` counters, votes and entropy; `PageHistories` the
  winner pages; `MoneyTheorems`,
  `PayoutTheorems` and `CreditTheorems` the money. The `*Admission` modules say, over the stored fields alone, exactly which
  calls succeed and what they change, `RowHistories` and `Timestamps` what is set once and never changes. `ChunkSuccess`, `Progress`, `AccountClosings` and `DeadEnds` say exactly
  which lotteries can always be wound up, and `DeadEndRuns` reaches the others. `Fairness` counts the samples that favour
  each participant.

Proof style: an "effect" lemma says what a successful instruction changed, small lemmas show each part of the invariant for
those changes, and `hide *` keeps the composition propositional.

Results worth knowing:

* Not every lottery can be wound up. With one participant who has attested, for a pot that after the fee is smaller than the
  number of winners, and for a draw that rejects all 2^32 attempts, no instruction ever settles the lottery
  (`DeadEnds.Stuck`; `DeadEndRuns` gives a run to each). `DeadEnds.WindUpIff` shows that these are the only dead ends, on
  one condition: nobody has sent lamports to the address of the ledger, the tally or a winner page before the program
  creates that account. The program creates them with the system program's create-account instruction, which refuses an
  address that already holds lamports (`finalize_winners.rs:186`, `finalize_winners.rs:412`); these addresses are not part of the
  model.
* Where comments and code disagree the model follows the code. Only participants whose reveal has been included can win
  (`finalize_winners.rs:241`), although `lib.rs:12` and `instructions/mod.rs:209-211` speak of every buyer. Chunks must follow
  participant indices (`finalize_winners.rs:231`), although `instructions/mod.rs:221` asks for wallet order. Several lotteries
  may run at once (`create_lottery.rs:29`), although `lib.rs:19-22` says one.

## Model

| member | source | states |
|---|---|---|
| DrawTheorems.CompletedWinners | programs/daily_lottery/src/instructions/finalize_winners.rs:219-396 | In every reachable state with a completed ledger the winner pages, read by global index, are exactly the records of the simple draw (write the remaining included tickets out in participant order, take the drawn one, remove its owner, repeat), whatever the chunking; there are between 1 and min(256, n - 1, eligible) of them, as many as the vote, cap and eligible count say, and the published root commits to them |
| DrawTheorems.RecordedWinnersFollowDraw | programs/daily_lottery/src/instructions/finalize_winners.rs:301-396 | At every moment of selection the winners recorded so far are the first rounds of that simple draw: distinct, revealed, with the seed and target the pool determines |
| DrawTheorems.SameWinners | programs/daily_lottery/src/instructions/finalize_winners.rs:241-396 | End-to-end determinism: two runs that end with the same lottery id, winner cap and pool have the same target and seed, agree on every winner both have recorded, and once complete publish the same count, list and commitment |
| DrawTheorems.SameVote | programs/daily_lottery/src/instructions/upload_reveals.rs:228-352 | Two runs that end with the same pool have the same entropy aggregate, whatever the order, batching, uploader and mix of reveal paths, and, as long as neither has begun selecting winners, the same selected winner count; selection itself then writes the target, which SameWinners covers |
| DrawTheorems.PagesRead | programs/daily_lottery/src/instructions/finalize_winners.rs:346-363 | Global winner i is stored on page i / 100 at offset i % 100, and nothing else is stored |
| DrawTheorems.TargetUnique | programs/daily_lottery/src/instructions/finalize_winners.rs:268-274 | The pool and the cap determine the number of winners |
| PassTheorems.ChunkAccepted | programs/daily_lottery/src/instructions/finalize_winners.rs:227-260 | In every reachable open state a chunk loop accepts a list of accounts if and only if it is the exact next run of participants in index order, for both passes and every chunk size |
| PassTheorems.FullPass | programs/daily_lottery/src/instructions/finalize_winners.rs:333-362 | When a selection pass ends the tickets seen are exactly those that remain, at least one, exactly one participant interval held the drawn ticket and that participant is pending, so the pass never ends in "winner not found", the cursor never exceeds the required count and the page append succeeds |
| PassTheorems.OneInterval | programs/daily_lottery/src/instructions/finalize_winners.rs:314-330 | A ticket position lies in the running prefix interval of a participant if and only if that participant owns the ticket in the written-out list |
| Visits.ExactlyAllVisits | programs/daily_lottery/src/instructions/finalize_winners.rs:227-395 | Over any run from creation: fewer than n visits while aggregating, from n to below n * (1 + target) while selecting, exactly n * (1 + target) at completion |
| Visits.RunVisits | programs/daily_lottery/src/instructions/finalize_winners.rs:227-395 | Over any run the ledger counters advance by exactly the participants in accepted chunks of an unfinished ledger |
| Visits.ChunkVisits | programs/daily_lottery/src/instructions/finalize_winners.rs:227-395 | Every accepted chunk of an unfinished ledger visits at least one participant and advances the visit count by its length; any other accepted call leaves ledger and pages alone |
| Visits.SelectionIsFinal | programs/daily_lottery/src/instructions/finalize_winners.rs:268-285 | Once selection has begun no run changes target or seed, and no recorded winner is ever lost, moved or changed |
| TicketDraw.WinnersFacts | programs/daily_lottery/src/instructions/finalize_winners.rs:301-363 | The simple draw yields distinct, included participants, and the tickets left in the list plus those of the winners are all included tickets |
| TicketDraw.WinnersPrefix | programs/daily_lottery/src/instructions/finalize_winners.rs:378-388 | Earlier rounds of the draw do not depend on how many rounds follow |
| TicketDraw.TicketListRemove | programs/daily_lottery/src/instructions/finalize_winners.rs:314-330 | Taking one winner out removes exactly that participant's tickets from the list |
| TicketDraw.OnlyRejectionFails | programs/daily_lottery/src/instructions/finalize_winners.rs:268-286 | As long as fewer winners than eligible participants have been drawn something remains to draw from, so a round fails only if all 2^32 attempts are rejected |
| FinalizeAdmission.FinalizeIff | programs/daily_lottery/src/instructions/finalize_winners.rs:73-169 | Exactly which calls succeed, over the stored fields: on a settled lottery with its vault every call, without effect; with attested reveals missing after the deadline the one call that opens the challenge window; and, with two or more participants, somebody attested, nothing missing and uploads complete or the deadline passed, the page of the next winner with the next participants in index order, as long as a pass they end can end (the next draw of the simple draw succeeds, or the pot covers the winners) |
| UploadAdmission.UploadIff | programs/daily_lottery/src/instructions/upload_reveals.rs:93-326 | Exactly which uploads succeed: by the authority, or by anybody once attested reveals are missing after the deadline; not after an expired challenge window, a settlement or complete uploads; once the deadline has passed, everybody has attested or settlement has started; with distinct wallets and short phrases, each of an open, attested, not yet included account whose stored hash it matches |
| UploadAdmission.UploadOutcome | programs/daily_lottery/src/instructions/upload_reveals.rs:116-370 | What such an upload changes, field by field: exactly the named participants are included with the digest of their phrase, the counters grow by the size of the batch, the digests are folded into the entropy, uploads are complete exactly when nothing is missing, an outsider opens the challenge window and the settlement starts now unless it has |
| VoteAdmission.RevealIff | programs/daily_lottery/src/instructions/attest_reveal.rs:63-121 | A reveal is accepted if and only if the wallet has an open account that has not attested, the upload window is open and settlement not started, the phrase has 1 to 49 bytes and hashes to the stored value, and the vote is from 1 to min(cap, n - 1), or 1 for a lone participant |
| VoteAdmission.RevealOutcome | programs/daily_lottery/src/instructions/attest_reveal.rs:122-204 | What it changes: vote, time, digest and flags of that participant, both counters, the entropy, the tally counts, and, with the last participant, settlement start and, if nothing is missing, completion of uploads |
| VoteAdmission.AttestIff | programs/daily_lottery/src/instructions/attest_uploaded.rs:110-235 | An attestation is accepted under the same conditions with the provider receipt in place of the phrase, and never without it |
| VoteAdmission.AttestOutcome | programs/daily_lottery/src/instructions/attest_uploaded.rs:236-257 | What it changes: vote, flag and time of that participant, one more attestation, and the settlement start when it was the last |
| BuyAdmission.BuyIff | programs/daily_lottery/src/instructions/buy_tickets.rs:91-192 | A purchase succeeds if and only if the upload window has not started, the count is positive, no total overflows and the wallet can pay, where a newcomer must bring a proof hash, find room and pay the rent of the account, and whoever has bought before may give no hash or the stored one |
| BuyAdmission.BuyOutcome | programs/daily_lottery/src/instructions/buy_tickets.rs:110-196 | What it changes: the tickets of that participant (a newcomer gets the next index and exactly the hash passed), the totals, and exactly price * count from the wallet to the vault and the rent to a new account |
| ControlAdmission.BeginRevealIff | programs/daily_lottery/src/instructions/begin_reveal_phase.rs:43-100 | The upload window can be opened early exactly in a build with that feature, by the authority, before the window starts |
| ControlAdmission.BeginRevealOutcome | programs/daily_lottery/src/instructions/begin_reveal_phase.rs:86-131 | The window then starts now and ends at max(old deadline, now + first period) + second period, each the configured one if given as zero; a lone participant needs no upload |
| ControlAdmission.CancelIff | programs/daily_lottery/src/instructions/finalize_no_attesters.rs:70-104 | A lottery is cancelled exactly after the deadline, or for a lone participant with completed uploads, when nobody has attested or the challenge window has passed in vain; a settled one is left alone |
| PayoutAdmission.PayoutIff | programs/daily_lottery/src/instructions/settle_payout_batch.rs:89-262 | A payout batch succeeds if and only if the vault is there, it names this lottery and the page of its first entry, every entry names a winner of that page with the wallet recorded and one share, and every entry still unpaid comes with the account of that wallet |
| PayoutAdmission.PayoutMarks | programs/daily_lottery/src/instructions/settle_payout_batch.rs:193-262 | After a batch exactly the indices in it have been added to the paid winners, and the lottery is settled exactly when that makes them all |
| RowHistories.RunRows | programs/daily_lottery/src/state/participant.rs:84-206 | No run changes a participant's wallet, index or the proof hash given when joining, takes tickets away, or changes a vote, attestation time, included digest or claim once made |
| RowHistories.RevealsAreHonest | programs/daily_lottery/src/instructions/upload_reveals.rs:262-300 | In every reachable state each included digest discloses, for its owner, a phrase that hashes to what the owner committed to when joining |
| Timestamps.StepStamps | programs/daily_lottery/src/state/lottery.rs:366-372 | No step changes terms or purchase window; the settlement start and the challenge window are set once, to the current time (the latter to now and now + 1800, only with reveals missing after the deadline and two or more participants), and a finalization call that is to open the challenge window does |
| Timestamps.RunChallenge | programs/daily_lottery/src/state/lottery.rs:366-372 | Once opened, no run moves, extends or reopens the challenge window |
| Timestamps.ChallengeLasts | programs/daily_lottery/src/state/lottery.rs:374-387 | In every reachable state a challenge counts as expired exactly when it was opened more than 1800 seconds ago and reveals are missing |
| Timestamps.PhaseOf | programs/daily_lottery/src/state/lottery.rs:316-353 | In every reachable state each of the five derived phases is characterised by clock, counters and the settled flag |
| Timestamps.OnSchedule | programs/daily_lottery/src/state/lottery.rs:262-272 | In every reachable state purchases last one day from creation and the upload window ends two days after it, or no earlier if it was opened early |
| Timestamps.StepLedgerStamps | programs/daily_lottery/src/state/finalization_ledger.rs:132-137 | The ledger's start and completion times are set once, each to the time of the step that sets it, and a completed ledger never changes |
| DrawTheorems.WinnersAreMarked | programs/daily_lottery/src/state/participant.rs:214-224 | In every reachable state past aggregation the winner of round j carries the selection mark with round j, and once the draw is over nobody else is marked |
| PayoutTheorems.ShareFormula | programs/daily_lottery/src/instructions/finalize_winners.rs:474-484 | In every reachable state with winners the share is (funds - floor(funds * bps / 10000)) / winners, rounded down |
| DrawIndex.Unbiased | programs/daily_lottery/src/instructions/finalize_winners.rs:575-596 | Every residue below the modulus has exactly 2^128 / m accepted 128-bit samples |
| DrawIndex.FloorIsRemainder | programs/daily_lottery/src/instructions/finalize_winners.rs:579-580 | The wrapping rejection floor is 2^128 mod m, so the accepted samples number a multiple of m |
| DrawIndex.DrawFromFirst | programs/daily_lottery/src/instructions/finalize_winners.rs:581-595 | The draw is the residue of the first accepted sample; it fails only if all 2^32 are rejected |
| DrawIndex.DrawInRange | programs/daily_lottery/src/instructions/finalize_winners.rs:575-596 | A draw is below the number of remaining tickets, and succeeds exactly when some is left and some attempt is accepted |
| DrawIndex.DrawWithRetry | programs/daily_lottery/src/instructions/finalize_winners.rs:575-596 | The retry loop computes that draw |
| Fairness.WeightedFair | programs/daily_lottery/src/instructions/finalize_winners.rs:301-341 | Weighted fairness: of the accepted samples of a round exactly tickets * (2^128 / m) select a given eligible, not yet selected participant, where m is the number of tickets still in the list, and none selects anybody else |
| Fairness.RoundWinner | programs/daily_lottery/src/instructions/finalize_winners.rs:575-596 | The winner of a round owns the ticket at the residue of the first accepted sample in the list of remaining tickets |
| FrozenPool.StepKeepsPool | programs/daily_lottery/src/instructions/upload_reveals.rs:125-150 | Once uploads are over with nothing missing, or a chunk is committed, no step of any kind changes the participant count, tickets, attestations, votes, reveal flags or digests, nor (before settlement) the set of open accounts |
| FrozenPool.RunKeepsPool | programs/daily_lottery/src/instructions/buy_tickets.rs:91-100 | The same over every run from the first committed chunk on |
| FrozenPool.EmptyUpload | programs/daily_lottery/src/instructions/upload_reveals.rs:261-267 | After the first chunk an UploadReveals that still succeeds is empty |
| FrozenPool.NoMoreBuying | programs/daily_lottery/src/instructions/buy_tickets.rs:91-100 | After the first chunk every purchase is refused |
| FrozenPool.NoMoreAttesting | programs/daily_lottery/src/instructions/attest_reveal.rs:106-109 | After the first chunk the derived phase is never "upload" again, so every attestation is refused |
| CountTheorems.CountersAgree | programs/daily_lottery/src/instructions/buy_tickets.rs:132-192 | In every reachable state participant indices are 0..n-1 in join order, wallets are distinct, included implies attested, and tickets, funds, attested and uploaded counts are sums over the participants |
| CountTheorems.TallyFromScratch | programs/daily_lottery/src/state/vote_tally.rs:48-99 | After any interleaving of reveals each weight is the ticket sum and each time the earliest attestation over included participants voting that count (nothing saturates), the selected count is the outcome of the vote, and the aggregate is the XOR of all included digests |
| CountTheorems.FirstSeenIsEarliest | programs/daily_lottery/src/state/vote_tally.rs:57-59 | The from-scratch time of a count is the minimum attestation time over its voters |
| CountTheorems.XorAllSwap | programs/daily_lottery/src/utils/crypto.rs:58-67 | The XOR aggregate does not depend on the order of the digests |
| CountTheorems.VaultEquation | programs/daily_lottery/src/instructions/settle_payout_batch.rs:181-192 | Until it is swept the vault holds rent, donations and all ticket payments minus exactly one share per paid winner or price * tickets per claimed refund |
| Participants.FlagsIndependent | programs/daily_lottery/src/state/participant.rs:84-206 | Setting any flag of the packed word keeps the vote and both other flags |
| VoteTallies.AddVoteCounts | programs/daily_lottery/src/state/vote_tally.rs:48-60 | Adding one vote gives the tally of the pool recounted with that reveal included |
| VoteTallies.SelectedWinsVote | programs/daily_lottery/src/state/vote_tally.rs:63-99 | The count the scan selects has most tickets, then the earliest attestation, then the smallest number, among all counts up to the cap, and is 1 without votes |
| VoteTallies.VoteOutcomeUnique | programs/daily_lottery/src/state/vote_tally.rs:84-86 | The vote has at most one outcome |
| VoteTallies.VoteTally.SelectedWinners | programs/daily_lottery/src/state/vote_tally.rs:63-99 | The scan over counts with a running best computes the selected count |
| VoteTallies.VoteTally.AddVote | programs/daily_lottery/src/state/vote_tally.rs:48-60 | Adds weight and keeps the earliest time of one count; ignores counts out of range |
| Digests.XorRevealDigests | programs/daily_lottery/src/utils/crypto.rs:59-67 | The byte loop folds all digests into the aggregate |
| Digests.XorAllReplaceZero | programs/daily_lottery/src/utils/crypto.rs:59-67 | Folding one more digest equals recomputing the XOR over the pool with that digest in its place |
| PhaseTheorems.RunRank | programs/daily_lottery/src/state/lottery.rs:306-353 | Over every run buy < upload < remediation or settlement < settled never goes backwards |
| PhaseTheorems.BuyMeansWindow | programs/daily_lottery/src/state/lottery.rs:289-297 | The derived phase is "buy" exactly while tickets can be bought, and uploads never start after the buy deadline |
| PhaseTheorems.RunVerdicts | programs/daily_lottery/src/state/lottery.rs:355-387 | "Remediation expired with reveals missing" and "everything attested is included" are each final once true, and exclude each other |
| PhaseTheorems.ExclusiveOutcome | programs/daily_lottery/src/instructions/finalize_no_attesters.rs:91-104 | A run with winners never turns into refunds nor changes their number, and a cancelled run never gets winners |
| PhaseTheorems.WinnersIffComplete | programs/daily_lottery/src/instructions/finalize_winners.rs:474-488 | Winners exist exactly when the ledger is complete, and a cancelled lottery has no ledger |
| Phases.StepMoves | programs/daily_lottery/src/state/lottery.rs:306-387 | Every step keeps windows, participants and counters, or is an early purchase or window opening, an attestation in the upload window, an inclusion after it, or the opening of remediation |
| DeadEnds.WindUpIff | programs/daily_lottery/src/instructions/finalize_no_attesters.rs:80-104 | From a reachable state some run leaves nothing with the lottery (settled, vault swept, every participant account closed, no lamports left at any of these addresses) if and only if the lottery is not stuck: stuck means a lone participant who attested, or a closed, fully revealed lottery whose pot after the fee is below the number of winners or one of whose draws rejects all attempts |
| DeadEnds.WindUp | programs/daily_lottery/src/instructions/finalize_winners.rs:73-146 | Constructs that run from every state that is not stuck: by finalizing and paying, by remediation expiry and refunds, or by cancelling without attestations, and then by closing all participant accounts |
| AccountClosings.CloseAccountIff | programs/daily_lottery/src/instructions/close_participant.rs:68-87 | A participant account can be closed exactly when it is open and its owner has been refunded or the settlement is complete; the missing-rent and overflow branches are unreachable and the owner gets exactly the rent |
| AccountClosings.ClosingRuns | programs/daily_lottery/src/instructions/close_participant.rs:68-87 | Once the vault has been swept all participant accounts can be closed, which leaves nothing with the lottery |
| DeadEnds.StuckForever | programs/daily_lottery/src/instructions/finalize_winners.rs:76-109 | No run frees a stuck lottery |
| DeadEndRuns.LoneAttesterIsStuck | programs/daily_lottery/src/instructions/finalize_winners.rs:76-78 | The first dead end is reached: one participant buys, waits for the upload window and attests; from then on no run settles the lottery or empties the vault |
| DeadEndRuns.PotTooSmallIsStuck | programs/daily_lottery/src/instructions/finalize_winners.rs:477-479 | The second dead end is reached: three participants buy a one-lamport ticket each at a fee of 99.99 percent, all reveal and vote for two winners; from then on no run settles the lottery or empties the vault |
| DeadEndRuns.RejectedDrawIsStuck | programs/daily_lottery/src/instructions/finalize_winners.rs:581-595 | The third dead end is reached: the same three participants at any fee, with hashes whose samples are all zero |
| DeadEnds.PotCovers | programs/daily_lottery/src/instructions/finalize_winners.rs:474-483 | With two or more participants, a pot after the fee of at least the number of winners and draws that succeed, the lottery is not stuck |
| Progress.FinalizationRuns | programs/daily_lottery/src/instructions/finalize_winners.rs:219-396 | From any fully revealed, payable lottery with uploads complete or the deadline passed, a run of chunks, without waiting, completes finalization |
| Progress.SelectionStep | programs/daily_lottery/src/instructions/finalize_winners.rs:301-389 | Submitting all participants the pass has not visited always succeeds and records one more winner |
| Progress.AggregationStep | programs/daily_lottery/src/instructions/finalize_winners.rs:227-286 | Submitting all participants not yet folded always succeeds and starts selection |
| ChunkSuccess.EndSelectionOk | programs/daily_lottery/src/instructions/finalize_winners.rs:337-389 | At the end of a full pass storing and recording the winner, and completing or opening the next round, cannot fail if the lottery is payable |
| MoneyTheorems.RunConserves | programs/daily_lottery/src/instructions/settle_payout_batch.rs:181-260 | Over every run the lamports of all accounts together never change |
| MoneyTheorems.RefundIff | programs/daily_lottery/src/instructions/claim_refund.rs:82-114 | A participant can claim a refund exactly when the lottery was cancelled and the refund has not been claimed |
| MoneyTheorems.RefundNeverShort | programs/daily_lottery/src/instructions/claim_refund.rs:92-112 | The insufficient-funds and overflow branches of a refund are unreachable |
| MoneyTheorems.RefundOnce | programs/daily_lottery/src/instructions/claim_refund.rs:88-114 | A refund pays price * tickets, and in no later state of any run, with or without closing the account, can the wallet claim again |
| MoneyTheorems.CloseVaultIff | programs/daily_lottery/src/instructions/close_refund_vault.rs:64-81 | The refund vault can be closed exactly when the lottery was cancelled and every participant has been refunded; the reused counter equals the number of refunds, and what goes to the authority is exactly rent plus donations |
| MoneyTheorems.StepClaims | programs/daily_lottery/src/instructions/close_participant.rs:68-87 | In a cancelled lottery only a refund claim writes a participant, and only its claimed flag |
| PayoutTheorems.BatchOutcome | programs/daily_lottery/src/instructions/settle_payout_batch.rs:127-262 | In every reachable state, past the guards, a batch is refused only over a wrong proof or recipient account (never for lack of funds, disagreeing bitmaps or a failed sweep), and a batch of proper proofs succeeds |
| PayoutTheorems.BatchPaysWinners | programs/daily_lottery/src/instructions/settle_payout_batch.rs:165-260 | A successful batch pays each wallet one share per newly paid winner index recorded for it; after the last winner the authority also gets exactly fee, remainder, rent and donations and the vault is empty |
| PayoutTheorems.BitsAgree | programs/daily_lottery/src/instructions/settle_payout_batch.rs:165-171 | In the middle of any batch the page bit and the lottery bit of a winner agree |
| PayoutTheorems.ShareIsPlanned | programs/daily_lottery/src/instructions/settle_payout_batch.rs:125-125 | Dividing the stored total recovers the planned share, and fee, shares and remainder are exactly the funds |
| CreditTheorems.CreditedOnce | programs/daily_lottery/src/instructions/settle_payout_batch.rs:165-199 | A credit once made is exactly one share and is there unchanged in every later state of every run |
| CreditTheorems.BitmapsAgree | programs/daily_lottery/src/instructions/settle_payout_batch.rs:165-171 | In every reachable state page bit (i / 100, i % 100), lottery bit (i / 8, i % 8) and the credit history agree on who has been paid |
| CreditTheorems.EverybodyCredited | programs/daily_lottery/src/instructions/settle_payout_batch.rs:218-262 | A swept lottery has credited every winner exactly one share, at least one lamport |
| CreditTheorems.RunGrows | programs/daily_lottery/src/instructions/settle_payout_batch.rs:194-199 | The set of paid winners only grows and shares never change |
| Payouts.PlanIsExact | programs/daily_lottery/src/instructions/finalize_winners.rs:474-484 | fee + per winner * winners + remainder is the total, the remainder is below the number of winners, each share is at least one lamport and total / winners recovers it |
| Payouts.PlanExists | programs/daily_lottery/src/instructions/finalize_winners.rs:477-479 | A payout plan exists exactly when the pot after the fee covers one lamport per winner |
| Payouts.FeeBelowTotal | programs/daily_lottery/src/utils/validation.rs:81-84 | Below 10,000 basis points the fee is below the funds, so no saturating subtraction saturates |
| Payouts.EffectiveMaxWinnersRange | programs/daily_lottery/src/state/config.rs:69-79 | The cap is at least 1, at most 256, and leaves a loser when there are two or more participants |
| Banks.TransferExact | programs/daily_lottery/src/instructions/settle_payout_batch.rs:190-191 | A transfer moves exactly the amount and keeps the total as long as all lamports fit a 64-bit word |
| Runs.StepKeeps | programs/daily_lottery/src/lib.rs:32-40 | Every instruction, clock tick and outside transfer keeps the invariant of the whole lottery |
| Runs.ReachableInv | programs/daily_lottery/src/lib.rs:32-40 | The invariant holds in every state of every run from creation |
| Program.Execute | programs/daily_lottery/src/lib.rs:32-40 | The imperative program over account storage takes exactly the steps of the model, and a refused instruction leaves no trace |
| Program.ExecuteAll | programs/daily_lottery/src/lib.rs:32-40 | Any sequence of instructions over account storage is the corresponding run and keeps the invariant |
| FinalizationKeeps.FinalizeKeeps | programs/daily_lottery/src/instructions/finalize_winners.rs:73-169 | Every accepted FinalizeWinners call, whatever the chunk, keeps the invariant |
| LedgerKeeps.PassEnds | programs/daily_lottery/src/instructions/finalize_winners.rs:337-345 | The end of a pass in terms of the simple draw: the pending winner is the owner of the drawn ticket |
| LedgerKeeps.WinnerRecorded | programs/daily_lottery/src/instructions/finalize_winners.rs:363-363 | Recording the winner extends count, ticket total and commitment by exactly that round |
| LedgerKeeps.PageAppended | programs/daily_lottery/src/instructions/finalize_winners.rs:346-362 | Appending to page selected / 100 keeps the pages in step with the list of winners |
| AggregationKeeps.AggregateAllKeeps | programs/daily_lottery/src/instructions/finalize_winners.rs:227-260 | Any aggregation chunk leaves the totals and commitment of the folded prefix and marks exactly that prefix |
| SelectionKeeps.SelectAllKeeps | programs/daily_lottery/src/instructions/finalize_winners.rs:301-332 | Any selection chunk walks the ticket list: tickets seen is the prefix length and the pending winner is the owner once the drawn position is passed |
| UploadKeeps.IncludeAllProgress | programs/daily_lottery/src/instructions/upload_reveals.rs:228-352 | Including any batch changes inclusions only, counts each once, and keeps tally and entropy equal to the from-scratch values |
| UploadKeeps.UploadKeepsInv | programs/daily_lottery/src/instructions/upload_reveals.rs:93-370 | Every accepted UploadReveals keeps the invariant |
| AttestationKeeps.RevealKeeps | programs/daily_lottery/src/instructions/attest_reveal.rs:63-204 | Every accepted AttestReveal keeps the invariant |
| AttestationKeeps.AttestKeeps | programs/daily_lottery/src/instructions/attest_uploaded.rs:116-257 | Every accepted AttestUploaded keeps the invariant |
| BuyingKeeps.BuyKeeps | programs/daily_lottery/src/instructions/buy_tickets.rs:54-196 | Every accepted purchase keeps the invariant |
| PayoutKeeps.PayoutKeepsInv | programs/daily_lottery/src/instructions/settle_payout_batch.rs:89-262 | Every accepted payout batch keeps the invariant |
| SimpleSteps.RefundKeeps | programs/daily_lottery/src/instructions/claim_refund.rs:82-114 | Every accepted refund keeps the invariant |
| SimpleSteps.CancelKeeps | programs/daily_lottery/src/instructions/finalize_no_attesters.rs:75-104 | Every accepted cancellation keeps the invariant |
| SimpleSteps.BeginRevealKeeps | programs/daily_lottery/src/instructions/begin_reveal_phase.rs:70-131 | Every accepted early window opening keeps the invariant |
| FinalizeWinners.Process | programs/daily_lottery/src/instructions/finalize_winners.rs:58-169 | The instruction over account storage: guards, remediation opening, ledger loading, one chunk, commit on success only |
| FinalizeWinners.AggregateChunk | programs/daily_lottery/src/instructions/finalize_winners.rs:227-260 | The aggregation loop over working copies; any refusal abandons the whole chunk |
| FinalizeWinners.SelectChunk | programs/daily_lottery/src/instructions/finalize_winners.rs:301-332 | The selection loop over working copies; any refusal abandons the whole chunk |
| FinalizeWinners.FinishAggregation | programs/daily_lottery/src/instructions/finalize_winners.rs:261-285 | Guard on the count, then target, seed and first draw |
| FinalizeWinners.FinishSelection | programs/daily_lottery/src/instructions/finalize_winners.rs:333-389 | Guard on the count, pass accounting, page append, recording, completion or next round |
| FinalizeWinners.StoreWinner | programs/daily_lottery/src/instructions/finalize_winners.rs:337-362 | Loads the page by decoding its stored header, or creates it, appends the winner in its bytes and rewrites its header: the stored bytes are exactly those of one recording in a page history |
| FinalizeWinners.CompleteFinalization | programs/daily_lottery/src/instructions/finalize_winners.rs:468-511 | Fixes payouts in the lottery and completes the ledger |
| UploadReveals.Process | programs/daily_lottery/src/instructions/upload_reveals.rs:73-370 | The instruction over account storage |
| UploadReveals.IncludeEntries | programs/daily_lottery/src/instructions/upload_reveals.rs:233-323 | The inclusion loop over working copies; any refusal abandons the whole batch |
| UploadReveals.CheckEntries | programs/daily_lottery/src/instructions/upload_reveals.rs:217-226 | Accepts exactly the lists without duplicate keys and oversized plaintexts |
| AttestReveal.Process | programs/daily_lottery/src/instructions/attest_reveal.rs:63-204 | The instruction over account storage |
| AttestUploaded.Process | programs/daily_lottery/src/instructions/attest_uploaded.rs:116-257 | The instruction over account storage, with the provider signature as a boolean input |
| BuyTickets.Process | programs/daily_lottery/src/instructions/buy_tickets.rs:54-196 | The instruction over account storage: account opening, ticket and fund accounting, payment |
| SettlePayoutBatch.Process | programs/daily_lottery/src/instructions/settle_payout_batch.rs:66-290 | The instruction over account storage |
| SettlePayoutBatch.MarkStored | programs/daily_lottery/src/instructions/settle_payout_batch.rs:195-198 | Marking a winner in a stored page is exactly one payment of a page history on its bytes |
| SettlePayoutBatch.SettleBatch | programs/daily_lottery/src/instructions/settle_payout_batch.rs:134-212 | The payout loop over page bytes, lottery bitmap and lamports, with the header decoded once and never rewritten; the stored page stays valid; any refusal abandons the whole batch |
| PayoutKeeps.SweepEffect | programs/daily_lottery/src/instructions/settle_payout_batch.rs:218-262 | A sweep that succeeds leaves the vault at zero and the authority richer by exactly what the vault held, loses no lamport, and happens only with everybody paid, when it sets both settlement flags |
| ClaimRefund.Process | programs/daily_lottery/src/instructions/claim_refund.rs:48-114 | The instruction over account storage |
| CloseRefundVault.Process | programs/daily_lottery/src/instructions/close_refund_vault.rs:43-81 | The instruction over account storage |
| CloseParticipant.Process | programs/daily_lottery/src/instructions/close_participant.rs:38-87 | The instruction over account storage |
| FinalizeNoAttesters.Process | programs/daily_lottery/src/instructions/finalize_no_attesters.rs:50-104 | The instruction over account storage |
| BeginRevealPhase.Process | programs/daily_lottery/src/instructions/begin_reveal_phase.rs:43-148 | The instruction over account storage, with the build feature as a configuration flag |
| PageHistories.PageHistory | programs/daily_lottery/src/state/finalization_ledger.rs:166-241 | The raw account bytes after any history of recordings (each loading or creating the page and rewriting the header) and payments, refused ones included: no account before the first recording; afterwards the header decodes to the identity of the page and the number of winners, entry k to the k-th recorded winner, and bit k is set exactly if k was paid after it had been recorded |
| WinnerPages.WinnerPage.Append | programs/daily_lottery/src/state/finalization_ledger.rs:184-201 | Writes the next entry into the page bytes and nothing else, the stored header included; refused when the page is full or the bytes too short; the decoded page gains exactly that winner |
| WinnerPages.WinnerPage.Winner | programs/daily_lottery/src/state/finalization_ledger.rs:203-216 | Reads back entry k: the k-th appended wallet and tickets, or none |
| WinnerPages.WinnerPage.MarkPaid | programs/daily_lottery/src/state/finalization_ledger.rs:224-237 | Sets exactly one paid bit and leaves every other byte alone, the stored header included; refused out of range or when already set |
| WinnerPages.WinnerPage.IsPaid | programs/daily_lottery/src/state/finalization_ledger.rs:218-222 | Reads the paid bit of an offset in range |
| WinnerPages.WinnerPage.WriteHeader | programs/daily_lottery/src/utils/account.rs:64-83 | The stored header reads back as the one in memory; no entry and no bit changes |
| WinnerPages.WriteEntryFrame | programs/daily_lottery/src/state/finalization_ledger.rs:193-195 | Writing one entry round-trips and leaves the header, every other entry and every bit alone |
| WinnerPages.WriteBitFrame | programs/daily_lottery/src/state/finalization_ledger.rs:235-235 | Setting one bit leaves the header, all entries and all other bits alone |
| WinnerPages.WriteHeaderFrame | programs/daily_lottery/src/utils/account.rs:64-83 | A rewritten header reads back and leaves all entries and bits alone |
| WinnerPages.HeaderRoundTrip | programs/daily_lottery/src/state/finalization_ledger.rs:145-152 | Account data that begins with an encoded header reads back as that header, whatever follows |
| WinnerPages.EntryRoundTrip | programs/daily_lottery/src/state/finalization_ledger.rs:194-215 | Decoding an encoded entry gives the wallet and tickets back |
| FinalizationLedgers.FinalizationLedger.RecordWinner | programs/daily_lottery/src/state/finalization_ledger.rs:115-130 | Bounds, count, ticket total and commitment of one recorded winner |
| FinalizationLedgers.FinalizationLedger.BeginSelectionRound | programs/daily_lottery/src/state/finalization_ledger.rs:98-107 | Resets the pass and stores the draw |
| RoundKeeps.RemainingIsList | programs/daily_lottery/src/state/finalization_ledger.rs:109-113 | What the ledger counts as remaining is exactly the number of tickets left in the written-out list, and the subtraction never fails |
| FinalizationLedgers.FinalizationLedger.Complete | programs/daily_lottery/src/state/finalization_ledger.rs:132-137 | Completes the ledger and nothing else |
| Lotteries.Lottery.InitializeSettlement | programs/daily_lottery/src/state/lottery.rs:473-499 | Stores root, count and total, and clears the used part of the paid bitmap |
| Lotteries.InitializedUnpaid | programs/daily_lottery/src/state/lottery.rs:492-496 | After that nobody is marked as paid |
| Lotteries.Lottery.MarkWinnerPaid | programs/daily_lottery/src/state/lottery.rs:518-533 | Extends the bitmap if needed and sets one bit |
| Lotteries.MarkedPaid | programs/daily_lottery/src/state/lottery.rs:518-533 | Marking winner i adds i, and nobody else, to the set of paid winners |
| Lotteries.PaidSetMeaning | programs/daily_lottery/src/state/lottery.rs:502-553 | The bit test, the set of paid winners and "all winners paid" agree; all are paid exactly when as many are paid as there are winners |
| Lotteries.Lottery.AllWinnersPaid | programs/daily_lottery/src/state/lottery.rs:541-553 | The scan over all winner bits |
| Lotteries.Lottery.CompleteSettlement | programs/daily_lottery/src/state/lottery.rs:556-564 | Refused unless all are paid; sets both flags |
| Lotteries.Lottery.SetSelectedWinners | programs/daily_lottery/src/state/lottery.rs:455-468 | Accepts 1..n-1 with two or more participants |
| Lotteries.Lottery.BeginRemediation | programs/daily_lottery/src/state/lottery.rs:366-372 | Opens the 30-minute window once |
| Lotteries.Lottery.AddTickets | programs/daily_lottery/src/state/lottery.rs:395-407 | Checked addition of tickets and funds |
| Participants.Participant.SetVote | programs/daily_lottery/src/state/participant.rs:156-166 | Overwrites the word with the masked vote, refused after attesting |
| Participants.Participant.AttestUpload | programs/daily_lottery/src/state/participant.rs:145-153 | Records the attestation once |
| Participants.Participant.IncludeVerifiedReveal | programs/daily_lottery/src/state/participant.rs:183-186 | Stores the digest and sets the included flag only |
| Participants.Participant.MarkRefundClaimed | programs/daily_lottery/src/state/participant.rs:204-206 | Sets the claimed flag only |
| Participants.Participant.MarkSelected | programs/daily_lottery/src/state/participant.rs:221-224 | Records generation and round of the selection |

## Left out

- Account plumbing: signer, writability, key and ownership checks and program-derived addresses are not modelled; a missing account is refused with one error code where the program distinguishes several.
- Participants are filed under their wallet instead of a derived address, which is an injective function of it.
- MoneyTheorems.RunConserves: the ledger, page and tally accounts hold no lamports here and nobody pays their rent; only wallets, the vault and participant accounts move lamports.
- UploadReveals.Process: entries are processed in submitted order, where the program iterates a sorted map of account keys; for accepted batches the result does not depend on the order (CountTheorems.XorAllSwap, CountTheorems.TallyFromScratch), for refused ones only the error code can differ.
- AttestUploaded.Process: scanning and parsing of the Ed25519 instruction is a boolean input.
- Signed 64-bit overflow of timestamps: times are unbounded integers, creation time is positive and the clock never goes back.
- Compute and transaction-size limits of one instruction: any chunk size is allowed.
- Outside transfers reach wallets and the vault address, not participant accounts or addresses that do not exist yet; a lamport sent in advance to the address of an account the program will create makes that creation fail, and with it, for the ledger, the tally or a winner page, the dead-end characterisation.
- SettlePayoutBatch.Process: `batch_index` only appears in events.
- The `status` byte, which mirrors `settled`, the reserved bytes, version fields, the settlement-included flag, the legacy wallet cursor, `reveal_score` and all events.
- Initialization, configuration updates and several lotteries at once: one lottery with a fixed configuration holds all the state.
- The undeclared instruction files for beginning the buy, upload and settlement phases and updating windows, and the legacy winners ledger: not part of the compiled program.
- The inside of the hash functions; collisions are possible in every theorem.
