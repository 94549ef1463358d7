/** The incremental vote tally, and the from-scratch count it always equals. */
module VoteTallies {
  import opened Prelude
  import opened Sums
  import opened Participants

  // ----- the vote, from scratch -----

  function VoteWeight(c: nat): Entry -> nat {
    (e: Entry) => if e.shown.Some? && e.shown.value.vote == c then e.tickets else 0
  }

  function TicketCount(): Entry -> nat {
    (e: Entry) => e.tickets
  }

  /** Tickets held by included participants who voted for c winners. */
  function WeightOf(pool: seq<Entry>, c: nat): nat {
    Sum(pool, VoteWeight(c))
  }

  /** Earliest attestation among included participants who voted for c winners. */
  function FirstSeen(pool: seq<Entry>, c: nat): int {
    if pool == [] then I64_MAX
    else
      var e := pool[|pool| - 1];
      var rest := FirstSeen(pool[..|pool| - 1], c);
      if e.shown.Some? && e.shown.value.vote == c then Min(rest, e.shown.value.attestedAt) else rest
  }

  /** c beats d: more tickets, then attested earlier, then the smaller count. */
  ghost predicate Beats(pool: seq<Entry>, c: nat, d: nat) {
    || WeightOf(pool, c) > WeightOf(pool, d)
    || (WeightOf(pool, c) == WeightOf(pool, d) && FirstSeen(pool, c) < FirstSeen(pool, d))
    || (WeightOf(pool, c) == WeightOf(pool, d) && FirstSeen(pool, c) == FirstSeen(pool, d) && c < d)
  }

  /** c is the outcome of the vote among counts 1..limit; without any vote the outcome is 1. */
  ghost predicate WinsVote(pool: seq<Entry>, limit: nat, c: nat) {
    if exists d :: 1 <= d <= limit && WeightOf(pool, d) > 0 then
      && 1 <= c <= limit && WeightOf(pool, c) > 0
      && forall d :: 1 <= d <= limit && d != c ==> Beats(pool, c, d)
    else c == 1
  }

  lemma VoteOutcomeUnique(pool: seq<Entry>, limit: nat, c: nat, d: nat)
    requires WinsVote(pool, limit, c) && WinsVote(pool, limit, d)
    ensures c == d
  {
    if n: nat :| 1 <= n <= limit && WeightOf(pool, n) > 0 {
      assert c == d || Beats(pool, c, d);
      assert c == d || Beats(pool, d, c);
    }
  }

  // ----- the tally account -----

  datatype TallyData = TallyData(
    maxWinners: nat,
    totalAttested: nat,
    processedCount: nat,
    weights: seq<nat>,
    firstSeen: seq<int>)
  {
    static function New(maxWinners: nat, totalAttested: nat): (t: TallyData)
      ensures t.Shaped()
    {
      TallyData(maxWinners, totalAttested, 0,
                seq(maxWinners + 1, _ => 0), seq(maxWinners + 1, _ => I64_MAX))
    }

    ghost predicate Shaped() {
      && |weights| == maxWinners + 1 && |firstSeen| == maxWinners + 1
      && forall c :: 0 <= c <= maxWinners ==> firstSeen[c] <= I64_MAX
    }

    function AddVote(count: nat, weight: nat, attestedAt: int): (t: TallyData)
      requires Shaped()
      ensures t.Shaped() && t.maxWinners == maxWinners
    {
      if count == 0 || count > maxWinners then this
      else this.(weights := weights[count := SaturatingAdd(weights[count], weight, U128_MAX)],
                 firstSeen := firstSeen[count := Min(firstSeen[count], attestedAt)])
    }

    /** Whether count c replaces the running best b (0 when there is none yet). */
    predicate Replaces(c: nat, b: nat)
      requires Shaped() && c <= maxWinners && b <= maxWinners
    {
      && weights[c] > 0
      && (|| b == 0
          || weights[c] > weights[b]
          || (weights[c] == weights[b] && firstSeen[c] < firstSeen[b])
          || (weights[c] == weights[b] && firstSeen[c] == firstSeen[b] && c < b))
    }

    function BestUpTo(k: nat): (b: nat)
      requires Shaped() && k <= maxWinners
      ensures b <= k
    {
      if k == 0 then 0
      else
        var b := BestUpTo(k - 1);
        if Replaces(k, b) then k else b
    }

    function SelectedWinners(participants: nat): (c: nat)
      requires Shaped()
    {
      if participants <= 1 then 1
      else
        var b := BestUpTo(Min(maxWinners, participants - 1));
        if b == 0 then 1 else b
    }
  }

  /** Tally accounts as the program writes them: one slot per count 0..maxWinners. */
  type Tally = t: TallyData | t.Shaped() witness TallyData(0, 0, 0, [0], [0])

  /** The tally account agrees with the count taken from scratch. */
  ghost predicate Counts(t: TallyData, pool: seq<Entry>) {
    && t.Shaped()
    && forall c :: 1 <= c <= t.maxWinners ==>
         t.weights[c] == WeightOf(pool, c) && t.firstSeen[c] == FirstSeen(pool, c)
  }

  lemma {:induction false} FirstSeenNoVotes(pool: seq<Entry>, c: nat)
    requires forall i :: 0 <= i < |pool| ==> pool[i].shown.None?
    ensures FirstSeen(pool, c) == I64_MAX && WeightOf(pool, c) == 0
  {
    if pool != [] {
      FirstSeenNoVotes(pool[..|pool| - 1], c);
    }
    SumZero(pool, VoteWeight(c));
  }

  lemma NewTallyCounts(maxWinners: nat, totalAttested: nat, pool: seq<Entry>)
    requires forall i :: 0 <= i < |pool| ==> pool[i].shown.None?
    ensures Counts(TallyData.New(maxWinners, totalAttested), pool)
  {
    forall c | 1 <= c <= maxWinners
      ensures FirstSeen(pool, c) == I64_MAX && WeightOf(pool, c) == 0
    {
      FirstSeenNoVotes(pool, c);
    }
  }

  lemma {:induction false} FirstSeenReveal(pool: seq<Entry>, i: nat, r: Reveal, c: nat)
    requires i < |pool| && pool[i].shown.None?
    ensures FirstSeen(pool[i := pool[i].(shown := Some(r))], c)
         == if r.vote == c then Min(FirstSeen(pool, c), r.attestedAt) else FirstSeen(pool, c)
  {
    var n := |pool| - 1;
    var after := pool[i := pool[i].(shown := Some(r))];
    if i == n {
      assert after[..n] == pool[..n];
    } else {
      assert after[..n] == pool[..n][i := pool[i].(shown := Some(r))];
      FirstSeenReveal(pool[..n], i, r, c);
    }
  }

  /** Adding one reveal to the tally is the same as recounting the pool with that reveal included. */
  lemma AddVoteCounts(t: TallyData, pool: seq<Entry>, i: nat, r: Reveal)
    requires Counts(t, pool)
    requires i < |pool| && pool[i].shown.None?
    requires Sum(pool, TicketCount()) <= U64_MAX
    ensures Counts(t.AddVote(r.vote, pool[i].tickets, r.attestedAt), pool[i := pool[i].(shown := Some(r))])
  {
    var e := pool[i].(shown := Some(r));
    var after := pool[i := e];
    var u := t.AddVote(r.vote, pool[i].tickets, r.attestedAt);
    forall c | 1 <= c <= u.maxWinners
      ensures u.weights[c] == WeightOf(after, c) && u.firstSeen[c] == FirstSeen(after, c)
    {
      SumUpdate(pool, i, e, VoteWeight(c));
      SumUpdate(pool, i, e, TicketCount());
      SumLe(after, VoteWeight(c), after, TicketCount());
      FirstSeenReveal(pool, i, r, c);
    }
  }

  /** The running best over counts 1..k is the vote's winner among them. */
  lemma {:induction false} BestUpToWins(t: TallyData, pool: seq<Entry>, k: nat)
    requires Counts(t, pool) && k <= t.maxWinners
    ensures t.BestUpTo(k) == 0 ==> forall d :: 1 <= d <= k ==> WeightOf(pool, d) == 0
    ensures t.BestUpTo(k) != 0 ==> WeightOf(pool, t.BestUpTo(k)) > 0 && WinsVote(pool, k, t.BestUpTo(k))
  {
    if k > 0 {
      BestUpToWins(t, pool, k - 1);
      var b := t.BestUpTo(k - 1);
      var c := t.BestUpTo(k);
      if c != 0 {
        assert WeightOf(pool, c) > 0;
        forall d | 1 <= d <= k && d != c
          ensures Beats(pool, c, d)
        {
          if b != 0 && d != b && d < k {
            assert Beats(pool, b, d);
          }
        }
      }
    }
  }

  /** The count read off the tally is the outcome of the vote over the whole pool. */
  lemma SelectedWinsVote(t: TallyData, pool: seq<Entry>, participants: nat)
    requires Counts(t, pool) && participants >= 2 && t.maxWinners <= participants - 1
    ensures WinsVote(pool, t.maxWinners, t.SelectedWinners(participants))
  {
    BestUpToWins(t, pool, t.maxWinners);
  }

  /** A working copy of the tally account. */
  class VoteTally {
    var maxWinners: nat
    var totalAttested: nat
    var processedCount: nat
    var weights: seq<nat>
    var firstSeen: seq<int>

    function Data(): TallyData
      reads this
    {
      TallyData(maxWinners, totalAttested, processedCount, weights, firstSeen)
    }

    constructor Read(d: TallyData)
      ensures Data() == d
    {
      maxWinners, totalAttested, processedCount := d.maxWinners, d.totalAttested, d.processedCount;
      weights, firstSeen := d.weights, d.firstSeen;
    }

    constructor (maxWinners: nat, totalAttested: nat)
      ensures Data() == TallyData.New(maxWinners, totalAttested)
    {
      this.maxWinners, this.totalAttested, processedCount := maxWinners, totalAttested, 0;
      weights := seq(maxWinners + 1, _ => 0);
      firstSeen := seq(maxWinners + 1, _ => I64_MAX);
    }

    method AddVote(count: nat, weight: nat, attestedAt: int)
      requires Data().Shaped()
      modifies this
      ensures Data() == old(Data()).AddVote(count, weight, attestedAt)
    {
      if count == 0 || count > maxWinners {
        return;
      }
      if count >= |weights| {
        return;
      }
      weights := weights[count := SaturatingAdd(weights[count], weight, U128_MAX)];
      if attestedAt < firstSeen[count] {
        firstSeen := firstSeen[count := attestedAt];
      }
    }

    /** The scan over counts with a running best weight, time and count. */
    method SelectedWinners(participants: nat) returns (c: nat)
      requires Data().Shaped()
      ensures c == Data().SelectedWinners(participants)
    {
      if participants <= 1 {
        return 1;
      }
      var maxCount := Min(maxWinners, participants - 1);
      var bestCount, bestWeight, bestTime := 1, 0, I64_MAX;
      for count := 1 to maxCount + 1
        invariant Data().BestUpTo(count - 1) == (if bestWeight == 0 then 0 else bestCount)
        invariant bestWeight == 0 ==> bestCount == 1 && bestTime == I64_MAX
        invariant bestWeight > 0 ==>
          1 <= bestCount < count && bestWeight == weights[bestCount] && bestTime == firstSeen[bestCount]
      {
        var weight := weights[count];
        if weight > 0 {
          var time := firstSeen[count];
          if || weight > bestWeight
             || (weight == bestWeight && time < bestTime)
             || (weight == bestWeight && time == bestTime && count < bestCount)
          {
            bestWeight, bestTime, bestCount := weight, time, count;
          }
        }
      }
      return if bestWeight == 0 then 1 else bestCount;
    }
  }
}
