/**
 The draw the program must implement, stated without cursors: write the remaining eligible tickets
 out as a list in participant order, take the ticket at the drawn position, remove its owner, repeat.
 The rest of the module relates that list to running prefix counts.
 */
module TicketDraw {
  import opened Prelude
  import opened Digests
  import opened Sums
  import opened Participants
  import opened DrawIndex

  function EligibleTickets(): Entry -> nat {
    (e: Entry) => if e.shown.Some? then e.tickets else 0
  }

  function EligibleOne(): Entry -> nat {
    (e: Entry) => if e.shown.Some? then 1 else 0
  }

  function Repeat(x: nat, n: nat): (s: seq<nat>)
    ensures |s| == n && forall i :: 0 <= i < n ==> s[i] == x
  {
    seq(n, _ => x)
  }

  /** One list element per ticket still in the draw: the participant number of its owner, in join order. */
  function TicketList(pool: seq<Entry>, taken: seq<nat>): seq<nat> {
    if pool == [] then []
    else
      var k := |pool| - 1;
      TicketList(pool[..k], taken)
      + if pool[k].shown.Some? && k !in taken then Repeat(k, pool[k].tickets) else []
  }

  /** The simple draw: participant numbers of the first `rounds` winners, or None when a draw fails. */
  function Winners(h: Hashes, seed: Bytes32, pool: seq<Entry>, rounds: nat): Option<seq<nat>>
    requires Sum(pool, EligibleTickets()) <= U64_MAX
  {
    if rounds == 0 then Some([])
    else
      match Winners(h, seed, pool, rounds - 1)
      case None => None
      case Some(taken) =>
        var tickets := TicketList(pool, taken);
        TicketListBound(pool, taken);
        match Draw(h, seed, rounds - 1, |tickets|)
        case Err(_) => None
        case Ok(d) =>
          DrawInRange(h, seed, rounds - 1, |tickets|);
          Some(taken + [tickets[d]])
  }

  lemma {:induction false} TicketListBound(pool: seq<Entry>, taken: seq<nat>)
    ensures |TicketList(pool, taken)| <= Sum(pool, EligibleTickets())
  {
    if pool != [] {
      TicketListBound(pool[..|pool| - 1], taken);
    }
  }

  /** Every listed ticket belongs to an eligible participant who has not been taken. */
  lemma {:induction false} TicketListOwners(pool: seq<Entry>, taken: seq<nat>, i: nat)
    requires i < |TicketList(pool, taken)|
    ensures var k := TicketList(pool, taken)[i];
            k < |pool| && pool[k].shown.Some? && k !in taken && pool[k].tickets > 0
  {
    var n := |pool| - 1;
    if i < |TicketList(pool[..n], taken)| {
      TicketListOwners(pool[..n], taken, i);
    }
  }

  /** The list over a prefix of the pool is a prefix of the list. */
  lemma {:induction false} TicketListPrefix(pool: seq<Entry>, taken: seq<nat>, k: nat)
    requires k <= |pool|
    ensures TicketList(pool[..k], taken) <= TicketList(pool, taken)
  {
    if k == |pool| {
      assert pool[..k] == pool;
    } else {
      TicketListPrefix(pool[..|pool| - 1], taken, k);
      assert pool[..|pool| - 1][..k] == pool[..k];
    }
  }

  lemma TicketListNext(pool: seq<Entry>, taken: seq<nat>, k: nat)
    requires k < |pool|
    ensures TicketList(pool[..k + 1], taken) == TicketList(pool[..k], taken)
            + if pool[k].shown.Some? && k !in taken then Repeat(k, pool[k].tickets) else []
  {
    assert pool[..k + 1][..k] == pool[..k];
  }

  /** Taking one more participant out removes exactly that participant's tickets. */
  lemma {:induction false} TicketListRemove(pool: seq<Entry>, taken: seq<nat>, w: nat)
    requires w !in taken
    ensures |TicketList(pool, taken + [w])|
         == |TicketList(pool, taken)| - if w < |pool| && pool[w].shown.Some? then pool[w].tickets else 0
  {
    if pool != [] {
      var k := |pool| - 1;
      TicketListRemove(pool[..k], taken, w);
    }
  }

  lemma {:induction false} TicketListAll(pool: seq<Entry>)
    ensures |TicketList(pool, [])| == Sum(pool, EligibleTickets())
  {
    if pool != [] {
      TicketListAll(pool[..|pool| - 1]);
    }
  }

  ghost predicate Distinct(s: seq<nat>) {
    forall i, j :: 0 <= i < j < |s| ==> s[i] != s[j]
  }

  /** Tickets held by a list of participants. */
  function TicketsOf(pool: seq<Entry>, who: seq<nat>): nat
    requires forall i :: 0 <= i < |who| ==> who[i] < |pool|
  {
    if who == [] then 0 else TicketsOf(pool, who[..|who| - 1]) + pool[who[|who| - 1]].tickets
  }

  /** Distinct, eligible participants who hold everything that is no longer in the list. */
  ghost predicate ProperWinners(pool: seq<Entry>, who: seq<nat>) {
    && Distinct(who)
    && (forall i :: 0 <= i < |who| ==> who[i] < |pool| && pool[who[i]].shown.Some? && pool[who[i]].tickets > 0)
    && |TicketList(pool, who)| + TicketsOf(pool, who) == Sum(pool, EligibleTickets())
  }

  /** Taking the owner of any listed ticket keeps the winners proper. */
  lemma OneMoreProper(pool: seq<Entry>, taken: seq<nat>, d: nat)
    requires ProperWinners(pool, taken) && d < |TicketList(pool, taken)|
    ensures ProperWinners(pool, taken + [TicketList(pool, taken)[d]])
  {
    var w := TicketList(pool, taken)[d];
    TicketListOwners(pool, taken, d);
    TicketListRemove(pool, taken, w);
    hide TicketList;
    assert (taken + [w])[..|taken|] == taken;
  }

  /** Winners are distinct, eligible participants, and the list of remaining tickets shrinks by what they hold. */
  lemma {:induction false} WinnersFacts(h: Hashes, seed: Bytes32, pool: seq<Entry>, rounds: nat)
    requires Sum(pool, EligibleTickets()) <= U64_MAX
    requires Winners(h, seed, pool, rounds).Some?
    ensures var w := Winners(h, seed, pool, rounds).value;
            && |w| == rounds && Distinct(w)
            && (forall i :: 0 <= i < |w| ==> w[i] < |pool| && pool[w[i]].shown.Some? && pool[w[i]].tickets > 0)
            && |TicketList(pool, w)| + TicketsOf(pool, w) == Sum(pool, EligibleTickets())
  {
    ProperRounds(h, seed, pool, rounds);
    hide Winners, TicketList;
  }

  lemma {:induction false} ProperRounds(h: Hashes, seed: Bytes32, pool: seq<Entry>, rounds: nat)
    requires Sum(pool, EligibleTickets()) <= U64_MAX
    requires Winners(h, seed, pool, rounds).Some?
    ensures |Winners(h, seed, pool, rounds).value| == rounds && ProperWinners(pool, Winners(h, seed, pool, rounds).value)
  {
    if rounds == 0 {
      TicketListAll(pool);
    } else {
      hide ProperWinners, TicketList;
      ProperRounds(h, seed, pool, rounds - 1);
      var taken := Winners(h, seed, pool, rounds - 1).value;
      TicketListBound(pool, taken);
      DrawInRange(h, seed, rounds - 1, |TicketList(pool, taken)|);
      OneMoreProper(pool, taken, Draw(h, seed, rounds - 1, |TicketList(pool, taken)|).value);
    }
  }

  /** Earlier rounds do not depend on later ones. */
  lemma {:induction false} WinnersPrefix(h: Hashes, seed: Bytes32, pool: seq<Entry>, k: nat, rounds: nat)
    requires Sum(pool, EligibleTickets()) <= U64_MAX && k <= rounds
    requires Winners(h, seed, pool, rounds).Some?
    ensures Winners(h, seed, pool, k).Some?
    ensures Winners(h, seed, pool, k).value <= Winners(h, seed, pool, rounds).value
  {
    if k < rounds {
      WinnersPrefix(h, seed, pool, k, rounds - 1);
    }
  }

  /** Removing w of the k eligible participants leaves tickets to draw from, as long as w < k. */
  lemma {:induction false} TicketsRemain(pool: seq<Entry>, taken: seq<nat>)
    requires forall i :: 0 <= i < |pool| ==> pool[i].tickets > 0
    requires |taken| < Sum(pool, EligibleOne())
    ensures |TicketList(pool, taken)| > 0
  {
    if TicketList(pool, taken) == [] {
      EligibleAllTaken(pool, taken);
      assert false;
    }
  }

  /**
   As long as a round is within the number of eligible participants there is something to draw from, so the only way
   for it to fail is that every attempt is rejected.
   */
  lemma OnlyRejectionFails(h: Hashes, seed: Bytes32, pool: seq<Entry>, k: nat)
    requires Sum(pool, EligibleTickets()) <= U64_MAX && forall i :: 0 <= i < |pool| ==> pool[i].tickets > 0
    requires Winners(h, seed, pool, k).Some? && k < Sum(pool, EligibleOne())
    ensures var remaining := |TicketList(pool, Winners(h, seed, pool, k).value)|;
            && 0 < remaining <= SAMPLES
            && (Winners(h, seed, pool, k + 1).None? <==> forall n :: 0 <= n < NONCES ==> !Accepted(h.sample(seed, k, n), remaining))
  {
    WinnersFacts(h, seed, pool, k);
    var taken := Winners(h, seed, pool, k).value;
    TicketsRemain(pool, taken);
    TicketListBound(pool, taken);
    DrawInRange(h, seed, k, |TicketList(pool, taken)|);
  }

  lemma {:induction false} EligibleAllTaken(pool: seq<Entry>, taken: seq<nat>)
    requires forall i :: 0 <= i < |pool| ==> pool[i].tickets > 0
    requires TicketList(pool, taken) == []
    ensures Sum(pool, EligibleOne()) <= |taken|
  {
    var eligible := EligibleSet(pool);
    EligibleInTaken(pool, taken);
    EligibleCardinality(pool);
    var takenSet := Elements(taken);
    assert eligible <= takenSet;
    SubsetSize(eligible, takenSet);
    SetSize(taken);
  }

  lemma {:induction false} EligibleInTaken(pool: seq<Entry>, taken: seq<nat>)
    requires forall i :: 0 <= i < |pool| ==> pool[i].tickets > 0
    requires TicketList(pool, taken) == []
    ensures forall k :: 0 <= k < |pool| && pool[k].shown.Some? ==> k in taken
  {
    if pool != [] {
      EligibleInTaken(pool[..|pool| - 1], taken);
      assert forall k :: 0 <= k < |pool| - 1 ==> pool[..|pool| - 1][k] == pool[k];
    }
  }

  ghost function EligibleSet(pool: seq<Entry>): set<nat> {
    set k | 0 <= k < |pool| && pool[k].shown.Some?
  }

  lemma {:induction false} EligibleCardinality(pool: seq<Entry>)
    ensures |EligibleSet(pool)| == Sum(pool, EligibleOne())
  {
    if pool != [] {
      var n := |pool| - 1;
      EligibleCardinality(pool[..n]);
      assert EligibleSet(pool) == EligibleSet(pool[..n]) + if pool[n].shown.Some? then {n} else {};
    }
  }

  lemma SubsetSize(a: set<nat>, b: set<nat>)
    requires a <= b
    ensures |a| <= |b|
  {
    assert b == a + (b - a);
  }

  ghost function Elements(s: seq<nat>): set<nat> {
    set x | x in s
  }

  lemma {:induction false} SetSize(s: seq<nat>)
    ensures |Elements(s)| <= |s|
  {
    if s != [] {
      var n := |s| - 1;
      SetSize(s[..n]);
      var fewer := Elements(s[..n]);
      assert forall x :: x in s <==> x in s[..n] || x == s[n];
      if s[n] in fewer {
        assert Elements(s) == fewer;
      } else {
        assert Elements(s) == fewer + {s[n]};
      }
    }
  }
}
