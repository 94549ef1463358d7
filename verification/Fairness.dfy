/** Weighted fairness: a round's draw favours every participant in exact proportion to the tickets still in the list. */
module Fairness {
  import opened Prelude
  import opened Digests
  import opened Sums
  import opened Participants
  import opened DrawIndex
  import opened TicketDraw

  /** The accepted samples whose draw falls on a ticket of participant w. */
  ghost function Favouring(tickets: seq<nat>, w: nat): set<U128>
    requires 0 < |tickets| <= SAMPLES
  {
    set x: U128 | Accepted(x, |tickets|) && tickets[x % |tickets|] == w
  }

  /** Those of them that draw one of the first n tickets. */
  ghost function FavouringBelow(tickets: seq<nat>, w: nat, n: nat): set<U128>
    requires 0 < |tickets| <= SAMPLES
  {
    set x: U128 | Accepted(x, |tickets|) && x % |tickets| < n && tickets[x % |tickets|] == w
  }

  lemma {:induction false} FavouringCount(tickets: seq<nat>, w: nat, n: nat)
    requires 0 < |tickets| <= SAMPLES && n <= |tickets|
    ensures |FavouringBelow(tickets, w, n)| == multiset(tickets[..n])[w] * (SAMPLES / |tickets|)
  {
    hide Accepted;
    var m := |tickets|;
    if n == 0 {
      assert FavouringBelow(tickets, w, 0) == {};
    } else {
      FavouringCount(tickets, w, n - 1);
      assert tickets[..n] == tickets[..n - 1] + [tickets[n - 1]];
      var before := FavouringBelow(tickets, w, n - 1);
      if tickets[n - 1] == w {
        var last := set x: U128 | Accepted(x, m) && x % m == n - 1;
        Unbiased(m, n - 1);
        assert FavouringBelow(tickets, w, n) == before + last;
        OneShareMore(multiset(tickets[..n - 1])[w], SAMPLES / m);
      } else {
        assert FavouringBelow(tickets, w, n) == before;
      }
    }
  }

  lemma OneShareMore(k: nat, q: nat)
    ensures (k + 1) * q == k * q + q
  {
  }

  /** In the ticket list a participant occurs once per ticket, or not at all when not eligible or already taken. */
  lemma {:induction false} TicketsInList(pool: seq<Entry>, taken: seq<nat>, w: nat)
    ensures multiset(TicketList(pool, taken))[w]
         == if w < |pool| && pool[w].shown.Some? && w !in taken then pool[w].tickets else 0
  {
    if pool != [] {
      var k := |pool| - 1;
      TicketsInList(pool[..k], taken, w);
      RepeatCount(k, pool[k].tickets, w);
      TicketListNext(pool, taken, k);
      assert pool[..k + 1] == pool;
      hide TicketList, Repeat;
    }
  }

  lemma {:induction false} RepeatCount(x: nat, n: nat, w: nat)
    ensures multiset(Repeat(x, n))[w] == if w == x then n else 0
  {
    if n > 0 {
      RepeatCount(x, n - 1, w);
      assert Repeat(x, n) == Repeat(x, n - 1) + [x];
    }
  }

  /**
   Of the accepted samples of a round, exactly tickets * (2^128 / m) select participant w, where m is the number of
   tickets still in the list: everybody's chance is proportional to their tickets, and nobody else can be drawn.
   */
  lemma WeightedFair(pool: seq<Entry>, taken: seq<nat>, w: nat)
    requires 0 < |TicketList(pool, taken)| <= SAMPLES
    ensures var tickets := TicketList(pool, taken);
            |(set x: U128 | Accepted(x, |tickets|) && tickets[x % |tickets|] == w)|
            == (if w < |pool| && pool[w].shown.Some? && w !in taken then pool[w].tickets else 0) * (SAMPLES / |tickets|)
  {
    hide Accepted;
    var tickets := TicketList(pool, taken);
    FavouringCount(tickets, w, |tickets|);
    TicketsInList(pool, taken, w);
    assert tickets[..|tickets|] == tickets;
    assert Favouring(tickets, w) == FavouringBelow(tickets, w, |tickets|);
    hide TicketList;
  }

  /** The winner of a round owns the ticket that the first accepted sample selects from the list of remaining tickets. */
  lemma RoundWinner(h: Hashes, seed: Bytes32, pool: seq<Entry>, k: nat) returns (n: nat)
    requires Sum(pool, EligibleTickets()) <= U64_MAX && Winners(h, seed, pool, k + 1).Some?
    ensures Winners(h, seed, pool, k).Some? && |Winners(h, seed, pool, k + 1).value| == k + 1
    ensures var tickets := TicketList(pool, Winners(h, seed, pool, k).value);
            && 0 < |tickets| <= SAMPLES && n < NONCES
            && Accepted(h.sample(seed, k, n), |tickets|)
            && (forall j :: 0 <= j < n ==> !Accepted(h.sample(seed, k, j), |tickets|))
            && Winners(h, seed, pool, k + 1).value[k] == tickets[h.sample(seed, k, n) % |tickets|]
  {
    hide Accepted, TicketList;
    WinnersFacts(h, seed, pool, k + 1);
    WinnersFacts(h, seed, pool, k);
    var tickets := TicketList(pool, Winners(h, seed, pool, k).value);
    TicketListBound(pool, Winners(h, seed, pool, k).value);
    DrawFromFirst(h, seed, k, |tickets|, 0);
    var d := DrawFrom(h, seed, k, |tickets|, 0).value;
    n :| FirstAccepted(h, seed, k, |tickets|, 0, n, d);
  }
}
