/** Rejection-sampled draws: the retry loop of `draw_index` and why its result is unbiased. */
module DrawIndex {
  import opened Prelude
  import opened Digests

  const SAMPLES: nat := U128_MAX + 1
  const NONCES: nat := U32_MAX + 1

  /** `modulus.wrapping_neg() % modulus` on 128-bit words. */
  function RejectionFloor(m: nat): nat
    requires 0 < m <= SAMPLES
  {
    (SAMPLES - m) % m
  }

  predicate Accepted(x: U128, m: nat)
    requires 0 < m <= SAMPLES
  {
    x >= RejectionFloor(m)
  }

  /** The draw for a round: the residue of the first accepted sample, trying nonces in order. */
  function DrawFrom(h: Hashes, seed: Bytes32, round: nat, m: nat, nonce: nat): (r: Option<nat>)
    requires 0 < m <= SAMPLES && nonce <= NONCES
    decreases NONCES - nonce
  {
    if nonce == NONCES then None
    else
      var x := h.sample(seed, round, nonce);
      if Accepted(x, m) then Some(x % m) else DrawFrom(h, seed, round, m, nonce + 1)
  }

  function Draw(h: Hashes, seed: Bytes32, round: nat, remaining: nat): Result<nat>
    requires remaining <= SAMPLES
  {
    if remaining == 0 then Err(InvalidInstruction)
    else
      match DrawFrom(h, seed, round, remaining, 0)
      case Some(d) => Ok(d)
      case None => Err(WinnerSelectionFailed)
  }

  /** Attempt k is the first accepted one from `nonce` on, and leaves residue d. */
  ghost predicate FirstAccepted(h: Hashes, seed: Bytes32, round: nat, m: nat, nonce: nat, k: nat, d: nat)
    requires 0 < m <= SAMPLES
  {
    && nonce <= k < NONCES
    && Accepted(h.sample(seed, round, k), m)
    && d == h.sample(seed, round, k) % m
    && forall j :: nonce <= j < k ==> !Accepted(h.sample(seed, round, j), m)
  }

  /** Characterises a draw without naming the search: some accepted sample gives it and all earlier ones were rejected. */
  lemma {:induction false} DrawFromFirst(h: Hashes, seed: Bytes32, round: nat, m: nat, nonce: nat)
    requires 0 < m <= SAMPLES && nonce <= NONCES
    ensures var r := DrawFrom(h, seed, round, m, nonce);
            match r
            case Some(d) => d < m && exists k :: FirstAccepted(h, seed, round, m, nonce, k, d)
            case None => forall k :: nonce <= k < NONCES ==> !Accepted(h.sample(seed, round, k), m)
    decreases NONCES - nonce
  {
    if nonce < NONCES {
      var x := h.sample(seed, round, nonce);
      if Accepted(x, m) {
        assert FirstAccepted(h, seed, round, m, nonce, nonce, x % m);
      } else {
        DrawFromFirst(h, seed, round, m, nonce + 1);
        var r := DrawFrom(h, seed, round, m, nonce + 1);
        if r.Some? {
          var k :| FirstAccepted(h, seed, round, m, nonce + 1, k, r.value);
          assert FirstAccepted(h, seed, round, m, nonce, k, r.value);
        }
      }
    }
  }

  lemma DrawInRange(h: Hashes, seed: Bytes32, round: nat, remaining: nat)
    requires remaining <= SAMPLES
    ensures Draw(h, seed, round, remaining).Ok? ==> Draw(h, seed, round, remaining).value < remaining
    ensures Draw(h, seed, round, remaining).Ok? <==>
            remaining > 0 && exists k :: 0 <= k < NONCES && Accepted(h.sample(seed, round, k), remaining)
  {
    if remaining > 0 {
      DrawFromFirst(h, seed, round, remaining, 0);
    }
  }

  /** The retry loop. */
  method DrawWithRetry(h: Hashes, seed: Bytes32, round: nat, remaining: nat) returns (r: Result<nat>)
    requires remaining <= U64_MAX
    ensures r == Draw(h, seed, round, remaining)
  {
    if remaining == 0 {
      return Err(InvalidInstruction);
    }
    var floor := (SAMPLES - remaining) % remaining;
    for nonce := 0 to NONCES
      invariant DrawFrom(h, seed, round, remaining, 0) == DrawFrom(h, seed, round, remaining, nonce)
    {
      var sample := h.sample(seed, round, nonce);
      if sample >= floor {
        return Ok(sample % remaining);
      }
    }
    return Err(WinnerSelectionFailed);
  }

  // ----- no bias -----

  lemma ModUnique(x: int, m: int, q: int, r: int)
    requires 0 <= r < m && x == q * m + r
    ensures x % m == r && x / m == q
  {
    var d := x / m - q;
    assert d * m == r - x % m by {
      assert (x / m) * m + x % m == x;
      assert d * m == (x / m) * m - q * m;
    }
    assert d >= 1 ==> d * m >= m;
    assert d <= -1 ==> d * m <= -m;
  }

  lemma FloorIsRemainder(m: nat)
    requires 0 < m <= SAMPLES
    ensures RejectionFloor(m) == SAMPLES % m
    ensures SAMPLES == SAMPLES / m * m + RejectionFloor(m)
  {
    var q := SAMPLES / m;
    assert SAMPLES == q * m + SAMPLES % m;
    assert SAMPLES - m == (q - 1) * m + SAMPLES % m;
    ModUnique(SAMPLES - m, m, q - 1, SAMPLES % m);
  }

  /** The samples in [lo, lo + q*m) that leave residue r. */
  ghost function Preimages(lo: nat, q: nat, m: nat, r: nat): set<nat>
    requires m > 0
  {
    set x: nat | lo <= x < lo + q * m && x % m == r
  }

  /** Each block of m consecutive samples contains exactly one sample of each residue. */
  lemma BlockHasOne(lo: nat, m: nat, r: nat) returns (x: nat)
    requires r < m
    ensures lo <= x < lo + m && x % m == r
    ensures forall y :: lo <= y < lo + m && y % m == r ==> y == x
  {
    var shift := (r - lo) % m;
    x := lo + shift;
    var t := (r - lo) / m;
    assert r - lo == t * m + shift;
    assert x == (-t) * m + r;
    ModUnique(x, m, -t, r);
    forall y | lo <= y < lo + m && y % m == r
      ensures y == x
    {
      var a := y / m - x / m;
      assert y - x == a * m by {
        assert y == y / m * m + r;
        assert x == x / m * m + r;
      }
      assert a >= 1 ==> a * m >= m;
      assert a <= -1 ==> a * m <= 0 - m;
    }
  }

  lemma {:induction false} PreimageCount(lo: nat, q: nat, m: nat, r: nat)
    requires r < m
    ensures |Preimages(lo, q, m, r)| == q
  {
    if q == 0 {
      assert Preimages(lo, q, m, r) == {};
    } else {
      var start := lo + (q - 1) * m;
      assert start + m == lo + q * m;
      var x := BlockHasOne(start, m, r);
      PreimageCount(lo, q - 1, m, r);
      assert Preimages(lo, q, m, r) == Preimages(lo, q - 1, m, r) + {x};
    }
  }

  /** Every residue below the modulus has exactly 2^128 / m accepted preimages: the draw is uniform. */
  lemma Unbiased(m: nat, r: nat)
    requires 0 < m <= SAMPLES && r < m
    ensures |(set x: U128 | Accepted(x, m) && x % m == r)| == SAMPLES / m
  {
    FloorIsRemainder(m);
    PreimageCount(RejectionFloor(m), SAMPLES / m, m, r);
    assert (set x: U128 | Accepted(x, m) && x % m == r) == Preimages(RejectionFloor(m), SAMPLES / m, m, r);
  }
}
