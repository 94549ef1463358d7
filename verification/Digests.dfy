/** 32-byte keys and digests, the XOR aggregate of reveal digests, and the hash functions as parameters. */
module Digests {
  import opened Prelude

  type Bytes32 = b: seq<bv8> | |b| == 32 witness seq(32, _ => 0)
  type Pubkey = Bytes32

  function Zeros(n: nat): (z: seq<bv8>)
    ensures |z| == n && forall i :: 0 <= i < n ==> z[i] == 0
  {
    if n == 0 then [] else Zeros(n - 1) + [0]
  }

  const ZERO32: Bytes32 := Zeros(32)

  /** The SHA-256 based functions of the program, kept abstract: every theorem holds for all of them. */
  datatype Hashes = Hashes(
    commitment: seq<bv8> -> Bytes32,                       // hash(plaintext)
    disclosure: (Pubkey, seq<bv8>) -> Bytes32,             // compute_reveal_digest
    pool: (Bytes32, nat, Pubkey, nat, Bytes32) -> Bytes32, // extend_participants_commitment
    seed: (nat, nat, nat, Bytes32, Bytes32) -> Bytes32,    // compute_seed
    sample: (Bytes32, nat, nat) -> U128,                   // first 16 digest bytes of one draw attempt
    winners: (Bytes32, nat, Pubkey, nat) -> Bytes32,       // extend_winners_commitment
    noReveals: Bytes32                                     // aggregate_hashes of the empty list
  )

  function Xor(a: Bytes32, b: Bytes32): Bytes32 {
    seq(32, i requires 0 <= i < 32 => a[i] ^ b[i])
  }

  lemma XorSwap(a: Bytes32, b: Bytes32, c: Bytes32)
    ensures Xor(Xor(a, b), c) == Xor(Xor(a, c), b)
  {
    forall i | 0 <= i < 32
      ensures (a[i] ^ b[i]) ^ c[i] == (a[i] ^ c[i]) ^ b[i]
    {
    }
    assert Xor(Xor(a, b), c) == Xor(Xor(a, c), b);
  }

  lemma XorZero(a: Bytes32)
    ensures Xor(a, ZERO32) == a && Xor(ZERO32, a) == a
  {
    assert Xor(a, ZERO32) == a;
    assert Xor(ZERO32, a) == a;
  }

  function XorAll(initial: Bytes32, digests: seq<Bytes32>): Bytes32 {
    if digests == [] then initial
    else Xor(XorAll(initial, digests[..|digests| - 1]), digests[|digests| - 1])
  }

  lemma {:induction false} XorAllZeros(digests: seq<Bytes32>)
    requires forall i :: 0 <= i < |digests| ==> digests[i] == ZERO32
    ensures XorAll(ZERO32, digests) == ZERO32
  {
    if digests != [] {
      XorAllZeros(digests[..|digests| - 1]);
      XorZero(ZERO32);
    }
  }

  /** Folding one digest into one slot that held zero is the same as XOR-ing it into the aggregate. */
  lemma {:induction false} XorAllReplaceZero(initial: Bytes32, digests: seq<Bytes32>, i: nat, d: Bytes32)
    requires i < |digests| && digests[i] == ZERO32
    ensures XorAll(initial, digests[i := d]) == Xor(XorAll(initial, digests), d)
  {
    var n := |digests| - 1;
    var rest := XorAll(initial, digests[..n]);
    if i == n {
      assert digests[i := d][..n] == digests[..n];
      XorZero(rest);
    } else {
      assert digests[i := d][..n] == digests[..n][i := d];
      XorAllReplaceZero(initial, digests[..n], i, d);
      XorSwap(rest, digests[n], d);
    }
  }

  /** xor_reveal_digests: folds a list of digests into an aggregate, byte by byte. */
  method XorRevealDigests(initial: Bytes32, digests: seq<Bytes32>) returns (aggregate: Bytes32)
    ensures aggregate == XorAll(initial, digests)
  {
    var acc := new bv8[32](i requires 0 <= i < 32 => initial[i]);
    assert acc[..] == initial;
    for k := 0 to |digests|
      invariant acc[..] == XorAll(initial, digests[..k])
    {
      ghost var before := acc[..];
      for i := 0 to 32
        invariant forall j :: 0 <= j < i ==> acc[j] == before[j] ^ digests[k][j]
        invariant forall j :: i <= j < 32 ==> acc[j] == before[j]
      {
        acc[i] := acc[i] ^ digests[k][i];
      }
      assert digests[..k + 1][..k] == digests[..k];
      assert acc[..] == Xor(before, digests[k]);
    }
    assert digests[..|digests|] == digests;
    aggregate := acc[..];
  }
}
