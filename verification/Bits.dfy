/** Bit tests and updates inside bytes and byte strings, and little-endian integers. */
module Bits {

  function Mask(k: nat): bv8
    requires k < 8
  {
    (1 as bv8) << k
  }

  predicate Bit(b: bv8, k: nat)
    requires k < 8
  {
    b & Mask(k) != 0
  }

  lemma SetBit(b: bv8, j: nat, k: nat)
    requires j < 8 && k < 8
    ensures Bit(b | Mask(j), k) == (j == k || Bit(b, k))
  {
  }

  lemma ZeroBits(k: nat)
    requires k < 8
    ensures !Bit(0, k)
  {
  }

  /** `(byte >> k) & 1 == 1` is the same test as `byte & (1 << k) != 0`. */
  lemma ShiftTest(b: bv8, k: nat)
    requires k < 8
    ensures ((b >> k) & 1 == 1) == Bit(b, k)
  {
  }

  // ----- little-endian integers -----

  function Pow256(k: nat): nat {
    if k == 0 then 1 else 256 * Pow256(k - 1)
  }

  /** The byte with the given bits, lowest first. */
  function Assemble(b0: bool, b1: bool, b2: bool, b3: bool, b4: bool, b5: bool, b6: bool, b7: bool): bv8 {
    (if b0 then 1 else 0) | (if b1 then 2 else 0) | (if b2 then 4 else 0) | (if b3 then 8 else 0)
    | (if b4 then 16 else 0) | (if b5 then 32 else 0) | (if b6 then 64 else 0) | (if b7 then 128 else 0)
  }

  lemma AssembledBits(b0: bool, b1: bool, b2: bool, b3: bool, b4: bool, b5: bool, b6: bool, b7: bool)
    ensures var b := Assemble(b0, b1, b2, b3, b4, b5, b6, b7);
            && (b & 1 != 0) == b0 && (b & 2 != 0) == b1 && (b & 4 != 0) == b2 && (b & 8 != 0) == b3
            && (b & 16 != 0) == b4 && (b & 32 != 0) == b5 && (b & 64 != 0) == b6 && (b & 128 != 0) == b7
  {
  }

  /** The number with the given binary digits, lowest first. */
  function Weigh(b0: bool, b1: bool, b2: bool, b3: bool, b4: bool, b5: bool, b6: bool, b7: bool): (n: nat)
    ensures n < 256
  {
    (if b0 then 1 else 0) + (if b1 then 2 else 0) + (if b2 then 4 else 0) + (if b3 then 8 else 0)
    + (if b4 then 16 else 0) + (if b5 then 32 else 0) + (if b6 then 64 else 0) + (if b7 then 128 else 0)
  }

  predicate Odd(n: nat) { n % 2 == 1 }

  lemma OddHalf(n: nat)
    ensures n == 2 * (n / 2) + if Odd(n) then 1 else 0
  {
  }

  function ByteOf(n: nat): bv8 {
    var n1 := n / 2;
    var n2 := n1 / 2;
    var n3 := n2 / 2;
    var n4 := n3 / 2;
    var n5 := n4 / 2;
    var n6 := n5 / 2;
    Assemble(Odd(n), Odd(n1), Odd(n2), Odd(n3), Odd(n4), Odd(n5), Odd(n6), Odd(n6 / 2))
  }

  function ValueOf(b: bv8): (n: nat)
    ensures n < 256
  {
    Weigh(b & 1 != 0, b & 2 != 0, b & 4 != 0, b & 8 != 0, b & 16 != 0, b & 32 != 0, b & 64 != 0, b & 128 != 0)
  }

  lemma Digits(n: nat, n1: nat, n2: nat, n3: nat, n4: nat, n5: nat, n6: nat, n7: nat,
               b0: bool, b1: bool, b2: bool, b3: bool, b4: bool, b5: bool, b6: bool, b7: bool)
    requires n == 2 * n1 + (if b0 then 1 else 0) && n1 == 2 * n2 + (if b1 then 1 else 0)
    requires n2 == 2 * n3 + (if b2 then 1 else 0) && n3 == 2 * n4 + (if b3 then 1 else 0)
    requires n4 == 2 * n5 + (if b4 then 1 else 0) && n5 == 2 * n6 + (if b5 then 1 else 0)
    requires n6 == 2 * n7 + (if b6 then 1 else 0) && n7 == if b7 then 1 else 0
    ensures Weigh(b0, b1, b2, b3, b4, b5, b6, b7) == n
  {
  }

  lemma BinaryDigits(n: nat, n1: nat, n2: nat, n3: nat, n4: nat, n5: nat, n6: nat, n7: nat)
    requires n < 256 && n1 == n / 2 && n2 == n1 / 2 && n3 == n2 / 2 && n4 == n3 / 2 && n5 == n4 / 2 && n6 == n5 / 2 && n7 == n6 / 2
    ensures Weigh(Odd(n), Odd(n1), Odd(n2), Odd(n3), Odd(n4), Odd(n5), Odd(n6), Odd(n7)) == n
  {
    OddHalf(n);
    OddHalf(n1);
    OddHalf(n2);
    OddHalf(n3);
    OddHalf(n4);
    OddHalf(n5);
    OddHalf(n6);
    OddHalf(n7);
    hide Odd, Weigh;
    Digits(n, n1, n2, n3, n4, n5, n6, n7, Odd(n), Odd(n1), Odd(n2), Odd(n3), Odd(n4), Odd(n5), Odd(n6), Odd(n7));
  }

  lemma ByteRoundTrip(n: nat)
    requires n < 256
    ensures ValueOf(ByteOf(n)) == n
  {
    hide Assemble, Weigh, Odd;
    var n1 := n / 2;
    var n2 := n1 / 2;
    var n3 := n2 / 2;
    var n4 := n3 / 2;
    var n5 := n4 / 2;
    var n6 := n5 / 2;
    var n7 := n6 / 2;
    AssembledBits(Odd(n), Odd(n1), Odd(n2), Odd(n3), Odd(n4), Odd(n5), Odd(n6), Odd(n7));
    BinaryDigits(n, n1, n2, n3, n4, n5, n6, n7);
  }

  function ToLe(n: nat, k: nat): (s: seq<bv8>)
    ensures |s| == k
  {
    if k == 0 then [] else [ByteOf(n % 256)] + ToLe(n / 256, k - 1)
  }

  function FromLe(s: seq<bv8>): nat {
    if s == [] then 0 else ValueOf(s[0]) + 256 * FromLe(s[1..])
  }

  lemma {:induction false} LeRoundTrip(n: nat, k: nat)
    requires n < Pow256(k)
    ensures FromLe(ToLe(n, k)) == n
  {
    hide ByteOf, ValueOf;
    if k > 0 {
      ByteRoundTrip(n % 256);
      LeRoundTrip(n / 256, k - 1);
      assert ToLe(n, k)[1..] == ToLe(n / 256, k - 1);
    }
  }

  lemma {:induction false} FromLeBound(s: seq<bv8>)
    ensures FromLe(s) < Pow256(|s|)
  {
    hide ValueOf;
    if s != [] {
      FromLeBound(s[1..]);
    }
  }
}
