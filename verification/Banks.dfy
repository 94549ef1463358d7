/** Lamports by account, transfers between accounts, and conservation of their total. */
module Banks {
  import opened Prelude
  import opened Digests

  /** Accounts that hold lamports; program-derived addresses are named by what they are derived from. */
  datatype Account = Wallet(key: Pubkey) | Vault | ParticipantAccount(wallet: Pubkey)

  type Bank = map<Account, nat>

  function Balance(b: Bank, a: Account): nat {
    if a in b then b[a] else 0
  }

  /** Moves lamports; the receiving side is credited with a saturating addition. */
  function Transfer(b: Bank, from: Account, to: Account, amount: nat): Bank
    requires Balance(b, from) >= amount
  {
    var debited := b[from := Balance(b, from) - amount];
    debited[to := SaturatingAdd(Balance(debited, to), amount, U64_MAX)]
  }

  ghost function Total(b: Bank): nat {
    if b == map[] then 0
    else
      var a :| a in b;
      b[a] + Total(b - {a})
  }

  lemma {:induction false} TotalWithout(b: Bank, a: Account)
    requires a in b
    ensures Total(b) == b[a] + Total(b - {a})
    decreases |b|
  {
    var c :| c in b && Total(b) == b[c] + Total(b - {c});
    if c != a {
      TotalWithout(b - {c}, a);
      assert (b - {c}) - {a} == (b - {a}) - {c};
      TotalWithout(b - {a}, c);
    }
  }

  lemma TotalUpdate(b: Bank, a: Account, v: nat)
    ensures Total(b[a := v]) == Total(b) - Balance(b, a) + v
    ensures Balance(b, a) <= Total(b)
  {
    TotalWithout(b[a := v], a);
    assert b[a := v] - {a} == b - {a};
    if a in b {
      TotalWithout(b, a);
    } else {
      assert b - {a} == b;
    }
  }

  /** As long as all lamports together fit a 64-bit word, a transfer is exact: nothing is lost to saturation. */
  lemma TransferExact(b: Bank, from: Account, to: Account, amount: nat)
    requires Balance(b, from) >= amount && Total(b) <= U64_MAX && from != to
    ensures var after := Transfer(b, from, to, amount);
            && Total(after) == Total(b)
            && Balance(after, from) == Balance(b, from) - amount
            && Balance(after, to) == Balance(b, to) + amount
            && forall a :: a != from && a != to ==> Balance(after, a) == Balance(b, a)
  {
    var debited := b[from := Balance(b, from) - amount];
    TotalUpdate(b, from, Balance(b, from) - amount);
    TotalUpdate(debited, to, SaturatingAdd(Balance(debited, to), amount, U64_MAX));
    assert Balance(debited, to) == Balance(b, to);
    TotalUpdate(debited, to, 0);
  }

  /** Every participant account holds what it held. */
  ghost predicate SameRents(before: Bank, after: Bank) {
    forall w :: Balance(after, ParticipantAccount(w)) == Balance(before, ParticipantAccount(w))
  }

  lemma TransferSameRents(b: Bank, from: Account, to: Account, amount: nat)
    requires Balance(b, from) >= amount && !from.ParticipantAccount? && !to.ParticipantAccount?
    ensures SameRents(b, Transfer(b, from, to, amount))
  {
  }
}
