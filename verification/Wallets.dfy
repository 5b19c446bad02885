/** Token balances: wallets keyed by owner, or by asset and owner, and what a transfer does to their total. */
module Wallets {
  import opened Machine
  import opened Sums

  function Balance<K>(m: map<K, nat>, k: K): nat {
    if k in m then m[k] else 0
  }

  function Credit<K>(m: map<K, nat>, k: K, n: nat): map<K, nat> {
    m[k := Balance(m, k) + n]
  }

  /** A transfer of nothing is skipped. */
  function Pay<K>(m: map<K, nat>, k: K, n: nat): map<K, nat> {
    if n == 0 then m else Credit(m, k, n)
  }

  function Debit<K>(m: map<K, nat>, k: K, n: nat): Result<map<K, nat>> {
    if n <= Balance(m, k) then Ok(m[k := Balance(m, k) - n]) else Err
  }

  /** The weight of a token account in the whole supply. */
  ghost function Held(): (Key, nat) -> nat {
    (k, n) => n
  }

  /** The weight of a payment account in the supply of one asset; accounts are keyed by (asset, owner). */
  ghost function HeldIn(asset: Key): ((Key, Key), nat) -> nat {
    (k: (Key, Key), n) => if k.0 == asset then n else 0
  }

  lemma CreditHeld(m: map<Key, nat>, k: Key, n: nat)
    ensures Sum(Credit(m, k, n), Held()) == Sum(m, Held()) + n
  {
    SumPut<Key, nat>(m, k, Balance(m, k) + n);
  }

  lemma PayHeld(m: map<Key, nat>, k: Key, n: nat)
    ensures Sum(Pay(m, k, n), Held()) == Sum(m, Held()) + n
  {
    CreditHeld(m, k, n);
  }

  lemma DebitHeld(m: map<Key, nat>, k: Key, n: nat)
    requires Debit(m, k, n).Ok?
    ensures Sum(Debit(m, k, n).value, Held()) + n == Sum(m, Held())
  {
    SumPut<Key, nat>(m, k, Balance(m, k) - n);
  }

  lemma CreditHeldIn(m: map<(Key, Key), nat>, k: (Key, Key), n: nat)
    ensures forall a :: Sum(Credit(m, k, n), HeldIn(a)) == Sum(m, HeldIn(a)) + (if a == k.0 then n else 0)
  {
    SumPut<(Key, Key), nat>(m, k, Balance(m, k) + n);
  }

  lemma DebitHeldIn(m: map<(Key, Key), nat>, k: (Key, Key), n: nat)
    requires Debit(m, k, n).Ok?
    ensures forall a :: Sum(Debit(m, k, n).value, HeldIn(a)) + (if a == k.0 then n else 0) == Sum(m, HeldIn(a))
  {
    SumPut<(Key, Key), nat>(m, k, Balance(m, k) - n);
  }
}
