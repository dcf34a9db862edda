/** What every contract of the system shares: addresses, the block a call runs in,
    call outcomes, storage mappings with their zero default, and sums over them. */
module Evm {

  type Address = nat
  type Bytes32 = nat

  const ZERO_ADDRESS: Address := 0
  const MAX_UINT8: nat := 255
  const MAX_UINT256: nat := 0xFFFF_FFFF_FFFF_FFFF_FFFF_FFFF_FFFF_FFFF_FFFF_FFFF_FFFF_FFFF_FFFF_FFFF_FFFF_FFFF

  /** The caller and the block of one call. */
  datatype Env = Env(sender: Address, timestamp: nat, number: nat)

  /** A call either reverts, leaving no trace, or returns. */
  datatype Outcome<+T, +E> = Reverted(error: E) | Returned(value: T)

  /** The outcome of a call that leaves a second part of the state, such as the token's, alone. */
  function Beside<S, T, E>(r: Outcome<S, E>, other: T): Outcome<(S, T), E> {
    match r
    case Reverted(e) => Reverted(e)
    case Returned(s) => Returned((s, other))
  }

  /** Reads a storage mapping: an absent key holds the zero value. */
  function At<K, V>(m: map<K, V>, k: K, zero: V): V {
    if k in m then m[k] else zero
  }

  /** A method that mutates storage agrees with a specification of the call: it
      reaches the specified state and returns, or reverts with the specified error
      and leaves the state as it was. */
  ghost predicate Agrees<T, E>(r: Outcome<(), E>, spec: Outcome<T, E>, before: T, after: T) {
    match spec
    case Returned(v) => r.Returned? && after == v
    case Reverted(e) => r == Reverted(e) && after == before
  }

  /** The sum of all values of a mapping. */
  ghost function Sum(m: map<nat, nat>): nat {
    if m == map[] then 0 else
    var k :| k in m;
    m[k] + Sum(m - {k})
  }

  lemma {:induction false} SumTakeOut(m: map<nat, nat>, k: nat)
    requires k in m
    ensures Sum(m) == m[k] + Sum(m - {k})
    decreases |m|
  {
    var j :| j in m && Sum(m) == m[j] + Sum(m - {j});
    if j != k {
      SumTakeOut(m - {j}, k);
      SumTakeOut(m - {k}, j);
      assert m - {j} - {k} == m - {k} - {j};
    }
  }

  /** Writing one key changes the sum by the change of that key. */
  lemma SumWrite(m: map<nat, nat>, k: nat, v: nat)
    ensures Sum(m[k := v]) == Sum(m) - At(m, k, 0) + v
  {
    SumTakeOut(m[k := v], k);
    assert m[k := v] - {k} == m - {k};
    if k in m {
      SumTakeOut(m, k);
    } else {
      assert m - {k} == m;
    }
  }

  /** No entry exceeds the sum. */
  lemma SumBoundsEntry(m: map<nat, nat>, k: nat)
    ensures At(m, k, 0) <= Sum(m)
  {
    if k in m {
      SumTakeOut(m, k);
    }
  }

  /** No two entries together exceed the sum. */
  lemma SumBoundsPair(m: map<nat, nat>, j: nat, k: nat)
    requires j != k
    ensures At(m, j, 0) + At(m, k, 0) <= Sum(m)
  {
    SumBoundsEntry(m - {k}, j);
    if k in m {
      SumTakeOut(m, k);
    } else {
      SumBoundsEntry(m, j);
    }
  }
}
