/** Maps from addresses to integer amounts in which a missing entry reads as 0:
    the contract's recorded deposits and the token's holdings are both of this kind. */
module Ledgers {

  /** A Stellar address (account `G...` or contract `C...`), compared by value. */
  type Address = string

  type Ledger = map<Address, int>

  /* The sum and its lemmas are stated for any key type: only key equality matters to them. */

  /** The amount stored for `a`, or 0 when `a` has no entry (Rust's `unwrap_or(0)`). */
  function Get<K>(m: map<K, int>, a: K): int {
    if a in m then m[a] else 0
  }

  /** Every stored amount is non-negative. */
  ghost predicate NonNegative<K>(m: map<K, int>) {
    forall a :: a in m ==> m[a] >= 0
  }

  /** Two ledgers that read the same for every address, whatever their stored keys. */
  ghost predicate SameReadings<K(!new)>(m: map<K, int>, m': map<K, int>) {
    forall a :: Get(m, a) == Get(m', a)
  }

  /** Some key of a non-empty key set; which one does not matter. */
  ghost function Pick<K>(keys: set<K>): (k: K)
    requires keys != {}
    ensures k in keys
  {
    var k :| k in keys; k
  }

  /** The sum of all stored amounts. */
  ghost function Total<K>(m: map<K, int>): int
    decreases |m|
  {
    if m == map[] then 0
    else
      var k := Pick(m.Keys);
      m[k] + Total(m - {k})
  }

  /** The sum can be split at any stored key, not only at the one `Total` picks. */
  lemma {:induction false} TotalRemove<K>(m: map<K, int>, k: K)
    requires k in m
    ensures Total(m) == m[k] + Total(m - {k})
    decreases |m|
  {
    var j := Pick(m.Keys);
    assert Total(m) == m[j] + Total(m - {j});
    if j != k {
      var mj := m - {j};
      var mk := m - {k};
      assert k in mj && j in mk;
      TotalRemove(mj, k);
      TotalRemove(mk, j);
      assert mj - {k} == mk - {j};
    }
  }

  /** Writing `v` at `k` changes the sum by exactly the change of the reading at `k`. */
  lemma TotalUpdate<K>(m: map<K, int>, k: K, v: int)
    ensures Total(m[k := v]) == Total(m) - Get(m, k) + v
  {
    var m' := m[k := v];
    TotalRemove(m', k);
    assert m' - {k} == m - {k};
    if k in m {
      TotalRemove(m, k);
    } else {
      assert m - {k} == m;
    }
  }

  /** In a ledger with no negative entry, each reading is bounded by the sum. */
  lemma {:induction false} TotalBoundsReading<K>(m: map<K, int>, k: K)
    requires NonNegative(m)
    ensures 0 <= Get(m, k) <= Total(m)
    decreases |m|
  {
    if |m| != 0 {
      var j := Pick(m.Keys);
      var rest := m - {j};
      assert NonNegative(rest);
      if j != k {
        TotalBoundsReading(rest, k);
        assert Get(rest, k) == Get(m, k);
      } else {
        TotalBoundsReading(rest, k);
      }
    }
  }
}
