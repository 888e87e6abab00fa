/** Addresses and the per-address books (Solidity mappings) the sale and its
    token keep, with the sums their invariants are stated in. */
module Accounts {

  /** An account identity (an Ethereum address). */
  type Address = nat

  /** The amount `m` records for `a`; an address never written holds 0, as
      in a Solidity mapping. */
  function Get(m: map<Address, nat>, a: Address): nat {
    if a in m then m[a] else 0
  }

  /** The sum of a sequence of amounts, taken from the back so that it
      follows a loop over a growing prefix. */
  function Sum(s: seq<nat>): nat {
    if |s| == 0 then 0 else Sum(s[..|s| - 1]) + s[|s| - 1]
  }

  lemma SumAppend(s: seq<nat>, x: nat)
    ensures Sum(s + [x]) == Sum(s) + x
  {
    assert (s + [x])[..|s|] == s;
  }

  /** The sum of every amount a book records. */
  ghost function Total(m: map<Address, nat>): nat
    decreases |m|
  {
    if m == map[] then 0
    else
      var a :| a in m;
      m[a] + Total(m - {a})
  }

  /** Total does not depend on which key it takes apart first. */
  lemma {:induction false} TotalRemove(m: map<Address, nat>, a: Address)
    requires a in m
    ensures Total(m) == m[a] + Total(m - {a})
    decreases |m|
  {
    var b :| b in m && Total(m) == m[b] + Total(m - {b});
    if b != a {
      TotalRemove(m - {b}, a);
      TotalRemove(m - {a}, b);
      assert m - {b} - {a} == m - {a} - {b};
    }
  }

  /** Writing `v` for `a` changes the total by exactly `v - Get(m, a)`, and no
      single entry exceeds the total. */
  lemma TotalUpdate(m: map<Address, nat>, a: Address, v: nat)
    ensures Get(m, a) <= Total(m)
    ensures Total(m[a := v]) == Total(m) - Get(m, a) + v
  {
    var m' := m[a := v];
    TotalRemove(m', a);
    assert m' - {a} == m - {a};
    if a in m {
      TotalRemove(m, a);
    } else {
      assert m - {a} == m;
    }
  }
}
