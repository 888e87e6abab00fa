/** The part of the mintable token (THToken) that the sale drives: minting,
    the end of minting, the global transfer lock, and the one transfer the
    sale makes itself (paying out vested tokens it holds). */
module Token {
  import opened Accounts

  datatype Ledger = Ledger(
    balances: map<Address, nat>,
    totalSupply: nat,
    mintingFinished: bool,
    transfersLocked: bool)

  /** The token the sale creates: nothing minted, minting open, transfers locked. */
  const Initial: Ledger := Ledger(map[], 0, false, true)

  /** The supply is exactly what the balances add up to. */
  ghost predicate Consistent(l: Ledger) {
    Total(l.balances) == l.totalSupply
  }

  function BalanceOf(l: Ledger, a: Address): nat {
    Get(l.balances, a)
  }

  /** Creates `amount` new tokens for `to`; the token refuses it once minting
      has finished. */
  function Mint(l: Ledger, to: Address, amount: nat): (r: Ledger)
    requires !l.mintingFinished
    ensures BalanceOf(r, to) == BalanceOf(l, to) + amount
    ensures forall a :: a != to ==> BalanceOf(r, a) == BalanceOf(l, a)
    ensures r.mintingFinished == l.mintingFinished && r.transfersLocked == l.transfersLocked
  {
    l.(balances := l.balances[to := BalanceOf(l, to) + amount],
       totalSupply := l.totalSupply + amount)
  }

  /** Moves `amount` of `from`'s tokens to `to`. */
  function Transfer(l: Ledger, from: Address, to: Address, amount: nat): (r: Ledger)
    requires from != to && amount <= BalanceOf(l, from)
    ensures BalanceOf(r, from) == BalanceOf(l, from) - amount
    ensures BalanceOf(r, to) == BalanceOf(l, to) + amount
    ensures forall a :: a != from && a != to ==> BalanceOf(r, a) == BalanceOf(l, a)
    ensures r.totalSupply == l.totalSupply
    ensures r.mintingFinished == l.mintingFinished && r.transfersLocked == l.transfersLocked
  {
    var b := l.balances[from := BalanceOf(l, from) - amount];
    l.(balances := b[to := Get(b, to) + amount])
  }

  /** Minting grows the supply by exactly the minted amount and keeps it equal
      to the sum of the balances. */
  lemma MintConsistent(l: Ledger, to: Address, amount: nat)
    requires Consistent(l) && !l.mintingFinished
    ensures Consistent(Mint(l, to, amount))
    ensures Mint(l, to, amount).totalSupply == l.totalSupply + amount
  {
    TotalUpdate(l.balances, to, BalanceOf(l, to) + amount);
  }

  /** A transfer leaves the supply and the sum of the balances as they were. */
  lemma TransferConsistent(l: Ledger, from: Address, to: Address, amount: nat)
    requires Consistent(l) && from != to && amount <= BalanceOf(l, from)
    ensures Consistent(Transfer(l, from, to, amount))
  {
    var b := l.balances[from := BalanceOf(l, from) - amount];
    TotalUpdate(l.balances, from, BalanceOf(l, from) - amount);
    TotalUpdate(b, to, Get(b, to) + amount);
  }
}
