/** The reserved token pools minted at a successful finalization. Each pool is
    a share of the tokens sold: `sold * part / crowdsalePart`, where the parts
    (crowdsale, bounty, advisor, platform and the four team tranches) are the
    sale's allocation table, all shares of one common whole. The division
    rounds down, as integer division on chain does. */
module Allocation {
  import opened Accounts

  /** The pool for allocation part `part`, rounded down. */
  function Pool(sold: nat, part: nat, crowdsalePart: nat): (p: nat)
    requires crowdsalePart > 0
    ensures p * crowdsalePart <= sold * part < (p + 1) * crowdsalePart
  {
    sold * part / crowdsalePart
  }

  /** One pool per part, in order (the four team tranches). */
  function Pools(sold: nat, parts: seq<nat>, crowdsalePart: nat): seq<nat>
    requires crowdsalePart > 0
  {
    seq(|parts|, i requires 0 <= i < |parts| => Pool(sold, parts[i], crowdsalePart))
  }

  lemma CancelFactor(a: int, b: int, c: int)
    requires c > 0 && a * c < b * c
    ensures a < b
  {
  }

  /** Rounding each pool down never gives more than rounding their sum. */
  lemma PoolAdd(sold: nat, x: nat, y: nat, c: nat)
    requires c > 0
    ensures Pool(sold, x, c) + Pool(sold, y, c) <= Pool(sold, x + y, c)
  {
    var px, py, pxy := Pool(sold, x, c), Pool(sold, y, c), Pool(sold, x + y, c);
    assert sold * (x + y) == sold * x + sold * y;
    assert (px + py) * c == px * c + py * c;
    assert (pxy + 1) * c == pxy * c + c;
    CancelFactor(px + py, pxy + 1, c);
  }

  /** When the tokens sold are a whole multiple of the crowdsale part, every
      pool is exact. */
  lemma PoolExact(sold: nat, part: nat, c: nat)
    requires c > 0 && sold % c == 0
    ensures Pool(sold, part, c) == (sold / c) * part
  {
    var q, p := sold / c, Pool(sold, part, c);
    assert sold == q * c;
    assert sold * part == (q * part) * c;
    assert (q * part + 1) * c == (q * part) * c + c;
    assert (p + 1) * c == p * c + c;
    CancelFactor(p, q * part + 1, c);
    CancelFactor(q * part, p + 1, c);
  }

  /** The team tranches together never exceed the pool of the whole team part,
      and equal it when the tokens sold are a whole multiple of the crowdsale
      part. */
  lemma {:induction false} PoolsSum(sold: nat, parts: seq<nat>, c: nat)
    requires c > 0
    ensures Sum(Pools(sold, parts, c)) <= Pool(sold, Sum(parts), c)
    ensures sold % c == 0 ==> Sum(Pools(sold, parts, c)) == Pool(sold, Sum(parts), c)
    decreases |parts|
  {
    var r := Pools(sold, parts, c);
    if |parts| == 0 {
      assert sold * 0 / c == 0;
    } else {
      var n := |parts| - 1;
      assert r[..n] == Pools(sold, parts[..n], c);
      PoolsSum(sold, parts[..n], c);
      PoolAdd(sold, Sum(parts[..n]), parts[n], c);
      if sold % c == 0 {
        PoolExact(sold, Sum(parts[..n]), c);
        PoolExact(sold, parts[n], c);
        PoolExact(sold, Sum(parts), c);
        assert (sold / c) * Sum(parts) == (sold / c) * Sum(parts[..n]) + (sold / c) * parts[n];
      }
    }
  }

  /** With exact pools, the sold tokens are exactly the crowdsale part's share
      of the supply after finalization: supply / sold == (crowdsale part + all
      reserved parts) / crowdsale part. */
  lemma ContributorShare(sold: nat, c: nat, bounty: nat, advisor: nat, platform: nat, team: seq<nat>)
    requires c > 0 && sold % c == 0
    ensures (sold + Pool(sold, bounty, c) + Pool(sold, platform, c) + Pool(sold, advisor, c) + Sum(Pools(sold, team, c))) * c
         == sold * (c + bounty + platform + advisor + Sum(team))
  {
    var q := sold / c;
    PoolExact(sold, bounty, c);
    PoolExact(sold, platform, c);
    PoolExact(sold, advisor, c);
    PoolsSum(sold, team, c);
    PoolExact(sold, Sum(team), c);
    var b, p, a, t := Pool(sold, bounty, c), Pool(sold, platform, c), Pool(sold, advisor, c), Sum(Pools(sold, team, c));
    ExactQuotient(sold, c);
    ShareIdentity(sold, q, c, bounty, platform, advisor, Sum(team), b, p, a, t);
  }

  lemma ExactQuotient(sold: nat, c: nat)
    requires c > 0 && sold % c == 0
    ensures sold == (sold / c) * c
  {
  }

  lemma ShareIdentity(sold: int, q: int, c: int, bounty: int, platform: int, advisor: int, teamPart: int,
                      b: int, p: int, a: int, t: int)
    requires sold == q * c
    requires b == q * bounty && p == q * platform && a == q * advisor && t == q * teamPart
    ensures (sold + b + p + a + t) * c == sold * (c + bounty + platform + advisor + teamPart)
  {
    var whole := c + bounty + platform + advisor + teamPart;
    assert sold + b + p + a + t == q * whole;
    assert (q * whole) * c == (q * c) * whole;
  }

  /** Computes the team tranches one part at a time, with their total. */
  method TeamPools(sold: nat, parts: seq<nat>, crowdsalePart: nat) returns (pools: seq<nat>, total: nat)
    requires crowdsalePart > 0
    ensures pools == Pools(sold, parts, crowdsalePart)
    ensures total == Sum(pools)
  {
    pools, total := [], 0;
    var i := 0;
    while i < |parts|
      invariant i <= |parts|
      invariant pools == Pools(sold, parts[..i], crowdsalePart)
      invariant total == Sum(pools)
    {
      var pool := Pool(sold, parts[i], crowdsalePart);
      SumAppend(pools, pool);
      pools := pools + [pool];
      total := total + pool;
      i := i + 1;
    }
    assert parts[..i] == parts;
  }
}
