/** The sell-out scenario: one whitelisted client buys out every stage in
    turn, the owner moving the sale to the next stage after each one, and the
    owner then finalizes the sale and sweeps the escrow to the wallet. */
module Simulation {
  import opened Accounts
  import opened Stages
  import opened TokenSale

  /** Runs the sell-out on a sale that has raised nothing yet: the stages
      are bought out at time `now`, inside the sale window, and the sale is
      finalized and swept at time `later`, after its end. The client receives
      `minted` tokens, the tokens every stage issues at its own rate, and the
      wallet receives `swept` wei, the whole hard cap. */
  method SellOut(sale: Sale, client: Address, now: nat, later: nat) returns (minted: nat, swept: nat)
    requires sale.Valid()
    requires sale.activeStage == 0 && sale.fundsRaised == 0 && !sale.paused && !sale.finalized
    requires sale.startTime <= now <= sale.endTime < later && 0 < sale.softCap
    requires client != sale.wallet && client != sale.saleAddress
    requires HardCap(sale.stages) <= Get(sale.allowance, client) - Get(sale.spent, client)
    requires forall i :: 0 <= i < |sale.stages| ==> sale.minInvestment <= Width(sale.stages, i)
    modifies sale
    ensures minted == Issued(sale.stages, |sale.stages|)
    ensures swept == HardCap(sale.stages)
    ensures sale.fundsRaised == HardCap(sale.stages) && sale.activeStage == |sale.stages| - 1
    ensures sale.finalized && !sale.token.transfersLocked && sale.escrow == 0
    ensures sale.BalanceOf(client) == old(sale.BalanceOf(client)) + minted
  {
    minted := BuyOutStages(sale, client, now);
    CapWithinBounds(sale.stages, sale.softCap, 0);
    var finished := sale.FinishCrowdsale(sale.owner, later);
    assert finished.Pass?;
    var withdrawn := sale.Withdraw(sale.owner);
    swept := withdrawn.value;
  }

  /** The buying half of the sell-out: stage after stage, the client buys out
      the active stage and the owner activates the next one. */
  method BuyOutStages(sale: Sale, client: Address, now: nat) returns (minted: nat)
    requires sale.Valid()
    requires sale.activeStage == 0 && sale.fundsRaised == 0 && !sale.paused && !sale.finalized
    requires sale.startTime <= now <= sale.endTime && 0 < sale.softCap
    requires HardCap(sale.stages) <= Get(sale.allowance, client) - Get(sale.spent, client)
    requires forall i :: 0 <= i < |sale.stages| ==> sale.minInvestment <= Width(sale.stages, i)
    modifies sale`token, sale`fundsRaised, sale`escrow, sale`spent, sale`deposits, sale`activeStage
    ensures sale.Valid()
    ensures minted == Issued(sale.stages, |sale.stages|)
    ensures sale.fundsRaised == HardCap(sale.stages) && sale.activeStage == |sale.stages| - 1
    ensures sale.escrow == sale.fundsRaised
    ensures sale.BalanceOf(client) == old(sale.BalanceOf(client)) + minted
    ensures sale.token.totalSupply == old(sale.token.totalSupply) + minted
  {
    var stages := sale.stages;
    minted := 0;
    var i := 0;
    while i < |stages|
      invariant i <= |stages|
      invariant sale.Valid()
      invariant sale.activeStage == if i == 0 then 0 else i - 1
      invariant sale.fundsRaised == Widths(stages, i)
      invariant sale.escrow == sale.fundsRaised
      invariant HardCap(stages) - sale.fundsRaised <= Get(sale.allowance, client) - Get(sale.spent, client)
      invariant minted == Issued(stages, i)
      invariant sale.BalanceOf(client) == old(sale.BalanceOf(client)) + minted
      invariant sale.token.totalSupply == old(sale.token.totalSupply) + minted
    {
      if 0 < i {
        WidthsTelescope(stages, i);
        var next := sale.ActivateNextStage(sale.owner);
        assert next.Pass?;
      }
      var tokens := BuyOutStage(sale, client, i, now);
      minted := minted + tokens;
      i := i + 1;
    }
    WidthsTelescope(stages, |stages|);
  }

  /** The client buys out the active stage `i`: it pays exactly the stage's
      width, all of it is accepted, and the stage's cap is reached. */
  method BuyOutStage(sale: Sale, client: Address, i: nat, now: nat) returns (tokens: nat)
    requires sale.Valid() && !sale.paused && !sale.finalized
    requires i == sale.activeStage && sale.fundsRaised == Widths(sale.stages, i)
    requires sale.escrow == sale.fundsRaised
    requires sale.startTime <= now <= sale.endTime
    requires HardCap(sale.stages) - sale.fundsRaised <= Get(sale.allowance, client) - Get(sale.spent, client)
    requires 0 < sale.softCap && sale.minInvestment <= Width(sale.stages, i)
    modifies sale`token, sale`fundsRaised, sale`escrow, sale`spent, sale`deposits
    ensures sale.Valid()
    ensures sale.fundsRaised == Widths(sale.stages, i + 1) && sale.escrow == sale.fundsRaised
    ensures HardCap(sale.stages) - sale.fundsRaised <= Get(sale.allowance, client) - Get(sale.spent, client)
    ensures tokens == Width(sale.stages, i) * sale.stages[i].rate
    ensures sale.BalanceOf(client) == old(sale.BalanceOf(client)) + tokens
    ensures sale.token.totalSupply == old(sale.token.totalSupply) + tokens
  {
    var stages := sale.stages;
    var room := Width(stages, i);
    WidthsTelescope(stages, i + 1);
    if 0 < i {
      WidthsTelescope(stages, i);
    }
    CapWithinBounds(stages, sale.softCap, i);
    assert sale.fundsRaised + room == stages[i].cap && sale.fundsRaised < stages[i].cap;
    assert sale.CanContribute(client, room);
    assert !sale.HasEnded(now);
    var bought := sale.BuyTokens(client, client, room, now);
    assert bought.Success?;
    tokens := bought.value.tokens;
  }
}
