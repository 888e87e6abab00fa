# THTokenSale in Dafny

This project models the staged, capped token sale of the Tradershub
contracts (`THTokenSale`) and the parts of its mintable token (`THToken`)
that the sale drives. The Solidity sources are not part of this model. The
behaviour modelled is the behaviour the repository's test suite
(`test/tht-sale-test.js`) asserts. Where the tests are silent, the model
makes its own choice, and each such choice is listed below.

The sale is one Dafny class, `TokenSale.Sale`. Its configuration is a set of
constructor parameters:

- the stage table;
- the soft cap;
- the minimum investment;
- the allocation parts;
- the wallets.

Its state is a set of fields that the methods update in place:

- the active stage and the funds raised;
- the paused and finalized flags;
- the whitelist allowances and the amounts spent against them;
- the per-payer deposits kept for refunds;
- the escrowed wei not yet swept;
- the token ledger;
- the two vesting ledgers with their withdrawn counters.

Every public operation takes the caller's address. Methods that depend on time also
take the clock `now`, in seconds. A rejected call returns the reason
(`Fail`/`Failure` with an `Error`) and changes nothing, as a reverted
transaction does. Every operation ensures `Sale.Progressed`: the funds
raised never drop, the stage index never moves back and finalization is
never undone. All methods keep one invariant, `Sale.Valid`, which holds
these facts:

- `fundsRaised` never exceeds the active stage's cap.
- Nobody has spent more than its allowance.
- Every accepted wei is either recorded as a deposit or refunded.
- Every accepted wei is either held in escrow, swept to the wallet or refunded.
- Sweeping starts only at the soft cap, and refunds only after a failed finalization.
- The token supply is the sum of the balances.
- Minting ends exactly at finalization.
- Transfers open only after a successful finalization.
- The sale always holds the vested tokens it still owes.

Modules, following the sale's parts:

- `Accounts`: addresses, Solidity-style mappings (`Get` returns 0 for a missing key), and the sums (`Sum`, `Total`) used to state the invariants.
- `Token`: the token ledger with `Mint` and `Transfer`.
- `Stages`: the stage table, the partial-fill rule, and the tokens a sell-out issues.
- `Whitelist`: the bulk allowance update.
- `Allocation`: the reserved pools minted at a successful finalization.
- `Vesting`: the team and advisor cliff schedules and their payouts.
- `TokenSale`: the sale object.
- `Simulation`: the sell-out scenario of the simulation tests, a loop over the stages.

## Model

| member | source | states |
|---|---|---|
| Stages.CapsOrdered | test/tht-sale-test.js:53-58 | In a well-formed stage table, a later stage's cap is strictly above an earlier one's, for any two stages. |
| Stages.CapWithinBounds | test/tht-sale-test.js:53-63 | Every stage cap lies between the soft cap (the first cap) and the hard cap (the last cap). |
| Stages.Fill | test/tht-sale-test.js:276-307 | A purchase accepts all of the value when it fits in the room left below the stage cap, and otherwise exactly the room; it never accepts more than either. |
| Stages.WidthsTelescope | test/tht-sale-test.js:840-852 | Buying out the first n stages, each for its width (its cap minus the previous cap), raises exactly the n-th cap. |
| Token.Mint | test/tht-sale-test.js:285-290 | Minting adds the amount to the recipient's balance. It leaves every other balance and both flags unchanged. |
| Token.MintConsistent | test/tht-sale-test.js:285-307 | Minting grows the total supply by exactly the minted amount and keeps the supply equal to the sum of the balances. |
| Token.Transfer | test/tht-sale-test.js:705-712 | A transfer moves the amount from sender to recipient. It leaves other balances, the supply and the flags unchanged. |
| Token.TransferConsistent | test/tht-sale-test.js:705-712 | A transfer keeps the supply equal to the sum of the balances. |
| Whitelist.AssignUnlisted | test/tht-sale-test.js:222-236 | A bulk whitelist update leaves the allowance of every address not on the list unchanged. |
| Whitelist.AssignListed | test/tht-sale-test.js:222-236 | After a bulk update, a listed address holds the amount of its last entry. |
| Allocation.Pool | test/tht-sale-test.js:646-651 | A reserved pool is the floor of sold × part / crowdsale part: pool × crowdsalePart ≤ sold × part < (pool + 1) × crowdsalePart. |
| Allocation.PoolsSum | test/tht-sale-test.js:670-686 | The team pools add up to at most the pool of the whole team part. They add up to exactly that pool when the crowdsale part divides the tokens sold. |
| Allocation.ContributorShare | test/tht-sale-test.js:631-686 | With exact division, the supply after finalization relates to the tokens sold exactly as the whole allocation table relates to the crowdsale part. |
| Allocation.TeamPools | test/tht-sale-test.js:675-684 | The loop over the four team parts computes exactly the team pools and their sum. |
| Vesting.UnlockedBounded | test/tht-sale-test.js:691-793 | A schedule never unlocks more than its tranches add up to. |
| Vesting.UnlockedMonotone | test/tht-sale-test.js:691-793 | What a schedule unlocks never decreases as time passes. |
| Vesting.UnlockedPrefix | test/tht-sale-test.js:691-793 | When exactly the first k cliffs have passed, exactly the first k tranches are unlocked. |
| Vesting.TeamSchedule | test/tht-sale-test.js:691-793 | Team schedule: nothing is unlocked before day 360. From day 360 the first tranche is unlocked, from day 480 the first two, from day 600 the first three, and from day 720 all four. |
| Vesting.AdvisorSchedule | test/tht-sale-test.js:795-819 | Advisor schedule: nothing is unlocked before day 180, and all of it from then on. |
| Vesting.PayoutCatchesUp | test/tht-sale-test.js:708-712 | A withdrawal at a later time brings the paid counter up to exactly what is unlocked then. A second withdrawal with no new cliff passed pays nothing. |
| TokenSale.Sale.constructor | test/tht-sale-test.js:44-63 | A new sale needs a positive minimum investment (test/tht-sale-test.js:353 sends one wei less than the minimum and is refused). It is valid and holds its configuration. Nothing is raised, allowed or deposited; every balance and the supply are 0. Minting is open and transfers are locked. |
| TokenSale.Sale.StartedStaysStarted | test/tht-sale-test.js:240-244 | hasStarted: once the clock has reached the start time, the sale stays started at every later time. |
| TokenSale.Sale.EndedStaysEnded | test/tht-sale-test.js:543-571 | hasEnded: once the sale has ended, by its end time or by the hard cap, it stays ended at every later time and after any operation. |
| TokenSale.Sale.SoftCapStaysReached | test/tht-sale-test.js:444-452 | softCapReached: once reached, the soft cap stays reached after any operation. |
| TokenSale.Sale.BalanceWithinSupply | test/tht-sale-test.js:285-290 | balanceOf: no holder's balance exceeds the token's total supply. |
| TokenSale.Sale.PurchaseCheck | test/tht-sale-test.js:262-274 | A purchase passes iff all of these hold: the sale has started and not ended, it is not finalized or paused, the beneficiary's remaining allowance covers the full value, the value is at least the minimum investment, and the active stage's cap is not yet filled. A passing purchase sends a positive value. |
| TokenSale.Sale.BuyTokens | test/tht-sale-test.js:276-410 | A passing purchase accepts min(value, cap − fundsRaised) and mints accepted × rate to the beneficiary. It returns the excess. fundsRaised, the escrow, the spent amount and the payer's deposit each grow by the accepted wei; filling the room reaches the cap exactly. Afterwards canContribute(beneficiary, x) holds iff x plus the accepted wei fits in the allowance that remained before the purchase. A refused purchase reports the first failing check and changes nothing. |
| TokenSale.Sale.Accept | test/tht-sale-test.js:285-307 | Recording an accepted purchase performs the mint, raise, escrow, spend and deposit together and keeps the invariant. |
| TokenSale.Sale.ActivateNextStage | test/tht-sale-test.js:66-122 | Activation raises the active stage by exactly 1 iff the caller is the owner, the current cap is filled and a next stage exists. A non-owner or a call at the last stage is refused. |
| TokenSale.Sale.Pause | test/tht-sale-test.js:505-528 | Only the owner can pause, and pausing sets the flag. |
| TokenSale.Sale.Unpause | test/tht-sale-test.js:513-523 | Only the owner can unpause a paused sale, and unpausing clears the flag. |
| TokenSale.Sale.Withdraw | test/tht-sale-test.js:432-502 | Withdraw succeeds iff the owner calls and the soft cap is reached. It sends exactly the escrow accepted since the last sweep and empties it. After it, everything raised has been swept. |
| TokenSale.Sale.AddWhitelist | test/tht-sale-test.js:206-214 | Only the owner can set an allowance, and never below what the participant already spent. Afterwards canContribute(participant, x) holds iff x plus what the participant already spent is at most the new amount. |
| TokenSale.Sale.AddWhitelistBulk | test/tht-sale-test.js:222-236 | The owner's bulk call writes each listed amount in list order, or on any refusal changes nothing. |
| TokenSale.Sale.FinishCrowdsale | test/tht-sale-test.js:543-583 | Finalization succeeds iff the owner calls, once, after the end time or the hard cap; minting then ends. At the soft cap it mints bounty + platform to the wallet and advisor + team pools to the sale, seeds the vesting ledgers and opens transfers, leaving every other balance unchanged. Below the soft cap it keeps transfers locked and mints nothing. |
| TokenSale.Sale.MintReservedPools | test/tht-sale-test.js:631-689 | The reserved pools are minted as floored shares of the tokens sold, and the vesting ledgers are set to the advisor pool and the team pools. |
| TokenSale.Sale.Refund | test/tht-sale-test.js:591-629 | A refund succeeds iff the sale is finalized below the soft cap and the caller has a deposit. It pays exactly that deposit and zeroes it, so it pays once. At the soft cap it is always refused. |
| TokenSale.Sale.WithdrawCoreTeamTokens | test/tht-sale-test.js:691-793 | The owner's call after a successful finalization pays the team wallet exactly the unlocked team tranches not yet paid (0 before day 360, and 0 on a repeated call). The payment comes from the sale's balance. |
| TokenSale.Sale.WithdrawAdvisorTokens | test/tht-sale-test.js:795-819 | The owner's call after a successful finalization pays the wallet the advisor pool once its day-180 cliff has passed, and only once. |
| Simulation.SellOut | test/tht-sale-test.js:823-861 | Buying out every stage in turn inside the sale window, then finalizing and sweeping after the end time, has these results: the client gets the tokens of every stage at its own rate, fundsRaised reaches the hard cap, and the wallet receives exactly the hard cap. The supply checks of 834 and 851 are stated by `Simulation.BuyOutStages`. |
| Simulation.BuyOutStages | test/tht-sale-test.js:826-852 | The loop that buys out the active stage and activates the next reaches the last stage with fundsRaised at the hard cap, and escrow equal to it. The client's balance and the total supply each grow by exactly the tokens minted during the buy-out. |
| Simulation.BuyOutStage | test/tht-sale-test.js:844-851 | Paying exactly the active stage's width is accepted in full and fills the stage's cap. The client's balance and the total supply each grow by the stage's width times its rate. |

## Left out

- The test asserts that a purchase is refused after `endTime` and allowed at `startTime`, but it never probes the exact boundary. `Sale.HasStarted` and `Sale.HasEnded` use the zeppelin `Crowdsale` window: a purchase is allowed when `startTime <= now <= endTime`, so the sale counts as ended only once `endTime < now`.
- The end time is a constructor parameter. The test takes it to be 32 days after the start time (test/tht-sale-test.js:47), but the line carries a TODO, so the duration is not treated as fixed.
- The test constructs the sale with three arguments: start time, wallet and core-team wallet. The model follows the test. The five-argument constructor used by the deployment script, migrations/3_deploy_sale.js, is not modelled.
- The per-purchase maximum investment is read at test/tht-sale-test.js:63 and used as a purchase value, but the tests never show it refusing a purchase. The model therefore does not enforce a maximum; the whitelist allowance is the only per-participant ceiling.
- `Sale.Withdraw`: a caller other than the owner is refused (`Unauthorized`). The tests call it only from the owner.
- `Sale.Pause`: pausing a sale that is already paused is refused (`AlreadyPaused`). The tests never pause twice.
- `Sale.Unpause`: a caller other than the owner is refused (`Unauthorized`), and so is unpausing a sale that is not paused (`NotPaused`). The tests only unpause a paused sale, and only from the owner.
- `Sale.FinishCrowdsale`: a caller other than the owner is refused (`Unauthorized`), and so is a second finalization (`AlreadyFinalized`). The tests finalize once, from the owner.
- `Sale.Refund`: a refund before finalization is refused (`NotFinalized`). The tests ask for refunds only after a failed finalization.
- `Sale.WithdrawCoreTeamTokens`: a caller other than the owner is refused (`Unauthorized`), and so is a call before finalization (`NotFinalized`) or after a finalization below the soft cap (`SoftCapNotReached`). The tests call it only from the owner after a successful finalization.
- `Sale.WithdrawAdvisorTokens`: refused in the same three cases as `Sale.WithdrawCoreTeamTokens`, which the tests do not try either.
- `Sale.AddWhitelistBulk`: lists of unequal length are refused (`LengthMismatch`). The tests always pass lists of equal length.
- `Sale.AddWhitelistBulk`: if any entry is below what that participant already spent, the model refuses the whole list (`AllowanceBelowSpent`) and changes no allowance. The tests do not probe this case.
- `Sale.AddWhitelist`: the tests do not show what happens when an allowance is set below what the participant already spent. The model refuses it (`AllowanceBelowSpent`), which keeps every participant's spending within its allowance.
- `Sale.BuyTokens`: only the accepted wei counts against the beneficiary's whitelist allowance, not the whole value sent; the returned excess does not use up allowance. No test calls `canContribute` after a partial fill.
- `Vesting.Passed`: a tranche unlocks at exactly `startTime + days × 1 day`. The tests only check one day later (test/tht-sale-test.js:704, 728, 753, 780, 810), so the exact boundary is the model's choice.
- `Sale.Refund`: the payer's deposit, not the beneficiary's, is what gets refunded. In the tests, payer and beneficiary are always the same account.
- `Sale.Refund`: the model refuses a call with nothing to refund (`NothingToRefund`) rather than paying 0. The tests leave this case open.
- The token's own `transfer`, `approve` and `transferFrom` are left out, because they are general ERC-20 semantics. So is its owner check on `mint` and `endMinting` (test/tht-sale-test.js:126-136). The model keeps only the `transfersLocked` and `mintingFinished` flags, and only the sale mints.
- The plain payment to the sale's fallback function (test/tht-sale-test.js:197-198, 216-220) is not modelled. The model has no fallback function; a purchase goes through `buyTokens`.
- Native ether balances are not modelled. The model records the accepted wei in an escrow counter and reports the returned excess. Gas prices are not modelled either.
- The reserved pools use floor division on naturals. The test's decimal BigNumber division (test/tht-sale-test.js:650-651, 680-681) agrees with it when the crowdsale part divides the tokens sold, which is the case `Allocation.ContributorShare` covers.
- The clock is a parameter of each call, and the model does not assume it only moves forward. If the clock moves backward, a vesting withdrawal pays 0 rather than failing.
- Reentrancy and the ordering of external calls are out of scope: each operation is atomic.
- The deployment scripts are not modelled, because they only orchestrate deployment: migrations/2_deploy_multisigs.js leaves its multisig commented out, and migrations/3_deploy_sale.js deploys the sale.
- truffle-config.js holds network configuration only and is not modelled.
- scripts/gen-abi.js is not modelled. It only encodes constructor arguments as ABI.
- `Simulation.SellOut` covers the first simulation (test/tht-sale-test.js:823-861). The paused variant (test/tht-sale-test.js:863-940) is not replayed as a whole; its steps are covered by `Sale.Pause`, `Sale.Unpause`, `Sale.PurchaseCheck` and `Sale.BuyTokens`.
