/** The staged, capped token sale (THTokenSale) as one stateful object: the
    stage machine and contribution engine, the whitelist ledger, the escrow
    that `Withdraw` sweeps, finalization with its refund mode, and the two
    vesting ledgers. Every operation receives the caller's address and, where
    time matters, the clock (`now`, in seconds); a rejected call reports the
    reason and changes nothing, as a reverted transaction does. */
module TokenSale {
  import opened Accounts
  import opened Stages
  import Token
  import Whitelist
  import opened Vesting
  import opened Allocation

  datatype Error =
    | Unauthorized          // the caller is not the owner
    | NotActive             // before the start, after the end or the hard cap, or after finalization
    | SalePaused
    | NotWhitelisted        // the value exceeds the beneficiary's remaining allowance
    | BelowMinimum          // the value is below the minimum investment
    | StageCapFilled        // nothing is left below the active stage's cap
    | StageCapNotFilled
    | LastStage
    | AlreadyPaused
    | NotPaused
    | LengthMismatch
    | AllowanceBelowSpent   // a new allowance below what the participant already spent
    | SoftCapNotReached
    | SoftCapIsReached
    | AlreadyFinalized
    | TooEarly
    | NotFinalized
    | NothingToRefund

  datatype Outcome = Pass | Fail(error: Error)

  datatype Result<T> = Success(value: T) | Failure(error: Error)

  /** What a purchase did: the wei accepted into the active stage, the tokens
      minted for them, and the wei sent back to the caller. */
  datatype Purchase = Purchase(accepted: nat, tokens: nat, excess: nat)

  /** Spending within one's remaining allowance keeps everybody within theirs. */
  lemma SpendWithin(spent: map<Address, nat>, allowance: map<Address, nat>, b: Address, x: nat)
    requires forall a :: Get(spent, a) <= Get(allowance, a)
    requires Get(spent, b) + x <= Get(allowance, b)
    ensures forall a :: Get(spent[b := Get(spent, b) + x], a) <= Get(allowance, a)
  {
  }

  /** Adding `x` to one deposit adds `x` to the total of the deposits. */
  lemma DepositAdds(deposits: map<Address, nat>, c: Address, x: nat)
    ensures Total(deposits[c := Get(deposits, c) + x]) == Total(deposits) + x
  {
    TotalUpdate(deposits, c, Get(deposits, c) + x);
  }

  class Sale {
    // Fixed at construction.
    const owner: Address
    const saleAddress: Address     // the sale's own address, which holds the vesting pools
    const wallet: Address          // receives the swept escrow, the bounty, platform and advisor tokens
    const walletCoreTeam: Address  // receives the vested team tokens
    const startTime: nat
    const endTime: nat
    const stages: seq<Stage>
    const softCap: nat
    const minInvestment: nat
    const crowdsalePart: nat
    const bountyPart: nat
    const advisorPart: nat
    const platformPart: nat
    const teamParts: seq<nat>

    // Stage machine.
    var activeStage: nat
    var fundsRaised: nat
    var paused: bool
    var finalized: bool
    // Whitelist: per-participant allowance and the amount already accepted from it.
    var allowance: map<Address, nat>
    var spent: map<Address, nat>
    // Escrow: what each payer contributed (refundable in a failed sale) and the wei held.
    var deposits: map<Address, nat>
    var escrow: nat
    ghost var swept: nat     // all wei sent to `wallet` so far
    ghost var refunded: nat  // all wei refunded so far
    // The token the sale mints.
    var token: Token.Ledger
    // Vesting ledgers, seeded at a successful finalization.
    var vestedTeam: seq<nat>
    var vestedAdvisors: nat
    var teamWithdrawn: nat
    var advisorWithdrawn: nat

    /** The configuration the constructor accepts. */
    ghost predicate ConfigValid() {
      WellFormed(stages, softCap) && 0 < minInvestment && 0 < crowdsalePart && |teamParts| == |TEAM_CLIFFS| &&
      wallet != saleAddress && walletCoreTeam != saleAddress
    }

    /** The active stage exists and its cap bounds the funds raised. */
    ghost predicate StageValid()
      reads this`activeStage, this`fundsRaised
    {
      activeStage < |stages| && fundsRaised <= stages[activeStage].cap
    }

    /** Nobody has spent more than its allowance. */
    ghost predicate WhitelistValid()
      reads this`spent, this`allowance
    {
      forall a :: Get(spent, a) <= Get(allowance, a)
    }

    /** Every accepted wei is recorded as somebody's deposit or refunded, and
        is held, swept to the wallet or refunded; sweeping starts only at the
        soft cap and refunds only after a failed finalization. */
    ghost predicate EscrowValid()
      reads this`deposits, this`refunded, this`fundsRaised, this`escrow, this`swept, this`finalized
    {
      Total(deposits) + refunded == fundsRaised &&
      escrow + swept + refunded == fundsRaised &&
      (fundsRaised < softCap ==> swept == 0) &&
      (0 < refunded ==> finalized && fundsRaised < softCap)
    }

    /** Minting ends with the sale; transfers open only after a successful one. */
    ghost predicate TokenValid()
      reads this`token, this`finalized, this`fundsRaised
    {
      Token.Consistent(token) &&
      token.mintingFinished == finalized &&
      token.transfersLocked == !(finalized && softCap <= fundsRaised)
    }

    /** Never more vested tokens paid than allotted, and the sale still holds
        what it owes. */
    ghost predicate VestingValid()
      reads this`vestedTeam, this`vestedAdvisors, this`teamWithdrawn, this`advisorWithdrawn,
            this`finalized, this`token
    {
      |vestedTeam| == |TEAM_CLIFFS| &&
      (!finalized ==> teamWithdrawn == 0 && advisorWithdrawn == 0) &&
      teamWithdrawn <= Sum(vestedTeam) && advisorWithdrawn <= vestedAdvisors &&
      (Sum(vestedTeam) - teamWithdrawn) + (vestedAdvisors - advisorWithdrawn) <= Token.BalanceOf(token, saleAddress)
    }

    ghost predicate Valid()
      reads this
    {
      ConfigValid() && StageValid() && WhitelistValid() && EscrowValid() && TokenValid() && VestingValid()
    }

    /** What no operation undoes: the funds raised never drop, the stage
        index never moves back and finalization is never reversed. */
    twostate predicate Progressed()
      reads this
    {
      old(fundsRaised) <= fundsRaised && old(activeStage) <= activeStage && (old(finalized) ==> finalized)
    }

    constructor (owner: Address, saleAddress: Address, startTime: nat, endTime: nat,
                 wallet: Address, walletCoreTeam: Address,
                 stages: seq<Stage>, softCap: nat, minInvestment: nat,
                 crowdsalePart: nat, bountyPart: nat, advisorPart: nat, platformPart: nat,
                 teamParts: seq<nat>)
      requires WellFormed(stages, softCap) && 0 < minInvestment && 0 < crowdsalePart && |teamParts| == |TEAM_CLIFFS|
      requires wallet != saleAddress && walletCoreTeam != saleAddress
      ensures Valid()
      ensures this.owner == owner && this.saleAddress == saleAddress
      ensures this.wallet == wallet && this.walletCoreTeam == walletCoreTeam
      ensures this.startTime == startTime && this.endTime == endTime
      ensures this.stages == stages && this.softCap == softCap && this.minInvestment == minInvestment
      ensures this.crowdsalePart == crowdsalePart && this.bountyPart == bountyPart
      ensures this.advisorPart == advisorPart && this.platformPart == platformPart && this.teamParts == teamParts
      ensures activeStage == 0 && fundsRaised == 0 && !paused && !finalized
      ensures allowance == map[] && spent == map[] && deposits == map[] && escrow == 0
      ensures token == Token.Initial && token.totalSupply == 0 && forall a :: BalanceOf(a) == 0
      ensures vestedTeam == [0, 0, 0, 0] && vestedAdvisors == 0 && teamWithdrawn == 0 && advisorWithdrawn == 0
    {
      this.owner, this.saleAddress := owner, saleAddress;
      this.wallet, this.walletCoreTeam := wallet, walletCoreTeam;
      this.startTime, this.endTime := startTime, endTime;
      this.stages, this.softCap, this.minInvestment := stages, softCap, minInvestment;
      this.crowdsalePart, this.bountyPart := crowdsalePart, bountyPart;
      this.advisorPart, this.platformPart, this.teamParts := advisorPart, platformPart, teamParts;
      activeStage, fundsRaised, paused, finalized := 0, 0, false, false;
      allowance, spent, deposits, escrow := map[], map[], map[], 0;
      swept, refunded := 0, 0;
      token := Token.Initial;
      var zeros: seq<nat> := [0, 0, 0, 0];
      assert Sum(zeros) == 0 by {
        assert zeros[..3] == [0, 0, 0] && [0, 0, 0][..2] == [0, 0];
        assert [0, 0][..1] == [0] && [0][..0] == [];
        assert Sum([0]) == 0 && Sum([0, 0]) == 0 && Sum([0, 0, 0]) == 0;
      }
      vestedTeam, vestedAdvisors, teamWithdrawn, advisorWithdrawn := zeros, 0, 0, 0;
    }

    // ---- Queries ----

    function HasStarted(now: nat): bool
      reads this
    {
      startTime <= now
    }

    /** The sale is over once its end time has passed or the hard cap is filled. */
    function HasEnded(now: nat): bool
      reads this
      requires Valid()
    {
      endTime < now || HardCap(stages) <= fundsRaised
    }

    function SoftCapReached(): bool
      reads this
    {
      softCap <= fundsRaised
    }

    /** Whether `participant` may still contribute `amount`: its allowance
        minus what it already spent covers the amount. */
    function CanContribute(participant: Address, amount: nat): bool
      reads this
      requires Valid()
    {
      Get(spent, participant) + amount <= Get(allowance, participant)
    }

    function BalanceOf(a: Address): nat
      reads this
    {
      Token.BalanceOf(token, a)
    }

    /** Once started, the sale stays started as the clock advances. */
    lemma StartedStaysStarted(now: nat, later: nat)
      requires HasStarted(now) && now <= later
      ensures HasStarted(later)
    {
    }

    /** Once ended, by time or by the hard cap, the sale stays ended: no
        operation lowers the funds raised and the clock only advances. */
    twostate lemma EndedStaysEnded(now: nat, later: nat)
      requires old(Valid()) && Valid() && Progressed()
      requires old(HasEnded(now)) && now <= later
      ensures HasEnded(later)
    {
    }

    /** Once reached, the soft cap stays reached. */
    twostate lemma SoftCapStaysReached()
      requires Progressed() && old(SoftCapReached())
      ensures SoftCapReached()
    {
    }

    /** No holder owns more than the token's whole supply. */
    lemma BalanceWithinSupply(a: Address)
      requires Valid()
      ensures BalanceOf(a) <= token.totalSupply
    {
      TotalUpdate(token.balances, a, Get(token.balances, a));
    }

    /** Why a purchase of `value` wei for `beneficiary` at `now` is refused,
        if it is. The model makes the checks in this order; the first that fails
        is the reason reported. */
    function PurchaseCheck(beneficiary: Address, value: nat, now: nat): (o: Outcome)
      reads this
      requires Valid()
      ensures o.Pass? <==>
                HasStarted(now) && !HasEnded(now) && !finalized && !paused &&
                CanContribute(beneficiary, value) && minInvestment <= value &&
                fundsRaised < stages[activeStage].cap
      ensures o.Pass? ==> 0 < value
    {
      if !HasStarted(now) || HasEnded(now) || token.mintingFinished then Fail(NotActive)
      else if paused then Fail(SalePaused)
      else if !CanContribute(beneficiary, value) then Fail(NotWhitelisted)
      else if value < minInvestment then Fail(BelowMinimum)
      else if stages[activeStage].cap <= fundsRaised then Fail(StageCapFilled)
      else Pass
    }

    // ---- Contribution engine ----

    /** Buys tokens for `beneficiary` with `value` wei sent by `caller`. The
        active stage accepts as much as fits below its cap, mints the accepted
        wei times its rate, escrows the accepted wei and returns the rest. */
    method BuyTokens(caller: Address, beneficiary: Address, value: nat, now: nat) returns (r: Result<Purchase>)
      requires Valid()
      modifies this`token, this`fundsRaised, this`escrow, this`spent, this`deposits
      ensures Valid()
      ensures Progressed()
      ensures old(PurchaseCheck(beneficiary, value, now)).Fail? ==>
                r == Failure(old(PurchaseCheck(beneficiary, value, now)).error) &&
                token == old(token) && fundsRaised == old(fundsRaised) && escrow == old(escrow) &&
                spent == old(spent) && deposits == old(deposits)
      ensures old(PurchaseCheck(beneficiary, value, now)).Pass? ==> r.Success?
      ensures r.Success? ==>
                var p, stage := r.value, stages[old(activeStage)];
                p.accepted == Fill(value, stage.cap - old(fundsRaised)) &&
                p.tokens == p.accepted * stage.rate &&
                p.excess == value - p.accepted &&
                fundsRaised == old(fundsRaised) + p.accepted &&
                escrow == old(escrow) + p.accepted &&
                token == Token.Mint(old(token), beneficiary, p.tokens) &&
                spent == old(spent)[beneficiary := Get(old(spent), beneficiary) + p.accepted] &&
                deposits == old(deposits)[caller := Get(old(deposits), caller) + p.accepted]
      ensures r.Success? && stages[old(activeStage)].cap - old(fundsRaised) <= value ==>
                fundsRaised == stages[activeStage].cap
      ensures r.Success? ==>
                forall x: nat :: CanContribute(beneficiary, x) <==>
                  x + r.value.accepted <= old(Get(allowance, beneficiary) - Get(spent, beneficiary))
    {
      var check := PurchaseCheck(beneficiary, value, now);
      if check.Fail? {
        return Failure(check.error);
      }
      var stage := stages[activeStage];
      var accepted := Fill(value, stage.cap - fundsRaised);
      var tokens := accepted * stage.rate;
      Accept(caller, beneficiary, accepted, tokens);
      r := Success(Purchase(accepted, tokens, value - accepted));
    }

    /** The bookkeeping of an accepted purchase: mint, raise, escrow and
        record the accepted wei against the beneficiary's allowance and the
        payer's refundable deposit. */
    method Accept(caller: Address, beneficiary: Address, accepted: nat, tokens: nat)
      requires Valid() && !finalized
      requires fundsRaised + accepted <= stages[activeStage].cap
      requires Get(spent, beneficiary) + accepted <= Get(allowance, beneficiary)
      modifies this`token, this`fundsRaised, this`escrow, this`spent, this`deposits
      ensures Valid()
      ensures fundsRaised == old(fundsRaised) + accepted && escrow == old(escrow) + accepted
      ensures token == Token.Mint(old(token), beneficiary, tokens)
      ensures spent == old(spent)[beneficiary := Get(old(spent), beneficiary) + accepted]
      ensures deposits == old(deposits)[caller := Get(old(deposits), caller) + accepted]
    {
      MintTokens(beneficiary, tokens);
      Spend(beneficiary, accepted);
      Deposit(caller, accepted);
    }

    /** Mints `tokens` to `beneficiary` while minting is still open. */
    method MintTokens(beneficiary: Address, tokens: nat)
      requires Valid() && !finalized
      modifies this`token
      ensures Valid()
      ensures token == Token.Mint(old(token), beneficiary, tokens)
    {
      Token.MintConsistent(token, beneficiary, tokens);
      token := Token.Mint(token, beneficiary, tokens);
    }

    /** Records `accepted` wei as spent from the beneficiary's allowance. */
    method Spend(beneficiary: Address, accepted: nat)
      requires Valid()
      requires Get(spent, beneficiary) + accepted <= Get(allowance, beneficiary)
      modifies this`spent
      ensures Valid()
      ensures spent == old(spent)[beneficiary := Get(old(spent), beneficiary) + accepted]
    {
      SpendWithin(spent, allowance, beneficiary, accepted);
      spent := spent[beneficiary := Get(spent, beneficiary) + accepted];
    }

    /** Records `accepted` wei as raised, escrowed and deposited by the payer. */
    method Deposit(caller: Address, accepted: nat)
      requires Valid() && !finalized
      requires fundsRaised + accepted <= stages[activeStage].cap
      modifies this`fundsRaised, this`escrow, this`deposits
      ensures Valid()
      ensures fundsRaised == old(fundsRaised) + accepted && escrow == old(escrow) + accepted
      ensures deposits == old(deposits)[caller := Get(old(deposits), caller) + accepted]
    {
      DepositAdds(deposits, caller, accepted);
      fundsRaised := fundsRaised + accepted;
      escrow := escrow + accepted;
      deposits := deposits[caller := Get(deposits, caller) + accepted];
    }

    /** Moves to the next stage, once the current one is filled. */
    method ActivateNextStage(caller: Address) returns (r: Outcome)
      requires Valid()
      modifies this`activeStage
      ensures Valid()
      ensures Progressed()
      ensures r.Pass? <==>
                caller == owner && old(activeStage) + 1 < |stages| && stages[old(activeStage)].cap <= fundsRaised
      ensures caller != owner ==> r == Fail(Unauthorized)
      ensures caller == owner && old(activeStage) + 1 == |stages| ==> r == Fail(LastStage)
      ensures activeStage == if r.Pass? then old(activeStage) + 1 else old(activeStage)
    {
      if caller != owner {
        return Fail(Unauthorized);
      }
      if activeStage + 1 == |stages| {
        return Fail(LastStage);
      }
      if fundsRaised < stages[activeStage].cap {
        return Fail(StageCapNotFilled);
      }
      activeStage := activeStage + 1;
      r := Pass;
    }

    method Pause(caller: Address) returns (r: Outcome)
      requires Valid()
      modifies this`paused
      ensures Valid()
      ensures Progressed()
      ensures r.Pass? <==> caller == owner && !old(paused)
      ensures caller != owner ==> r == Fail(Unauthorized)
      ensures paused == (old(paused) || r.Pass?)
    {
      if caller != owner {
        return Fail(Unauthorized);
      }
      if paused {
        return Fail(AlreadyPaused);
      }
      paused := true;
      r := Pass;
    }

    method Unpause(caller: Address) returns (r: Outcome)
      requires Valid()
      modifies this`paused
      ensures Valid()
      ensures Progressed()
      ensures r.Pass? <==> caller == owner && old(paused)
      ensures caller != owner ==> r == Fail(Unauthorized)
      ensures paused == (old(paused) && !r.Pass?)
    {
      if caller != owner {
        return Fail(Unauthorized);
      }
      if !paused {
        return Fail(NotPaused);
      }
      paused := false;
      r := Pass;
    }

    /** Sends every wei held since the last sweep to the wallet. */
    method Withdraw(caller: Address) returns (r: Result<nat>)
      requires Valid()
      modifies this`escrow, this`swept
      ensures Valid()
      ensures Progressed()
      ensures r.Success? <==> caller == owner && SoftCapReached()
      ensures caller != owner ==> r == Failure(Unauthorized)
      ensures r.Success? ==> r.value == old(escrow) && escrow == 0 && swept == old(swept) + r.value
      ensures r.Success? ==> swept == fundsRaised
      ensures r.Failure? ==> escrow == old(escrow) && swept == old(swept)
    {
      if caller != owner {
        return Failure(Unauthorized);
      }
      if fundsRaised < softCap {
        return Failure(SoftCapNotReached);
      }
      r := Success(escrow);
      swept := swept + escrow;
      escrow := 0;
    }

    // ---- Whitelist ----

    /** Sets `participant`'s allowance to `amount`. */
    method AddWhitelist(caller: Address, participant: Address, amount: nat) returns (r: Outcome)
      requires Valid()
      modifies this`allowance
      ensures Valid()
      ensures Progressed()
      ensures r.Pass? <==> caller == owner && Get(spent, participant) <= amount
      ensures caller != owner ==> r == Fail(Unauthorized)
      ensures allowance == if r.Pass? then old(allowance)[participant := amount] else old(allowance)
      ensures r.Pass? ==> forall x: nat :: CanContribute(participant, x) <==> x + Get(spent, participant) <= amount
    {
      if caller != owner {
        return Fail(Unauthorized);
      }
      if amount < Get(spent, participant) {
        return Fail(AllowanceBelowSpent);
      }
      allowance := allowance[participant := amount];
      r := Pass;
    }

    /** Sets the allowance of each listed participant to its listed amount. */
    method AddWhitelistBulk(caller: Address, participants: seq<Address>, amounts: seq<nat>) returns (r: Outcome)
      requires Valid()
      modifies this`allowance
      ensures Valid()
      ensures Progressed()
      ensures r.Pass? <==>
                caller == owner && |participants| == |amounts| &&
                forall k :: 0 <= k < |participants| ==> Get(spent, participants[k]) <= amounts[k]
      ensures caller != owner ==> r == Fail(Unauthorized)
      ensures r.Pass? ==> |participants| == |amounts| && allowance == Whitelist.Assign(old(allowance), participants, amounts)
      ensures r.Fail? ==> allowance == old(allowance)
    {
      if caller != owner {
        return Fail(Unauthorized);
      }
      if |participants| != |amounts| {
        return Fail(LengthMismatch);
      }
      var book := allowance;
      var i := 0;
      while i < |participants|
        invariant i <= |participants|
        invariant book == Whitelist.Assign(allowance, participants[..i], amounts[..i])
        invariant forall k :: 0 <= k < i ==> Get(spent, participants[k]) <= amounts[k]
        invariant forall a :: Get(spent, a) <= Get(book, a)
      {
        if amounts[i] < Get(spent, participants[i]) {
          return Fail(AllowanceBelowSpent);
        }
        assert participants[..i + 1][..i] == participants[..i];
        assert amounts[..i + 1][..i] == amounts[..i];
        book := book[participants[i] := amounts[i]];
        i := i + 1;
      }
      assert participants[..i] == participants && amounts[..i] == amounts;
      allowance := book;
      r := Pass;
    }

    // ---- Finalization and refunds ----

    /** Ends the sale once. With the soft cap reached it mints the reserved
        pools as shares of the tokens sold (bounty and platform to the wallet,
        advisor and team pools to the sale itself for vesting) and opens
        transfers; otherwise transfers stay locked and refunds open. Minting
        ends either way. */
    method FinishCrowdsale(caller: Address, now: nat) returns (r: Outcome)
      requires Valid()
      modifies this`finalized, this`token, this`vestedTeam, this`vestedAdvisors
      ensures Valid()
      ensures Progressed()
      ensures r.Pass? <==> caller == owner && !old(finalized) && HasEnded(now)
      ensures caller != owner ==> r == Fail(Unauthorized)
      ensures caller == owner && !old(finalized) && !HasEnded(now) ==> r == Fail(TooEarly)
      ensures r.Fail? ==>
                finalized == old(finalized) && token == old(token) &&
                vestedTeam == old(vestedTeam) && vestedAdvisors == old(vestedAdvisors)
      ensures r.Pass? ==> finalized && token.mintingFinished && (token.transfersLocked <==> !SoftCapReached())
      ensures r.Pass? && SoftCapReached() ==>
                var sold := old(token.totalSupply);
                vestedTeam == Pools(sold, teamParts, crowdsalePart) &&
                vestedAdvisors == Pool(sold, advisorPart, crowdsalePart) &&
                BalanceOf(wallet) == old(BalanceOf(wallet))
                                     + Pool(sold, bountyPart, crowdsalePart) + Pool(sold, platformPart, crowdsalePart) &&
                BalanceOf(saleAddress) == old(BalanceOf(saleAddress)) + vestedAdvisors + Sum(vestedTeam) &&
                token.totalSupply == sold + Pool(sold, bountyPart, crowdsalePart) + Pool(sold, platformPart, crowdsalePart)
                                     + vestedAdvisors + Sum(vestedTeam)
      ensures r.Pass? && SoftCapReached() ==>
                forall a :: a != wallet && a != saleAddress ==> BalanceOf(a) == old(BalanceOf(a))
      ensures r.Pass? && !SoftCapReached() ==>
                token.balances == old(token.balances) && token.totalSupply == old(token.totalSupply) &&
                vestedTeam == old(vestedTeam) && vestedAdvisors == old(vestedAdvisors)
    {
      if caller != owner {
        return Fail(Unauthorized);
      }
      if finalized {
        return Fail(AlreadyFinalized);
      }
      if !HasEnded(now) {
        return Fail(TooEarly);
      }
      if softCap <= fundsRaised {
        MintReservedPools();
        token := token.(transfersLocked := false);
      }
      token := token.(mintingFinished := true);
      finalized := true;
      r := Pass;
    }

    /** The successful half of finalization: mints the reserved pools as
        shares of the tokens sold so far and seeds the vesting ledgers. */
    method MintReservedPools()
      requires Valid() && !finalized && softCap <= fundsRaised
      modifies this`token, this`vestedTeam, this`vestedAdvisors
      ensures Valid() && !token.mintingFinished && token.transfersLocked
      ensures var sold := old(token.totalSupply);
                vestedTeam == Pools(sold, teamParts, crowdsalePart) &&
                vestedAdvisors == Pool(sold, advisorPart, crowdsalePart) &&
                BalanceOf(wallet) == old(BalanceOf(wallet))
                                     + Pool(sold, bountyPart, crowdsalePart) + Pool(sold, platformPart, crowdsalePart) &&
                BalanceOf(saleAddress) == old(BalanceOf(saleAddress)) + vestedAdvisors + Sum(vestedTeam) &&
                token.totalSupply == sold + Pool(sold, bountyPart, crowdsalePart) + Pool(sold, platformPart, crowdsalePart)
                                     + vestedAdvisors + Sum(vestedTeam)
      ensures forall a :: a != wallet && a != saleAddress ==> BalanceOf(a) == old(BalanceOf(a))
    {
      var sold := token.totalSupply;
      var bounty := Pool(sold, bountyPart, crowdsalePart);
      var platform := Pool(sold, platformPart, crowdsalePart);
      var advisors := Pool(sold, advisorPart, crowdsalePart);
      var team, teamTotal := TeamPools(sold, teamParts, crowdsalePart);
      MintTokens(wallet, bounty);
      MintTokens(wallet, platform);
      MintTokens(saleAddress, advisors + teamTotal);
      vestedTeam, vestedAdvisors := team, advisors;
    }

    /** Pays `caller` back everything it contributed, once, after a sale that
        missed its soft cap has been finalized. */
    method Refund(caller: Address) returns (r: Result<nat>)
      requires Valid()
      modifies this`deposits, this`escrow, this`refunded
      ensures Valid()
      ensures Progressed()
      ensures r.Success? <==> finalized && !SoftCapReached() && 0 < old(Get(deposits, caller))
      ensures finalized && SoftCapReached() ==> r == Failure(SoftCapIsReached)
      ensures r.Success? ==>
                r.value == old(Get(deposits, caller)) && deposits == old(deposits)[caller := 0] &&
                escrow == old(escrow) - r.value && refunded == old(refunded) + r.value
      ensures r.Failure? ==> deposits == old(deposits) && escrow == old(escrow) && refunded == old(refunded)
    {
      if !finalized {
        return Failure(NotFinalized);
      }
      if softCap <= fundsRaised {
        return Failure(SoftCapIsReached);
      }
      var amount := Get(deposits, caller);
      if amount == 0 {
        return Failure(NothingToRefund);
      }
      TotalUpdate(deposits, caller, 0);
      deposits := deposits[caller := 0];
      escrow := escrow - amount;
      refunded := refunded + amount;
      r := Success(amount);
    }

    // ---- Vesting ----

    /** Pays the team wallet every team tranche whose cliff has passed and
        that has not been paid yet. */
    method WithdrawCoreTeamTokens(caller: Address, now: nat) returns (r: Result<nat>)
      requires Valid()
      modifies this`token, this`teamWithdrawn
      ensures Valid()
      ensures Progressed()
      ensures r.Success? <==> caller == owner && finalized && SoftCapReached()
      ensures caller != owner ==> r == Failure(Unauthorized)
      ensures r.Success? ==>
                var unlocked := Unlocked(vestedTeam, TEAM_CLIFFS, startTime, now);
                r.value == Payout(unlocked, old(teamWithdrawn)) &&
                teamWithdrawn == old(teamWithdrawn) + r.value &&
                BalanceOf(walletCoreTeam) == old(BalanceOf(walletCoreTeam)) + r.value &&
                BalanceOf(saleAddress) == old(BalanceOf(saleAddress)) - r.value
      ensures r.Success? ==>
                (forall a :: a != walletCoreTeam && a != saleAddress ==> BalanceOf(a) == old(BalanceOf(a))) &&
                token.totalSupply == old(token.totalSupply)
      ensures r.Failure? ==> token == old(token) && teamWithdrawn == old(teamWithdrawn)
    {
      if caller != owner {
        return Failure(Unauthorized);
      }
      if !finalized {
        return Failure(NotFinalized);
      }
      if fundsRaised < softCap {
        return Failure(SoftCapNotReached);
      }
      var unlocked := 0;
      var i := 0;
      while i < |TEAM_CLIFFS|
        invariant i <= |TEAM_CLIFFS|
        invariant unlocked == Unlocked(vestedTeam[..i], TEAM_CLIFFS[..i], startTime, now)
      {
        assert vestedTeam[..i + 1][..i] == vestedTeam[..i];
        assert TEAM_CLIFFS[..i + 1][..i] == TEAM_CLIFFS[..i];
        if Passed(startTime, TEAM_CLIFFS[i], now) {
          unlocked := unlocked + vestedTeam[i];
        }
        i := i + 1;
      }
      assert vestedTeam[..i] == vestedTeam && TEAM_CLIFFS[..i] == TEAM_CLIFFS;
      UnlockedBounded(vestedTeam, TEAM_CLIFFS, startTime, now);
      var amount := Payout(unlocked, teamWithdrawn);
      Token.TransferConsistent(token, saleAddress, walletCoreTeam, amount);
      token := Token.Transfer(token, saleAddress, walletCoreTeam, amount);
      teamWithdrawn := teamWithdrawn + amount;
      r := Success(amount);
    }

    /** Pays the wallet the advisor pool once its cliff has passed, if it has
        not been paid yet. */
    method WithdrawAdvisorTokens(caller: Address, now: nat) returns (r: Result<nat>)
      requires Valid()
      modifies this`token, this`advisorWithdrawn
      ensures Valid()
      ensures Progressed()
      ensures r.Success? <==> caller == owner && finalized && SoftCapReached()
      ensures caller != owner ==> r == Failure(Unauthorized)
      ensures r.Success? ==>
                var unlocked := Unlocked([vestedAdvisors], ADVISOR_CLIFFS, startTime, now);
                r.value == Payout(unlocked, old(advisorWithdrawn)) &&
                advisorWithdrawn == old(advisorWithdrawn) + r.value &&
                BalanceOf(wallet) == old(BalanceOf(wallet)) + r.value &&
                BalanceOf(saleAddress) == old(BalanceOf(saleAddress)) - r.value
      ensures r.Success? ==>
                (forall a :: a != wallet && a != saleAddress ==> BalanceOf(a) == old(BalanceOf(a))) &&
                token.totalSupply == old(token.totalSupply)
      ensures r.Failure? ==> token == old(token) && advisorWithdrawn == old(advisorWithdrawn)
    {
      if caller != owner {
        return Failure(Unauthorized);
      }
      if !finalized {
        return Failure(NotFinalized);
      }
      if fundsRaised < softCap {
        return Failure(SoftCapNotReached);
      }
      AdvisorSchedule(vestedAdvisors, startTime, now);
      var unlocked := if Passed(startTime, ADVISOR_CLIFFS[0], now) then vestedAdvisors else 0;
      var amount := Payout(unlocked, advisorWithdrawn);
      Token.TransferConsistent(token, saleAddress, wallet, amount);
      token := Token.Transfer(token, saleAddress, wallet, amount);
      advisorWithdrawn := advisorWithdrawn + amount;
      r := Success(amount);
    }
  }
}
