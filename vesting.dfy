/** The vesting schedules of the reserved team and advisor pools: a tranche
    becomes payable once its cliff, counted in days from the sale's start
    time, has passed. */
module Vesting {
  import opened Accounts

  /** Seconds per day; the clock counts seconds. */
  const DAY: nat := 86400

  /** The team's four cliffs, in days after the start time. */
  const TEAM_CLIFFS: seq<nat> := [360, 480, 600, 720]

  /** The advisors' single cliff, in days after the start time. */
  const ADVISOR_CLIFFS: seq<nat> := [180]

  predicate Passed(startTime: nat, cliffDays: nat, now: nat) {
    startTime + cliffDays * DAY <= now
  }

  /** The sum of the tranches whose cliff has passed at `now`. */
  function Unlocked(amounts: seq<nat>, cliffs: seq<nat>, startTime: nat, now: nat): nat
    requires |amounts| == |cliffs|
    decreases |amounts|
  {
    if |amounts| == 0 then 0
    else
      var n := |amounts| - 1;
      Unlocked(amounts[..n], cliffs[..n], startTime, now)
        + (if Passed(startTime, cliffs[n], now) then amounts[n] else 0)
  }

  /** No more than the whole schedule is ever unlocked. */
  lemma {:induction false} UnlockedBounded(amounts: seq<nat>, cliffs: seq<nat>, startTime: nat, now: nat)
    requires |amounts| == |cliffs|
    ensures Unlocked(amounts, cliffs, startTime, now) <= Sum(amounts)
    decreases |amounts|
  {
    if |amounts| > 0 {
      var n := |amounts| - 1;
      UnlockedBounded(amounts[..n], cliffs[..n], startTime, now);
    }
  }

  /** What is unlocked only grows as time passes. */
  lemma {:induction false} UnlockedMonotone(amounts: seq<nat>, cliffs: seq<nat>, startTime: nat, earlier: nat, later: nat)
    requires |amounts| == |cliffs| && earlier <= later
    ensures Unlocked(amounts, cliffs, startTime, earlier) <= Unlocked(amounts, cliffs, startTime, later)
    decreases |amounts|
  {
    if |amounts| > 0 {
      var n := |amounts| - 1;
      UnlockedMonotone(amounts[..n], cliffs[..n], startTime, earlier, later);
    }
  }

  /** When exactly the first `k` cliffs have passed, exactly the first `k`
      tranches are unlocked. */
  lemma {:induction false} UnlockedPrefix(amounts: seq<nat>, cliffs: seq<nat>, startTime: nat, now: nat, k: nat)
    requires |amounts| == |cliffs| && k <= |cliffs|
    requires forall i :: 0 <= i < k ==> Passed(startTime, cliffs[i], now)
    requires forall i :: k <= i < |cliffs| ==> !Passed(startTime, cliffs[i], now)
    ensures Unlocked(amounts, cliffs, startTime, now) == Sum(amounts[..k])
    decreases |amounts|
  {
    if |amounts| == 0 {
      assert amounts[..k] == [];
    } else {
      var n := |amounts| - 1;
      if k == |amounts| {
        UnlockedPrefix(amounts[..n], cliffs[..n], startTime, now, n);
        assert amounts[..n][..n] == amounts[..n];
        assert amounts[..k] == amounts;
      } else {
        UnlockedPrefix(amounts[..n], cliffs[..n], startTime, now, k);
        assert amounts[..n][..k] == amounts[..k];
      }
    }
  }

  /** The team schedule: nothing before day 360, then the first tranche, the
      first two from day 480, the first three from day 600 and all four from
      day 720. */
  lemma TeamSchedule(amounts: seq<nat>, startTime: nat, now: nat)
    requires |amounts| == 4
    ensures now < startTime + 360 * DAY ==> Unlocked(amounts, TEAM_CLIFFS, startTime, now) == 0
    ensures startTime + 360 * DAY <= now < startTime + 480 * DAY ==>
              Unlocked(amounts, TEAM_CLIFFS, startTime, now) == amounts[0]
    ensures startTime + 480 * DAY <= now < startTime + 600 * DAY ==>
              Unlocked(amounts, TEAM_CLIFFS, startTime, now) == amounts[0] + amounts[1]
    ensures startTime + 600 * DAY <= now < startTime + 720 * DAY ==>
              Unlocked(amounts, TEAM_CLIFFS, startTime, now) == amounts[0] + amounts[1] + amounts[2]
    ensures startTime + 720 * DAY <= now ==>
              Unlocked(amounts, TEAM_CLIFFS, startTime, now) == Sum(amounts)
  {
    var k := if now < startTime + 360 * DAY then 0
             else if now < startTime + 480 * DAY then 1
             else if now < startTime + 600 * DAY then 2
             else if now < startTime + 720 * DAY then 3
             else 4;
    UnlockedPrefix(amounts, TEAM_CLIFFS, startTime, now, k);
    assert amounts[..4] == amounts;
    assert amounts[..4][..3] == amounts[..3];
    assert amounts[..3][..2] == amounts[..2];
    assert amounts[..2][..1] == amounts[..1];
    assert amounts[..1][..0] == [];
    assert Sum(amounts[..1]) == amounts[0];
    assert Sum(amounts[..2]) == amounts[0] + amounts[1];
    assert Sum(amounts[..3]) == amounts[0] + amounts[1] + amounts[2];
  }

  /** The advisor schedule: nothing before day 180, all of it from then on. */
  lemma AdvisorSchedule(amount: nat, startTime: nat, now: nat)
    ensures Unlocked([amount], ADVISOR_CLIFFS, startTime, now)
         == if startTime + 180 * DAY <= now then amount else 0
  {
    assert [amount][..0] == [];
  }

  /** What a withdrawal pays when `unlocked` tokens of a schedule are
      unlocked and `withdrawn` were paid before; nothing when the earlier
      payments already cover what is unlocked. */
  function Payout(unlocked: nat, withdrawn: nat): nat
  {
    if withdrawn < unlocked then unlocked - withdrawn else 0
  }

  /** Withdrawing at `earlier` and again at `later` leaves the paid counter
      at exactly what is unlocked at `later`: every tranche is paid once, and
      a second call with no new cliff passed pays nothing. */
  lemma {:induction false} PayoutCatchesUp(amounts: seq<nat>, cliffs: seq<nat>, startTime: nat, earlier: nat, later: nat)
    requires |amounts| == |cliffs| && earlier <= later
    ensures var first := Unlocked(amounts, cliffs, startTime, earlier);
            var second := Unlocked(amounts, cliffs, startTime, later);
            first + Payout(second, first) == second && Payout(second, second) == 0
  {
    UnlockedMonotone(amounts, cliffs, startTime, earlier, later);
  }
}
