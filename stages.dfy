/** The stage table: an ordered list of (cumulative cap, tokens per wei)
    pairs, and the partial-fill rule a purchase follows inside one stage. */
module Stages {

  datatype Stage = Stage(cap: nat, rate: nat)

  /** What the sale's constructor demands of its table: at least one stage,
      caps strictly increasing from one stage to the next, and the first cap
      equal to the soft cap. */
  predicate WellFormed(stages: seq<Stage>, softCap: nat) {
    |stages| > 0 && stages[0].cap == softCap && Increasing(stages)
  }

  /** Each cap lies strictly above the one before it. */
  predicate Increasing(stages: seq<Stage>) {
    forall i :: 0 <= i < |stages| - 1 ==> stages[i].cap < stages[i + 1].cap
  }

  /** The last stage's cap, which ends the sale when filled. */
  function HardCap(stages: seq<Stage>): nat
    requires |stages| > 0
  {
    stages[|stages| - 1].cap
  }

  /** Caps increasing step by step increase across any two stages. */
  lemma {:induction false} CapsOrdered(stages: seq<Stage>, softCap: nat, i: nat, j: nat)
    requires WellFormed(stages, softCap) && i < j < |stages|
    ensures stages[i].cap < stages[j].cap
    decreases j - i
  {
    if i + 1 < j {
      CapsOrdered(stages, softCap, i + 1, j);
    }
  }

  /** Every stage's cap lies between the soft cap and the hard cap. */
  lemma CapWithinBounds(stages: seq<Stage>, softCap: nat, i: nat)
    requires WellFormed(stages, softCap) && i < |stages|
    ensures softCap <= stages[i].cap <= HardCap(stages)
  {
    if 0 < i {
      CapsOrdered(stages, softCap, 0, i);
    }
    if i < |stages| - 1 {
      CapsOrdered(stages, softCap, i, |stages| - 1);
    }
  }

  /** The part of a purchase of `value` wei that the active stage accepts when
      `room` wei are left below its cap: all of it if it fits, otherwise
      exactly the room (the rest goes back to the buyer). */
  function Fill(value: nat, room: nat): (accepted: nat)
    ensures accepted <= value && accepted <= room
    ensures accepted == value || accepted == room
  {
    if value <= room then value else room
  }

  /** The wei stage `i` takes between the previous stage's cap and its own. */
  function Width(stages: seq<Stage>, i: nat): nat
    requires Increasing(stages) && i < |stages|
  {
    if i == 0 then stages[0].cap else stages[i].cap - stages[i - 1].cap
  }

  /** The tokens issued when the first `n` stages are bought out one after
      the other, each at its own rate. */
  function Issued(stages: seq<Stage>, n: nat): nat
    requires Increasing(stages) && n <= |stages|
  {
    if n == 0 then 0 else Issued(stages, n - 1) + Width(stages, n - 1) * stages[n - 1].rate
  }

  /** The wei the first `n` stages take together. */
  function Widths(stages: seq<Stage>, n: nat): nat
    requires Increasing(stages) && n <= |stages|
  {
    if n == 0 then 0 else Widths(stages, n - 1) + Width(stages, n - 1)
  }

  /** Buying out the first `n` stages raises exactly the `n`-th cap. */
  lemma {:induction false} WidthsTelescope(stages: seq<Stage>, n: nat)
    requires Increasing(stages) && 0 < n <= |stages|
    ensures Widths(stages, n) == stages[n - 1].cap
  {
    if 1 < n {
      WidthsTelescope(stages, n - 1);
    }
  }
}
