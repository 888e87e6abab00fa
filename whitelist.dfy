/** The whitelist book written by addWhitelistBulk: a list of participants and
    a list of allowances, applied pair by pair in list order. */
module Whitelist {
  import opened Accounts

  /** The book after writing `amounts[i]` for `participants[i]`, for each `i`
      in turn (a later entry for the same participant wins). */
  function Assign(book: map<Address, nat>, participants: seq<Address>, amounts: seq<nat>): map<Address, nat>
    requires |participants| == |amounts|
    decreases |participants|
  {
    if |participants| == 0 then book
    else
      var n := |participants| - 1;
      Assign(book, participants[..n], amounts[..n])[participants[n] := amounts[n]]
  }

  /** A participant not on the list keeps the allowance it had. */
  lemma {:induction false} AssignUnlisted(book: map<Address, nat>, participants: seq<Address>, amounts: seq<nat>, a: Address)
    requires |participants| == |amounts| && a !in participants
    ensures Get(Assign(book, participants, amounts), a) == Get(book, a)
    decreases |participants|
  {
    if |participants| > 0 {
      var n := |participants| - 1;
      AssignUnlisted(book, participants[..n], amounts[..n], a);
    }
  }

  /** A listed participant ends with the allowance of its last entry. */
  lemma {:induction false} AssignListed(book: map<Address, nat>, participants: seq<Address>, amounts: seq<nat>, j: nat)
    requires |participants| == |amounts| && j < |participants|
    requires forall k :: j < k < |participants| ==> participants[k] != participants[j]
    ensures Get(Assign(book, participants, amounts), participants[j]) == amounts[j]
    decreases |participants|
  {
    var n := |participants| - 1;
    if j < n {
      assert participants[..n][j] == participants[j];
      AssignListed(book, participants[..n], amounts[..n], j);
    }
  }
}
