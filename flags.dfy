/** Counting the set entries of a `std::vector<bool>` such as `done` or `added`. */
module Flags {

  function CountTrue(b: seq<bool>): (k: nat)
    ensures k <= |b|
  {
    if b == [] then 0 else (if b[0] then 1 else 0) + CountTrue(b[1..])
  }

  function AllFalse(n: nat): (b: seq<bool>)
    ensures |b| == n && forall i :: 0 <= i < n ==> !b[i]
  {
    seq(n, _ => false)
  }

  lemma {:induction false} CountAllFalse(n: nat)
    ensures CountTrue(AllFalse(n)) == 0
  {
    if n > 0 {
      assert AllFalse(n)[1..] == AllFalse(n - 1);
      CountAllFalse(n - 1);
    }
  }

  /** Setting one clear entry raises the count by exactly one. */
  lemma {:induction false} CountTrueSet(b: seq<bool>, i: nat)
    requires i < |b| && !b[i]
    ensures CountTrue(b[i := true]) == CountTrue(b) + 1
  {
    if i == 0 {
      assert b[i := true][1..] == b[1..];
    } else {
      assert b[i := true][1..] == b[1..][i - 1 := true];
      CountTrueSet(b[1..], i - 1);
    }
  }

  /** The count reaches the length exactly when every entry is set. */
  lemma {:induction false} CountTrueFull(b: seq<bool>)
    ensures CountTrue(b) == |b| <==> forall i :: 0 <= i < |b| ==> b[i]
  {
    if b != [] {
      CountTrueFull(b[1..]);
      if CountTrue(b) == |b| {
        assert b[0];
        forall i | 0 < i < |b| ensures b[i] { assert b[i] == b[1..][i - 1]; }
      }
      if forall i :: 0 <= i < |b| ==> b[i] {
        assert forall i :: 0 <= i < |b| - 1 ==> b[1..][i];
      }
    }
  }
}
