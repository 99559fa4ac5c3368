/** Counting the indices of a list that satisfy a condition. */
module Counting {

  ghost function Marks(m: seq<bool>): nat {
    if m == [] then 0 else (if m[0] then 1 else 0) + Marks(m[1..])
  }

  lemma {:induction false} MarksSnoc(m: seq<bool>, x: bool)
    ensures Marks(m + [x]) == Marks(m) + if x then 1 else 0
  {
    if m != [] {
      MarksSnoc(m[1..], x);
      assert (m + [x])[1..] == m[1..] + [x];
    }
  }

  /** Counting marks is counting the indices that are marked. */
  lemma {:induction false} MarksCard(m: seq<bool>)
    ensures |set i: nat | i < |m| && m[i]| == Marks(m)
  {
    var s := set i: nat | i < |m| && m[i];
    if m == [] {
      assert s == {};
    } else {
      var n := m[..|m| - 1];
      var last := m[|m| - 1];
      MarksCard(n);
      MarksSnoc(n, last);
      assert m == n + [last];
      assert s == (set i: nat | i < |n| && n[i]) + if last then {|n|} else {};
    }
  }
}
