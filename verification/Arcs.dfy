/** The class-to-class arcs: `arc_lookup` and `arc_add` (phat.c:1536-1592). */
module Arcs {
  import opened Layout

  /** How many references the arcs of a list count towards `b`. */
  ghost function Tally(arcs: seq<Arc>, b: CInfo): nat {
    if arcs == [] then 0 else (if arcs[0].child == b then arcs[0].count else 0) + Tally(arcs[1..], b)
  }

  /** No class has two arcs. */
  ghost predicate Single(arcs: seq<Arc>) {
    forall i, j :: 0 <= i < j < |arcs| ==> arcs[i].child != arcs[j].child
  }

  lemma {:induction false} TallyAt(arcs: seq<Arc>, j: nat, n: nat, b: CInfo)
    requires j < |arcs|
    ensures Tally(arcs[j := Arc(arcs[j].child, arcs[j].count + n)], b) == Tally(arcs, b) + if arcs[j].child == b then n
            else 0
  {
    var arcs' := arcs[j := Arc(arcs[j].child, arcs[j].count + n)];
    if j == 0 {
      assert arcs'[1..] == arcs[1..];
    } else {
      TallyAt(arcs[1..], j - 1, n, b);
      assert arcs'[1..] == arcs[1..][j - 1 := Arc(arcs[j].child, arcs[j].count + n)];
    }
  }

  /** With single arcs, the tally is the count of the one arc there is. */
  lemma {:induction false} TallySingle(arcs: seq<Arc>, j: nat)
    requires j < |arcs| && Single(arcs)
    ensures Tally(arcs, arcs[j].child) == arcs[j].count
  {
    if j == 0 {
      TallyNone(arcs[1..], arcs[0].child);
    } else {
      TallySingle(arcs[1..], j - 1);
    }
  }

  lemma {:induction false} TallyNone(arcs: seq<Arc>, b: CInfo)
    requires forall i :: 0 <= i < |arcs| ==> arcs[i].child != b
    ensures Tally(arcs, b) == 0
  {
    if arcs != [] { TallyNone(arcs[1..], b); }
  }

  method ArcLookup(parent: CInfo, child: CInfo) returns (j: nat)
    ensures j <= |parent.children| && (j < |parent.children| ==> parent.children[j].child == child)
    ensures j == |parent.children| ==> forall i :: 0 <= i < |parent.children| ==> parent.children[i].child != child
  {
    j := 0;
    while j < |parent.children| && parent.children[j].child != child
      invariant j <= |parent.children| && forall i :: 0 <= i < j ==> parent.children[i].child != child
    {
      j := j + 1;
    }
  }

  /** One more reference from `parent` to `child`; all other counts stay. */
  method ArcAdd(parent: CInfo, child: CInfo, count: nat)
    requires Single(parent.children)
    modifies parent`children
    ensures Single(parent.children)
    ensures forall b :: Tally(parent.children, b) == Tally(old(parent.children), b) + if b == child then count else 0
  {
    var j := ArcLookup(parent, child);
    ghost var was := parent.children;
    if j < |parent.children| {
      parent.children := parent.children[j := Arc(child, parent.children[j].count + count)];
      forall b ensures Tally(parent.children, b) == Tally(was, b) + if b == child then count else 0 {
        TallyAt(was, j, count, b);
      }
    } else {
      parent.children := [Arc(child, count)] + parent.children;
      assert parent.children[1..] == was;
    }
  }
}
