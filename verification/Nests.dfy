/**
 Trees of trees (rbtree.c:824-993), as values: a nest is one tree together with the nests stored
 in it. For key length 1 the data of a tree are the caller's; above that they are subtrees.
 */
module Nests {
  import opened Shapes
  import opened Tables
  import opened RbHeap
  import opened RbTable

  datatype Nest = Nest(tree: Tree, shape: RbShape, kids: seq<Nest>)

  /** One stored pair of the flat table. */
  datatype Item = Item(key: seq<uint32>, value: Value)

  // ---------- footprints ----------

  ghost function Trees(n: Nest): set<Tree>
    decreases n, 1
  {
    {n.tree} + TreesOf(n.kids)
  }

  ghost function TreesOf(kids: seq<Nest>): set<Tree>
    decreases kids, 0
  {
    if kids == [] then {} else Trees(kids[0]) + TreesOf(kids[1..])
  }

  ghost function Nodes(n: Nest): set<Node>
    decreases n, 1
  {
    Ids(n.shape) + NodesOf(n.kids)
  }

  ghost function NodesOf(kids: seq<Nest>): set<Node>
    decreases kids, 0
  {
    if kids == [] then {} else Nodes(kids[0]) + NodesOf(kids[1..])
  }

  /** No tree and no node object is shared. */
  ghost predicate Apart(n: Nest)
    decreases n, 1
  {
    n.tree !in TreesOf(n.kids) && Ids(n.shape) !! NodesOf(n.kids) && ApartKids(n.kids)
  }

  ghost predicate ApartKids(kids: seq<Nest>)
    decreases kids, 0
  {
    kids == [] ||
    (Apart(kids[0]) && ApartKids(kids[1..]) &&
     Trees(kids[0]) !! TreesOf(kids[1..]) && Nodes(kids[0]) !! NodesOf(kids[1..]))
  }

  lemma {:induction false} KidsConcat(a: seq<Nest>, b: seq<Nest>)
    ensures TreesOf(a + b) == TreesOf(a) + TreesOf(b) && NodesOf(a + b) == NodesOf(a) + NodesOf(b)
  {
    if a == [] {
      assert a + b == b;
    } else {
      assert (a + b)[1..] == a[1..] + b;
      KidsConcat(a[1..], b);
    }
  }

  lemma {:induction false} ApartConcat(a: seq<Nest>, b: seq<Nest>)
    ensures ApartKids(a + b) <==>
            ApartKids(a) && ApartKids(b) && TreesOf(a) !! TreesOf(b) && NodesOf(a) !! NodesOf(b)
  {
    if a == [] {
      assert a + b == b;
    } else {
      assert (a + b)[1..] == a[1..] + b;
      ApartConcat(a[1..], b);
      KidsConcat(a[1..], b);
    }
  }

  // ---------- representation ----------

  /** The heap holds the nest `n` for keys of length `k`: every tree is valid, every subtree is set to free itself, and
      no subtree is empty. */
  ghost predicate Rep(n: Nest, k: nat)
    reads Trees(n), Nodes(n)
    decreases n, 1
  {
    k >= 1 && n.tree.shape == n.shape && Valid(n.tree) &&
    if k == 1 then n.kids == [] else RepKids(Entries(n.shape), n.kids, k - 1)
  }

  ghost predicate RepKids(es: seq<RbEntry>, kids: seq<Nest>, k: nat)
    reads TreesOf(kids), NodesOf(kids)
    decreases kids, 0
  {
    |es| == |kids| &&
    (kids == [] ||
     (assert kids[0].tree in Trees(kids[0]);
      es[0].data == Sub(kids[0].tree) && kids[0].shape.Nd? && AutoFree(kids[0].tree.flags) &&
      Rep(kids[0], k) && RepKids(es[1..], kids[1..], k)))
  }

  lemma {:induction false} RepConcat(es: seq<RbEntry>, kids: seq<Nest>, fs: seq<RbEntry>, more: seq<Nest>, k: nat)
    requires |es| == |kids|
    ensures RepKids(es + fs, kids + more, k) <==> RepKids(es, kids, k) && RepKids(fs, more, k)
  {
    if es == [] {
      assert es + fs == fs && kids + more == more;
    } else {
      assert (es + fs)[1..] == es[1..] + fs && (kids + more)[1..] == kids[1..] + more;
      RepConcat(es[1..], kids[1..], fs, more, k);
    }
  }

  // ---------- the flat table ----------

  ghost function Prefix(x: uint32, items: seq<Item>): seq<Item> {
    if items == [] then [] else [Item([x] + items[0].key, items[0].value)] + Prefix(x, items[1..])
  }

  ghost function Leaves(es: seq<RbEntry>): seq<Item> {
    if es == [] then [] else [Item([es[0].key], es[0].data)] + Leaves(es[1..])
  }

  /** All stored pairs, in the order of the trees. */
  ghost function Flat(n: Nest, k: nat): seq<Item>
    decreases n, 1
  {
    if k <= 1 then Leaves(Entries(n.shape)) else FlatKids(Entries(n.shape), n.kids, k - 1)
  }

  ghost function FlatKids(es: seq<RbEntry>, kids: seq<Nest>, k: nat): seq<Item>
    decreases kids, 0
  {
    if es == [] || kids == [] then [] else Prefix(es[0].key, Flat(kids[0], k)) + FlatKids(es[1..], kids[1..], k)
  }

  lemma {:induction false} PrefixConcat(x: uint32, a: seq<Item>, b: seq<Item>)
    ensures Prefix(x, a + b) == Prefix(x, a) + Prefix(x, b)
  {
    if a == [] {
      assert a + b == b;
    } else {
      assert (a + b)[1..] == a[1..] + b;
      PrefixConcat(x, a[1..], b);
    }
  }

  lemma {:induction false} LeavesConcat(a: seq<RbEntry>, b: seq<RbEntry>)
    ensures Leaves(a + b) == Leaves(a) + Leaves(b)
  {
    if a == [] {
      assert a + b == b;
    } else {
      assert (a + b)[1..] == a[1..] + b;
      LeavesConcat(a[1..], b);
    }
  }

  lemma {:induction false} FlatConcat(es: seq<RbEntry>, kids: seq<Nest>, fs: seq<RbEntry>, more: seq<Nest>, k: nat)
    requires |es| == |kids|
    ensures FlatKids(es + fs, kids + more, k) == FlatKids(es, kids, k) + FlatKids(fs, more, k)
  {
    if es == [] {
      assert es + fs == fs && kids + more == more;
    } else {
      assert (es + fs)[1..] == es[1..] + fs && (kids + more)[1..] == kids[1..] + more;
      FlatConcat(es[1..], kids[1..], fs, more, k);
    }
  }

  // ---------- order ----------

  /** Lexicographic order. */
  ghost predicate Less(a: seq<uint32>, b: seq<uint32>) {
    a != [] && b != [] && (a[0] < b[0] || (a[0] == b[0] && Less(a[1..], b[1..])))
  }

  ghost predicate SortedItems(items: seq<Item>, k: nat) {
    (forall i :: 0 <= i < |items| ==> |items[i].key| == k) &&
    forall i, j :: 0 <= i < j < |items| ==> Less(items[i].key, items[j].key)
  }

  /** Every key starts with the key of one of the entries, above `x` if those are. */
  ghost predicate StartsAbove(items: seq<Item>, x: uint32) {
    forall i :: 0 <= i < |items| ==> items[i].key != [] && items[i].key[0] > x
  }

  lemma {:induction false} PrefixSorted(x: uint32, items: seq<Item>, k: nat)
    requires SortedItems(items, k)
    ensures SortedItems(Prefix(x, items), k + 1)
    ensures |Prefix(x, items)| == |items|
    ensures forall i :: 0 <= i < |items| ==> Prefix(x, items)[i] == Item([x] + items[i].key, items[i].value)
  {
    PrefixAt(x, items);
    forall i, j | 0 <= i < j < |items| ensures Less([x] + items[i].key, [x] + items[j].key) {
      assert ([x] + items[i].key)[1..] == items[i].key && ([x] + items[j].key)[1..] == items[j].key;
    }
  }

  lemma {:induction false} PrefixAt(x: uint32, items: seq<Item>)
    ensures |Prefix(x, items)| == |items|
    ensures forall i :: 0 <= i < |items| ==> Prefix(x, items)[i] == Item([x] + items[i].key, items[i].value)
  {
    if items != [] { PrefixAt(x, items[1..]); }
  }

  lemma {:induction false} JoinSorted(a: seq<Item>, b: seq<Item>, x: uint32, k: nat)
    requires SortedItems(a, k) && SortedItems(b, k) && StartsAbove(b, x)
    requires forall i :: 0 <= i < |a| ==> a[i].key != [] && a[i].key[0] == x
    ensures SortedItems(a + b, k)
  {
    var c := a + b;
    forall i, j | 0 <= i < j < |c| ensures Less(c[i].key, c[j].key) {
      if i < |a| <= j {
        assert c[i] == a[i] && c[j] == b[j - |a|];
      }
    }
  }

  lemma {:induction false} LeavesSorted(es: seq<RbEntry>)
    requires Sorted(es)
    ensures SortedItems(Leaves(es), 1)
    ensures forall x :: AllAbove(es, x) ==> StartsAbove(Leaves(es), x)
  {
    if es != [] {
      LeavesSorted(es[1..]);
      assert AllAbove(es[1..], es[0].key);
      JoinSorted([Item([es[0].key], es[0].data)], Leaves(es[1..]), es[0].key, 1);
    }
  }

  /** The flat table is strictly increasing in lexicographic order, with keys of one length. */
  lemma {:induction false} FlatSorted(n: Nest, k: nat)
    requires Rep(n, k)
    ensures SortedItems(Flat(n, k), k)
    decreases n, 1
  {
    if k == 1 {
      LeavesSorted(Entries(n.shape));
    } else {
      FlatKidsSorted(Entries(n.shape), n.kids, k - 1);
    }
  }

  lemma {:induction false} FlatKidsSorted(es: seq<RbEntry>, kids: seq<Nest>, k: nat)
    requires RepKids(es, kids, k) && Sorted(es)
    ensures SortedItems(FlatKids(es, kids, k), k + 1)
    ensures forall x :: AllAbove(es, x) ==> StartsAbove(FlatKids(es, kids, k), x)
    decreases kids, 0
  {
    if kids != [] {
      FlatSorted(kids[0], k);
      PrefixSorted(es[0].key, Flat(kids[0], k), k);
      FlatKidsSorted(es[1..], kids[1..], k);
      assert AllAbove(es[1..], es[0].key);
      JoinSorted(Prefix(es[0].key, Flat(kids[0], k)), FlatKids(es[1..], kids[1..], k), es[0].key, k + 1);
    }
  }

  // ---------- splitting a nest at one key ----------

  ghost function KidsBelow(es: seq<RbEntry>, kids: seq<Nest>, x: uint32): seq<Nest>
    requires Sorted(es) && |es| == |kids|
  {
    SplitSorted(es, x);
    kids[..|Below(es, x)|]
  }

  ghost function KidsAt(es: seq<RbEntry>, kids: seq<Nest>, x: uint32): seq<Nest>
    requires Sorted(es) && |es| == |kids|
  {
    SplitSorted(es, x);
    kids[|Below(es, x)|..|Below(es, x)| + |At(es, x)|]
  }

  ghost function KidsAbove(es: seq<RbEntry>, kids: seq<Nest>, x: uint32): seq<Nest>
    requires Sorted(es) && |es| == |kids|
  {
    SplitSorted(es, x);
    kids[|Below(es, x)| + |At(es, x)|..]
  }

  lemma {:induction false} SplitKids(es: seq<RbEntry>, kids: seq<Nest>, x: uint32)
    requires Sorted(es) && |es| == |kids|
    ensures kids == KidsBelow(es, kids, x) + KidsAt(es, kids, x) + KidsAbove(es, kids, x)
    ensures |KidsBelow(es, kids, x)| == |Below(es, x)| && |KidsAt(es, kids, x)| == |At(es, x)|
    ensures |KidsAbove(es, kids, x)| == |Above(es, x)|
  {
    SplitSorted(es, x);
    Cut(kids, |Below(es, x)|, |Below(es, x)| + |At(es, x)|);
  }

  lemma Cut<T>(s: seq<T>, i: nat, j: nat)
    requires i <= j <= |s|
    ensures s == s[..i] + s[i..j] + s[j..]
  {
  }

  lemma {:induction false} SplitRep(es: seq<RbEntry>, kids: seq<Nest>, x: uint32, k: nat)
    requires Sorted(es) && RepKids(es, kids, k)
    ensures RepKids(Below(es, x), KidsBelow(es, kids, x), k)
    ensures RepKids(At(es, x), KidsAt(es, kids, x), k)
    ensures RepKids(Above(es, x), KidsAbove(es, kids, x), k)
  {
    SplitSorted(es, x);
    SplitKids(es, kids, x);
    RepConcat(Below(es, x) + At(es, x), KidsBelow(es, kids, x) + KidsAt(es, kids, x), Above(es, x),
              KidsAbove(es, kids, x), k);
    RepConcat(Below(es, x), KidsBelow(es, kids, x), At(es, x), KidsAt(es, kids, x), k);
  }

  lemma {:induction false} SplitFlat(es: seq<RbEntry>, kids: seq<Nest>, x: uint32, k: nat)
    requires Sorted(es) && |es| == |kids|
    ensures FlatKids(es, kids, k)
         == FlatKids(Below(es, x), KidsBelow(es, kids, x), k) + FlatKids(At(es, x), KidsAt(es, kids, x), k)
          + FlatKids(Above(es, x), KidsAbove(es, kids, x), k)
  {
    SplitSorted(es, x);
    SplitKids(es, kids, x);
    FlatConcat(Below(es, x) + At(es, x), KidsBelow(es, kids, x) + KidsAt(es, kids, x), Above(es, x),
              KidsAbove(es, kids, x), k);
    FlatConcat(Below(es, x), KidsBelow(es, kids, x), At(es, x), KidsAt(es, kids, x), k);
  }

  // ---------- the flat table as a map ----------

  ghost function FlatMap(items: seq<Item>): map<seq<uint32>, Value> {
    if items == [] then map[] else map[items[0].key := items[0].value] + FlatMap(items[1..])
  }

  lemma {:induction false} FlatMapConcat(a: seq<Item>, b: seq<Item>)
    ensures FlatMap(a + b) == FlatMap(a) + FlatMap(b)
  {
    if a == [] {
      assert a + b == b;
    } else {
      assert (a + b)[1..] == a[1..] + b;
      FlatMapConcat(a[1..], b);
      MapAssoc(map[a[0].key := a[0].value], FlatMap(a[1..]), FlatMap(b));
    }
  }

  ghost predicate Absent(items: seq<Item>, key: seq<uint32>) {
    forall i :: 0 <= i < |items| ==> items[i].key != key
  }

  lemma {:induction false} AbsentMap(items: seq<Item>, key: seq<uint32>)
    requires Absent(items, key)
    ensures key !in FlatMap(items)
  {
    if items != [] { AbsentMap(items[1..], key); }
  }

  lemma {:induction false} LessIrreflexive(a: seq<uint32>)
    ensures !Less(a, a)
  {
    if a != [] { LessIrreflexive(a[1..]); }
  }

  lemma {:induction false} SortedAbsent(p: seq<Item>, e: Item, s: seq<Item>, k: nat)
    requires SortedItems(p + [e] + s, k)
    ensures Absent(p, e.key) && Absent(s, e.key)
  {
    var all := p + [e] + s;
    LessIrreflexive(e.key);
    assert all[|p|] == e;
    assert forall i :: 0 <= i < |p| ==> p[i] == all[i];
    assert forall i :: 0 <= i < |s| ==> s[i] == all[|p| + 1 + i];
  }

  /** What the decomposition of an update means for the flat map. */
  lemma {:induction false} FlatStore(p: seq<Item>, m: seq<Item>, s: seq<Item>, key: seq<uint32>, v: Value, k: nat)
    requires SortedItems(p + [Item(key, v)] + s, k)
    requires m == [] || (|m| == 1 && m[0].key == key)
    ensures FlatMap(p + [Item(key, v)] + s) == FlatMap(p + m + s)[key := v]
    ensures key in FlatMap(p + m + s) <==> m != []
    ensures m != [] ==> FlatMap(p + m + s)[key] == m[0].value
    ensures FlatMap(p + s) == FlatMap(p + m + s) - {key}
  {
    SortedAbsent(p, Item(key, v), s, k);
    AbsentMap(p, key);
    AbsentMap(s, key);
    FlatThree(p, [Item(key, v)], s);
    FlatThree(p, m, s);
    FlatMapConcat(p, s);
    FlatOne(Item(key, v));
    if m != [] { FlatOne(m[0]); }
    Maps(FlatMap(p), FlatMap(m), FlatMap(s), key, v);
  }

  lemma {:induction false} FlatThree(p: seq<Item>, m: seq<Item>, s: seq<Item>)
    ensures FlatMap(p + m + s) == FlatMap(p) + FlatMap(m) + FlatMap(s)
  {
    FlatMapConcat(p + m, s);
    FlatMapConcat(p, m);
  }

  lemma {:induction false} FlatOne(e: Item)
    ensures FlatMap([e]) == map[e.key := e.value]
  {
    assert [e][1..] == [];
  }

  lemma Maps(a: map<seq<uint32>, Value>, m: map<seq<uint32>, Value>, b: map<seq<uint32>, Value>, k: seq<uint32>,
             d: Value)
    requires k !in a && k !in b && m.Keys <= {k}
    ensures a + map[k := d] + b == (a + m + b)[k := d]
    ensures a + b == (a + m + b) - {k}
  {
  }

  // ---------- looking up ----------

  ghost function FlatGet(items: seq<Item>, key: seq<uint32>): Value {
    if key in FlatMap(items) then FlatMap(items)[key] else Null
  }

  /** Every key starts with one of the given parts. */
  ghost predicate HeadIn(items: seq<Item>, xs: set<uint32>) {
    forall i :: 0 <= i < |items| ==> items[i].key != [] && items[i].key[0] in xs
  }

  ghost function KeySet(es: seq<RbEntry>): set<uint32> {
    set i | 0 <= i < |es| :: es[i].key
  }

  lemma {:induction false} HeadKeys(es: seq<RbEntry>, kids: seq<Nest>, k: nat)
    ensures HeadIn(FlatKids(es, kids, k), KeySet(es)) && HeadIn(Leaves(es), KeySet(es))
  {
    if es != [] {
      assert KeySet(es) == {es[0].key} + KeySet(es[1..]) by {
        forall x | x in KeySet(es) ensures x in {es[0].key} + KeySet(es[1..]) {
          var i :| 0 <= i < |es| && es[i].key == x;
          assert i > 0 ==> es[1..][i - 1].key == x;
        }
        forall x | x in KeySet(es[1..]) ensures x in KeySet(es) {
          var i :| 0 <= i < |es[1..]| && es[1..][i].key == x;
          assert es[i + 1].key == x;
        }
      }
      if kids == [] {
        HeadKeys(es[1..], [], k);
      } else {
        HeadKeys(es[1..], kids[1..], k);
        PrefixAt(es[0].key, Flat(kids[0], k));
      }
    }
  }

  lemma {:induction false} OtherHeads(items: seq<Item>, xs: set<uint32>, x: uint32, rest: seq<uint32>)
    requires HeadIn(items, xs) && x !in xs
    ensures [x] + rest !in FlatMap(items)
  {
    assert Absent(items, [x] + rest);
    AbsentMap(items, [x] + rest);
  }

  lemma {:induction false} PrefixGet(x: uint32, items: seq<Item>, rest: seq<uint32>)
    ensures FlatGet(Prefix(x, items), [x] + rest) == FlatGet(items, rest)
    ensures [x] + rest in FlatMap(Prefix(x, items)) <==> rest in FlatMap(items)
  {
    if items != [] {
      PrefixGet(x, items[1..], rest);
      assert ([x] + rest)[1..] == rest && ([x] + items[0].key)[1..] == items[0].key;
    }
  }

  lemma {:induction false} GetThree(p: seq<Item>, m: seq<Item>, s: seq<Item>, key: seq<uint32>)
    requires key !in FlatMap(p) && key !in FlatMap(s)
    ensures FlatGet(p + m + s, key) == FlatGet(m, key)
    ensures key in FlatMap(p + m + s) <==> key in FlatMap(m)
  {
    FlatThree(p, m, s);
  }

  /** Looking up a key sequence is looking up its first part and then the rest in that subtree. */
  lemma {:induction false} GetDeep(es: seq<RbEntry>, kids: seq<Nest>, x: uint32, rest: seq<uint32>, k: nat)
    requires Sorted(es) && |es| == |kids|
    ensures var m := KidsAt(es, kids, x);
            FlatGet(FlatKids(es, kids, k), [x] + rest) == (if m == [] then Null else FlatGet(Flat(m[0], k), rest)) &&
            ([x] + rest in FlatMap(FlatKids(es, kids, k)) <==> m != [] && rest in FlatMap(Flat(m[0], k)))
  {
    var b, m, a := KidsBelow(es, kids, x), KidsAt(es, kids, x), KidsAbove(es, kids, x);
    var p, q, s := FlatKids(Below(es, x), b, k), FlatKids(At(es, x), m, k), FlatKids(Above(es, x), a, k);
    SplitSorted(es, x);
    SplitKids(es, kids, x);
    HeadKeys(Below(es, x), b, k);
    HeadKeys(Above(es, x), a, k);
    OtherHeads(p, KeySet(Below(es, x)), x, rest);
    OtherHeads(s, KeySet(Above(es, x)), x, rest);
    GetThree(p, q, s, [x] + rest);
    SplitFlat(es, kids, x, k);
    if m != [] {
      assert q == Prefix(x, Flat(m[0], k)) by { assert At(es, x)[1..] == [] && m[1..] == []; }
      PrefixGet(x, Flat(m[0], k), rest);
    }
  }

  lemma {:induction false} GetLast(es: seq<RbEntry>, x: uint32)
    requires Sorted(es)
    ensures FlatGet(Leaves(es), [x]) == Get(es, x)
    ensures [x] in FlatMap(Leaves(es)) <==> At(es, x) != []
  {
    var b, m, a := Below(es, x), At(es, x), Above(es, x);
    SplitSorted(es, x);
    LeavesConcat(b + m, a);
    LeavesConcat(b, m);
    HeadKeys(b, [], 0);
    HeadKeys(a, [], 0);
    assert [x] + [] == [x];
    OtherHeads(Leaves(b), KeySet(b), x, []);
    OtherHeads(Leaves(a), KeySet(a), x, []);
    GetThree(Leaves(b), Leaves(m), Leaves(a), [x]);
    if m != [] {
      assert m[1..] == [];
      FlatOne(Item([x], m[0].data));
    }
  }
}
