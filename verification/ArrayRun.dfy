/**
 Whole runs over one array-keyed table: every sequence of inserts and frees.
 */
module ArrayRun {
  import opened Shapes
  import opened RbHeap
  import opened RbTable
  import opened Nests
  import opened ArrayTree
  import opened ArrayFree

  datatype Op = Put(key: seq<uint32>, callback: Value -> Value) | Free(key: seq<uint32>)

  /** The flat map after one operation. */
  ghost function Apply(m: map<seq<uint32>, Value>, op: Op): map<seq<uint32>, Value> {
    match op
    case Put(key, callback) => m[key := callback(if key in m then m[key] else Null)]
    case Free(key) => m - {key}
  }

  ghost function ApplyAll(m: map<seq<uint32>, Value>, ops: seq<Op>): map<seq<uint32>, Value>
    decreases |ops|
  {
    if ops == [] then m else ApplyAll(Apply(m, ops[0]), ops[1..])
  }

  lemma {:induction false} PutMeans(n: Nest, n': Nest, c: Change, key: seq<uint32>, callback: Value -> Value)
    requires key != [] && Rep(n', |key|)
    requires Changes(Flat(n, |key|), Flat(n', |key|), c, key, [Item(key, callback(OldValue(c)))])
    ensures FlatMap(Flat(n', |key|)) == Apply(FlatMap(Flat(n, |key|)), Put(key, callback))
  {
    FlatSorted(n', |key|);
    FlatStore(c.p, c.m, c.s, key, callback(OldValue(c)), |key|);
  }

  lemma {:induction false} FreeMeans(n: Nest, n': Nest, c: Change, key: seq<uint32>)
    requires key != [] && SortedItems(Flat(n, |key|), |key|)
    requires Changes(Flat(n, |key|), Flat(n', |key|), c, key, [])
    requires c.m == [] ==> key !in FlatMap(Flat(n, |key|))
    ensures FlatMap(Flat(n', |key|)) == Apply(FlatMap(Flat(n, |key|)), Free(key))
  {
    assert c.p + [] + c.s == c.p + c.s;
    if c.m != [] {
      assert c.m == [Item(key, c.m[0].value)];
      FlatStore(c.p, c.m, c.s, key, c.m[0].value, |key|);
    } else {
      assert c.p + c.m + c.s == c.p + c.s;
    }
  }

  /** Every subtree stored anywhere in the nest is non-empty. */
  ghost predicate Full(n: Nest) {
    forall i :: 0 <= i < |n.kids| ==> n.kids[i].shape.Nd? && Full(n.kids[i])
  }

  lemma {:induction false} RepFull(n: Nest, k: nat)
    requires Rep(n, k)
    ensures Full(n)
    decreases n, 1
  {
    if k > 1 { KidsFull(Entries(n.shape), n.kids, k - 1); }
  }

  lemma {:induction false} KidsFull(es: seq<RbEntry>, kids: seq<Nest>, k: nat)
    requires RepKids(es, kids, k)
    ensures forall i :: 0 <= i < |kids| ==> kids[i].shape.Nd? && Full(kids[i])
    decreases kids, 0
  {
    if kids != [] {
      RepFull(kids[0], k);
      KidsFull(es[1..], kids[1..], k);
      assert forall i :: 1 <= i < |kids| ==> kids[i] == kids[1..][i - 1];
    }
  }

  /** One operation. The objects of the new nest are old ones, or fresh ones in `nt` and `nn`. */
  method Step(tree: Tree, op: Op, ghost n: Nest) returns (ghost n': Nest, ghost nt: set<Tree>, ghost nn: set<Node>)
    requires op.key != [] && n.tree == tree && Rep(n, |op.key|) && Apart(n)
    modifies Trees(n), Nodes(n)
    ensures n'.tree == tree && Rep(n', |op.key|) && Apart(n') && tree.flags == old(tree.flags)
    ensures FlatMap(Flat(n', |op.key|)) == Apply(FlatMap(Flat(n, |op.key|)), op)
    ensures fresh(nt) && fresh(nn) && Trees(n') <= Trees(n) + nt && Nodes(n') <= Nodes(n) + nn
  {
    ghost var c;
    FlatSorted(n, |op.key|);
    match op {
      case Put(key, callback) =>
        ghost var ts := set t: Tree | allocated(t) && t !in Trees(n);
        ghost var ns := set o: Node | allocated(o) && o !in Nodes(n);
        n', c := InsertArray(tree, key, callback, n, ts, ns);
        PutMeans(n, n', c, key, callback);
        nt, nn := Trees(n') - Trees(n), Nodes(n') - Nodes(n);
      case Free(key) =>
        var gone;
        gone, n', c := FreeArray(tree, key, n);
        FreeMeans(n, n', c, key);
        nt, nn := {}, {};
    }
  }

  /** Any run of inserts and frees on a table that does not free itself: the flat map is the one the operations
      describe, the trees stay valid, and no subtree at any level is empty. */
  method Run(tree: Tree, k: nat, ops: seq<Op>, ghost n: Nest) returns (ghost n': Nest)
    requires k >= 1 && n.tree == tree && Rep(n, k) && Apart(n) && !AutoFree(tree.flags)
    requires forall i :: 0 <= i < |ops| ==> |ops[i].key| == k
    modifies Trees(n), Nodes(n)
    ensures n'.tree == tree && Rep(n', k) && Apart(n') && Full(n')
    ensures FlatMap(Flat(n', k)) == ApplyAll(FlatMap(Flat(n, k)), ops)
    decreases |ops|
  {
    if ops == [] {
      n' := n;
      RepFull(n, k);
    } else {
      ghost var n1, nt, nn;
      n1, nt, nn := Step(tree, ops[0], n);
      n' := Run(tree, k, ops[1..], n1);
    }
  }
}
