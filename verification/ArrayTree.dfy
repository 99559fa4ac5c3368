/**
 The array-keyed operations of rbtree.c:824-993, on trees of trees. Each is proved against the
 flat table of key sequences.
 */
module ArrayTree {
  import opened Shapes
  import opened Tables
  import opened RbHeap
  import opened RbTable
  import opened Nests

  /** What an insert did to the flat table: the entry `m` at `key`, if any, gave way to `v`. */
  datatype Change = Change(p: seq<Item>, m: seq<Item>, s: seq<Item>)

  ghost predicate Changes(before: seq<Item>, after: seq<Item>, c: Change, key: seq<uint32>, v: seq<Item>) {
    before == c.p + c.m + c.s && after == c.p + v + c.s &&
    (c.m == [] || (|c.m| == 1 && c.m[0].key == key))
  }

  ghost function OldValue(c: Change): Value {
    if c.m == [] then Null else c.m[0].value
  }

  /** The last level: the caller's function runs once, on the old data or NULL. */
  method InsertLast(tree: Tree, x: uint32, callback: Value -> Value, ghost n: Nest, ghost ts: set<Tree>,
                    ghost ns: set<Node>)
    returns (ghost n': Nest, ghost c: Change)
    requires n.tree == tree && Rep(n, 1) && Apart(n) && Trees(n) !! ts && Nodes(n) !! ns
    modifies Trees(n), Nodes(n)
    ensures n'.tree == tree && Rep(n', 1) && Apart(n') && n'.shape.Nd? && tree.flags == old(tree.flags)
    ensures Trees(n') !! ts && Nodes(n') !! ns
    ensures Changes(Flat(n, 1), Flat(n', 1), c, [x], [Item([x], callback(OldValue(c)))])
  {
    ghost var es := Contents(tree);
    ghost var node := InsertCallback(tree, x, callback);
    n' := Nest(tree, tree.shape, []);
    c := LastChange(es, node, x, callback(Get(es, x)));
    StoredIds(n.shape, n'.shape, x, node, callback(Get(es, x)));
  }

  lemma {:induction false} LastChange(es: seq<RbEntry>, node: Node, x: uint32, v: Value) returns (c: Change)
    requires Sorted(es)
    ensures Changes(Leaves(es), Leaves(Stored(es, node, x, v)), c, [x], [Item([x], v)]) && OldValue(c) == Get(es, x)
  {
    var b, m, a := Tables.Below(es, x), At(es, x), Tables.Above(es, x);
    SplitSorted(es, x);
    LeavesConcat(b + m, a);
    LeavesConcat(b, m);
    LeavesConcat(b + [Entry(node, x, v)], a);
    LeavesConcat(b, [Entry(node, x, v)]);
    OneLeaf(Entry(node, x, v));
    if m != [] { OneLeaf(m[0]); }
    c := Change(Leaves(b), Leaves(m), Leaves(a));
  }

  lemma {:induction false} OneLeaf(e: RbEntry)
    ensures Leaves([e]) == [Item([e.key], e.data)]
  {
    assert [e][1..] == [];
  }

  /** Storing adds at most one object. */
  lemma {:induction false} StoredIds(t: RbShape, t': RbShape, x: uint32, node: Node, v: Value)
    requires Sorted(Entries(t)) && Entries(t') == Stored(Entries(t), node, x, v)
    ensures t'.Nd? && Ids(t') <= Ids(t) + {node} && node in Ids(t')
    ensures At(Entries(t), x) != [] ==> At(Entries(t), x)[0].id in Ids(t)
  {
    var es := Entries(t);
    SplitSorted(es, x);
    EntryIds(t);
    EntryIds(t');
    assert Entry(node, x, v) in Entries(t');
    assert forall e :: e in At(es, x) ==> e in es;
    forall e | e in Entries(t') ensures e.id in Ids(t) + {node} {
      assert e in Tables.Below(es, x) || e == Entry(node, x, v) || e in Tables.Above(es, x);
      assert e != Entry(node, x, v) ==> e in es;
    }
  }

  lemma EmptyRep(n: Nest, k: nat)
    requires k >= 1 && n.shape == Leaf && n.tree.shape == Leaf && n.tree.root == null && n.kids == []
    ensures Rep(n, k) && Apart(n) && Flat(n, k) == []
  {
    assert RB(n.shape, 0);
  }

  /** What an operation on one subtree leaves alone: the outer tree, and the other subtrees. */
  ghost predicate Rest(tree: Tree, es: seq<RbEntry>, kids: seq<Nest>, k: nat)
    reads tree, Ids(tree.shape), TreesOf(kids), NodesOf(kids)
  {
    Valid(tree) && RepKids(es, kids, k)
  }

  method NewSubtree(ghost k: nat, ghost tree: Tree, ghost re: seq<RbEntry>, ghost rk: seq<Nest>)
    returns (sub: Tree, ghost kid: Nest)
    requires k >= 1 && Rest(tree, re, rk, k)
    ensures fresh(sub) && kid == Nest(sub, Leaf, []) && Flat(kid, k) == [] && Rep(kid, k) && Apart(kid)
            && AutoFree(sub.flags) && sub.flags == 1
    ensures Rest(tree, re, rk, k) && unchanged(tree)
  {
    assert allocated(Ids(tree.shape)) && allocated(TreesOf(rk)) && allocated(NodesOf(rk));
    hide Rest, Flat;
    sub := new Tree(AUTOFREE);
    kid := Nest(sub, Leaf, []);
    EmptyRep(kid, k);
  }

  /** The entry with the key holds the subtree. */
  lemma OldSubtree(es: seq<RbEntry>, m: seq<Nest>, x: uint32, k: nat)
    requires k >= 1 && Sorted(es) && RepKids(At(es, x), m, k) && ApartKids(m)
    ensures Get(es, x) == Null <==> At(es, x) == []
    ensures Get(es, x) != Null ==> |m| == 1 && Get(es, x) == Sub(m[0].tree) && Rep(m[0], k) && Apart(m[0])
                                   && AutoFree(m[0].tree.flags)
  {
    SplitSorted(es, x);
    if At(es, x) != [] { assert m[1..] == []; }
  }

  /** Find or create the subtree for the rest of the key (rbtree.c:849-858). */
  method OpenSubtree(previous: Value, ghost es: seq<RbEntry>, ghost m: seq<Nest>, ghost x: uint32, ghost k: nat,
                     ghost tree: Tree, ghost re: seq<RbEntry>, ghost rk: seq<Nest>)
    returns (sub: Tree, ghost kid: Nest)
    requires k >= 1 && Sorted(es) && previous == Get(es, x) && RepKids(At(es, x), m, k) && ApartKids(m)
    requires Rest(tree, re, rk, k)
    ensures kid.tree == sub && Rep(kid, k) && Apart(kid) && AutoFree(sub.flags)
    ensures if At(es, x) == [] then fresh(sub) && kid == Nest(sub, Leaf, []) && Flat(kid, k) == [] else m == [kid]
    ensures Rest(tree, re, rk, k) && unchanged(tree)
  {
    OldSubtree(es, m, x, k);
    hide RepKids, ApartKids, Sorted, At, Get, Rest, Flat, Rep, Apart;
    if previous == Null {
      sub, kid := NewSubtree(k, tree, re, rk);
    } else {
      kid := m[0];
      sub := previous.tree;
    }
  }

  /** The nests around and in the subtree do not touch the outer tree or each other. */
  ghost predicate Clear(tree: Tree, shape: RbShape, b: seq<Nest>, m: seq<Nest>, a: seq<Nest>) {
    tree !in TreesOf(b) && tree !in TreesOf(m) && tree !in TreesOf(a) &&
    Ids(shape) !! NodesOf(b) && Ids(shape) !! NodesOf(m) && Ids(shape) !! NodesOf(a) &&
    ApartKids(b) && ApartKids(m) && ApartKids(a) &&
    TreesOf(b) !! TreesOf(m) && TreesOf(b) !! TreesOf(a) && TreesOf(m) !! TreesOf(a) &&
    NodesOf(b) !! NodesOf(m) && NodesOf(b) !! NodesOf(a) && NodesOf(m) !! NodesOf(a)
  }

  ghost function Whole(tree: Tree, shape: RbShape, b: seq<Nest>, m: seq<Nest>, a: seq<Nest>): Nest {
    Nest(tree, shape, b + m + a)
  }

  lemma {:induction false} WholeParts(tree: Tree, shape: RbShape, b: seq<Nest>, m: seq<Nest>, a: seq<Nest>)
    ensures Apart(Whole(tree, shape, b, m, a)) <==> Clear(tree, shape, b, m, a)
    ensures Trees(Whole(tree, shape, b, m, a)) == {tree} + TreesOf(b) + TreesOf(m) + TreesOf(a)
    ensures Nodes(Whole(tree, shape, b, m, a)) == Ids(shape) + NodesOf(b) + NodesOf(m) + NodesOf(a)
  {
    KidsConcat(b + m, a);
    KidsConcat(b, m);
    ApartConcat(b + m, a);
    ApartConcat(b, m);
  }

  lemma {:induction false} KidsAtOne(kid: Nest)
    ensures TreesOf([kid]) == Trees(kid) && NodesOf([kid]) == Nodes(kid) && ApartKids([kid]) == Apart(kid)
  {
    assert [kid][1..] == [];
  }

  /** Another subtree in the same place, whose objects are foreign to the rest of the nest. */
  lemma {:induction false} ExchangeKid(tree: Tree, shape: RbShape, b: seq<Nest>, m: seq<Nest>, kid: Nest, a: seq<Nest>,
                                       ts: set<Tree>, ns: set<Node>)
    requires Apart(Whole(tree, shape, b, m, a)) && Apart(kid)
    requires Trees(Whole(tree, shape, b, m, a)) !! ts && Nodes(Whole(tree, shape, b, m, a)) !! ns
    requires Trees(kid) !! TreesBut(tree, b, a) + ts && Nodes(kid) !! NodesBut(shape, b, a) + ns
    ensures Apart(Whole(tree, shape, b, [kid], a))
    ensures Trees(Whole(tree, shape, b, [kid], a)) !! ts && Nodes(Whole(tree, shape, b, [kid], a)) !! ns
  {
    KidsAtOne(kid);
    WholeParts(tree, shape, b, m, a);
    WholeParts(tree, shape, b, [kid], a);
  }

  ghost function TreesBut(tree: Tree, b: seq<Nest>, a: seq<Nest>): set<Tree> {
    {tree} + TreesOf(b) + TreesOf(a)
  }

  ghost function NodesBut(shape: RbShape, b: seq<Nest>, a: seq<Nest>): set<Node> {
    Ids(shape) + NodesOf(b) + NodesOf(a)
  }

  /** The outer tree with one more object. */
  lemma {:induction false} ExchangeShape(tree: Tree, shape: RbShape, shape': RbShape, b: seq<Nest>, m: seq<Nest>,
                                         a: seq<Nest>, nn: set<Node>, ts: set<Tree>, ns: set<Node>)
    requires Apart(Whole(tree, shape, b, m, a)) && Ids(shape') <= Ids(shape) + nn
    requires Trees(Whole(tree, shape, b, m, a)) !! ts && Nodes(Whole(tree, shape, b, m, a)) !! ns
    requires nn !! Nodes(Whole(tree, shape, b, m, a)) && nn !! ns
    ensures Apart(Whole(tree, shape', b, m, a))
    ensures Trees(Whole(tree, shape', b, m, a)) !! ts && Nodes(Whole(tree, shape', b, m, a)) !! ns
  {
    WholeParts(tree, shape, b, m, a);
    WholeParts(tree, shape', b, m, a);
  }

  /** What frames the rest while the subtree changes. */
  lemma {:induction false} RestClear(tree: Tree, shape: RbShape, b: seq<Nest>, kid: Nest, a: seq<Nest>)
    requires Apart(Whole(tree, shape, b, [kid], a))
    ensures tree !in Trees(kid) && Ids(shape) !! Nodes(kid) && TreesOf(b + a) !! Trees(kid)
            && NodesOf(b + a) !! Nodes(kid)
    ensures tree !in TreesOf(b + a) && Ids(shape) !! NodesOf(b + a) && Apart(kid)
    ensures Trees(kid) !! TreesBut(tree, b, a) && Nodes(kid) !! NodesBut(shape, b, a)
    ensures Trees(kid) <= Trees(Whole(tree, shape, b, [kid], a)) && Nodes(kid) <= Nodes(Whole(tree, shape, b, [kid], a))
  {
    KidsAtOne(kid);
    WholeParts(tree, shape, b, [kid], a);
    KidsConcat(b, a);
  }

  /** The nest rebuilt around a changed subtree. */
  lemma {:induction false} CloseRep(n': Nest, p: seq<RbEntry>, b: seq<Nest>, e: RbEntry, kid: Nest, s: seq<RbEntry>,
                                    a: seq<Nest>, k: nat)
    requires k >= 1 && n'.tree.shape == n'.shape && Valid(n'.tree)
    requires n'.kids == b + [kid] + a && Entries(n'.shape) == p + [e] + s && e.data == Sub(kid.tree)
    requires RepKids(p, b, k) && RepKids(s, a, k)
    requires Rep(kid, k) && kid.shape.Nd? && AutoFree(kid.tree.flags)
    ensures Rep(n', k + 1)
  {
    assert RepKids([e], [kid], k) by { assert [e][1..] == [] && [kid][1..] == []; }
    RepConcat(p + [e], b + [kid], s, a, k);
    RepConcat(p, b, [e], [kid], k);
  }

  lemma {:induction false} CloseFlat(n': Nest, p: seq<RbEntry>, b: seq<Nest>, e: RbEntry, kid: Nest, s: seq<RbEntry>,
                                     a: seq<Nest>, k: nat)
    requires n'.kids == b + [kid] + a && Entries(n'.shape) == p + [e] + s && |p| == |b| && k >= 1
    ensures Flat(n', k + 1) == FlatKids(p, b, k) + Prefix(e.key, Flat(kid, k)) + FlatKids(s, a, k)
  {
    OneKid(e, kid, k);
    FlatConcat(p + [e], b + [kid], s, a, k);
    FlatConcat(p, b, [e], [kid], k);
  }

  lemma {:induction false} OneKid(e: RbEntry, kid: Nest, k: nat)
    ensures FlatKids([e], [kid], k) == Prefix(e.key, Flat(kid, k))
  {
    assert [e][1..] == [] && [kid][1..] == [];
  }

  /** The same change, one level up: all keys get the first part `x`. */
  lemma {:induction false} LiftChange(left: seq<Item>, right: seq<Item>, x: uint32, old': seq<Item>, new': seq<Item>,
                                      c: Change, key: seq<uint32>, v: seq<Item>) returns (d: Change)
    requires Changes(old', new', c, key, v)
    ensures Changes(left + Prefix(x, old') + right, left + Prefix(x, new') + right, d, [x] + key, Prefix(x, v))
    ensures OldValue(d) == OldValue(c) && |d.m| == |c.m|
  {
    PrefixAt(x, c.m);
    PrefixConcat(x, c.p + c.m, c.s);
    PrefixConcat(x, c.p, c.m);
    PrefixConcat(x, c.p + v, c.s);
    PrefixConcat(x, c.p, v);
    if c.m != [] { PrefixOne(x, c.m[0]); }
    d := Change(left + Prefix(x, c.p), Prefix(x, c.m), Prefix(x, c.s) + right);
    Sandwich(left, Prefix(x, c.p), Prefix(x, c.m), Prefix(x, c.s), right);
    Sandwich(left, Prefix(x, c.p), Prefix(x, v), Prefix(x, c.s), right);
  }

  lemma {:induction false} PrefixOne(x: uint32, e: Item)
    ensures Prefix(x, [e]) == [Item([x] + e.key, e.value)]
  {
    assert [e][1..] == [];
  }

  lemma Sandwich<T>(l: seq<T>, p: seq<T>, m: seq<T>, s: seq<T>, r: seq<T>)
    ensures l + (p + m + s) + r == (l + p) + m + (s + r)
  {
  }

  /** The descent in the outer tree, which leaves all subtrees as they are. */
  method DescendOuter(tree: Tree, x: uint32, ghost em: seq<RbEntry>, ghost m: seq<Nest>, ghost re: seq<RbEntry>,
                      ghost rk: seq<Nest>, ghost k: nat)
    returns (spot: Node?, found: bool, left: bool, previous: Value, ghost ctx: RbCtx, ghost t: RbShape)
    requires Rest(tree, re, rk, k) && RepKids(em, m, k)
    ensures Rest(tree, re, rk, k) && RepKids(em, m, k) && unchanged(tree)
    ensures Spot(tree.shape, spot, found, left, ctx, t, x) && previous == Get(Contents(tree), x)
  {
    assert allocated(TreesOf(m)) && allocated(NodesOf(m)) && allocated(TreesOf(rk)) && allocated(NodesOf(rk));
    spot, found, left, previous, ctx, t := Descend(tree, x);
  }

  /** Insert under a key sequence: the entry at `key`, if any, gives way to the caller's function of its value, and
      nothing else in the flat table changes. The result is a nest again, and still shares no object with any given
      foreign trees `ts` and nodes `ns`. */
  method InsertArray(tree: Tree, key: seq<uint32>, callback: Value -> Value, ghost n: Nest, ghost ts: set<Tree>,
                     ghost ns: set<Node>)
    returns (ghost n': Nest, ghost c: Change)
    requires key != [] && n.tree == tree && Rep(n, |key|) && Apart(n) && Trees(n) !! ts && Nodes(n) !! ns
    modifies Trees(n), Nodes(n)
    ensures n'.tree == tree && Rep(n', |key|) && Apart(n') && n'.shape.Nd? && tree.flags == old(tree.flags)
    ensures Trees(n') !! ts && Nodes(n') !! ns
    ensures Changes(Flat(n, |key|), Flat(n', |key|), c, key, [Item(key, callback(OldValue(c)))])
    decreases |key|, 1
  {
    assert key == [key[0]] + key[1..];
    if |key| == 1 {
      assert key == [key[0]];
      n', c := InsertLast(tree, key[0], callback, n, ts, ns);
    } else {
      n', c := InsertDeep(tree, key[0], key[1..], callback, n, ts, ns);
    }
  }

  method InsertSub(sub: Tree, key: seq<uint32>, callback: Value -> Value, ghost kid: Nest,
                   ghost tree: Tree, ghost re: seq<RbEntry>, ghost rk: seq<Nest>, ghost ts: set<Tree>,
                           ghost ns: set<Node>)
    returns (ghost kid': Nest, ghost c: Change)
    requires key != [] && kid.tree == sub && Rep(kid, |key|) && Apart(kid) && AutoFree(sub.flags)
    requires Rest(tree, re, rk, |key|) && Trees(kid) !! ts && Nodes(kid) !! ns
    requires tree !in Trees(kid) && Ids(tree.shape) !! Nodes(kid) && TreesOf(rk) !! Trees(kid)
             && NodesOf(rk) !! Nodes(kid)
    modifies Trees(kid), Nodes(kid)
    ensures kid'.tree == sub && Rep(kid', |key|) && Apart(kid') && kid'.shape.Nd? && AutoFree(sub.flags)
    ensures Trees(kid') !! ts && Nodes(kid') !! ns
    ensures Changes(Flat(kid, |key|), Flat(kid', |key|), c, key, [Item(key, callback(OldValue(c)))])
    ensures Rest(tree, re, rk, |key|) && unchanged(tree)
    decreases |key|, 2
  {
    assert allocated(Ids(tree.shape)) && allocated(TreesOf(rk)) && allocated(NodesOf(rk));
    kid', c := InsertArray(sub, key, callback, kid, ts, ns);
  }

  /** Store the subtree under the first part of the key (rbtree.c:866, 780-819). */
  method Graft(tree: Tree, spot: Node?, found: bool, left: bool, x: uint32, sub: Tree, ghost ctx: RbCtx,
               ghost t: RbShape,
               ghost kid: Nest, ghost re: seq<RbEntry>, ghost rk: seq<Nest>, ghost k: nat)
    returns (ghost node: Node)
    requires Rest(tree, re, rk, k) && Spot(tree.shape, spot, found, left, ctx, t, x)
    requires kid.tree == sub && Rep(kid, k)
    requires tree !in Trees(kid) && Ids(tree.shape) !! Nodes(kid) && tree !in TreesOf(rk)
             && Ids(tree.shape) !! NodesOf(rk)
    modifies tree, Ids(tree.shape)
    ensures Rest(tree, re, rk, k) && Rep(kid, k) && tree.flags == old(tree.flags) && sub.flags == old(sub.flags)
    ensures Contents(tree) == Stored(old(Contents(tree)), node, x, Sub(sub))
    ensures if found then node == spot else fresh(node)
  {
    assert allocated(Trees(kid)) && allocated(Nodes(kid)) && allocated(TreesOf(rk)) && allocated(NodesOf(rk));
    assert sub in Trees(kid);
    node := Place(tree, spot, found, left, x, Sub(sub), ctx, t);
  }

  ghost function Others(es: seq<RbEntry>, x: uint32): seq<RbEntry> {
    Tables.Below(es, x) + Tables.Above(es, x)
  }

  /** The nests below, at and above the first key part `x`. */
  ghost predicate SplitAs(n: Nest, x: uint32, b: seq<Nest>, m: seq<Nest>, a: seq<Nest>) {
    Sorted(Entries(n.shape)) && |Entries(n.shape)| == |n.kids| &&
    b == KidsBelow(Entries(n.shape), n.kids, x) && m == KidsAt(Entries(n.shape), n.kids, x) &&
    a == KidsAbove(Entries(n.shape), n.kids, x)
  }

  lemma {:induction false} OpenNest(n: Nest, x: uint32, b: seq<Nest>, m: seq<Nest>, a: seq<Nest>, k: nat)
    requires SplitAs(n, x, b, m, a) && RepKids(Entries(n.shape), n.kids, k)
    ensures RepKids(At(Entries(n.shape), x), m, k) && RepKids(Others(Entries(n.shape), x), b + a, k)
    ensures n == Whole(n.tree, n.shape, b, m, a) && |b| == |Tables.Below(Entries(n.shape), x)|
  {
    var es := Entries(n.shape);
    SplitRep(es, n.kids, x, k);
    SplitKids(es, n.kids, x);
    RepConcat(Tables.Below(es, x), b, Tables.Above(es, x), a, k);
  }

  /** Down to the subtree: where the first part of the key goes in the outer tree, and the subtree itself. */
  method Enter(tree: Tree, x: uint32, ghost m: seq<Nest>, ghost re: seq<RbEntry>, ghost rk: seq<Nest>, ghost k: nat)
    returns (spot: Node?, found: bool, left: bool, sub: Tree, ghost ctx: RbCtx, ghost t: RbShape, ghost kid: Nest)
    requires k >= 1 && Rest(tree, re, rk, k) && RepKids(At(Contents(tree), x), m, k) && ApartKids(m)
    ensures Rest(tree, re, rk, k) && Spot(tree.shape, spot, found, left, ctx, t, x) && unchanged(tree)
    ensures kid.tree == sub && Rep(kid, k) && Apart(kid) && AutoFree(sub.flags)
    ensures if At(Contents(tree), x) == [] then fresh(sub) && kid == Nest(sub, Leaf, []) && Flat(kid, k) == []
            else m == [kid]
  {
    var previous;
    spot, found, left, previous, ctx, t := DescendOuter(tree, x, At(Contents(tree), x), m, re, rk, k);
    sub, kid := OpenSubtree(previous, Contents(tree), m, x, k, tree, re, rk);
  }

  /** Enter, with what the subtree has to do with its surroundings. */
  method EnterApart(tree: Tree, x: uint32, ghost b: seq<Nest>, ghost m: seq<Nest>, ghost a: seq<Nest>, ghost k: nat,
                    ghost ts: set<Tree>, ghost ns: set<Node>)
    returns (spot: Node?, found: bool, left: bool, sub: Tree, ghost ctx: RbCtx, ghost t: RbShape, ghost kid: Nest)
    requires k >= 1 && Rest(tree, Others(Contents(tree), x), b + a, k)
    requires RepKids(At(Contents(tree), x), m, k) && Apart(Whole(tree, tree.shape, b, m, a))
    requires Trees(Whole(tree, tree.shape, b, m, a)) !! ts && Nodes(Whole(tree, tree.shape, b, m, a)) !! ns
    ensures Rest(tree, Others(Contents(tree), x), b + a, k) && Spot(tree.shape, spot, found, left, ctx, t, x)
            && unchanged(tree)
    ensures kid.tree == sub && Rep(kid, k) && AutoFree(sub.flags) && Apart(Whole(tree, tree.shape, b, [kid], a))
    ensures Trees(Whole(tree, tree.shape, b, [kid], a)) !! ts && Nodes(Whole(tree, tree.shape, b, [kid], a)) !! ns
    ensures if At(Contents(tree), x) == [] then Flat(kid, k) == [] && fresh(Trees(kid)) && Nodes(kid) == {}
            else m == [kid]
  {
    ghost var but := TreesBut(tree, b, a);
    assert allocated(but);
    WholeParts(tree, tree.shape, b, m, a);
    spot, found, left, sub, ctx, t, kid := Enter(tree, x, m, Others(Contents(tree), x), b + a, k);
    KidsAtOne(kid);
    if At(Contents(tree), x) == [] {
      assert Trees(kid) == {sub} && Nodes(kid) == {} && sub !in but && sub !in ts;
    }
    ExchangeKid(tree, tree.shape, b, m, kid, a, ts, ns);
  }

  /** The subtree is changed; the outer tree waits. */
  method ChangeSub(tree: Tree, sub: Tree, rest: seq<uint32>, callback: Value -> Value,
                   ghost re: seq<RbEntry>, ghost b: seq<Nest>, ghost kid: Nest, ghost a: seq<Nest>,
                           ghost ts: set<Tree>, ghost ns: set<Node>)
    returns (ghost kid': Nest, ghost ck: Change)
    requires |rest| >= 1 && Rest(tree, re, b + a, |rest|)
    requires kid.tree == sub && Rep(kid, |rest|) && AutoFree(sub.flags) && Apart(Whole(tree, tree.shape, b, [kid], a))
    requires Trees(Whole(tree, tree.shape, b, [kid], a)) !! ts && Nodes(Whole(tree, tree.shape, b, [kid], a)) !! ns
    modifies Trees(kid), Nodes(kid)
    ensures Rest(tree, re, b + a, |rest|) && unchanged(tree)
    ensures kid'.tree == sub && Rep(kid', |rest|) && kid'.shape.Nd? && AutoFree(sub.flags)
            && Apart(Whole(tree, tree.shape, b, [kid'], a))
    ensures Trees(Whole(tree, tree.shape, b, [kid'], a)) !! ts && Nodes(Whole(tree, tree.shape, b, [kid'], a)) !! ns
    ensures Changes(Flat(kid, |rest|), Flat(kid', |rest|), ck, rest, [Item(rest, callback(OldValue(ck)))])
    decreases |rest|, 3
  {
    RestClear(tree, tree.shape, b, kid, a);
    kid', ck := InsertSub(sub, rest, callback, kid, tree, re, b + a, TreesBut(tree, b, a) + ts,
                          NodesBut(tree.shape, b, a) + ns);
    ExchangeKid(tree, tree.shape, b, [kid], kid', a, ts, ns);
  }

  /** Back in the outer tree: the subtree is stored, and the whole is a nest again. */
  method Leave(tree: Tree, spot: Node?, found: bool, left: bool, x: uint32, sub: Tree, ghost ctx: RbCtx,
               ghost t: RbShape,
               ghost b: seq<Nest>, ghost kid: Nest, ghost a: seq<Nest>, ghost k: nat)
    returns (ghost n': Nest, ghost node: Node)
    requires k >= 1 && |b| == |Tables.Below(Contents(tree), x)|
    requires Rest(tree, Others(Contents(tree), x), b + a, k) && Spot(tree.shape, spot, found, left, ctx, t, x)
    requires kid.tree == sub && Rep(kid, k) && kid.shape.Nd? && AutoFree(sub.flags)
    requires Apart(Whole(tree, tree.shape, b, [kid], a))
    modifies tree, Ids(tree.shape)
    ensures n' == Whole(tree, tree.shape, b, [kid], a) && Rep(n', k + 1) && tree.flags == old(tree.flags)
    ensures Contents(tree) == Stored(old(Contents(tree)), node, x, Sub(sub))
    ensures if found then node == spot else fresh(node)
  {
    ghost var es := Contents(tree);
    RestClear(tree, tree.shape, b, kid, a);
    node := Graft(tree, spot, found, left, x, sub, ctx, t, kid, Others(es, x), b + a, k);
    n' := Whole(tree, tree.shape, b, [kid], a);
    RepConcat(Tables.Below(es, x), b, Tables.Above(es, x), a, k);
    CloseRep(n', Tables.Below(es, x), b, Entry(node, x, Sub(sub)), kid, Tables.Above(es, x), a, k);
  }

  /** The objects of the outer tree after storing at the spot. */
  lemma {:induction false} SpotIds(shape: RbShape, shape': RbShape, spot: Node?, found: bool, left: bool, ctx: RbCtx,
                                   t: RbShape, x: uint32, node: Node, v: Value)
    requires Sorted(Entries(shape)) && Entries(shape') == Stored(Entries(shape), node, x, v)
    requires Spot(shape, spot, found, left, ctx, t, x) && (found ==> node == spot)
    ensures shape'.Nd? && Ids(shape') <= Ids(shape) + (if found then {} else {node})
  {
    StoredIds(shape, shape', x, node, v);
    PlugIds(ctx, t);
  }

  /** The flat tables before and after an insert below `x`. */
  lemma {:induction false} DeepChange(n: Nest, n': Nest, x: uint32, b: seq<Nest>, m: seq<Nest>, a: seq<Nest>,
                                      kid: Nest, kid': Nest,
                                      node: Node, k: nat, ck: Change, key: seq<uint32>, v: Value) returns (c: Change)
    requires k >= 1 && SplitAs(n, x, b, m, a) && n'.kids == b + [kid'] + a
    requires Entries(n'.shape) == Stored(Entries(n.shape), node, x, Sub(kid'.tree))
    requires if At(Entries(n.shape), x) == [] then Flat(kid, k) == [] else m == [kid]
    requires Changes(Flat(kid, k), Flat(kid', k), ck, key, [Item(key, v)])
    ensures Changes(Flat(n, k + 1), Flat(n', k + 1), c, [x] + key, [Item([x] + key, v)]) && OldValue(c) == OldValue(ck)
  {
    var es := Entries(n.shape);
    var l, r := FlatKids(Tables.Below(es, x), b, k), FlatKids(Tables.Above(es, x), a, k);
    SplitFlat(es, n.kids, x, k);
    SplitKids(es, n.kids, x);
    SplitSorted(es, x);
    assert FlatKids(At(es, x), m, k) == Prefix(x, Flat(kid, k)) by {
      if m != [] { OneKid(At(es, x)[0], kid, k); }
    }
    CloseFlat(n', Tables.Below(es, x), b, Entry(node, x, Sub(kid'.tree)), kid', Tables.Above(es, x), a, k);
    PrefixOne(x, Item(key, v));
    c := LiftChange(l, r, x, Flat(kid, k), Flat(kid', k), ck, key, [Item(key, v)]);
  }

  /** Leave, with what the nest's objects are. */
  method LeaveApart(tree: Tree, spot: Node?, found: bool, left: bool, x: uint32, sub: Tree, ghost ctx: RbCtx,
                    ghost t: RbShape,
                    ghost b: seq<Nest>, ghost kid: Nest, ghost a: seq<Nest>, ghost k: nat, ghost ts: set<Tree>,
                            ghost ns: set<Node>)
    returns (ghost n': Nest, ghost node: Node)
    requires k >= 1 && |b| == |Tables.Below(Contents(tree), x)|
    requires Rest(tree, Others(Contents(tree), x), b + a, k) && Spot(tree.shape, spot, found, left, ctx, t, x)
    requires kid.tree == sub && Rep(kid, k) && kid.shape.Nd? && AutoFree(sub.flags)
    requires Apart(Whole(tree, tree.shape, b, [kid], a))
    requires Trees(Whole(tree, tree.shape, b, [kid], a)) !! ts && Nodes(Whole(tree, tree.shape, b, [kid], a)) !! ns
    modifies tree, Ids(tree.shape)
    ensures n' == Whole(tree, tree.shape, b, [kid], a) && Rep(n', k + 1) && tree.flags == old(tree.flags)
    ensures Contents(tree) == Stored(old(Contents(tree)), node, x, Sub(sub)) && Apart(n') && n'.shape.Nd?
    ensures Trees(n') !! ts && Nodes(n') !! ns
  {
    ghost var shape, own := tree.shape, Nodes(Whole(tree, tree.shape, b, [kid], a));
    assert allocated(own);
    n', node := Leave(tree, spot, found, left, x, sub, ctx, t, b, kid, a, k);
    SpotIds(shape, n'.shape, spot, found, left, ctx, t, x, node, Sub(sub));
    ghost var nn := if found then {} else {node};
    assert nn !! own && nn !! ns;
    ExchangeShape(tree, shape, n'.shape, b, [kid], a, nn, ts, ns);
  }

  method InsertDeep(tree: Tree, x: uint32, rest: seq<uint32>, callback: Value -> Value, ghost n: Nest,
                    ghost ts: set<Tree>, ghost ns: set<Node>)
    returns (ghost n': Nest, ghost c: Change)
    requires |rest| >= 1 && n.tree == tree && Rep(n, |rest| + 1) && Apart(n) && Trees(n) !! ts && Nodes(n) !! ns
    modifies Trees(n), Nodes(n)
    ensures n'.tree == tree && Rep(n', |rest| + 1) && Apart(n') && n'.shape.Nd? && tree.flags == old(tree.flags)
    ensures Trees(n') !! ts && Nodes(n') !! ns
    ensures Changes(Flat(n, |rest| + 1), Flat(n', |rest| + 1), c, [x] + rest, [Item([x] + rest, callback(OldValue(c)))])
    decreases |rest| + 1, 0
  {
    ghost var es := Contents(tree);
    ghost var b, m, a := KidsBelow(es, n.kids, x), KidsAt(es, n.kids, x), KidsAbove(es, n.kids, x);
    var spot, found, left, sub;
    ghost var ctx, t, kid, kid', ck, node;
    OpenNest(n, x, b, m, a, |rest|);
    WholeParts(tree, n.shape, b, m, a);
    spot, found, left, sub, ctx, t, kid := EnterApart(tree, x, b, m, a, |rest|, ts, ns);
    KidsAtOne(kid);
    kid', ck := ChangeSub(tree, sub, rest, callback, Others(es, x), b, kid, a, ts, ns);
    n', node := LeaveApart(tree, spot, found, left, x, sub, ctx, t, b, kid', a, |rest|, ts, ns);
    c := DeepChange(n, n', x, b, m, a, kid, kid', node, |rest|, ck, rest, callback(OldValue(ck)));
  }
}
