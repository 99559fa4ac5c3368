/**
 The public operations of rbtree.c on one tree: create, look up, insert, insert through a
 callback, delete. Each is proved against the sorted contents of the tree.
 */
module RbTable {
  import opened Shapes
  import opened Tables
  import opened RbHeap
  import RbInsert
  import RbRemove

  const AUTOFREE: uint32 := 1

  /** The contents of a tree, in key order. */
  ghost function Contents(tree: Tree): seq<RbEntry>
    reads tree
  {
    Entries(tree.shape)
  }

  /** What every operation keeps: the objects hang together as the shape says, with consistent parent pointers; the
      shape is a red-black tree with a black root; keys increase strictly. */
  ghost predicate Valid(tree: Tree)
    reads tree, Ids(tree.shape)
  {
    Sound(tree, tree.shape, Contents(tree)) && Sorted(Contents(tree))
  }

  /** The NULL-or-data answer of a lookup. */
  ghost function Get(es: seq<RbEntry>, key: uint32): Value {
    if At(es, key) == [] then Null else At(es, key)[0].data
  }

  /** The same answer from the table as a map. */
  ghost function MapGet(m: map<uint32, Value>, key: uint32): Value {
    if key in m then m[key] else Null
  }

  lemma GetIsMapGet(es: seq<RbEntry>, key: uint32)
    requires Sorted(es)
    ensures Get(es, key) == MapGet(MapOf(es), key)
  {
    MapAt(es, key);
  }

  /** The descent for `key` has reached `t`: everything outside is strictly on the right side. */
  ghost predicate Search(tree: Tree, ctx: RbCtx, t: RbShape, key: uint32)
    reads tree, CtxIds(ctx), Ids(t)
  {
    Zip(tree, ctx, t) && Plug(ctx, t) == tree.shape && Sorted(Entries(tree.shape)) &&
    AllBelow(Before(ctx), key) && AllAbove(After(ctx), key)
  }

  lemma {:induction false} SearchBounds(ctx: RbCtx, t: RbShape)
    requires t.Nd? && Sorted(Entries(Plug(ctx, t)))
    ensures AllBelow(Entries(t.left), t.e.key) && AllAbove(Entries(t.right), t.e.key)
  {
    PlugEntries(ctx, t);
    AllParts(ctx, t);
    SortedMiddle(Before(ctx), Entries(t.left), t.e, Entries(t.right), After(ctx));
  }

  lemma {:induction false} SearchStep(tree: Tree, ctx: RbCtx, t: RbShape, key: uint32)
    requires t.Nd? && Search(tree, ctx, t, key)
    ensures key < t.e.key ==> Search(tree, In(ctx, true, t.color, t.e, t.right), t.left, key)
    ensures key > t.e.key ==> Search(tree, In(ctx, false, t.color, t.e, t.left), t.right, key)
  {
    SearchBounds(ctx, t);
    ZipDown(tree, ctx, t);
  }

  /** The position (ctx, t) splits the contents at `key`. */
  ghost predicate Lands(es: seq<RbEntry>, ctx: RbCtx, t: RbShape, key: uint32) {
    if t.Leaf? then At(es, key) == [] && Tables.Below(es, key) == Before(ctx) && Tables.Above(es, key) == After(ctx)
    else At(es, key) == [t.e] && Tables.Below(es, key) == LeftPart(ctx, t) && Tables.Above(es, key) == RightPart(ctx, t)
  }

  /** Where the search ends determines the three parts of the contents. */
  lemma {:induction false} SearchEnd(tree: Tree, ctx: RbCtx, t: RbShape, key: uint32)
    requires Search(tree, ctx, t, key) && (t.Nd? ==> t.e.key == key)
    ensures Lands(Entries(tree.shape), ctx, t, key)
  {
    PlugEntries(ctx, t);
    if t.Leaf? {
      SplitUnique(Before(ctx), [], After(ctx), key);
    } else {
      SearchBounds(ctx, t);
      AllParts(ctx, t);
      SplitUnique(LeftPart(ctx, t), [t.e], RightPart(ctx, t), key);
    }
  }

  method Lookup(tree: Tree, key: uint32) returns (data: Value, ghost steps: nat)
    requires Valid(tree)
    ensures data == Get(Contents(tree), key) == MapGet(MapOf(Contents(tree)), key)
    ensures Pow2(steps) <= (|Contents(tree)| + 1) * (|Contents(tree)| + 1)
  {
    GetIsMapGet(Contents(tree), key);
    hide MapOf, MapGet;
    var node := tree.root;
    ghost var ctx, t := Top, tree.shape;
    steps := 0;
    while node != null
      invariant Search(tree, ctx, t, key) && node == RootOf(t) && steps == Depth(ctx)
      decreases t
    {
      SearchStep(tree, ctx, t, key);
      if key == node.key {
        SearchEnd(tree, ctx, t, key);
        DepthHeight(ctx, t);
        StepBound(tree.shape, steps);
        return node.data, steps;
      }
      if key < node.key {
        ctx, t := In(ctx, true, t.color, t.e, t.right), t.left;
        node := node.left;
      } else {
        ctx, t := In(ctx, false, t.color, t.e, t.left), t.right;
        node := node.right;
      }
      steps := steps + 1;
    }
    SearchEnd(tree, ctx, t, key);
    DepthHeight(ctx, t);
    StepBound(tree.shape, steps);
    return Null, steps;
  }

  lemma {:induction false} StepBound(t: RbShape, steps: nat)
    requires RedBlack(t) && steps <= Height(t)
    ensures Pow2(steps) <= (|Entries(t)| + 1) * (|Entries(t)| + 1)
  {
    HeightBound(t);
    Pow2Mono(steps, Height(t));
  }

  // ---------- insert (rbtree.c:601-705, 758-821) ----------

  ghost function Single(node: Node, c: Color, key: uint32, data: Value): RbShape {
    Nd(Leaf, c, Entry(node, key, data), Leaf)
  }

  /** Create a red node in the empty place below `parent` (rbtree.c:671-677, 702). */
  method Hang(tree: Tree, parent: Node, left: bool, key: uint32, data: Value, ghost ctx: RbCtx)
    returns (node: Node)
    requires ctx.In? && ctx.e.id == parent && ctx.onLeft == left
    requires Zip(tree, ctx, Leaf)
    modifies parent
    ensures Zip(tree, ctx, Single(node, Red, key, data)) && fresh(node)
  {
    assert allocated(CtxIds(ctx));
    node := new Node(tree, parent, key, data);
    assert Zip(tree, ctx, Leaf) && node !in CtxIds(ctx);
    if left {
      parent.left := node;
    } else {
      parent.right := node;
    }
    node.color := Red;
    assert Ids(Single(node, Red, key, data)) == {node};
  }

  /** Create a node below `parent` and restore the balance. */
  method Attach(tree: Tree, parent: Node, left: bool, key: uint32, data: Value, ghost ctx: RbCtx)
    returns (node: Node, ghost w: RbShape)
    requires ctx.In? && ctx.e.id == parent && ctx.onLeft == left && RedBlack(Plug(ctx, Leaf))
    requires Zip(tree, ctx, Leaf)
    modifies tree`root, CtxIds(ctx)
    ensures Sound(tree, w, Before(ctx) + [Entry(node, key, data)] + After(ctx)) && fresh(node)
  {
    ghost var H: nat :| RB(Plug(ctx, Leaf), H);
    ghost var h := UnplugRedBlack(ctx, Leaf, H);
    node := Hang(tree, parent, left, key, data, ctx);
    ghost var t := Single(node, Red, key, data);
    assert Entries(t) == [Entry(node, key, data)];
    w := RbInsert.InsertCase1(tree, node, ctx, t, h);
  }

  /** Replace the data of the node found (rbtree.c:656-667). */
  method Overwrite(tree: Tree, node: Node, data: Value, ghost ctx: RbCtx, ghost t: RbShape)
    returns (ghost w: RbShape)
    requires t.Nd? && t.e.id == node && Zip(tree, ctx, t) && RedBlack(Plug(ctx, t))
    modifies node`data
    ensures Sound(tree, w, LeftPart(ctx, t) + [Entry(node, t.e.key, data)] + RightPart(ctx, t))
  {
    node.data := data;
    ghost var t' := t.(e := Entry(node, t.e.key, data));
    assert Zip(tree, ctx, t');
    ghost var H: nat :| RB(Plug(ctx, t), H);
    ghost var h := UnplugRedBlack(ctx, t, H);
    Close(tree, ctx, t', h);
    AllParts(ctx, t');
    w := Plug(ctx, t');
  }

  /** Where an insert has to act: at the node that has the key, at the empty place below a node, or at the root of an
      empty tree. */
  ghost predicate Spot(shape: RbShape, node: Node?, found: bool, left: bool, ctx: RbCtx, t: RbShape, key: uint32) {
    Plug(ctx, t) == shape && Lands(Entries(shape), ctx, t, key) &&
    if found then t.Nd? && t.e.id == node && t.e.key == key
    else t.Leaf? && Hub(ctx) == node && (ctx.In? ==> ctx.onLeft == left)
  }

  /** The descent of an insert. */
  method Descend(tree: Tree, key: uint32)
    returns (node: Node?, found: bool, left: bool, previous: Value, ghost ctx: RbCtx, ghost t: RbShape)
    requires Valid(tree)
    ensures Valid(tree) && Spot(tree.shape, node, found, left, ctx, t, key) && previous == Get(Contents(tree), key)
    ensures var at := At(Contents(tree), key);
            if found then at != [] && at[0].id == node && at[0].data == previous else at == []
  {
    found, left, previous := false, false, Null;
    node := tree.root;
    ctx, t := Top, tree.shape;
    if node == null {
      SearchEnd(tree, ctx, t, key);
      return;
    }
    while true
      invariant Valid(tree) && Search(tree, ctx, t, key) && t.Nd? && t.e.id == node && !found && previous == Null
      decreases t
    {
      SearchStep(tree, ctx, t, key);
      if key == node.key {
        found, previous := true, node.data;
        break;
      }
      if key < node.key {
        ctx, t, left := In(ctx, true, t.color, t.e, t.right), t.left, true;
        if node.left == null {
          break;
        }
        node := node.left;
      } else {
        ctx, t, left := In(ctx, false, t.color, t.e, t.left), t.right, false;
        if node.right == null {
          break;
        }
        node := node.right;
      }
    }
    SearchEnd(tree, ctx, t, key);
  }

  /** The first node of a tree is its black root (rbtree.c:642-647). */
  method PlantRoot(tree: Tree, key: uint32, data: Value) returns (node: Node, ghost w: RbShape)
    requires tree.root == null
    modifies tree`root
    ensures Sound(tree, w, [Entry(node, key, data)]) && fresh(node)
  {
    node := new Node(tree, null, key, data);
    tree.root := node;
    w := Single(node, Black, key, data);
    assert RB(w, 1);
  }

  /** The contents after storing `data` at `key` in the object `node`. */
  ghost function Stored(es: seq<RbEntry>, node: Node, key: uint32, data: Value): seq<RbEntry> {
    Tables.Below(es, key) + [Entry(node, key, data)] + Tables.Above(es, key)
  }

  lemma {:induction false} StoredSorted(es: seq<RbEntry>, node: Node, key: uint32, data: Value)
    requires Sorted(es)
    ensures Sorted(Stored(es, node, key, data))
  {
    SplitSorted(es, key);
    SortedDrop(Tables.Below(es, key), At(es, key), Tables.Above(es, key));
    SortedPut(Tables.Below(es, key), Entry(node, key, data), Tables.Above(es, key));
  }

  /** The contents with one entry put at the position (ctx, t). */
  ghost function PutAt(ctx: RbCtx, t: RbShape, e: RbEntry): seq<RbEntry> {
    if t.Leaf? then Before(ctx) + [e] + After(ctx) else LeftPart(ctx, t) + [e] + RightPart(ctx, t)
  }

  /** The heap work of storing `data` at the spot found. */
  method Write(tree: Tree, spot: Node?, found: bool, left: bool, key: uint32, data: Value, ghost ctx: RbCtx,
               ghost t: RbShape)
    returns (ghost node: Node, ghost w: RbShape)
    requires Zip(tree, ctx, t) && RedBlack(Plug(ctx, t))
    requires if found then t.Nd? && t.e.id == spot && t.e.key == key
             else t.Leaf? && Hub(ctx) == spot && (ctx.In? ==> ctx.onLeft == left)
    modifies tree`root, CtxIds(ctx), Ids(t)
    ensures Sound(tree, w, PutAt(ctx, t, Entry(node, key, data)))
    ensures if found then node == spot else fresh(node)
  {
    if found {
      w := Overwrite(tree, spot, data, ctx, t);
      node := spot;
    } else if spot == null {
      node, w := PlantRoot(tree, key, data);
      assert PutAt(ctx, t, Entry(node, key, data)) == [Entry(node, key, data)];
    } else {
      node, w := Attach(tree, spot, left, key, data, ctx);
    }
  }

  /** Store `data` at the spot found. */
  method Place(tree: Tree, spot: Node?, found: bool, left: bool, key: uint32, data: Value, ghost ctx: RbCtx,
               ghost t: RbShape)
    returns (ghost node: Node)
    requires Valid(tree) && Spot(tree.shape, spot, found, left, ctx, t, key)
    modifies tree, Ids(tree.shape)
    ensures Valid(tree) && tree.flags == old(tree.flags)
    ensures Contents(tree) == Stored(old(Contents(tree)), node, key, data)
    ensures if found then node == spot else fresh(node)
  {
    ghost var w;
    PlugIds(ctx, t);
    AppendTop(ctx);
    ZipAppend(tree, ctx, Top, t);
    node, w := Write(tree, spot, found, left, key, data, ctx, t);
    StoredSorted(Contents(tree), node, key, data);
    tree.shape := w;
  }

  method Insert(tree: Tree, key: uint32, data: Value) returns (previous: Value, ghost node: Node)
    requires Valid(tree)
    modifies tree, Ids(tree.shape)
    ensures Valid(tree) && tree.flags == old(tree.flags)
    ensures previous == Get(old(Contents(tree)), key) == MapGet(MapOf(old(Contents(tree))), key)
    ensures Contents(tree) == Stored(old(Contents(tree)), node, key, data)
    ensures MapOf(Contents(tree)) == MapOf(old(Contents(tree)))[key := data]
    ensures var at := At(old(Contents(tree)), key); if at == [] then fresh(node) else node == at[0].id
  {
    var spot, found, left;
    ghost var ctx, t;
    ghost var es := Contents(tree);
    spot, found, left, previous, ctx, t := Descend(tree, key);
    node := Place(tree, spot, found, left, key, data, ctx, t);
    GetIsMapGet(es, key);
    MapStore(es, Entry(node, key, data));
  }

  /** Insert with the data computed from the old data (or NULL) by the caller's function. */
  method InsertCallback(tree: Tree, key: uint32, callback: Value -> Value) returns (ghost node: Node)
    requires Valid(tree)
    modifies tree, Ids(tree.shape)
    ensures Valid(tree) && tree.flags == old(tree.flags)
    ensures var data := callback(Get(old(Contents(tree)), key));
            Contents(tree) == Stored(old(Contents(tree)), node, key, data) &&
            MapOf(Contents(tree)) == MapOf(old(Contents(tree)))[key := data] &&
            data == callback(MapGet(MapOf(old(Contents(tree))), key))
    ensures var at := At(old(Contents(tree)), key); if at == [] then fresh(node) else node == at[0].id
  {
    var spot, found, left, previous;
    ghost var ctx, t;
    ghost var es := Contents(tree);
    spot, found, left, previous, ctx, t := Descend(tree, key);
    node := Place(tree, spot, found, left, key, callback(previous), ctx, t);
    GetIsMapGet(es, key);
    MapStore(es, Entry(node, key, callback(previous)));
  }

  // ---------- delete (rbtree.c:734-755 and the tail of delete_node) ----------

  predicate AutoFree(flags: uint32) {
    flags % 2 == AUTOFREE
  }

  /** The contents after removing `key`. */
  ghost function Removed(es: seq<RbEntry>, key: uint32): seq<RbEntry> {
    Tables.Below(es, key) + Tables.Above(es, key)
  }

  lemma {:induction false} RemovedFacts(es: seq<RbEntry>, key: uint32)
    requires Sorted(es)
    ensures Sorted(Removed(es, key)) && MapOf(Removed(es, key)) == MapOf(es) - {key}
    ensures At(es, key) == [] ==> Removed(es, key) == es
    ensures (key in MapOf(es) <==> At(es, key) != []) && (MapOf(Removed(es, key)) == map[] <==> Removed(es, key) == [])
  {
    MapAt(es, key);
    if Removed(es, key) != [] { assert Removed(es, key)[0].key in MapOf(Removed(es, key)); }
    SplitSorted(es, key);
    SortedDrop(Tables.Below(es, key), At(es, key), Tables.Above(es, key));
    MapRemove(es, key);
  }

  /** Free the node in focus: its destructor takes it out of the tree, and the tree reports whether it has to go too
      (rbtree.c:583-586). */
  method FreeNode(tree: Tree, node: Node, ghost ctx: RbCtx, ghost t: RbShape) returns (treeGone: bool)
    requires Valid(tree) && t.Nd? && t.e.id == node && Zip(tree, ctx, t) && Plug(ctx, t) == tree.shape
    modifies tree, Ids(tree.shape)
    ensures Sound(tree, tree.shape, LeftPart(ctx, t) + RightPart(ctx, t)) && tree.flags == old(tree.flags)
    ensures Ids(tree.shape) == old(Ids(tree.shape)) - {node}
    ensures treeGone <==> tree.flags % 2 == 1 && Contents(tree) == []
  {
    ghost var H: nat :| RB(tree.shape, H);
    ghost var h := UnplugRedBlack(ctx, t, H);
    PlugIds(ctx, t);
    Flatten(Before(ctx), Entries(t.left), Entries(t.right), After(ctx));
    tree.shape := RbRemove.DeleteNode(node, ctx, t, h);
    IdsWithout(ctx, t, tree.shape);
    treeGone := AutoFree(tree.flags) && tree.root == null;
  }

  lemma Flatten<T>(a: seq<T>, b: seq<T>, c: seq<T>, d: seq<T>)
    ensures a + (b + c) + d == (a + b) + (c + d)
  {
  }

  method Delete(tree: Tree, key: uint32) returns (treeGone: bool)
    requires Valid(tree)
    modifies tree, Ids(tree.shape)
    ensures Valid(tree) && tree.flags == old(tree.flags)
    ensures Contents(tree) == Removed(old(Contents(tree)), key)
    ensures MapOf(Contents(tree)) == MapOf(old(Contents(tree))) - {key}
    ensures treeGone <==> key in MapOf(old(Contents(tree))) && tree.flags % 2 == 1 && MapOf(Contents(tree)) == map[]
    ensures At(old(Contents(tree)), key) == [] ==> tree.shape == old(tree.shape)
    ensures Ids(tree.shape) <= old(Ids(tree.shape))
  {
    ghost var es := Contents(tree);
    RemovedFacts(es, key);
    var node := tree.root;
    ghost var ctx, t := Top, tree.shape;
    treeGone := false;
    while node != null
      invariant Valid(tree) && Search(tree, ctx, t, key) && node == RootOf(t) && tree.flags == old(tree.flags)
      invariant tree.shape == old(tree.shape) && !treeGone
      decreases t
    {
      SearchStep(tree, ctx, t, key);
      if key == node.key {
        SearchEnd(tree, ctx, t, key);
        treeGone := FreeNode(tree, node, ctx, t);
        return;
      }
      if key < node.key {
        ctx, t := In(ctx, true, t.color, t.e, t.right), t.left;
        node := node.left;
      } else {
        ctx, t := In(ctx, false, t.color, t.e, t.left), t.right;
        node := node.right;
      }
    }
    SearchEnd(tree, ctx, t, key);
  }
}
