/** Adding up a tree: `_talloc_total_size` and `_talloc_total_blocks` (talloc.c:984-1046). */
module Totals {
  import opened Forests
  import opened Transfers
  import opened Chunks
  import opened Releases
  import opened Talloc

  /** The walk skips whatever is below a chunk whose loop flag is set. */
  ghost function Seen(m: Measure, f: Grove): nat {
    match f
    case Nil => 0
    case Cons(_, i, k, n) => (if i.loop then 0 else Amount(m, i) + Seen(m, k)) + Seen(m, n)
  }

  lemma {:induction false} CalmSeen(m: Measure, f: Grove)
    requires Calm(f)
    ensures Seen(m, f) == Total(m, f)
  {
    if f.Cons? {
      CalmSeen(m, f.kids);
      CalmSeen(m, f.next);
    }
  }

  // ---------- what is added up ----------

  /** The chunks that the walk counts: those that are not at or below a flagged one. */
  ghost function Met<N>(f: Forest<N>): set<N> {
    match f
    case Nil => {}
    case Cons(c, i, k, n) => (if i.loop then {} else {c} + Met(k)) + Met(n)
  }

  /** The sizes of these chunks, added up in any order. */
  ghost function SizeSum<N>(f: Forest<N>, s: set<N>): nat
    requires s <= Ids(f)
    decreases |s|
  {
    if s == {} then 0 else
      var x :| x in s;
      Find(f, x).info.size + SizeSum(f, s - {x})
  }

  lemma {:induction false} SizeSumOut<N>(f: Forest<N>, s: set<N>, x: N)
    requires s <= Ids(f) && x in s
    ensures SizeSum(f, s) == Find(f, x).info.size + SizeSum(f, s - {x})
    decreases |s|
  {
    var y :| y in s && SizeSum(f, s) == Find(f, y).info.size + SizeSum(f, s - {y});
    if y != x {
      SizeSumOut(f, s - {y}, x);
      SizeSumOut(f, s - {x}, y);
      assert s - {y} - {x} == s - {x} - {y};
    }
  }

  lemma {:induction false} SizeSumJoin<N>(f: Forest<N>, a: set<N>, b: set<N>)
    requires a <= Ids(f) && b <= Ids(f) && a !! b
    ensures SizeSum(f, a + b) == SizeSum(f, a) + SizeSum(f, b)
    decreases |a|
  {
    if a == {} {
      assert a + b == b;
    } else {
      var x :| x in a;
      SizeSumOut(f, a, x);
      SizeSumOut(f, a + b, x);
      assert a + b - {x} == (a - {x}) + b;
      SizeSumJoin(f, a - {x}, b);
    }
  }

  /** The sum is the same in another forest where these chunks have the same sizes. */
  lemma {:induction false} SizeSumSame<N>(f: Forest<N>, g: Forest<N>, s: set<N>)
    requires s <= Ids(f) && s <= Ids(g) && forall x :: x in s ==> Find(g, x).info.size == Find(f, x).info.size
    ensures SizeSum(g, s) == SizeSum(f, s)
    decreases |s|
  {
    if s != {} {
      var x :| x in s;
      SizeSumOut(f, s, x);
      SizeSumOut(g, s, x);
      SizeSumSame(f, g, s - {x});
    }
  }

  lemma {:induction false} MetIds<N>(f: Forest<N>)
    ensures Met(f) <= Ids(f) && (Calm(f) ==> Met(f) == Ids(f))
  {
    if f.Cons? {
      MetIds(f.kids);
      MetIds(f.next);
    }
  }

  lemma {:induction false} SeenBlocks(f: Grove)
    requires Distinct(f)
    ensures Seen(Blocks, f) == |Met(f)|
  {
    if f.Cons? {
      MetIds(f.kids);
      MetIds(f.next);
      SeenBlocks(f.kids);
      SeenBlocks(f.next);
      var a, b := Met(f.kids), Met(f.next);
      hide Seen, Met;
      Sizes(a, b, f.c);
      CountFirst(f);
    }
  }

  lemma Sizes<N>(a: set<N>, b: set<N>, c: N)
    requires c !in a && c !in b && a !! b
    ensures |{c} + a + b| == 1 + |a| + |b|
  {
  }

  lemma CountFirst(f: Grove)
    requires f.Cons?
    ensures Seen(Blocks, f) == (if f.info.loop then 0 else 1 + Seen(Blocks, f.kids)) + Seen(Blocks, f.next)
    ensures Met(f) == if f.info.loop then Met(f.next) else {f.c} + Met(f.kids) + Met(f.next)
  {
  }

  /** What the first tree adds. */
  lemma SizeSumFirst(f: Grove)
    requires f.Cons? && Distinct(f) && Met(f.kids) <= Ids(f.kids)
    ensures SizeSum(f, {f.c} + Met(f.kids)) == f.info.size + SizeSum(f.kids, Met(f.kids))
  {
    var s := {f.c} + Met(f.kids);
    SizeSumOut(f, s, f.c);
    assert s - {f.c} == Met(f.kids);
    SizeSumSame(f.kids, f, Met(f.kids));
  }

  lemma {:induction false} SeenBytes(f: Grove)
    requires Distinct(f)
    ensures Met(f) <= Ids(f) && Seen(Bytes, f) == SizeSum(f, Met(f))
  {
    MetIds(f);
    if f.Cons? {
      MetIds(f.kids);
      MetIds(f.next);
      SeenBytes(f.kids);
      SeenBytes(f.next);
      SizeSumSame(f.next, f, Met(f.next));
      if f.info.loop {
        assert Met(f) == Met(f.next);
      } else {
        SizeSumFirst(f);
        SizeSumJoin(f, {f.c} + Met(f.kids), Met(f.next));
      }
    }
  }

  /** What the walk over a list adds up: one for every chunk that it meets, or the sizes of these chunks. */
  lemma SeenMeans(m: Measure, f: Grove)
    requires Distinct(f)
    ensures Met(f) <= Ids(f) && Seen(m, f) == if m.Blocks? then |Met(f)| else SizeSum(f, Met(f))
  {
    SeenBlocks(f);
    SeenBytes(f);
  }

  lemma TreeSum<N>(w: Forest<N>, c: N)
    requires Distinct(w) && c in Ids(w)
    ensures TreeIds(w, c) <= Ids(w)
            && SizeSum(w, TreeIds(w, c)) == Find(w, c).info.size + SizeSum(Find(w, c).kids, Ids(Find(w, c).kids))
  {
    var k := Find(w, c).kids;
    TreeFacts(w, c);
    SizeSumOut(w, TreeIds(w, c), c);
    assert TreeIds(w, c) - {c} == Ids(k);
    forall x | x in Ids(k) ensures Find(w, x) == Find(k, x) { FindInTree(w, c, x); }
    hide SizeSum;
    SizeSumSame(k, w, Ids(k));
  }

  /** So the total over a tree is the number of its chunks, or the sum of their sizes. */
  lemma WeightMeans(m: Measure, w: Grove, c: Chunk)
    requires Distinct(w) && Calm(w) && c in Ids(w)
    ensures TreeIds(w, c) <= Ids(w)
            && Weight(m, w, c) == if m.Blocks? then |TreeIds(w, c)| else SizeSum(w, TreeIds(w, c))
  {
    var f := Find(w, c);
    TreeFacts(w, c);
    CalmTree(w, c);
    CalmSeen(m, f.kids);
    SeenMeans(m, f.kids);
    MetIds(f.kids);
    TreeSum(w, c);
    hide Find, SizeSum, Met, Seen, Total;
  }

  // ---------- in the heap ----------

  lemma {:induction false} ZipRetreat(path: Spot, base: Spot, f: Grove)
    requires Zip(Append(path, base), f)
    ensures Zip(base, Plug(path, f))
  {
    if !path.Top? {
      ZipUp(Append(path, base), f);
      assert Fill(Append(path, base), f) == Fill(path, f);
      ZipRetreat(path.up, base, Fill(path, f));
    }
  }

  ghost function Flagged(f: Grove, b: bool): Grove
    requires f.Cons?
  {
    Cons(f.c, f.info.(loop := b), f.kids, f.next)
  }

  method SetLoop(c: Chunk, b: bool, ghost p: Spot, ghost f: Grove)
    requires f.Cons? && f.c == c && Zip(p, f)
    modifies c
    ensures Zip(p, Flagged(f, b))
  {
    c.loop := b;
  }

  /** The total over the tree at `c`; every loop flag is left as found. */
  method Walk(m: Measure, c: Chunk, ghost p: Spot, ghost f: Grove) returns (total: nat)
    requires f.Cons? && f.c == c && Zip(p, f)
    modifies c, Ids(f.kids)
    ensures Zip(p, f) && total == if f.info.loop then 0 else Amount(m, f.info) + Seen(m, f.kids)
    decreases f, 0
  {
    if c.loop {
      return 0;
    }
    SetLoop(c, true, p, f);
    total := if m.Blocks? then 1 else c.size;
    ZipKids(p, Flagged(f, true));
    ghost var base := InKids(p, c, f.info.(loop := true), f.next);
    var sum := WalkList(m, c.child, base, f.kids);
    total := total + sum;
    ZipUp(base, f.kids);
    SetLoop(c, false, p, Flagged(f, true));
  }

  /** The loop over the children. */
  method WalkList(m: Measure, child: Chunk?, ghost base: Spot, ghost k: Grove) returns (total: nat)
    requires base.InKids? && Zip(base, k) && child == Head(k)
    modifies Ids(k)
    ensures Zip(base, k) && total == Seen(m, k)
    decreases k, 1
  {
    total := 0;
    var x := child;
    ghost var path, g := Top, k;
    while x != null
      invariant x == Head(g) && Zip(Append(path, base), g) && Plug(path, g) == k && ModeOf(Append(path, base)).Sib?
      invariant Ids(g) <= Ids(k) && (g == k || g < k)
      invariant total + Seen(m, g) == Seen(m, k)
      decreases g
    {
      ghost var q := Append(path, base);
      var n := Walk(m, x, q, g);
      total := total + n;
      x := x.next;
      ZipNext(q, g);
      path, g := InNext(path, g.c, g.info, g.kids), g.next;
    }
    ZipRetreat(path, base, g);
  }

  /** On a heap at rest the result is the sum over the abstract tree. */
  method TotalOf(m: Measure, c: Chunk, ghost w: Grove) returns (total: nat)
    requires Zip(Top, w) && Calm(w) && c in Ids(w)
    modifies Ids(w)
    ensures Zip(Top, w) && total == Weight(m, w, c)
    ensures TreeIds(w, c) <= Ids(w) && total == if m.Blocks? then |TreeIds(w, c)| else SizeSum(w, TreeIds(w, c))
  {
    assert allocated(Ids(w));
    ghost var p, f := Focus(w, c);
    total := Walk(m, c, p, f);
    ZipPlug(p, f);
    CalmTree(w, c);
    CalmSeen(m, f.kids);
    WeightMeans(m, w, c);
  }
}
