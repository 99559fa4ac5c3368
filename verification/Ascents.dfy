/** The way up from a chunk, through its ancestors and the old links of chunks that are being freed. */
module Ascents {
  import opened Forests
  import opened Transfers
  import opened Ownership
  import opened RefMaps
  import opened Drains
  import opened Stacks
  import opened Chunks
  import T = Talloc

  /** A chunk and its ancestors. */
  ghost function Line<N>(f: Forest<N>, x: N): seq<N>
    requires x in Ids(f)
  {
    if f.c == x then [x] else if x in Ids(f.kids) then Line(f.kids, x) + [f.c] else Line(f.next, x)
  }

  lemma {:induction false} LineParents<N>(f: Forest<N>, par: Option<N>, x: N)
    requires Distinct(f) && x in Ids(f)
    ensures var l := Line(f, x);
            && l != [] && l[0] == x && l[|l| - 1] in Ids(f) && ParentIn(f, par, l[|l| - 1]) == par
            && forall j :: 0 <= j < |l| - 1 ==> l[j] in Ids(f) && ParentIn(f, par, l[j]) == At(l, j + 1)
  {
    if f.c != x {
      if x in Ids(f.kids) {
        LineParents(f.kids, Some(f.c), x);
        var k, l := Line(f.kids, x), Line(f, x);
        forall j | 0 <= j < |l| - 1 ensures l[j] in Ids(f) && ParentIn(f, par, l[j]) == At(l, j + 1) {
          assert l[j] == k[j] && k[j] in Ids(f.kids);
        }
      } else {
        LineParents(f.next, par, x);
      }
    }
  }

  lemma {:induction false} LineMember<N>(f: Forest<N>, x: N, y: N)
    requires Distinct(f) && x in Ids(f)
    ensures y in Line(f, x) <==> y in Ids(f) && x in TreeIds(f, y)
  {
    if y in Ids(f) { TreeFacts(f, y); }
    if f.c == x {
      if y in Ids(f.kids) { TreeFacts(f.kids, y); }
      if y in Ids(f.next) { TreeFacts(f.next, y); }
    } else if x in Ids(f.kids) {
      LineMember(f.kids, x, y);
      if y in Ids(f.next) { TreeFacts(f.next, y); }
    } else {
      LineMember(f.next, x, y);
      if y in Ids(f.kids) { TreeFacts(f.kids, y); }
    }
  }

  lemma {:induction false} HasParent<N>(k: Forest<N>, x: N, y: N)
    requires y in Ids(k)
    ensures ParentIn(k, Some(x), y).Some?
  {
    if k.c != y {
      if y in Ids(k.kids) { HasParent(k.kids, k.c, y); } else { HasParent(k.next, x, y); }
    }
  }

  lemma {:induction false} IsCovered<N>(w: Forest<N>, y: N, x: N)
    requires Distinct(w) && y in Ids(w) && Find(w, y).info.tie.Loose? && ParentOf(w, y) == None && x in TreeIds(w, y)
    ensures Covered(w, x)
  {
    TreeFacts(w, y);
    if w.c != y {
      if y in Ids(w.kids) {
        HasParent(w.kids, w.c, y);
      } else {
        TreeFacts(w.next, y);
        IsCovered(w.next, y, x);
      }
    }
  }

  // ---------- the way up ----------

  ghost predicate Rises(w: Grove, path: seq<Chunk>) {
    forall j :: 0 <= j < |path| ==> T.Under(w, path[j], At(path, j + 1))
  }

  lemma TiedUnder(w: Grove, st: seq<Chunk>, z: Zone<Chunk>, y: Chunk)
    requires Distinct(w) && Stack(w, st, z) && y in Ids(w) && y !in st
    ensures T.Under(w, y, ParentOf(w, y))
  {
    StackTied(w, st, z, y);
  }

  /** A chunk that has a parent is not on the stack. */
  lemma LineUnder(w: Grove, st: seq<Chunk>, z: Zone<Chunk>, y: Chunk, q: Option<Chunk>)
    requires Distinct(w) && Stack(w, st, z) && y in Ids(w) && ParentOf(w, y) == q && (q.Some? || y !in st)
    ensures T.Under(w, y, q)
  {
    if y in st { NotOnStack(w, st, z, y); }
    TiedUnder(w, st, z, y);
  }

  lemma {:induction false} LineFirst<N>(f: Forest<N>, x: N)
    requires x in Ids(f)
    ensures Line(f, x) != [] && Line(f, x)[0] == x
  {
    if f.c != x {
      if x in Ids(f.kids) { LineFirst(f.kids, x); } else { LineFirst(f.next, x); }
    }
  }

  lemma LineNext(w: Grove, x: Chunk, j: nat)
    requires Distinct(w) && x in Ids(w) && j < |Line(w, x)|
    ensures var l := Line(w, x); l[j] in Ids(w) && ParentOf(w, l[j]) == At(l, j + 1)
  {
    LineParents(w, None, x);
  }

  /** From the outermost chunk home. */
  ghost function HomeLine<N>(w: Forest<N>, z: Zone<N>): seq<N> {
    if z.home.Some? && z.home.value in Ids(w) then Line(w, z.home.value) else []
  }

  lemma HomeTrail(w: Grove, t: RefMap<Chunk>, st: seq<Chunk>, z: Zone<Chunk>)
    requires Fit(w, t, st, z) && st != []
    ensures Rises(w, HomeLine(w, z)) && forall y :: y in HomeLine(w, z) ==> y in Ids(w) && y !in st
    ensures z.home.Some? ==> HomeLine(w, z) != [] && HomeLine(w, z)[0] == z.home.value
  {
    if z.home.Some? {
      var x := z.home.value;
      LineParents(w, None, x);
      OuterParent(w, st, z, x);
      forall j | 0 <= j < |Line(w, x)|
        ensures T.Under(w, Line(w, x)[j], At(Line(w, x), j + 1))
        ensures Line(w, x)[j] in Ids(w) && Line(w, x)[j] !in st
      {
        LineMember(w, x, Line(w, x)[j]);
        LineNext(w, x, j);
        TiedUnder(w, st, z, Line(w, x)[j]);
      }
    }
  }

  lemma StackTrail(w: Grove, t: RefMap<Chunk>, st: seq<Chunk>, z: Zone<Chunk>, j: nat)
    requires Fit(w, t, st, z) && j < |st| && Sighted(w)
    ensures T.Under(w, st[j], if j + 1 < |st| then Some(st[j + 1]) else z.home)
  {
    StackTies(w, st, z, j);
    if j + 1 == |st| && z.old'.Some? {
      var s := z.old'.value;
      assert SeesOwn(w, Find(w, st[j]).info);
      OuterParent(w, st, z, s);
      assert s in TreeIds(w, s);
      StackTied(w, st, z, s);
    }
  }

  lemma TrailJoin(w: Grove, a: seq<Chunk>, b: seq<Chunk>)
    requires Rises(w, b) && forall j :: 0 <= j < |a| ==> T.Under(w, a[j], At(a + b, j + 1))
    ensures Rises(w, a + b)
  {
    hide T.Under;
    var path := a + b;
    forall n | 0 <= n < |path| ensures T.Under(w, path[n], At(path, n + 1)) {
      if n < |a| {
        assert path[n] == a[n];
      } else {
        var m := n - |a|;
        assert path[n] == b[m] && At(path, n + 1) == At(b, m + 1);
        assert T.Under(w, b[m], At(b, m + 1));
      }
    }
  }

  lemma AtJoin(a: seq<Chunk>, b: seq<Chunk>, n: nat)
    requires n < |a|
    ensures At(a + b, n + 1) == if n + 1 < |a| then Some(a[n + 1]) else At(b, 0)
  {
  }

  lemma UpperTrail(w: Grove, t: RefMap<Chunk>, st: seq<Chunk>, z: Zone<Chunk>, j: nat)
    requires Fit(w, t, st, z) && j < |st| && Sighted(w)
    ensures Rises(w, st[j..] + HomeLine(w, z))
  {
    HomeTrail(w, t, st, z);
    var a, b := st[j..], HomeLine(w, z);
    assert z.home == At(b, 0);
    hide Fit, Sighted, T.Under, HomeLine, Rises;
    forall n | 0 <= n < |a| ensures T.Under(w, a[n], At(a + b, n + 1)) {
      StackTrail(w, t, st, z, j + n);
      AtJoin(a, b, n);
      assert a[n] == st[j + n] && (n + 1 < |a| ==> a[n + 1] == st[j + n + 1]);
    }
    TrailJoin(w, a, b);
  }

  /** The topmost ancestor is being freed. */
  lemma WayThrough(w: Grove, t: RefMap<Chunk>, st: seq<Chunk>, z: Zone<Chunk>, x: Chunk, j: nat)
    returns (path: seq<Chunk>)
    requires Fit(w, t, st, z) && x in Ids(w) && Sighted(w) && j < |st|
    requires Line(w, x) != [] && st[j] == Line(w, x)[|Line(w, x)| - 1] && Line(w, x)[0] == x
    ensures path != [] && path[0] == x && Rises(w, path)
    ensures forall y :: y in Line(w, x) ==> y in path
    ensures forall y :: y in path ==> y in Line(w, x) || y in st || y in HomeLine(w, z)
  {
    UpperTrail(w, t, st, z, j);
    hide Fit, Sighted, T.Under, HomeLine;
    var l := Line(w, x);
    var a, b := l[..|l| - 1], st[j..] + HomeLine(w, z);
    hide Line;
    assert b[0] == st[j] && l == a + [st[j]];
    forall n | 0 <= n < |a| ensures T.Under(w, a[n], At(a + b, n + 1)) {
      LowerTrail(w, t, st, z, x, n);
      assert At(l, n + 1) == At(a + b, n + 1);
    }
    TrailJoin(w, a, b);
    path := a + b;
  }

  /** The way up from a chunk: its ancestors, and if the last of them is being freed, the rest of the stack and home. */
  lemma WayUp(w: Grove, t: RefMap<Chunk>, st: seq<Chunk>, z: Zone<Chunk>, x: Chunk) returns (path: seq<Chunk>)
    requires Fit(w, t, st, z) && x in Ids(w) && (Covered(w, x) ==> Sighted(w))
    ensures path != [] && path[0] == x && Rises(w, path)
    ensures forall y :: y in Line(w, x) ==> y in path
    ensures forall y :: y in path ==> y in Line(w, x) || (st != [] && (y in st || y in HomeLine(w, z)))
  {
    var l := Line(w, x);
    LineParents(w, None, x);
    var r := l[|l| - 1];
    if r in st {
      NotOnStack(w, st, z, r);
      LineMember(w, x, r);
      IsCovered(w, r, x);
      hide Fit, Sighted, T.Under, Line, HomeLine, Rises;
      var j :| 0 <= j < |st| && st[j] == r;
      path := WayThrough(w, t, st, z, x, j);
    } else {
      path := l;
      hide Fit, Sighted, T.Under, Line, HomeLine;
      forall j | 0 <= j < |l| ensures T.Under(w, l[j], At(l, j + 1)) { LowerTrail(w, t, st, z, x, j); }
    }
  }

  lemma LowerTrail(w: Grove, t: RefMap<Chunk>, st: seq<Chunk>, z: Zone<Chunk>, x: Chunk, j: nat)
    requires Fit(w, t, st, z) && x in Ids(w) && j < |Line(w, x)|
    requires j + 1 < |Line(w, x)| || Line(w, x)[j] !in st
    ensures T.Under(w, Line(w, x)[j], At(Line(w, x), j + 1))
  {
    LineNext(w, x, j);
    var l := Line(w, x);
    hide Stack, Named, Neat, Distinct, Line;
    LineUnder(w, st, z, l[j], At(l, j + 1));
  }

  /** The way from `x` up to its ancestor `ptr`. */
  lemma WayBelow(w: Grove, t: RefMap<Chunk>, st: seq<Chunk>, z: Zone<Chunk>, x: Chunk, ptr: Chunk)
    returns (path: seq<Chunk>)
    requires Fit(w, t, st, z) && x in Ids(w) && ptr in Ids(w) && x in TreeIds(w, ptr) && ptr !in st
    ensures path != [] && path[0] == x && T.Trail(w, path, ptr) && ptr in path
  {
    LineMember(w, x, ptr);
    LineFirst(w, x);
    var l := Line(w, x);
    hide Fit, T.Under, Line, TreeIds;
    var k :| 0 <= k < |l| && l[k] == ptr;
    path := l[..k + 1];
    assert path[k] == ptr;
    forall j | 0 <= j < |path| && path[j] != ptr ensures T.Under(w, path[j], At(path, j + 1)) {
      LowerTrail(w, t, st, z, x, j);
    }
  }

  /** The way that the code takes to find out whether `x` is below `ptr`. */
  lemma WayTo(w: Grove, t: RefMap<Chunk>, st: seq<Chunk>, z: Zone<Chunk>, x: Chunk, ptr: Chunk)
    returns (path: seq<Chunk>)
    requires Fit(w, t, st, z) && x in Ids(w) && ptr in Ids(w) && ptr !in st && (Strays(w, ptr, x) ==> Sighted(w))
    requires st != [] && z.home.Some? ==> z.home.value !in TreeIds(w, ptr)
    ensures path != [] && path[0] == x && T.Trail(w, path, ptr) && (ptr in path <==> x in TreeIds(w, ptr))
  {
    if x in TreeIds(w, ptr) {
      path := WayBelow(w, t, st, z, x, ptr);
    } else {
      path := WayUp(w, t, st, z, x);
      LineMember(w, x, ptr);
      if z.home.Some? && z.home.value in Ids(w) { LineMember(w, z.home.value, ptr); }
    }
  }
}
