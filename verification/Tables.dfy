/**
 Sorted contents: what a search tree means as a table, and how tall a red-black tree can be.
 */
module Tables {
  import opened Shapes

  /** Strictly increasing keys. */
  ghost predicate Sorted<N, D>(es: seq<Entry<N, D>>) {
    forall i, j :: 0 <= i < j < |es| ==> es[i].key < es[j].key
  }

  ghost predicate AllBelow<N, D>(es: seq<Entry<N, D>>, k: uint32) {
    forall i :: 0 <= i < |es| ==> es[i].key < k
  }

  ghost predicate AllAbove<N, D>(es: seq<Entry<N, D>>, k: uint32) {
    forall i :: 0 <= i < |es| ==> k < es[i].key
  }

  /** The leading entries with a smaller key. */
  ghost function Below<N, D>(es: seq<Entry<N, D>>, k: uint32): seq<Entry<N, D>> {
    if es == [] || es[0].key >= k then [] else [es[0]] + Below(es[1..], k)
  }

  /** The entry with key `k`, or nothing. */
  ghost function At<N, D>(es: seq<Entry<N, D>>, k: uint32): seq<Entry<N, D>> {
    if es == [] || es[0].key > k then []
    else if es[0].key == k then [es[0]]
    else At(es[1..], k)
  }

  ghost function Above<N, D>(es: seq<Entry<N, D>>, k: uint32): seq<Entry<N, D>> {
    if es == [] || es[0].key > k then es else Above(es[1..], k)
  }

  /** The three parts are determined by their keys. */
  lemma {:induction false} SplitUnique<N, D>(p: seq<Entry<N, D>>, m: seq<Entry<N, D>>, s: seq<Entry<N, D>>, k: uint32)
    requires AllBelow(p, k) && AllAbove(s, k) && (m == [] || (|m| == 1 && m[0].key == k))
    ensures Below(p + m + s, k) == p && At(p + m + s, k) == m && Above(p + m + s, k) == s
  {
    var es := p + m + s;
    if p != [] {
      assert es[1..] == p[1..] + m + s;
      SplitUnique(p[1..], m, s, k);
    } else if m != [] {
      assert es[1..] == s;
    } else {
      assert es == s;
    }
  }

  /** A sorted sequence is its entries below `k`, its entry at `k` and its entries above `k`. */
  lemma {:induction false} SplitSorted<N, D>(es: seq<Entry<N, D>>, k: uint32)
    requires Sorted(es)
    ensures es == Below(es, k) + At(es, k) + Above(es, k)
    ensures AllBelow(Below(es, k), k) && AllAbove(Above(es, k), k)
    ensures At(es, k) == [] || (|At(es, k)| == 1 && At(es, k)[0].key == k)
  {
    var r := 0;
    while r < |es| && es[r].key < k
      invariant 0 <= r <= |es| && AllBelow(es[..r], k)
    {
      r := r + 1;
    }
    var m := if r < |es| && es[r].key == k then [es[r]] else [];
    var p, s := es[..r], es[r + |m|..];
    assert es == p + m + s;
    SplitUnique(p, m, s, k);
  }

  lemma {:induction false} SortedDrop<N, D>(p: seq<Entry<N, D>>, m: seq<Entry<N, D>>, s: seq<Entry<N, D>>)
    requires Sorted(p + m + s)
    ensures Sorted(p + s)
  {
    var es := p + m + s;
    assert forall i :: 0 <= i < |p| ==> p[i] == es[i];
    assert forall i :: 0 <= i < |s| ==> s[i] == es[|p| + |m| + i];
  }

  lemma {:induction false} SortedPut<N, D>(p: seq<Entry<N, D>>, e: Entry<N, D>, s: seq<Entry<N, D>>)
    requires Sorted(p + s) && AllBelow(p, e.key) && AllAbove(s, e.key)
    ensures Sorted(p + [e] + s)
  {
    var es := p + s;
    assert forall i :: 0 <= i < |p| ==> p[i] == es[i];
    assert forall i :: 0 <= i < |s| ==> s[i] == es[|p| + i];
  }

  lemma SortedMiddle<N, D>(a: seq<Entry<N, D>>, b: seq<Entry<N, D>>, e: Entry<N, D>, c: seq<Entry<N, D>>,
                           d: seq<Entry<N, D>>)
    requires Sorted((a + b) + [e] + (c + d))
    ensures AllBelow(b, e.key) && AllAbove(c, e.key)
  {
    var all := (a + b) + [e] + (c + d);
    assert all[|a| + |b|] == e;
    assert forall i :: 0 <= i < |b| ==> b[i] == all[|a| + i];
    assert forall i :: 0 <= i < |c| ==> c[i] == all[|a| + |b| + 1 + i];
  }

  // ---------- the table as a map ----------

  ghost function MapOf<N, D>(es: seq<Entry<N, D>>): map<uint32, D> {
    if es == [] then map[] else map[es[0].key := es[0].data] + MapOf(es[1..])
  }

  lemma {:induction false} MapConcat<N, D>(a: seq<Entry<N, D>>, b: seq<Entry<N, D>>)
    ensures MapOf(a + b) == MapOf(a) + MapOf(b)
  {
    if a == [] {
      assert a + b == b;
    } else {
      assert (a + b)[1..] == a[1..] + b;
      MapConcat(a[1..], b);
      MapAssoc(map[a[0].key := a[0].data], MapOf(a[1..]), MapOf(b));
    }
  }

  lemma MapAssoc<K, V>(a: map<K, V>, b: map<K, V>, c: map<K, V>)
    ensures a + (b + c) == (a + b) + c
  {
  }

  lemma {:induction false} MapKeys<N, D>(es: seq<Entry<N, D>>, k: uint32)
    ensures k in MapOf(es) ==> exists i :: 0 <= i < |es| && es[i].key == k
  {
    if es != [] && es[0].key != k && k in MapOf(es) {
      MapKeys(es[1..], k);
      var i :| 0 <= i < |es[1..]| && es[1..][i].key == k;
      assert es[i + 1].key == k;
    }
  }

  lemma {:induction false} MapThree<N, D>(p: seq<Entry<N, D>>, m: seq<Entry<N, D>>, s: seq<Entry<N, D>>)
    ensures MapOf(p + m + s) == MapOf(p) + MapOf(m) + MapOf(s)
  {
    MapConcat(p + m, s);
    MapConcat(p, m);
  }

  lemma {:induction false} Outside<N, D>(es: seq<Entry<N, D>>, k: uint32)
    requires Sorted(es)
    ensures k !in MapOf(Below(es, k)) && k !in MapOf(Above(es, k))
    ensures MapOf(es) == MapOf(Below(es, k)) + MapOf(At(es, k)) + MapOf(Above(es, k))
  {
    SplitSorted(es, k);
    MapKeys(Below(es, k), k);
    MapKeys(Above(es, k), k);
    MapThree(Below(es, k), At(es, k), Above(es, k));
  }

  /** The table at key `k`. */
  lemma {:induction false} MapAt<N, D>(es: seq<Entry<N, D>>, k: uint32)
    requires Sorted(es)
    ensures k in MapOf(es) <==> At(es, k) != []
    ensures At(es, k) != [] ==> MapOf(es)[k] == At(es, k)[0].data
  {
    Outside(es, k);
    SplitSorted(es, k);
    if At(es, k) != [] { SingleEntry(At(es, k)[0]); }
  }

  /** Storing one entry at its place is storing one key. */
  lemma {:induction false} MapStore<N, D>(es: seq<Entry<N, D>>, e: Entry<N, D>)
    requires Sorted(es)
    ensures MapOf(Below(es, e.key) + [e] + Above(es, e.key)) == MapOf(es)[e.key := e.data]
  {
    var k := e.key;
    var p, m, s := Below(es, k), At(es, k), Above(es, k);
    Outside(es, k);
    calc {
      MapOf(p + [e] + s);
      { MapThree(p, [e], s); }
      MapOf(p) + MapOf([e]) + MapOf(s);
      { SingleEntry(e); }
      MapOf(p) + map[k := e.data] + MapOf(s);
      { MapSingle(es, k); JoinMaps(MapOf(p), MapOf(m), MapOf(s), k, e.data); }
      (MapOf(p) + MapOf(m) + MapOf(s))[k := e.data];
    }
  }

  lemma {:induction false} SingleEntry<N, D>(e: Entry<N, D>)
    ensures MapOf([e]) == map[e.key := e.data]
  {
    assert [e][1..] == [];
  }

  lemma JoinMaps<D>(a: map<uint32, D>, m: map<uint32, D>, b: map<uint32, D>, k: uint32, d: D)
    requires k !in a && k !in b && m.Keys <= {k}
    ensures a + map[k := d] + b == (a + m + b)[k := d]
  {
  }

  /** Leaving the entry out is removing one key. */
  lemma {:induction false} MapRemove<N, D>(es: seq<Entry<N, D>>, k: uint32)
    requires Sorted(es)
    ensures MapOf(Below(es, k) + Above(es, k)) == MapOf(es) - {k}
  {
    Outside(es, k);
    MapConcat(Below(es, k), Above(es, k));
    MapSingle(es, k);
  }

  lemma {:induction false} MapSingle<N, D>(es: seq<Entry<N, D>>, k: uint32)
    requires Sorted(es)
    ensures MapOf(At(es, k)).Keys <= {k}
  {
    SplitSorted(es, k);
    if At(es, k) != [] { SingleEntry(At(es, k)[0]); }
  }

  // ---------- height ----------

  ghost function Pow2(n: nat): nat {
    if n == 0 then 1 else 2 * Pow2(n - 1)
  }

  ghost function Height<N, D>(t: Shape<N, D>): nat {
    match t
    case Leaf => 0
    case Nd(l, _, _, r) => 1 + if Height(l) < Height(r) then Height(r) else Height(l)
  }

  lemma {:induction false} Pow2Add(a: nat, b: nat)
    ensures Pow2(a + b) == Pow2(a) * Pow2(b)
  {
    if a > 0 { Pow2Add(a - 1, b); }
  }

  lemma {:induction false} Pow2Mono(a: nat, b: nat)
    requires a <= b
    ensures Pow2(a) <= Pow2(b)
  {
    if a < b { Pow2Mono(a, b - 1); }
  }

  /** Black height bounds height from above and size from below. */
  lemma {:induction false} BlackHeightBounds<N, D>(t: Shape<N, D>, h: nat)
    requires RB(t, h)
    ensures Height(t) <= 2 * h + (if ColorOf(t) == Red then 1 else 0)
    ensures Pow2(h) <= |Entries(t)| + 1
  {
    match t
    case Leaf =>
    case Nd(l, c, e, r) =>
      var k := if c == Red then h else h - 1;
      BlackHeightBounds(l, k);
      BlackHeightBounds(r, k);
  }

  /** A red-black tree with n nodes has height at most 2*log2(n+1). */
  lemma {:induction false} HeightBound<N, D>(t: Shape<N, D>)
    requires RedBlack(t)
    ensures Pow2(Height(t)) <= (|Entries(t)| + 1) * (|Entries(t)| + 1)
  {
    var h: nat :| RB(t, h);
    var n := |Entries(t)| + 1;
    BlackHeightBounds(t, h);
    Pow2Mono(Height(t), h + h);
    Pow2Add(h, h);
    SquareMono(Pow2(h), n);
  }

  lemma SquareMono(a: nat, b: nat)
    requires a <= b
    ensures a * a <= b * b
  {
    assert a * a <= a * b;
  }

  /** A position is no deeper than the tree is high. */
  lemma {:induction false} DepthHeight<N, D>(ctx: Ctx<N, D>, t: Shape<N, D>)
    ensures Depth(ctx) + Height(t) <= Height(Plug(ctx, t))
  {
    if ctx.In? { DepthHeight(ctx.up, Join(ctx.onLeft, ctx.color, ctx.e, t, ctx.sib)); }
  }
}
