/** Which reference goes when a chunk with references is unlinked or freed, and where the chunk then belongs. */
module HandleLaws {
  import opened Forests
  import opened Transfers
  import opened RefMaps
  import opened Ownership
  import opened Owners
  import opened Drains
  import opened Stacks
  import opened Chunks
  import opened Freeing
  import opened Arenas

  lemma {:induction false} MinusAt<N>(s: seq<N>, j: nat)
    requires NoDup(s) && j < |s|
    ensures Minus(s, s[j]) == s[..j] + s[j + 1..]
  {
    MinusWithout(s, s[j]);
    if j == 0 {
      WithoutFirst(s);
    } else {
      assert s[j] == s[1..][j - 1] && s[j] in s[1..];
      MinusAt(s[1..], j - 1);
      assert s[..j] == [s[0]] + s[1..][..j - 1] && s[j + 1..] == s[1..][j..];
    }
  }

  /** The reference `j` is the newest that belongs to `o`. */
  ghost predicate Newest<N>(w: Forest<N>, hs: seq<N>, o: Option<N>, j: nat) {
    j < |hs| && ParentOf(w, hs[j]) == o && forall i :: 0 <= i < j ==> ParentOf(w, hs[i]) != o
  }

  lemma {:induction false} NewestBelow<N>(w: Forest<N>, hs: seq<N>, o: Option<N>, j: nat)
    requires Newest(w, hs, o, j)
    ensures o in Holders(w, hs) && FirstBelow(w, hs, o) == j
  {
    if j > 0 {
      assert ParentOf(w, hs[0]) != o;
      NewestBelow(w, hs[1..], o, j - 1);
    }
  }

  lemma {:induction false} NoneBelow<N>(w: Forest<N>, hs: seq<N>, o: Option<N>)
    requires forall i :: 0 <= i < |hs| ==> ParentOf(w, hs[i]) != o
    ensures o !in Holders(w, hs)
  {
    if hs != [] { NoneBelow(w, hs[1..], o); }
  }

  /** The context has references to `p`: the newest of them goes, and the chunk keeps its parent. */
  lemma UnlinkNewest(w: Grove, t: RefMap<Chunk>, p: Chunk, o: Option<Chunk>, j: nat,
                     w': Grove, t': RefMap<Chunk>, r: int)
    requires Distinct(w) && Sound(w, t) && p in t && Newest(w, t[p], o, j) && Unlinks(w, t, p, o, w', t', r)
    ensures r == 0 && p in t' && t'[p] == t[p][..j] + t[p][j + 1..] && ParentOf(w', p) == ParentOf(w, p)
    ensures t[p][j] in Ids(w) && Ids(w') == Ids(w) - {t[p][j]}
  {
    var h := t[p][j];
    NewestBelow(w, t[p], o, j);
    MinusAt(t[p], j);
    LastOwner(w, t, p, o);
    DropFacts(w, t, p, h);
    CutParent(w, None, h, p);
  }

  /** Where the chunk belongs when its parent is unlinked and the newest reference goes. */
  lemma ParentNext<N>(w: Forest<N>, t: RefMap<N>, p: N, o: Option<N>)
    requires Distinct(w) && Tidy(w) && RefsOk(w, t) && p in t && t[p] != [] && CanUnlink(w, t, p, o)
    requires o !in Holders(w, t[p])
    ensures p in Ids(Cut(w, Spent(w, t[p], o)))
    ensures var q := ParentOf(w, t[p][0]);
            ParentOf(Unlinked(w, t, p, o), p) == if q == Some(p) then ParentOf(w, p) else q
  {
    hide Distinct, Tidy, RefsOk, Ids, Cut, Moved, CanUnlink, CanMove, Holders, ParentOf;
    var h := t[p][0];
    UnlinkedFacts(w, t, p, o);
    DropFacts(w, t, p, h);
    if SelfHeld(w, t, p, o) {
      ParentAfter(w, h, p);
    } else {
      MovedParent(Cut(w, h), p, ParentOf(w, h), p);
    }
  }

  lemma ParentAfter<N>(w: Forest<N>, h: N, p: N)
    requires Distinct(w) && h in Ids(w) && p in Ids(Cut(w, h))
    ensures ParentOf(Cut(w, h), p) == ParentOf(w, p)
  {
    CutParent(w, None, h, p);
  }

  /** The context is the parent and has no reference: the newest of all references goes, and the chunk gets its owner
      for a parent, unless that is the chunk itself. */
  lemma UnlinkParent(w: Grove, t: RefMap<Chunk>, p: Chunk, w': Grove, t': RefMap<Chunk>, r: int)
    requires Distinct(w) && Sound(w, t) && p in t && t[p] != [] && CanUnlink(w, t, p, ParentOf(w, p))
    requires forall i :: 0 <= i < |t[p]| ==> ParentOf(w, t[p][i]) != ParentOf(w, p)
    requires Unlinks(w, t, p, ParentOf(w, p), w', t', r)
    ensures r == 0 && p in t' && t'[p] == t[p][1..]
    ensures var o := ParentOf(w, t[p][0]); ParentOf(w', p) == if o == Some(p) then ParentOf(w, p) else o
  {
    hide Distinct, Tidy, RefsOk, CanUnlink, Holders, ParentOf, Unlinked;
    var o := ParentOf(w, p);
    NoneBelow(w, t[p], o);
    NoDupList(w, t, p);
    MinusAt(t[p], 0);
    LastOwner(w, t, p, o);
    DropFacts(w, t, p, t[p][0]);
    ParentNext(w, t, p, o);
    ParentOwns(w, t, p);
  }

  lemma NoDupList<N>(w: Forest<N>, t: RefMap<N>, p: N)
    requires RefsOk(w, t) && p in t
    ensures NoDup(t[p])
  {
  }

  lemma ParentOwns<N>(w: Forest<N>, t: RefMap<N>, p: N)
    requires p in t
    ensures ParentOf(w, p) in OwnersOf(w, t, p)
  {
  }

  /** Freeing a chunk that others refer to takes the newest reference away and nothing else. */
  lemma FreeHeld(w: Grove, t: RefMap<Chunk>, c: Chunk, w': Grove, t': RefMap<Chunk>, r: int)
    requires Distinct(w) && Sound(w, t) && Frees(w, t, c, w', t', r) && t[c] != [] && t[c][0] !in TreeIds(w, c)
    ensures r == -1 && w' == Cut(w, t[c][0]) && t'.Keys == t.Keys - {t[c][0]}
    ensures c in t' && t'[c] == t[c][1..] && forall x :: x in t' && x != c ==> t'[x] == t[x]
  {
    var h := t[c][0];
    DropFacts(w, t, c, h);
    DroppedPurged(w, t, c, h);
    MinusAt(t[c], 0);
  }

  /** If the newest reference is from inside, it goes as well, and freeing starts again. */
  lemma FreeHeldInside(w: Grove, t: RefMap<Chunk>, c: Chunk, w': Grove, t': RefMap<Chunk>, r: int)
    requires Distinct(w) && Sound(w, t) && c in Ids(w) && t[c] != [] && t[c][0] in TreeIds(w, c)
    ensures Frees(w, t, c, w', t', r) <==> Frees(Cut(w, t[c][0]), Dropped(t, c, t[c][0]), c, w', t', r)
  {
    var h := t[c][0];
    DropFacts(w, t, c, h);
    DroppedPurged(w, t, c, h);
    CountCut(w, h);
    TryInside(w, t, c);
  }

  lemma TryInside(w: Grove, t: RefMap<Chunk>, c: Chunk)
    requires c in Ids(w) && RefsOf(t, c) != [] && RefsOf(t, c)[0] in TreeIds(w, c)
    requires var h := RefsOf(t, c)[0]; c in Ids(Cut(w, h)) && Count(Cut(w, h)) < Count(w)
    ensures var h := RefsOf(t, c)[0];
            var x, y := TryFree(w, t, c), TryFree(Cut(w, h), Purged(t, {h}), c);
            x == Also(y, {h}) && Ends(x) == Ends(y) && Code(x) == Code(y) && (Ends(y) ==> x.w == y.w && x.t == y.t)
  {
  }

  /** A chunk without references whose destructor refuses stays as it is. */
  lemma FreeRefused(w: Grove, t: RefMap<Chunk>, c: Chunk, w': Grove, t': RefMap<Chunk>, r: int)
    requires Distinct(w) && Sound(w, t) && Frees(w, t, c, w', t', r) && t[c] == []
    requires Find(w, c).info.des.Refuses?
    ensures r == -1 && w' == w && t' == t
  {
  }

  /** The loop over the children never leaves the chunk where it is. */
  lemma {:induction false} DrainGoes<N>(c: N, i: Info<N>, k: Forest<N>, rest: Forest<N>, t: RefMap<N>)
    ensures !Drain(c, i, k, rest, t).Kept?
    decreases 1 + Count(k) + Count(rest), Count(k)
  {
    if k.Cons? {
      var r := Turn(c, i, k, rest, t);
      TurnGoes(c, i, k, rest, t);
      if r.Freed? && Fewer(c, i, k, rest, r.w) { DrainGoes(c, i, r.w.kids, r.w.next, r.t); }
    }
  }

  lemma TurnGoes<N>(c: N, i: Info<N>, k: Forest<N>, rest: Forest<N>, t: RefMap<N>)
    requires k.Cons?
    ensures !Turn(c, i, k, rest, t).Kept?
  {
    hide TryFree, Find, Ids, Settled;
  }

  /** A chunk without references whose destructor does not refuse goes. */
  lemma FreeGoes(w: Grove, t: RefMap<Chunk>, c: Chunk, w': Grove, t': RefMap<Chunk>, r: int)
    requires Distinct(w) && Sound(w, t) && Frees(w, t, c, w', t', r) && t[c] == []
    requires Find(w, c).info.des.NoDestructor? || Find(w, c).info.des.Agrees?
    ensures r == 0 && c !in Ids(w')
  {
    DrainGoes(c, Leaving(w, c), Find(w, c).kids, Cut(w, c), Purged(t, {c}));
    FreesOr(w, t, c, w', t', r);
  }
}
