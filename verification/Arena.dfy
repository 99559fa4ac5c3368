/** The public operations of talloc.c, and what they keep, whatever the order they are called in. */
module Arenas {
  import opened Forests
  import opened Transfers
  import opened Releases
  import opened RefMaps
  import opened Ownership
  import opened Owners
  import opened Chunks
  import opened Realloc
  import opened Drains
  import opened DrainFacts
  import opened Keeping
  import opened Ascents
  import opened Freeing
  import T = Talloc

  /** The size of a reference handle: two list links and the target. */
  const HANDLE_SIZE := 24

  /** All chunks of a program and the references between them. */
  class Arena {
    ghost var w: Grove
    const refs: RefLists

    ghost predicate Valid()
      reads this, refs, Ids(w)
    {
      Zip(Top, w) && Sound(w, refs.of)
    }

    /** Chunks that callers have pointers to: reference handles are not among them. */
    ghost predicate Knows(c: Chunk)
      reads this
    {
      c in Ids(w) && !IsHandle(w, c)
    }

    constructor ()
      ensures Valid() && w == Nil && refs.of == map[] && fresh(refs)
    {
      w := Nil;
      refs := new RefLists();
    }

    // ---------- talloc.c:266-286 ----------

    method Alloc(ctx: Chunk?, size: nat) returns (c: Chunk?)
      requires Valid() && (ctx != null ==> Knows(ctx))
      modifies this, refs, Ids(w)
      ensures Valid()
      ensures c == null <==> size >= 0x7FFF_FFFF
      ensures c == null ==> w == old(w) && refs.of == old(refs.of)
      ensures c != null ==> fresh(c) && refs.of == old(refs.of)[c := []]
                            && w == Hang(old(w), T.Opt(ctx), c, Info(size, NoDestructor, false, Tied), Nil)
    {
      assert allocated(Ids(w));
      c := T.Alloc(ctx, size, w);
      if c != null {
        ghost var i := Info(size, NoDestructor, false, Tied);
        hide Sound;
        AllocOk(w, refs.of, T.Opt(ctx), c, i);
        refs.of := refs.of[c := []];
        w := Hang(w, T.Opt(ctx), c, i, Nil);
      }
    }

    // ---------- talloc.c:182-214 ----------

    method Parent(c: Chunk) returns (q: Chunk?)
      requires Valid() && c in Ids(w)
      ensures Valid() && T.Opt(q) == ParentOf(w, c)
    {
      assert allocated(Ids(w)) && allocated(refs);
      KnownTied(w, c);
      q := T.ParentChunk(c, w, ParentOf(w, c));
    }

    /** Is `ptr` the context or above it? */
    method IsParent(ctx: Chunk?, ptr: Chunk) returns (r: bool)
      requires Valid() && ptr in Ids(w) && (ctx != null ==> ctx in Ids(w))
      ensures Valid() && r == (ctx != null && ctx in TreeIds(w, ptr))
    {
      assert allocated(Ids(w)) && allocated(refs);
      ghost var path := [];
      if ctx != null {
        GoodRests(w, refs.of);
        CalmSees(w);
        path := WayTo(w, refs.of, [], Nowhere(), ctx, ptr);
      }
      hide Sound;
      r := T.IsParent(ctx, ptr, w, path);
    }

    // ---------- talloc.h, talloc_set_destructor ----------

    /** Callers set destructors that agree or refuse, or NULL. */
    method SetDestructor(c: Chunk, d: Destructor<Chunk>)
      requires Valid() && Knows(c) && (d.NoDestructor? || d.Agrees? || d.Refuses?)
      modifies this, Ids(w)
      ensures Valid() && w == WithDes(old(w), c, d)
    {
      PutDestructor(c, d, w);
      RetitledOk(w, refs.of, c, d);
      w := WithDes(w, c, d);
    }

    // ---------- talloc.c:421-471, 583-591 ----------

    method Steal(newCtx: Chunk?, x: Chunk?) returns (r: Chunk?)
      requires Valid() && (x != null ==> Knows(x)) && (newCtx != null ==> Knows(newCtx))
      requires x != null && newCtx != null && newCtx != x ==> newCtx !in TreeIds(w, x)
      modifies this, Ids(w)
      ensures Valid() && r == x
      ensures w == if x == null || newCtx == x then old(w) else Moved(old(w), x, T.Opt(newCtx))
    {
      if x != null { KnownTied(w, x); }
      r := T.Steal(newCtx, x, w);
      if x != null && newCtx != x {
        MovedOk(w, refs.of, x, T.Opt(newCtx));
        w := Moved(w, x, T.Opt(newCtx));
      }
    }

    // ---------- talloc.c:366-390 ----------

    method Reference(ctx: Chunk?, p: Chunk?) returns (r: Chunk?, ghost h: Option<Chunk>)
      requires Valid() && (p != null ==> Knows(p)) && (ctx != null ==> Knows(ctx))
      modifies this, refs, Ids(w)
      ensures Valid() && r == p && h.Some? == (p != null)
      ensures p == null ==> w == old(w) && refs.of == old(refs.of)
      ensures p != null ==> fresh(h.value) && refs.of == Filing(old(refs.of), p, h.value)
                            && w == Hang(old(w), T.Opt(ctx), h.value, Info(HANDLE_SIZE, Handle(p), false, Tied), Nil)
    {
      if p == null {
        return null, None;
      }
      var handle := File(ctx, p);
      return p, Some(handle);
    }

    /** The handle goes to the front of the list of `p`. */
    method File(ctx: Chunk?, p: Chunk) returns (h: Chunk)
      requires Valid() && Knows(p) && (ctx != null ==> Knows(ctx))
      modifies this, refs, Ids(w)
      ensures Valid() && fresh(h) && refs.of == Filing(old(refs.of), p, h)
      ensures w == Hang(old(w), T.Opt(ctx), h, Info(HANDLE_SIZE, Handle(p), false, Tied), Nil)
    {
      hide Sound;
      assert allocated(Ids(w));
      KnownSound(w, refs.of, p);
      h := MakeHandle(ctx, p, w);
      ReferenceOk(w, refs.of, T.Opt(ctx), p, h);
      refs.of := refs.of[h := []][p := [h] + refs.of[p]];
      w := Hang(w, T.Opt(ctx), h, Info(HANDLE_SIZE, Handle(p), false, Tied), Nil);
    }

    // ---------- talloc.c:598-620 ----------

    /** The handle that a search through the references of `p` finds. */
    method FindHandle(ctx: Chunk?, p: Chunk) returns (j: nat)
      requires Valid() && Knows(p)
      ensures j == FirstBelow(w, refs.of[p], T.Opt(ctx)) <= |refs.of[p]|
      ensures forall i :: 0 <= i < j ==> ParentOf(w, refs.of[p][i]) != T.Opt(ctx)
      ensures j < |refs.of[p]| ==> ParentOf(w, refs.of[p][j]) == T.Opt(ctx)
    {
      var hs := refs.of[p];
      j := 0;
      while j < |hs|
        invariant Valid() && 0 <= j <= |hs| && forall i :: 0 <= i < j ==> ParentOf(w, hs[i]) != T.Opt(ctx)
      {
        assert hs[j] in hs;
        KnownHandle(w, refs.of, p, hs[j]);
        var q := Parent(hs[j]);
        if q == ctx {
          break;
        }
        j := j + 1;
      }
      FirstAt(w, hs, T.Opt(ctx), j);
    }

    method DropHandle(h: Chunk, p: Chunk)
      requires Valid() && Knows(p) && h in refs.of[p]
      modifies this, refs, Ids(w)
      ensures Valid() && w == Cut(old(w), h) && refs.of == Dropped(old(refs.of), p, h)
    {
      HandleGone(w, refs.of, p, h);
      hide Zip, Sound, Takes, TryFree, Dropped;
      var r := FreeChunk(h, refs, w, [], Nowhere());
      w := Cut(w, h);
    }

    method Unreference(ctx: Chunk?, p: Chunk) returns (r: int)
      requires Valid() && Knows(p)
      modifies this, refs, Ids(w)
      ensures Valid()
      ensures T.Opt(ctx) !in Holders(old(w), old(refs.of)[p]) ==> r == -1 && w == old(w) && refs.of == old(refs.of)
      ensures T.Opt(ctx) in Holders(old(w), old(refs.of)[p]) ==>
                var h := Spent(old(w), old(refs.of)[p], T.Opt(ctx));
                r == 0 && w == Cut(old(w), h) && refs.of == Dropped(old(refs.of), p, h)
    {
      var j := FindHandle(ctx, p);
      if j == |refs.of[p]| {
        return -1;
      }
      DropHandle(refs.of[p][j], p);
      return 0;
    }

    // ---------- talloc.c:476-581 ----------

    /** A chunk that others refer to loses its newest reference; if that came from below the chunk itself, freeing
        starts again. Otherwise it goes, and so does what is below it and not kept by a reference or a destructor. */
    method Free(c: Chunk?) returns (r: int)
      requires Valid() && (c != null ==> Knows(c) && Ends(TryFree(w, refs.of, c)))
      modifies this, refs, Ids(w)
      ensures Valid()
      ensures c == null ==> r == -1 && w == old(w) && refs.of == old(refs.of)
      ensures c != null ==> Frees(old(w), old(refs.of), c, w, refs.of, r)
      ensures c != null ==> (r == 0 <==> c !in Ids(w)) && (r == -1 <==> c in Ids(w))
    {
      if c == null {
        return -1;
      }
      FreeFacts(w, refs.of, c);
      ghost var y := TryFree(w, refs.of, c);
      hide Zip, Sound, Takes, TryFree;
      r := FreeChunk(c, refs, w, [], Nowhere());
      w := y.w;
    }

    // ---------- talloc.c:626-681 ----------

    /** Takes one occurrence of the context away from the owners of `p`; the last one frees `p`. */
    method Unlink(ctx: Chunk?, p: Chunk?) returns (r: int)
      requires Valid() && (p != null ==> Knows(p))
      requires p != null && refs.of[p] == [] && ParentOf(w, p) == T.Opt(ctx) ==> Ends(TryFree(w, refs.of, p))
      requires p != null && refs.of[p] != [] && ParentOf(w, p) == T.Opt(ctx) ==> CanUnlink(w, refs.of, p, T.Opt(ctx))
      modifies this, refs, Ids(w)
      ensures Valid()
      ensures p == null ==> r == -1 && w == old(w) && refs.of == old(refs.of)
      ensures p != null ==> Unlinks(old(w), old(refs.of), p, T.Opt(ctx), w, refs.of, r)
      ensures p != null && T.Opt(ctx) !in OwnersOf(old(w), old(refs.of), p) ==>
                r == -1 && w == old(w) && refs.of == old(refs.of)
      ensures p != null && T.Opt(ctx) in OwnersOf(old(w), old(refs.of), p) && old(refs.of)[p] != [] ==>
                var o := LostOwner(old(w), old(refs.of), p, T.Opt(ctx));
                r == 0 && OneOwnerLess(old(w), old(refs.of), p, o, w, refs.of)
      ensures p != null && OwnersOf(old(w), old(refs.of), p) == multiset{T.Opt(ctx)} ==>
                (r == 0 <==> p !in Ids(w)) && (r == -1 <==> p in Ids(w))
    {
      if p == null {
        return -1;
      }
      r := Unreference(ctx, p);
      if r == 0 {
        UnlinkedHeld(old(w), old(refs.of), p, T.Opt(ctx));
      } else {
        r := UnlinkUnheld(ctx, p);
      }
      if T.Opt(ctx) in OwnersOf(old(w), old(refs.of), p) { LastOwner(old(w), old(refs.of), p, T.Opt(ctx)); }
      if OwnersOf(old(w), old(refs.of), p) == multiset{T.Opt(ctx)} {
        assert T.Opt(ctx) in OwnersOf(old(w), old(refs.of), p);
        FreesOr(old(w), old(refs.of), p, w, refs.of, r);
      }
    }

    /** The context has no reference to `p`: is it the parent? */
    method UnlinkUnheld(ctx: Chunk?, p: Chunk) returns (r: int)
      requires Valid() && Knows(p) && T.Opt(ctx) !in Holders(w, refs.of[p])
      requires refs.of[p] == [] && ParentOf(w, p) == T.Opt(ctx) ==> Ends(TryFree(w, refs.of, p))
      requires refs.of[p] != [] && ParentOf(w, p) == T.Opt(ctx) ==> CanUnlink(w, refs.of, p, T.Opt(ctx))
      modifies this, refs, Ids(w)
      ensures Valid() && Unlinks(old(w), old(refs.of), p, T.Opt(ctx), w, refs.of, r)
    {
      var q := Parent(p);
      if q != ctx {
        NotUnlinked(w, refs.of, p, T.Opt(ctx));
        r := -1;
      } else {
        r := UnlinkParent(p);
      }
    }

    /** The context is the parent of `p` and has no reference to it. */
    method UnlinkParent(p: Chunk) returns (r: int)
      requires Valid() && Knows(p) && ParentOf(w, p) !in Holders(w, refs.of[p])
      requires refs.of[p] == [] ==> Ends(TryFree(w, refs.of, p))
      requires refs.of[p] != [] ==> CanUnlink(w, refs.of, p, ParentOf(w, p))
      modifies this, refs, Ids(w)
      ensures Valid() && Unlinks(old(w), old(refs.of), p, old(ParentOf(w, p)), w, refs.of, r)
    {
      ghost var o := ParentOf(w, p);
      LastOwner(w, refs.of, p, o);
      if refs.of[p] == [] {
        r := Free(p);
      } else {
        r := Relink(p);
        UnlinkedAll(old(w), old(refs.of), p, o);
      }
    }

    /** The owner of the newest reference becomes the parent. */
    method Relink(p: Chunk) returns (r: int)
      requires Valid() && Knows(p) && refs.of[p] != []
      requires ParentOf(w, p) !in Holders(w, refs.of[p]) && CanUnlink(w, refs.of, p, ParentOf(w, p))
      modifies this, refs, Ids(w)
      ensures Valid() && r == 0
              && refs.of == Dropped(old(refs.of), p, Spent(old(w), old(refs.of)[p], old(ParentOf(w, p))))
      ensures p in Ids(Cut(old(w), Spent(old(w), old(refs.of)[p], old(ParentOf(w, p)))))
      ensures w == Unlinked(old(w), old(refs.of), p, old(ParentOf(w, p)))
    {
      var h := refs.of[p][0];
      KnownHandle(w, refs.of, p, h);
      UnlinkedFacts(w, refs.of, p, ParentOf(w, p));
      ghost var o := ParentOf(w, h);
      FirstAt(w, refs.of[p], o, 0);
      var newP := Parent(h);
      r := Unreference(newP, p);
      var _ := Steal(newP, p);
    }

    /** The owner of the newest reference is below the chunk: the chunk is hung below its own descendant, and the heap
        holds the forest without them. */
    method RelinkInside(p: Chunk) returns (r: int)
      requires Valid() && Knows(p) && refs.of[p] != []
      requires ParentOf(w, p) !in Holders(w, refs.of[p]) && !CanUnlink(w, refs.of, p, ParentOf(w, p))
      modifies this, refs, Ids(w)
      ensures p in Ids(Cut(old(w), Spent(old(w), old(refs.of)[p], old(ParentOf(w, p)))))
      ensures r == 0 && Zip(Top, Unlinked(old(w), old(refs.of), p, old(ParentOf(w, p))))
      ensures p.parent != null && p.parent.child == p && p.parent in Ids(old(Find(w, p).kids))
    {
      var h := refs.of[p][0];
      KnownHandle(w, refs.of, p, h);
      UnlinkedIff(w, refs.of, p, ParentOf(w, p));
      ghost var o := ParentOf(w, h);
      FirstAt(w, refs.of[p], o, 0);
      InsideFacts(w, refs.of, p, h);
      var newP := Parent(h);
      r := Unreference(newP, p);
      KnownTied(w, p);
      T.StealInside(newP, p, w);
    }

    // ---------- talloc.c:892-967 ----------

    /** `moves` says whether the memory block moves; `freed` is what a size of zero frees. */
    method Realloc(ctx: Chunk?, c: Chunk?, size: nat, moves: bool) returns (r: Chunk?, ghost freed: int)
      requires Valid() && (ctx != null ==> Knows(ctx)) && (c != null ==> Knows(c))
      requires c != null && size == 0 ==> Ends(TryFree(w, refs.of, c))
      modifies this, refs, Ids(w)
      ensures Valid()
      ensures size == 0 && c != null ==> Frees(old(w), old(refs.of), c, w, refs.of, freed)
      ensures size == 0 && c != null ==> (freed == 0 <==> c !in Ids(w)) && (freed == -1 <==> c in Ids(w))
      ensures size >= T.MAX_TALLOC_SIZE || (size == 0 && c == null)
              || (size > 0 && c != null && old(refs.of)[c] != []) ==>
                w == old(w) && refs.of == old(refs.of)
      ensures 0 < size < T.MAX_TALLOC_SIZE && c == null ==>
                r != null && fresh(r) && refs.of == old(refs.of)[r := []]
                && w == Hang(old(w), T.Opt(ctx), r, Info(size, NoDestructor, false, Tied), Nil)
      ensures 0 < size < T.MAX_TALLOC_SIZE && c != null && old(refs.of)[c] == [] ==>
                && r != null && (if moves then fresh(r) else r == c)
                && w == Renamed(old(w), c, r, size) && refs.of == (old(refs.of) - {c})[r := []]
      ensures r == null <==> size == 0 || size >= 0x7FFF_FFFF || (c != null && old(refs.of)[c] != [])
      ensures r != null ==> r in Ids(w) && r.size == size && Find(w, r).info.size == size
      ensures r != null && c != null ==> Find(w, r).info == Find(old(w), c).info.(size := size)
      ensures r != null ==>
                forall y :: y in Ids(old(w)) && y != c ==> y in Ids(w) && Find(w, y).info == Find(old(w), y).info
    {
      freed := 0;
      r := null;
      if size == 0 {
        freed := Free(c);
      } else if size < T.MAX_TALLOC_SIZE {
        if c == null {
          r := Alloc(ctx, size);
          HangAll(old(w), T.Opt(ctx), r, Info(size, NoDestructor, false, Tied));
          T.FieldsAt(w, r);
        } else if refs.of[c] == [] {
          r := Resize(c, size, moves);
          RenamedFields(old(w), c, r, size);
          T.FieldsAt(w, r);
        }
      }
    }

    method Resize(c: Chunk, size: nat, moves: bool) returns (b: Chunk)
      requires Valid() && Knows(c) && refs.of[c] == []
      modifies this, refs, Ids(w)
      ensures Valid() && (if moves then fresh(b) else b == c)
      ensures w == Renamed(old(w), c, b, size) && refs.of == (old(refs.of) - {c})[b := []]
    {
      if moves {
        b := ResizeElsewhere(c, size);
      } else {
        b := c;
        PutSize(c, size, w);
        ResizedOk(w, refs.of, c, size);
        w := Renamed(w, c, c, size);
      }
    }

    method ResizeElsewhere(c: Chunk, size: nat) returns (b: Chunk)
      requires Valid() && Knows(c) && refs.of[c] == []
      modifies this, refs, Ids(w)
      ensures Valid() && fresh(b) && w == Renamed(old(w), c, b, size) && refs.of == (old(refs.of) - {c})[b := []]
    {
      hide Sound;
      assert allocated(Ids(w));
      KnownSound(w, refs.of, c);
      b := Move(c, size, w);
      RenamedOk(w, refs.of, c, b, size);
      refs.of := (refs.of - {c})[b := []];
      w := Renamed(w, c, b, size);
    }
  }

  ghost predicate Sound(w: Grove, t: RefMap<Chunk>) {
    Tidy(w) && RefsOk(w, t)
  }

  lemma AllocOk(w: Grove, t: RefMap<Chunk>, o: Option<Chunk>, c: Chunk, i: Info<Chunk>)
    requires CanHang(w, o, c) && Sound(w, t) && Tidy(Cons(c, i, Nil, Nil)) && (o.Some? ==> !IsHandle(w, o.value))
             && !i.des.Handle?
    ensures Sound(Hang(w, o, c, i, Nil), t[c := []])
  {
    RefsHung(w, t, o, c, i);
    TidyHung(w, o, c, i);
  }

  lemma TidyHung<N>(w: Forest<N>, o: Option<N>, c: N, i: Info<N>)
    requires CanHang(w, o, c) && Tidy(w) && Tidy(Cons(c, i, Nil, Nil)) && (o.Some? ==> !IsHandle(w, o.value))
    ensures Tidy(Hang(w, o, c, i, Nil))
  {
    if o.Some? { TidyGraft(w, o.value, c, i, Nil); }
  }

  lemma RetitledOk(w: Grove, t: RefMap<Chunk>, c: Chunk, d: Destructor<Chunk>)
    requires Sound(w, t) && c in Ids(w) && !IsHandle(w, c) && !d.Handle?
    ensures Sound(WithDes(w, c, d), t)
  {
    WithDesFacts(w, c, d);
    RefsRetitled(w, t, c, d);
  }

  lemma KnownTied(w: Grove, c: Chunk)
    requires Tidy(w) && c in Ids(w)
    ensures T.Has(w, c) && !Find(w, c).info.loop && Calm(Find(w, c).kids)
  {
    TidyTree(w, c);
    TidyCalm(Find(w, c).kids);
  }

  lemma KnownSound(w: Grove, t: RefMap<Chunk>, c: Chunk)
    requires Sound(w, t) && c in Ids(w)
    ensures T.Has(w, c) && c in t
  {
    TidyTree(w, c);
  }

  lemma MovedOk(w: Grove, t: RefMap<Chunk>, x: Chunk, o: Option<Chunk>)
    requires Distinct(w) && Sound(w, t) && CanMove(w, x, o) && (o.Some? ==> !IsHandle(w, o.value))
    ensures Sound(Moved(w, x, o), t)
  {
    TidyMoved(w, x, o);
    RefsMoved(w, t, x, o);
  }

  lemma ReferenceOk(w: Grove, t: RefMap<Chunk>, o: Option<Chunk>, p: Chunk, h: Chunk)
    requires CanHang(w, o, h) && Sound(w, t) && (o.Some? ==> !IsHandle(w, o.value)) && p in Ids(w) && !IsHandle(w, p)
    ensures Sound(Hang(w, o, h, Info(HANDLE_SIZE, Handle(p), false, Tied), Nil), Filing(t, p, h))
  {
    RefsReferenced(w, t, o, p, h, Info(HANDLE_SIZE, Handle(p), false, Tied));
    TidyHung(w, o, h, Info(HANDLE_SIZE, Handle(p), false, Tied));
  }

  lemma KnownHandle(w: Grove, t: RefMap<Chunk>, p: Chunk, h: Chunk)
    requires Sound(w, t) && p in t && h in t[p]
    ensures h in Ids(w) && T.Has(w, h) && !Find(w, h).info.loop && Find(w, h).info.des == Handle(p)
  {
    TidyTree(w, h);
  }

  lemma {:induction false} FirstAt(w: Grove, hs: seq<Chunk>, o: Option<Chunk>, j: nat)
    requires j <= |hs| && (forall i :: 0 <= i < j ==> ParentOf(w, hs[i]) != o) && (j < |hs| ==> ParentOf(w, hs[j]) == o)
    ensures FirstBelow(w, hs, o) == j
  {
    if j > 0 {
      assert ParentOf(w, hs[0]) != o;
      FirstAt(w, hs[1..], o, j - 1);
    }
  }

  /** What freeing `c` makes of the forest and the lists. */
  ghost predicate Frees(w: Grove, t: RefMap<Chunk>, c: Chunk, w': Grove, t': RefMap<Chunk>, r: int) {
    c in Ids(w) && var y := TryFree(w, t, c); Ends(y) && w' == y.w && t' == y.t && r == Code(y)
  }

  /** The code returned tells whether the chunk is gone. */
  lemma FreesOr(w: Grove, t: RefMap<Chunk>, c: Chunk, w': Grove, t': RefMap<Chunk>, r: int)
    requires Distinct(w) && Sound(w, t) && Frees(w, t, c, w', t', r)
    ensures (r == 0 <==> c !in Ids(w')) && (r == -1 <==> c in Ids(w'))
  {
    FreeFacts(w, t, c);
    GoneIff(w, t, [], Nowhere(), c);
  }

  lemma FreeFacts(w: Grove, t: RefMap<Chunk>, c: Chunk)
    requires Distinct(w) && Sound(w, t) && c in Ids(w)
    ensures var y := TryFree(w, t, c); Takes(w, t, [], Nowhere(), c) && (Ends(y) ==> Sound(y.w, y.t))
  {
    GoodRests(w, t);
    TryGood(w, t, c);
  }

  /** Handles can always be freed. */
  lemma HandleGone(w: Grove, t: RefMap<Chunk>, p: Chunk, h: Chunk)
    requires Distinct(w) && Sound(w, t) && p in t && h in t[p]
    ensures h in Ids(w) && Takes(w, t, [], Nowhere(), h) && TryFree(w, t, h) == Freed(Cut(w, h), Dropped(t, p, h), {h})
    ensures Sound(Cut(w, h), Dropped(t, p, h))
  {
    FreeFacts(w, t, h);
    DroppedPurged(w, t, p, h);
    TryHandle(w, t, [], Nowhere(), p, h);
  }

  /** The owner of the newest reference is still below the chunk when the reference is gone. */
  lemma InsideFacts(w: Grove, t: RefMap<Chunk>, p: Chunk, h: Chunk)
    requires Distinct(w) && Sound(w, t) && p in Ids(w) && t[p] != [] && h == t[p][0]
    requires ParentOf(w, h).Some? && ParentOf(w, h).value in Ids(Find(w, p).kids)
    ensures p in Ids(Cut(w, h)) && ParentOf(w, h).value in Ids(Find(Cut(w, h), p).kids)
  {
    DropFacts(w, t, p, h);
    HolderElsewhere(w, t, p, h);
    TreeFacts(w, p);
    CutInTree(w, h, p, ParentOf(w, h).value);
  }

  /** `p` has lost one occurrence of the owner `o`, and no other chunk has lost or gained an owner. */
  ghost predicate OneOwnerLess(w: Grove, t: RefMap<Chunk>, p: Chunk, o: Option<Chunk>, w': Grove, t': RefMap<Chunk>) {
    && p in t && p in t' && OwnersOf(w', t', p) == OwnersOf(w, t, p) - multiset{o}
    && forall x :: x in t' && x != p ==> x in t && OwnersOf(w', t', x) == OwnersOf(w, t, x)
  }

  /** What unlinking `p` from `o` makes of the forest and the lists. */
  ghost predicate Unlinks(w: Grove, t: RefMap<Chunk>, p: Chunk, o: Option<Chunk>, w': Grove, t': RefMap<Chunk>,
                          r: int) {
    p in t &&
    if o !in OwnersOf(w, t, p) then r == -1 && w' == w && t' == t
    else if OwnersOf(w, t, p) == multiset{o} then Frees(w, t, p, w', t', r)
    else
      && r == 0 && t[p] != [] && p in Ids(Cut(w, Spent(w, t[p], o)))
      && w' == Unlinked(w, t, p, o) && t' == Dropped(t, p, Spent(w, t[p], o))
      && OneOwnerLess(w, t, p, LostOwner(w, t, p, o), w', t')
  }

  lemma LastOwner(w: Grove, t: RefMap<Chunk>, p: Chunk, o: Option<Chunk>)
    requires p in t && o in OwnersOf(w, t, p)
    ensures OwnersOf(w, t, p) == multiset{o} <==> t[p] == []
  {
    if t[p] != [] { assert |OwnersOf(w, t, p)| == 2 + |Holders(w, t[p][1..])|; }
  }

  lemma UnlinkedAll(w: Grove, t: RefMap<Chunk>, p: Chunk, o: Option<Chunk>)
    requires Distinct(w) && Sound(w, t) && p in t && t[p] != [] && CanUnlink(w, t, p, o) && o in OwnersOf(w, t, p)
    ensures p in Ids(Cut(w, Spent(w, t[p], o)))
    ensures Unlinks(w, t, p, o, Unlinked(w, t, p, o), Dropped(t, p, Spent(w, t[p], o)), 0)
  {
    LastOwner(w, t, p, o);
    var h := Spent(w, t[p], o);
    UnlinkedFacts(w, t, p, o);
    UnlinkedOwners(w, t, p, o, p);
    var w', t' := Unlinked(w, t, p, o), Dropped(t, p, h);
    forall x | x in t' && x != p ensures x in t && OwnersOf(w', t', x) == OwnersOf(w, t, x) {
      UnlinkedOwners(w, t, p, o, x);
    }
  }

  lemma UnlinkedHeld(w: Grove, t: RefMap<Chunk>, p: Chunk, o: Option<Chunk>)
    requires Distinct(w) && Sound(w, t) && p in t && o in Holders(w, t[p])
    ensures t[p] != [] && Unlinks(w, t, p, o, Cut(w, Spent(w, t[p], o)), Dropped(t, p, Spent(w, t[p], o)), 0)
  {
    UnlinkedAll(w, t, p, o);
  }

  lemma NotUnlinked(w: Grove, t: RefMap<Chunk>, p: Chunk, o: Option<Chunk>)
    requires p in t && o !in Holders(w, t[p]) && o != ParentOf(w, p)
    ensures Unlinks(w, t, p, o, w, t, -1)
  {
  }

  lemma RenamedOk(w: Grove, t: RefMap<Chunk>, c: Chunk, b: Chunk, size: nat)
    requires Distinct(w) && Sound(w, t) && c in Ids(w) && b !in Ids(w) && t[c] == [] && !IsHandle(w, c)
    ensures Sound(Renamed(w, c, b, size), (t - {c})[b := []])
  {
    TidyRenamed(w, c, b, size);
    RefsRenamed(w, t, c, b, size);
  }

  lemma {:induction false} RenamedSelf(f: Grove, c: Chunk, size: nat)
    ensures Ids(Renamed(f, c, c, size)) == Ids(f)
    ensures forall y :: y in Ids(f) ==> Find(Renamed(f, c, c, size), y).info.des == Find(f, y).info.des
  {
    if f.Cons? {
      RenamedSelf(f.kids, c, size);
      RenamedSelf(f.next, c, size);
    }
  }

  lemma ResizedOk(w: Grove, t: RefMap<Chunk>, c: Chunk, size: nat)
    requires Sound(w, t) && c in Ids(w) && t[c] == []
    ensures Sound(Renamed(w, c, c, size), t) && t == (t - {c})[c := []]
  {
    TidyRenamed(w, c, c, size);
    RenamedSelf(w, c, size);
    SameHandles(w, Renamed(w, c, c, size), t);
  }

  lemma SameHandles(w: Grove, v: Grove, t: RefMap<Chunk>)
    requires RefsOk(w, t) && Ids(v) == Ids(w) && forall y :: y in Ids(w) ==> Find(v, y).info.des == Find(w, y).info.des
    ensures RefsOk(v, t)
  {
    hide NoDup;
    SameListed(w, v, t);
    SameFiled(w, v, t);
  }

  lemma SameListed(w: Grove, v: Grove, t: RefMap<Chunk>)
    requires Listed(w, t) && Ids(v) == Ids(w) && forall y :: y in Ids(w) ==> Find(v, y).info.des == Find(w, y).info.des
    ensures Listed(v, t)
  {
  }

  lemma SameFiled(w: Grove, v: Grove, t: RefMap<Chunk>)
    requires Filed(w, t) && Ids(v) == Ids(w) && forall y :: y in Ids(w) ==> Find(v, y).info.des == Find(w, y).info.des
    ensures Filed(v, t)
  {
  }

  // ---------- in the heap ----------

  method PutSize(c: Chunk, size: nat, ghost w: Grove)
    requires Zip(Top, w) && c in Ids(w)
    modifies Ids(w)
    ensures Zip(Top, Renamed(w, c, c, size))
  {
    ghost var p, f := T.Focus(w, c);
    RenamedAt(p, f, c, size);
    PutSizeAt(c, size, p, f);
    ZipPlug(p, Replaced(f, c, size));
  }

  method PutSizeAt(c: Chunk, size: nat, ghost p: Spot, ghost f: Grove)
    requires f.Cons? && f.c == c && Zip(p, f)
    modifies c
    ensures Zip(p, Replaced(f, c, size))
  {
    c.size := size;
  }

  method PutDestructor(c: Chunk, d: Destructor<Chunk>, ghost w: Grove)
    requires Zip(Top, w) && c in Ids(w)
    modifies Ids(w)
    ensures Zip(Top, WithDes(w, c, d))
  {
    ghost var p, f := T.Focus(w, c);
    WithDesInside(p, f, c, d);
    WithDesAbsent(f.kids, c, d);
    WithDesAbsent(f.next, c, d);
    PutAt(c, d, p, f);
    ZipPlug(p, WithDes(f, c, d));
  }

  method PutAt(c: Chunk, d: Destructor<Chunk>, ghost p: Spot, ghost f: Grove)
    requires f.Cons? && f.c == c && Zip(p, f)
    modifies c
    ensures Zip(p, Cons(c, f.info.(des := d), f.kids, f.next))
  {
    c.destructor := d;
  }

  /** A chunk of its own stands for the reference: a child of the context with a destructor that ends it. */
  method MakeHandle(ctx: Chunk?, p: Chunk, ghost w: Grove) returns (h: Chunk)
    requires Zip(Top, w) && (ctx != null ==> ctx in Ids(w))
    modifies Ids(w)
    ensures fresh(h) && Zip(Top, Hang(w, T.Opt(ctx), h, Info(HANDLE_SIZE, Handle(p), false, Tied), Nil))
  {
    assert allocated(Ids(w));
    h := T.Alloc(ctx, HANDLE_SIZE, w);
    ghost var i := Info(HANDLE_SIZE, NoDestructor, false, Tied);
    HangIds(w, T.Opt(ctx), h, i);
    WithDesHang(w, T.Opt(ctx), h, i, Handle(p));
    PutDestructor(h, Handle(p), Hang(w, T.Opt(ctx), h, i, Nil));
  }

  lemma HangIds(w: Grove, o: Option<Chunk>, h: Chunk, i: Info<Chunk>)
    requires CanHang(w, o, h)
    ensures Ids(Hang(w, o, h, i, Nil)) == Ids(w) + {h}
  {
    HangFacts(w, o, h, i, h);
  }
}
