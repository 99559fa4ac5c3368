/** Whole runs of allocator calls. */
module ArenaRuns {
  import opened Forests
  import opened Transfers
  import opened Releases
  import opened RefMaps
  import opened Flows
  import opened FlowFacts
  import opened FlowPlain
  import opened Sights
  import opened Aftermaths
  import opened Ownership
  import opened Owners
  import opened Realloc
  import opened Chunks
  import opened Arenas
  import opened DrainFlow
  import D = Drains
  import F = Freeing
  import T = Talloc

  /** A reference followed by an unlink from the same context leaves everything as it was. */
  method ReferenceThenUnlink(a: Arena, ctx: Chunk?, p: Chunk) returns (r: int)
    requires a.Valid() && a.Knows(p) && (ctx != null ==> a.Knows(ctx))
    modifies a, a.refs, Ids(a.w)
    ensures a.Valid() && r == 0 && a.w == old(a.w) && a.refs.of == old(a.refs.of)
  {
    ghost var w, t := a.w, a.refs.of;
    var _, h := a.Reference(ctx, p);
    ghost var i := Info(HANDLE_SIZE, Handle(p), false, Tied);
    StillKnown(w, t, T.Opt(ctx), h.value, i, p);
    ReferenceUnlink(w, t, T.Opt(ctx), p, h.value, i);
    NotLast(a.w, a.refs.of, p, T.Opt(ctx));
    r := a.Unlink(ctx, p);
  }

  lemma StillKnown(w: Grove, t: RefMap<Chunk>, o: Option<Chunk>, h: Chunk, i: Info<Chunk>, p: Chunk)
    requires CanHang(w, o, h) && p in Ids(w) && !IsHandle(w, p)
    ensures Ids(Hang(w, o, h, i, Nil)) == Ids(w) + {h} && !IsHandle(Hang(w, o, h, i, Nil), p)
  {
    HangFacts(w, o, h, i, p);
  }

  lemma NotLast(w: Grove, t: RefMap<Chunk>, p: Chunk, o: Option<Chunk>)
    requires p in t && o in Holders(w, t[p])
    ensures o in OwnersOf(w, t, p) && OwnersOf(w, t, p) != multiset{o}
  {
    LastOwner(w, t, p, o);
  }

  // ---------- runs without references ----------

  /** A call in a program that keeps the pointers it got in a list; `None` stands for NULL. */
  datatype Op =
    | DoAlloc(ctx: Option<nat>, size: nat)
    | DoSetDestructor(c: nat, refuses: Option<bool>)
    | DoSteal(ctx: Option<nat>, c: nat)
    | DoFree(c: nat)
    | DoRealloc(c: nat, size: nat, moves: bool)

  /** The destructor of a call: NULL, or one that agrees or refuses. */
  function ToSet(refuses: Option<bool>): Destructor<Chunk> {
    match refuses
    case None => NoDestructor
    case Some(r) => if r then Refuses else Agrees
  }

  ghost predicate NoReferences(t: RefMap<Chunk>) {
    forall x :: x in t ==> t[x] == []
  }

  /** Without references there are no handles, and everything can be freed. */
  lemma NoHandles(w: Grove, t: RefMap<Chunk>, c: Chunk)
    requires Distinct(w) && Sound(w, t) && NoReferences(t) && c in t
    ensures c in Ids(w) && !IsHandle(w, c)
    ensures var r := D.TryFree(w, t, c);
            if Refusing(Find(w, c).info) then r == D.Kept(w, t, {}) else Same(r, Aftermath(w, t, c))
  {
    assert CanGo(w, t, c);
    if !Refusing(Find(w, c).info) {
      StartInv(w, t, c);
      PrevElsewhere(w, None, c);
      var k, s, par := Find(w, c).kids, YardOf(w, t, c), ParentOf(w, c);
      if PrevOf(w, c).Some? {
        assert !Grips(k, s.refs, PrevOf(w, c).value);
        SeesOther(k, s, par, PrevOf(w, c).value);
      } else {
        SeesNone(k, s, par);
      }
      TryIs(w, t, c);
    }
  }

  lemma StillNone(w: Grove, t: RefMap<Chunk>, c: Chunk)
    requires Distinct(w) && Sound(w, t) && NoReferences(t) && c in t
    ensures c in Ids(w) && F.Ends(D.TryFree(w, t, c))
    ensures var r := D.TryFree(w, t, c); NoReferences(r.t) && r.w == Freed(w, c) && Ids(r.w) <= Ids(w)
  {
    NoHandles(w, t, c);
    AftermathPlain(w, t, c);
    ReleasedFacts(w, c);
  }

  // ---------- what one call means for the forest ----------

  /** The chunk that pointer number `i` points to, if it is alive. */
  ghost function Target(names: seq<Chunk>, w: Grove, i: nat): Option<Chunk> {
    if i < |names| && names[i] in Ids(w) then Some(names[i]) else None
  }

  ghost function Context(names: seq<Chunk>, w: Grove, ctx: Option<nat>): Option<Chunk> {
    if ctx.None? then None else Target(names, w, ctx.value)
  }

  /** The forest after a call to free the chunk `c`. */
  ghost function Freed(w: Grove, c: Chunk): Grove
    requires c in Ids(w)
  {
    if Refusing(Find(w, c).info) then w else Released(w, c)
  }

  /** The forest after the caller has moved `c`, unless the new parent is inside its tree. */
  ghost function Stolen(w: Grove, c: Chunk, o: Option<Chunk>): Grove
    requires c in Ids(w)
  {
    if o.Some? && o.value in TreeIds(w, c) then w else Moved(w, c, o)
  }

  ghost predicate Allocates(names: seq<Chunk>, w: Grove, o: Option<Chunk>, size: nat, names': seq<Chunk>, w': Grove) {
    if size >= T.MAX_TALLOC_SIZE then names' == names && w' == w
    else
      && |names'| == |names| + 1 && names'[..|names|] == names && names'[|names|] !in Ids(w)
      && w' == Hang(w, o, names'[|names|], Info(size, NoDestructor, false, Tied), Nil)
  }

  ghost predicate Resizes(names: seq<Chunk>, w: Grove, i: nat, size: nat, moves: bool, names': seq<Chunk>, w': Grove)
    requires i < |names| && names[i] in Ids(w)
  {
    if size == 0 then names' == names && w' == Freed(w, names[i])
    else if size >= T.MAX_TALLOC_SIZE then names' == names && w' == w
    else
      && |names'| == |names| && names' == names[i := names'[i]] && w' == Renamed(w, names[i], names'[i], size)
      && if moves then names'[i] !in Ids(w) else names'[i] == names[i]
  }

  /** The call `op` turns the pointers and the forest into `names'` and `w'`. */
  ghost predicate Follows(names: seq<Chunk>, w: Grove, op: Op, names': seq<Chunk>, w': Grove) {
    if op.DoAlloc? then Allocates(names, w, Context(names, w, op.ctx), op.size, names', w')
    else if Target(names, w, op.c).None? then names' == names && w' == w
    else
      match op
      case DoSetDestructor(i, refuses) => names' == names && w' == WithDes(w, names[i], ToSet(refuses))
      case DoSteal(ctx, i) => names' == names && w' == Stolen(w, names[i], Context(names, w, ctx))
      case DoFree(i) => names' == names && w' == Freed(w, names[i])
      case DoRealloc(i, size, moves) => Resizes(names, w, i, size, moves, names', w')
  }

  // ---------- the calls ----------

  ghost predicate Ready(a: Arena)
    reads a, a.refs, Ids(a.w)
  {
    a.Valid() && NoReferences(a.refs.of)
  }

  method Pointer(a: Arena, names: seq<Chunk>, i: nat) returns (c: Chunk?)
    requires Ready(a)
    ensures Ready(a) && T.Opt(c) == Target(names, a.w, i)
    ensures c != null ==> a.Knows(c) && c in a.refs.of && F.Ends(D.TryFree(a.w, a.refs.of, c))
  {
    c := null;
    if i < |names| && names[i] in a.refs.of {
      c := names[i];
      NoHandles(a.w, a.refs.of, c);
    }
  }

  method Steal(a: Arena, newCtx: Chunk?, c: Chunk)
    requires Ready(a) && a.Knows(c) && (newCtx != null ==> a.Knows(newCtx))
    modifies a, Ids(a.w)
    ensures Ready(a) && a.w == Stolen(old(a.w), c, T.Opt(newCtx)) && Ids(a.w) == old(Ids(a.w))
  {
    var inside := a.IsParent(newCtx, c);
    if !inside {
      MovedFacts(a.w, c, T.Opt(newCtx));
      var _ := a.Steal(newCtx, c);
    }
  }

  method Free(a: Arena, c: Chunk)
    requires Ready(a) && a.Knows(c) && c in a.refs.of && F.Ends(D.TryFree(a.w, a.refs.of, c))
    modifies a, a.refs, Ids(a.w)
    ensures Ready(a) && a.w == Freed(old(a.w), c) && Ids(a.w) <= old(Ids(a.w))
  {
    StillNone(a.w, a.refs.of, c);
    hide D.TryFree, Aftermath, Sound;
    var _ := a.Free(c);
  }

  method Resize(a: Arena, c: Chunk, size: nat, moves: bool) returns (b: Chunk?)
    requires Ready(a) && a.Knows(c) && c in a.refs.of && F.Ends(D.TryFree(a.w, a.refs.of, c))
    modifies a, a.refs, Ids(a.w)
    ensures Ready(a) && fresh(Ids(a.w) - old(Ids(a.w)))
    ensures b == null <==> size == 0 || size >= T.MAX_TALLOC_SIZE
    ensures b == null ==> a.w == if size == 0 then Freed(old(a.w), c) else old(a.w)
    ensures b != null ==> a.w == Renamed(old(a.w), c, b, size) && if moves then fresh(b) else b == c
  {
    StillNone(a.w, a.refs.of, c);
    hide D.TryFree, Aftermath, Sound;
    ghost var freed;
    b, freed := a.Realloc(null, c, size, moves);
  }

  /** One call. The program does not use pointers to chunks that are gone, and does not steal into a chunk's own
      subtree. */
  method Step(a: Arena, names: seq<Chunk>, op: Op) returns (names': seq<Chunk>)
    requires Ready(a)
    modifies a, a.refs, Ids(a.w)
    ensures Ready(a) && fresh(Ids(a.w) - old(Ids(a.w)))
    ensures Follows(names, old(a.w), op, names', a.w)
  {
    names' := names;
    var ctx: Chunk? := null;
    if (op.DoAlloc? || op.DoSteal?) && op.ctx.Some? { ctx := Pointer(a, names, op.ctx.value); }
    if op.DoAlloc? {
      var c := a.Alloc(ctx, op.size);
      if c != null { names' := names + [c]; }
      return;
    }
    var c := Pointer(a, names, op.c);
    if c == null {
      return;
    }
    match op
    case DoSetDestructor(_, refuses) => a.SetDestructor(c, ToSet(refuses));
    case DoSteal(_, _) => Steal(a, ctx, c);
    case DoFree(_) => Free(a, c);
    case DoRealloc(i, size, moves) =>
      var b := Resize(a, c, size, moves);
      if b != null { names' := names[i := b]; }
  }

  datatype Stage = Stage(names: seq<Chunk>, w: Grove)

  /** Every run from the empty heap is a run of the forest machine, and the heap holds its forest all along: siblings
      doubly linked, and only the first child with a parent pointer. */
  method Run(ops: seq<Op>) returns (a: Arena, names: seq<Chunk>, ghost trace: seq<Stage>)
    ensures fresh(a) && Ready(a)
    ensures |trace| == |ops| + 1 && trace[0] == Stage([], Nil) && trace[|ops|] == Stage(names, a.w)
    ensures forall i :: 0 <= i < |ops| ==>
            Follows(trace[i].names, trace[i].w, ops[i], trace[i + 1].names, trace[i + 1].w)
  {
    a := new Arena();
    names := [];
    trace := [Stage([], Nil)];
    for i := 0 to |ops|
      invariant Ready(a) && fresh(a) && fresh(a.refs) && fresh(Ids(a.w))
      invariant |trace| == i + 1 && trace[0] == Stage([], Nil) && trace[i] == Stage(names, a.w)
      invariant forall j :: 0 <= j < i ==>
                Follows(trace[j].names, trace[j].w, ops[j], trace[j + 1].names, trace[j + 1].w)
    {
      names := Step(a, names, ops[i]);
      trace := trace + [Stage(names, a.w)];
    }
  }
}
