/**
 Ordered forests of memory chunks, as values. A forest is a list of trees; it is kept in
 first-child/next-sibling form, which is also how talloc.c links its chunks. Places are forests
 with one hole.
 */
module Forests {

  /** What `talloc_free` finds in a chunk's destructor slot: nothing, a caller's destructor that agrees or refuses, the
      marker of a destructor that is running, or the destructor of a reference handle. */
  datatype Destructor<N> = NoDestructor | Agrees | Refuses | Running | Handle(target: N)

  datatype Option<T> = None | Some(value: T)

  ghost function At<T>(s: seq<T>, j: nat): Option<T> {
    if j < |s| then Some(s[j]) else None
  }

  /** A chunk is tied into its list, or it has left it to be freed and keeps the links it had. */
  datatype Tie<N> = Tied | Loose(prev: Option<N>, parent: Option<N>)

  /** The fields of a chunk other than its links: its size, its destructor and its loop flag. */
  datatype Info<N> = Info(size: nat, des: Destructor<N>, loop: bool, tie: Tie<N>)

  datatype Forest<N> =
    | Nil
    | Cons(c: N, info: Info<N>, kids: Forest<N>, next: Forest<N>)

  datatype Place<N> =
    | Top
    | InKids(up: Place<N>, c: N, info: Info<N>, next: Forest<N>)
    | InNext(up: Place<N>, c: N, info: Info<N>, kids: Forest<N>)

  ghost function Fill<N>(p: Place<N>, f: Forest<N>): Forest<N> {
    match p
    case InKids(_, c, i, n) => Cons(c, i, f, n)
    case InNext(_, c, i, k) => Cons(c, i, k, f)
    case Top => f
  }

  ghost function Plug<N>(p: Place<N>, f: Forest<N>): Forest<N> {
    if p.Top? then f else Plug(p.up, Fill(p, f))
  }

  ghost function Ids<N>(f: Forest<N>): set<N> {
    match f
    case Nil => {}
    case Cons(c, _, k, n) => {c} + Ids(k) + Ids(n)
  }

  ghost function PlaceIds<N>(p: Place<N>): set<N> {
    match p
    case Top => {}
    case InKids(up, c, _, n) => PlaceIds(up) + {c} + Ids(n)
    case InNext(up, c, _, k) => PlaceIds(up) + {c} + Ids(k)
  }

  /** No chunk occurs twice. */
  ghost predicate Distinct<N>(f: Forest<N>) {
    match f
    case Nil => true
    case Cons(c, _, k, n) => Distinct(k) && Distinct(n) && c !in Ids(k) && c !in Ids(n) && Ids(k) !! Ids(n)
  }

  ghost predicate PlaceDistinct<N>(p: Place<N>) {
    match p
    case Top => true
    case InKids(up, c, _, n) =>
      PlaceDistinct(up) && Distinct(n) && c !in PlaceIds(up) && c !in Ids(n) && Ids(n) !! PlaceIds(up)
    case InNext(up, c, _, k) =>
      PlaceDistinct(up) && Distinct(k) && c !in PlaceIds(up) && c !in Ids(k) && Ids(k) !! PlaceIds(up)
  }

  lemma {:induction false} PlugIds<N>(p: Place<N>, f: Forest<N>)
    ensures Ids(Plug(p, f)) == PlaceIds(p) + Ids(f)
  {
    if !p.Top? { PlugIds(p.up, Fill(p, f)); }
  }

  // ---------- places inside places ----------

  ghost function Append<N>(path: Place<N>, base: Place<N>): Place<N> {
    match path
    case Top => base
    case InKids(up, c, i, n) => InKids(Append(up, base), c, i, n)
    case InNext(up, c, i, k) => InNext(Append(up, base), c, i, k)
  }

  lemma {:induction false} AppendTop<N>(path: Place<N>)
    ensures Append(path, Top) == path
  {
    if !path.Top? { AppendTop(path.up); }
  }

  lemma {:induction false} PlugAppend<N>(path: Place<N>, base: Place<N>, f: Forest<N>)
    ensures Plug(Append(path, base), f) == Plug(base, Plug(path, f))
  {
    if !path.Top? { PlugAppend(path.up, base, Fill(path, f)); }
  }

  /** Every chunk of a forest sits at a place of it. */
  lemma {:induction false} Locate<N>(f: Forest<N>, x: N) returns (p: Place<N>, g: Forest<N>)
    requires x in Ids(f)
    ensures Plug(p, g) == f && g.Cons? && g.c == x
  {
    if x == f.c {
      p, g := Top, f;
    } else if x in Ids(f.kids) {
      p, g := Locate(f.kids, x);
      PlugAppend(p, InKids(Top, f.c, f.info, f.next), g);
      p := Append(p, InKids(Top, f.c, f.info, f.next));
    } else {
      p, g := Locate(f.next, x);
      PlugAppend(p, InNext(Top, f.c, f.info, f.kids), g);
      p := Append(p, InNext(Top, f.c, f.info, f.kids));
    }
  }

  // ---------- measures ----------

  ghost function Count<N>(f: Forest<N>): nat {
    match f
    case Nil => 0
    case Cons(_, _, k, n) => 1 + Count(k) + Count(n)
  }

  // ---------- looking up, cutting out, hanging in ----------

  /** The list that starts at chunk `x`. */
  ghost function Find<N>(f: Forest<N>, x: N): (g: Forest<N>)
    requires x in Ids(f)
    ensures g.Cons? && g.c == x
  {
    if f.c == x then f else if x in Ids(f.kids) then Find(f.kids, x) else Find(f.next, x)
  }

  /** The forest without the tree at `x`. */
  ghost function Cut<N>(f: Forest<N>, x: N): Forest<N> {
    match f
    case Nil => Nil
    case Cons(c, i, k, n) => if c == x then n else Cons(c, i, Cut(k, x), Cut(n, x))
  }

  /** The forest with a tree as new first child of `p`. */
  ghost function Graft<N>(f: Forest<N>, p: N, c: N, i: Info<N>, k: Forest<N>): Forest<N> {
    match f
    case Nil => Nil
    case Cons(x, ix, xk, xn) =>
      if x == p then Cons(x, ix, Cons(c, i, k, xk), xn) else Cons(x, ix, Graft(xk, p, c, i, k), Graft(xn, p, c, i, k))
  }

  /** The parent of `x`, where the list `f` hangs below `par`. */
  ghost function ParentIn<N>(f: Forest<N>, par: Option<N>, x: N): Option<N> {
    match f
    case Nil => None
    case Cons(c, _, k, n) => if c == x then par else if x in Ids(k) then ParentIn(k, Some(c), x)
        else ParentIn(n, par, x)
  }

  ghost function ParentOf<N>(f: Forest<N>, x: N): Option<N> {
    ParentIn(f, None, x)
  }

  /** The parent of the chunks in the hole. */
  ghost function PlaceParent<N>(p: Place<N>): Option<N> {
    match p
    case Top => None
    case InKids(_, c, _, _) => Some(c)
    case InNext(up, _, _, _) => PlaceParent(up)
  }

  lemma {:induction false} CutAbsent<N>(f: Forest<N>, x: N)
    requires x !in Ids(f)
    ensures Cut(f, x) == f
  {
    if f.Cons? {
      CutAbsent(f.kids, x);
      CutAbsent(f.next, x);
    }
  }

  lemma {:induction false} GraftAbsent<N>(f: Forest<N>, p: N, c: N, i: Info<N>, k: Forest<N>)
    requires p !in Ids(f)
    ensures Graft(f, p, c, i, k) == f
  {
    if f.Cons? {
      GraftAbsent(f.kids, p, c, i, k);
      GraftAbsent(f.next, p, c, i, k);
    }
  }

  lemma {:induction false} CutInside<N>(p: Place<N>, f: Forest<N>, x: N)
    requires x !in PlaceIds(p)
    ensures Cut(Plug(p, f), x) == Plug(p, Cut(f, x))
  {
    if !p.Top? {
      CutInside(p.up, Fill(p, f), x);
      if p.InKids? { CutAbsent(p.next, x); } else { CutAbsent(p.kids, x); }
    }
  }

  lemma {:induction false} GraftInside<N>(q: Place<N>, f: Forest<N>, p: N, c: N, i: Info<N>, k: Forest<N>)
    requires p !in PlaceIds(q)
    ensures Graft(Plug(q, f), p, c, i, k) == Plug(q, Graft(f, p, c, i, k))
  {
    if !q.Top? {
      GraftInside(q.up, Fill(q, f), p, c, i, k);
      if q.InKids? { GraftAbsent(q.next, p, c, i, k); } else { GraftAbsent(q.kids, p, c, i, k); }
    }
  }

  lemma {:induction false} FindInside<N>(p: Place<N>, f: Forest<N>, x: N)
    requires x in Ids(f) && x !in PlaceIds(p)
    ensures x in Ids(Plug(p, f)) && Find(Plug(p, f), x) == Find(f, x)
  {
    if !p.Top? { FindInside(p.up, Fill(p, f), x); }
  }

  /** Where a chunk sits, its tree can be cut out and hung elsewhere. */
  lemma {:induction false} AtPlace<N>(p: Place<N>, f: Forest<N>)
    requires f.Cons? && PlaceDistinct(p) && Distinct(f) && Ids(f) !! PlaceIds(p)
    ensures f.c in Ids(Plug(p, f)) && Find(Plug(p, f), f.c) == f && Cut(Plug(p, f), f.c) == Plug(p, f.next)
    ensures forall c, i, k :: Graft(Plug(p, f), f.c, c, i, k) == Plug(p, f.(kids := Cons(c, i, k, f.kids)))
    ensures ParentOf(Plug(p, f), f.c) == PlaceParent(p)
  {
    CutInside(p, f, f.c);
    FindInside(p, f, f.c);
    forall c, i, k ensures Graft(Plug(p, f), f.c, c, i, k) == Plug(p, f.(kids := Cons(c, i, k, f.kids))) {
      GraftInside(p, f, f.c, c, i, k);
    }
    ParentInside(p, f, f.c);
  }

  lemma {:induction false} ParentInside<N>(p: Place<N>, f: Forest<N>, x: N)
    requires x in Ids(f) && PlaceDistinct(p) && Distinct(f) && Ids(f) !! PlaceIds(p)
    ensures ParentOf(Plug(p, f), x) == ParentIn(f, PlaceParent(p), x)
  {
    if !p.Top? { ParentInside(p.up, Fill(p, f), x); }
  }

  // ---------- predecessors ----------

  /** The chunk before `x` in its list, where `prev` is before the list `f`. */
  ghost function PrevIn<N>(f: Forest<N>, prev: Option<N>, x: N): Option<N> {
    match f
    case Nil => None
    case Cons(c, _, k, n) => if c == x then prev else if x in Ids(k) then PrevIn(k, None, x) else PrevIn(n, Some(c), x)
  }

  /** The sibling before `x`; top-level chunks have no siblings. */
  ghost function PrevOf<N>(f: Forest<N>, x: N): Option<N> {
    if ParentOf(f, x).None? then None else PrevIn(f, None, x)
  }

  ghost function PlacePrev<N>(p: Place<N>): Option<N> {
    if p.InNext? then Some(p.c) else None
  }

  lemma {:induction false} PrevInside<N>(p: Place<N>, f: Forest<N>, x: N)
    requires x in Ids(f) && PlaceDistinct(p) && Distinct(f) && Ids(f) !! PlaceIds(p)
    ensures PrevIn(Plug(p, f), None, x) == PrevIn(f, PlacePrev(p), x)
  {
    if !p.Top? { PrevInside(p.up, Fill(p, f), x); }
  }

  /** The predecessor stays when `x` goes. */
  lemma {:induction false} PrevElsewhere<N>(f: Forest<N>, prev: Option<N>, x: N)
    requires Distinct(f) && x in Ids(f)
    ensures var s := PrevIn(f, prev, x); s == prev || s.None? || s.value in Ids(Cut(f, x))
  {
    if f.c != x {
      if x in Ids(f.kids) {
        CutAbsent(f.next, x);
        PrevElsewhere(f.kids, None, x);
      } else {
        CutAbsent(f.kids, x);
        PrevElsewhere(f.next, Some(f.c), x);
      }
    }
  }

  // ---------- forests at rest ----------

  /** No chunk is being freed or walked over. */
  ghost predicate Calm<N>(f: Forest<N>) {
    f.Cons? ==> f.info.tie.Tied? && !f.info.loop && Calm(f.kids) && Calm(f.next)
  }

  lemma {:induction false} CalmTree<N>(w: Forest<N>, c: N)
    requires Calm(w) && c in Ids(w)
    ensures Calm(Find(w, c))
  {
    if w.c != c {
      if c in Ids(w.kids) { CalmTree(w.kids, c); } else { CalmTree(w.next, c); }
    }
  }
}
