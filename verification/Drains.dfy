/**
 `_talloc_free` (talloc.c:476-581) as a function on values, wherever the handles are that refer to the chunk or to what
 is below it. A chunk that is being freed stands at the front of the forest and keeps what it remembers of its old
 links.
 */
module Drains {
  import opened Forests
  import opened Transfers
  import opened Releases
  import opened RefMaps

  /** How a call ends. The chunk is freed, or it stays; or the code comes to a point where it hangs a chunk `y` below
      its own descendant `q`, or where it reads a freed chunk. `freed` are the chunks that have been given back so far.
      The last case does not occur. */
  datatype Result<N> =
    | Freed(w: Forest<N>, t: RefMap<N>, freed: set<N>)
    | Kept(w: Forest<N>, t: RefMap<N>, freed: set<N>)
    | Hung(w: Forest<N>, t: RefMap<N>, freed: set<N>, y: N, q: N)
    | Blind(w: Forest<N>, t: RefMap<N>, freed: set<N>)
    | Odd

  ghost function Also<N>(r: Result<N>, more: set<N>): Result<N> {
    match r
    case Freed(w, t, f) => Freed(w, t, more + f)
    case Kept(w, t, f) => Kept(w, t, more + f)
    case Hung(w, t, f, y, q) => Hung(w, t, more + f, y, q)
    case Blind(w, t, f) => Blind(w, t, more + f)
    case Odd => Odd
  }

  // ---------- old links ----------

  /** What a chunk is like after it has left its list: no destructor, the loop flag, and its old links. */
  ghost function Leaving<N>(w: Forest<N>, y: N): Info<N>
    requires y in Ids(w)
  {
    var prev := PrevOf(w, y);
    Info(Find(w, y).info.size, NoDestructor, true, Loose(prev, if prev.None? then ParentOf(w, y) else None))
  }

  /** The parent that a chunk with the fields `i` finds through its old links. */
  ghost function Former<N>(w: Forest<N>, i: Info<N>): Option<N> {
    match i.tie
    case Tied => None
    case Loose(None, q) => q
    case Loose(Some(s), _) => ParentOf(w, s)
  }

  /** The old predecessor, if there was one, is still there. */
  ghost predicate SeesOwn<N>(w: Forest<N>, i: Info<N>) {
    i.tie.Loose? && i.tie.prev.Some? ==> i.tie.prev.value in Ids(w)
  }

  ghost predicate Sighted<N>(w: Forest<N>) {
    forall x :: x in Ids(w) ==> SeesOwn(w, Find(w, x).info)
  }

  /** `h` is below a chunk that is being freed. */
  ghost predicate Covered<N>(w: Forest<N>, h: N) {
    w.Cons? && if h == w.c || h in Ids(w.kids) then w.info.tie.Loose? else Covered(w.next, h)
  }

  // ---------- freeing ----------

  /** The chunk `y` is hung below `o`; a new top-level chunk comes behind the chunk that is being freed. */
  ghost function Settled<N>(w: Forest<N>, y: N, o: Option<N>): Forest<N>
    requires y in Ids(w)
  {
    if o == Some(y) then w
    else if o.Some? then Moved(w, y, o)
    else
      var x := Cut(w, y);
      if x.Nil? then w else Cons(x.c, x.info, x.kids, Cons(y, Find(w, y).info, Find(w, y).kids, x.next))
  }

  /** The parent of the newest handle. */
  ghost function Holder<N>(w: Forest<N>, t: RefMap<N>, y: N): Option<N> {
    var hs := RefsOf(t, y);
    if hs == [] then None else ParentOf(w, hs[0])
  }

  /** Finding out whether the handle `h` is below `y` goes through the old links of a chunk that is being freed. */
  ghost predicate Strays<N>(w: Forest<N>, y: N, h: N)
    requires y in Ids(w)
  {
    h !in TreeIds(w, y) && Covered(w, h)
  }

  /** Free the chunk `y`. As long as somebody refers to it, its newest handle goes instead; the call goes on only if the
      handle was below `y`. */
  ghost function TryFree<N>(w: Forest<N>, t: RefMap<N>, y: N): Result<N>
    requires y in Ids(w)
    decreases Count(w), Count(Find(w, y).kids), 2
  {
    var hs := RefsOf(t, y);
    if hs != [] then
      var h := hs[0];
      if Strays(w, y, h) && !Sighted(w) then Blind(w, t, {})
      else if y !in Ids(Cut(w, h)) || Count(Cut(w, h)) >= Count(w) then Odd
      else if h in TreeIds(w, y) then Also(TryFree(Cut(w, h), Purged(t, {h}), y), {h})
      else Kept(Cut(w, h), Purged(t, {h}), {h})
    else if Refusing(Find(w, y).info) then Kept(w, t, {})
    else if 1 + Count(Find(w, y).kids) + Count(Cut(w, y)) > Count(w) then Odd
    else Drain(y, Leaving(w, y), Find(w, y).kids, Cut(w, y), Purged(t, {y}))
  }

  /** In this round the code looks up the former parent. */
  ghost predicate AsksParent<N>(w: Forest<N>, t: RefMap<N>, k: Forest<N>)
    requires k.Cons?
  {
    Holder(w, t, k.c).None? && (RefsOf(t, k.c) != [] || k.info.des != NoDestructor)
  }

  ghost function NewParent<N>(w: Forest<N>, t: RefMap<N>, i: Info<N>, y: N): Option<N> {
    var q := Holder(w, t, y);
    if q.Some? then q else Former(w, i)
  }

  /** One round of the loop over the children `k` of `c`. */
  ghost function Turn<N>(c: N, i: Info<N>, k: Forest<N>, rest: Forest<N>, t: RefMap<N>): Result<N>
    requires k.Cons?
    decreases 1 + Count(k) + Count(rest), Count(k), 0
  {
    var w := Cons(c, i, k, rest);
    if k.c == c then Odd
    else if AsksParent(w, t, k) && !SeesOwn(w, i) then Blind(w, t, {})
    else
      assert Find(w, k.c) == Find(k, k.c) == k;
      var r := TryFree(w, t, k.c);
      var o := NewParent(w, t, i, k.c);
      if !r.Kept? then r
      else if k.c !in Ids(r.w) then Odd
      else if o.Some? && o.value in Ids(Find(r.w, k.c).kids) then Hung(r.w, r.t, r.freed, k.c, o.value)
      else Freed(Settled(r.w, k.c, o), r.t, r.freed)
  }

  /** The loop over the children `k` of `c`, and the end of `c`. */
  ghost function Drain<N>(c: N, i: Info<N>, k: Forest<N>, rest: Forest<N>, t: RefMap<N>): Result<N>
    decreases 1 + Count(k) + Count(rest), Count(k), 1
  {
    if k.Nil? then Freed(rest, t, {c})
    else
      var r := Turn(c, i, k, rest, t);
      if !r.Freed? then r
      else if Fewer(c, i, k, rest, r.w) then Also(Drain(c, i, r.w.kids, r.w.next, r.t), r.freed)
      else Odd
  }

  /** `c` is still in front, and there are fewer chunks, or fewer below `c`. */
  ghost predicate Fewer<N>(c: N, i: Info<N>, k: Forest<N>, rest: Forest<N>, w: Forest<N>) {
    && w.Cons? && w.c == c && w.info == i
    && (Count(w) < 1 + Count(k) + Count(rest) || (Count(w) == 1 + Count(k) + Count(rest) && Count(w.kids) < Count(k)))
  }
}
