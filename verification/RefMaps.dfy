/** Lists of reference handles, as values, and how they shrink when chunks go. */
module RefMaps {

  /** The lists of reference handles, newest first, that chunks have in `refs`. */
  type RefMap<N> = map<N, seq<N>>

  ghost function RefsOf<N>(t: RefMap<N>, x: N): seq<N> {
    if x in t then t[x] else []
  }

  ghost predicate NoDup<N>(s: seq<N>) {
    s != [] ==> s[0] !in s[1..] && NoDup(s[1..])
  }

  ghost function Without<N>(s: seq<N>, gone: set<N>): seq<N> {
    if s == [] then [] else if s[0] in gone then Without(s[1..], gone) else [s[0]] + Without(s[1..], gone)
  }

  function Minus<N(==)>(s: seq<N>, h: N): seq<N> {
    if s == [] then [] else if s[0] == h then Minus(s[1..], h) else [s[0]] + Minus(s[1..], h)
  }

  lemma {:induction false} MinusWithout<N>(s: seq<N>, h: N)
    ensures Minus(s, h) == Without(s, {h})
  {
    if s != [] { MinusWithout(s[1..], h); }
  }

  lemma {:induction false} WithoutNone<N>(s: seq<N>, gone: set<N>)
    requires forall x :: x in s ==> x !in gone
    ensures Without(s, gone) == s
  {
    if s != [] { WithoutNone(s[1..], gone); }
  }

  lemma {:induction false} WithoutTwice<N>(s: seq<N>, a: set<N>, b: set<N>)
    ensures Without(Without(s, a), b) == Without(s, a + b)
  {
    if s != [] {
      WithoutTwice(s[1..], a, b);
      if s[0] !in a { assert Without(s, a)[1..] == Without(s[1..], a); }
    }
  }

  lemma {:induction false} WithoutMember<N>(s: seq<N>, a: set<N>)
    ensures forall h :: h in Without(s, a) <==> h in s && h !in a
  {
    if s != [] { WithoutMember(s[1..], a); }
  }

  lemma {:induction false} WithoutNoDup<N>(s: seq<N>, gone: set<N>)
    requires NoDup(s)
    ensures NoDup(Without(s, gone))
  {
    WithoutMember(s, gone);
    if s != [] {
      WithoutNoDup(s[1..], gone);
      WithoutMember(s[1..], gone);
      if s[0] !in gone { assert Without(s, gone)[1..] == Without(s[1..], gone); }
    }
  }

  /** The newest handle goes. */
  lemma WithoutFirst<N>(s: seq<N>)
    requires s != [] && NoDup(s)
    ensures Without(s, {s[0]}) == s[1..]
  {
    WithoutNone(s[1..], {s[0]});
  }

  // ---------- all lists at once ----------

  /** The lists after the chunks `gone` are gone: their own lists, and themselves as handles. */
  ghost function Purged<N>(t: RefMap<N>, gone: set<N>): RefMap<N> {
    map x | x in t && x !in gone :: Without(t[x], gone)
  }

  lemma PurgedNone<N>(t: RefMap<N>)
    ensures Purged(t, {}) == t
  {
    forall x | x in t ensures Purged(t, {})[x] == t[x] { WithoutNone(t[x], {}); }
  }

  lemma PurgedTwice<N>(t: RefMap<N>, a: set<N>, b: set<N>)
    ensures Purged(Purged(t, a), b) == Purged(t, a + b)
  {
    forall x | x in t && x !in a + b ensures Purged(Purged(t, a), b)[x] == Purged(t, a + b)[x] {
      WithoutTwice(t[x], a, b);
    }
  }

  lemma PurgedMember<N>(t: RefMap<N>, gone: set<N>, x: N, h: N)
    requires x !in gone
    ensures h in RefsOf(Purged(t, gone), x) <==> h in RefsOf(t, x) && h !in gone
  {
    if x in t { WithoutMember(t[x], gone); }
  }

  lemma PurgedNoDup<N>(t: RefMap<N>, gone: set<N>)
    requires forall x :: x in t ==> NoDup(t[x])
    ensures forall x :: x in Purged(t, gone) ==> NoDup(Purged(t, gone)[x])
  {
    forall x | x in Purged(t, gone) ensures NoDup(Purged(t, gone)[x]) { WithoutNoDup(t[x], gone); }
  }

  /** A list that names none of them stays as it is. */
  lemma PurgedSame<N>(t: RefMap<N>, gone: set<N>, x: N)
    requires x !in gone && forall h :: h in RefsOf(t, x) ==> h !in gone
    ensures RefsOf(Purged(t, gone), x) == RefsOf(t, x)
  {
    if x in t { WithoutNone(t[x], gone); }
  }

  // ---------- one list ----------

  /** The lists after the handle `h` has been taken out of the list of `p`. */
  function Unlisted<N(==)>(t: RefMap<N>, p: N, h: N): RefMap<N> {
    if p in t then t[p := Minus(t[p], h)] else t
  }

  /** A chunk that is listed at most for `p` goes when it is taken out of that list. */
  lemma PurgedOne<N>(t: RefMap<N>, p: N, h: N)
    requires forall x :: x in t && h in t[x] ==> x == p
    ensures Unlisted(t, p, h) - {h} == Purged(t, {h})
  {
    forall x | x in t && x != h ensures (Unlisted(t, p, h) - {h})[x] == Purged(t, {h})[x] {
      if x == p { MinusWithout(t[x], h); } else { WithoutNone(t[x], {h}); }
    }
  }

  lemma PurgedKey<N>(t: RefMap<N>, c: N)
    requires forall x :: x in t ==> c !in t[x]
    ensures t - {c} == Purged(t, {c})
  {
    forall x | x in t && x != c ensures (t - {c})[x] == Purged(t, {c})[x] { WithoutNone(t[x], {c}); }
  }

  /** Nobody refers to these chunks: the tests at talloc.c:487 and 546 fail for them. */
  ghost predicate NoRefs<N>(t: RefMap<N>, s: set<N>) {
    forall x :: x in s && x in t ==> t[x] == []
  }
}
