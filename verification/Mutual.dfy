/**
 Two inputs for `talloc_unlink`. Two chunks refer to each other: no handle is below its own target, and the first unlink
 is fine, but it moves one chunk below the other; a second unlink then hangs the other one below itself, and both are
 lost. And a chunk refers to itself: unlinking it from its parent takes its own reference away instead.
 */
module Mutual {
  import opened Forests
  import opened Transfers
  import opened RefMaps
  import opened Ownership
  import opened Owners

  const A := 1
  const B := 2
  const TO_A := 3
  const TO_B := 4

  function Plain(): Info<int> {
    Info(8, NoDestructor, false, Tied)
  }

  function Ref(p: int): Info<int> {
    Info(24, Handle(p), false, Tied)
  }

  /** `A` and `B` are top-level chunks; each has a handle of a reference to the other. */
  ghost function Before(): Forest<int> {
    Cons(A, Plain(), Cons(TO_B, Ref(B), Nil, Nil), Cons(B, Plain(), Cons(TO_A, Ref(A), Nil, Nil), Nil))
  }

  ghost function Lists(): RefMap<int> {
    map[A := [TO_A], B := [TO_B], TO_A := [], TO_B := []]
  }

  /** `A` has moved below `B`. */
  ghost function Between(): Forest<int> {
    Cons(B, Plain(), Cons(A, Plain(), Cons(TO_B, Ref(B), Nil, Nil), Nil), Nil)
  }

  lemma BeforeFacts()
    ensures Ids(Before()) == {A, B, TO_A, TO_B} && Distinct(Before()) && Tidy(Before())
    ensures ParentOf(Before(), A) == None && ParentOf(Before(), TO_A) == Some(B) && TreeIds(Before(), A) == {A, TO_B}
    ensures Find(Before(), TO_A).info == Ref(A) && Find(Before(), TO_B).info == Ref(B) && !IsHandle(Before(), A)
            && !IsHandle(Before(), B)
  {
    var kb := Cons(TO_A, Ref(A), Nil, Nil);
    var nb := Cons(B, Plain(), kb, Nil);
    var ka := Cons(TO_B, Ref(B), Nil, Nil);
    assert Ids(kb) == {TO_A} && Ids(ka) == {TO_B} && Ids(nb) == {B, TO_A};
    assert Distinct(nb) && Distinct(ka) && Tidy(nb) && Tidy(ka);
    assert ParentIn(nb, None, TO_A) == ParentIn(kb, Some(B), TO_A) == Some(B);
    assert Find(nb, TO_A) == Find(kb, TO_A) == kb && Find(ka, TO_B) == ka && Find(nb, B) == nb;
  }

  /** The state before is one that the allocator's own calls lead to. */
  lemma BeforeLegal()
    ensures RefsOk(Before(), Lists())
  {
    BeforeFacts();
    var w, t := Before(), Lists();
    assert forall x, h :: x in t && h in t[x] ==> (x == A && h == TO_A) || (x == B && h == TO_B);
    assert Listed(w, t);
    assert NoDup([TO_A]) && NoDup([TO_B]);
  }

  lemma FirstUnlink()
    ensures A in Lists() && A in Ids(Before()) && None !in Holders(Before(), Lists()[A])
            && CanUnlink(Before(), Lists(), A, None)
    ensures Spent(Before(), Lists()[A], None) == TO_A && A in Ids(Cut(Before(), TO_A))
            && Unlinked(Before(), Lists(), A, None) == Between()
  {
    BeforeFacts();
    var hs := Lists()[A];
    assert hs[1..] == [] && Holders(Before(), hs) == multiset{Some(B)};
    var kb := Cons(TO_A, Ref(A), Nil, Nil);
    var nb := Cons(B, Plain(), kb, Nil);
    var ka := Cons(TO_B, Ref(B), Nil, Nil);
    var cut := Cut(Before(), TO_A);
    assert Cut(kb, TO_A) == Nil && Cut(nb, TO_A) == Cons(B, Plain(), Nil, Nil) && Cut(ka, TO_A) == ka;
    assert cut == Cons(A, Plain(), ka, Cons(B, Plain(), Nil, Nil));
    assert Cut(cut, A) == Cons(B, Plain(), Nil, Nil);
  }

  /** After the first unlink the second one may not be made. */
  lemma SecondUnlink()
    ensures var t := Dropped(Lists(), A, TO_A);
            B in t && t[B] != [] && B in Ids(Between()) && !CanUnlink(Between(), t, B, None)
  {
    DroppedList(Lists(), A, TO_A, B);
    var kt := Cons(TO_B, Ref(B), Nil, Nil);
    var kb := Cons(A, Plain(), kt, Nil);
    assert Ids(kt) == {TO_B} && Ids(kb) == {A, TO_B} && Ids(Between()) == {B, A, TO_B};
    assert ParentIn(kb, Some(B), TO_B) == ParentIn(kt, Some(A), TO_B) == Some(A);
    assert ParentOf(Between(), TO_B) == Some(A);
    var hs := Lists()[B];
    assert hs[1..] == [] && Holders(Between(), hs) == multiset{Some(A)};
  }

  /** If it is made all the same, both chunks are lost: nothing is left of the forest. */
  lemma SecondLosesAll()
    ensures var t := Dropped(Lists(), A, TO_A);
            && B in t && t[B] != [] && B in Ids(Cut(Between(), Spent(Between(), t[B], None)))
            && Unlinked(Between(), t, B, None) == Nil && Ids(Between()) - {Spent(Between(), t[B], None)} != {}
  {
    var t := Dropped(Lists(), A, TO_A);
    BeforeFacts();
    BeforeLegal();
    FirstUnlink();
    UnlinkedOk(Before(), Lists(), A, None);
    SecondUnlink();
    UnlinkedIff(Between(), t, B, None);
    var cut := Cut(Between(), Spent(Between(), t[B], None));
    assert t[B] == [TO_B] by { DroppedList(Lists(), A, TO_A, B); }
    assert A in Ids(Between());
    assert cut.Cons? && cut.c == B && cut.next == Nil;
  }

  // ---------- a chunk that refers to itself ----------

  /** `A` has the child `B`, and below `B` is a handle to `B`. */
  ghost function Alone(): Forest<int> {
    Cons(A, Plain(), Cons(B, Plain(), Cons(TO_B, Ref(B), Nil, Nil), Nil), Nil)
  }

  ghost function OwnList(): RefMap<int> {
    map[A := [], B := [TO_B], TO_B := []]
  }

  lemma AloneFacts()
    ensures Ids(Alone()) == {A, B, TO_B} && Distinct(Alone()) && Tidy(Alone())
    ensures ParentOf(Alone(), B) == Some(A) && ParentOf(Alone(), TO_B) == Some(B) && TreeIds(Alone(), B) == {B, TO_B}
    ensures Find(Alone(), TO_B).info == Ref(B) && !IsHandle(Alone(), A) && !IsHandle(Alone(), B)
  {
    var k := Cons(TO_B, Ref(B), Nil, Nil);
    var b := Cons(B, Plain(), k, Nil);
    assert Ids(k) == {TO_B} && Ids(b) == {B, TO_B} && Distinct(b) && Tidy(b);
    assert ParentIn(b, Some(A), TO_B) == ParentIn(k, Some(B), TO_B) == Some(B);
    assert Find(b, TO_B) == Find(k, TO_B) == k && Find(b, B) == b;
  }

  lemma AloneLegal()
    ensures RefsOk(Alone(), OwnList())
  {
    AloneFacts();
    var w, t := Alone(), OwnList();
    assert forall x, h :: x in t && h in t[x] ==> x == B && h == TO_B;
    assert Listed(w, t);
    assert NoDup([TO_B]);
  }

  lemma AloneHeld()
    ensures var w, t := Alone(), OwnList();
            && SelfHeld(w, t, B, Some(A)) && CanUnlink(w, t, B, Some(A)) && Spent(w, t[B], Some(A)) == TO_B
            && OwnersOf(w, t, B) == multiset{Some(A), Some(B)}
  {
    AloneFacts();
    var w, t := Alone(), OwnList();
    hide Alone;
    assert [TO_B][1..] == [] && Holders(w, t[B]) == multiset{Some(B)};
  }

  /** Unlinking `B` from its parent leaves it with its parent, and takes it away from itself. */
  lemma AloneKeepsParent()
    ensures var w, t := Alone(), OwnList();
            && Distinct(w) && Tidy(w) && RefsOk(w, t) && SelfHeld(w, t, B, Some(A)) && CanUnlink(w, t, B, Some(A))
            && OwnersOf(w, t, B) == multiset{Some(A), Some(B)} && Spent(w, t[B], Some(A)) == TO_B
            && B in Ids(Cut(w, TO_B)) && B in Dropped(t, B, TO_B)
            && OwnersOf(Unlinked(w, t, B, Some(A)), Dropped(t, B, TO_B), B) == multiset{Some(A)}
  {
    AloneFacts();
    AloneLegal();
    AloneHeld();
    hide Alone, OwnersOf, Unlinked, Dropped, SelfHeld, CanUnlink, Spent, RefsOk;
    UnlinkedOwners(Alone(), OwnList(), B, Some(A), B);
    AloneLost();
  }

  lemma AloneLost()
    ensures SelfHeld(Alone(), OwnList(), B, Some(A)) ==> LostOwner(Alone(), OwnList(), B, Some(A)) == Some(B)
  {
  }
}
