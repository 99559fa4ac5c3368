/**
 When `_talloc_free` reads a freed chunk: the predecessor of the chunk is a handle to something below it. The exact
 condition when no handle to what is below the chunk is itself below it, and two inputs that meet it.
 */
module Predecessors {
  import opened Forests
  import opened Transfers
  import opened Releases
  import opened RefMaps
  import opened Flows
  import opened Fates
  import opened Ownership
  import opened Owners
  import opened Aftermaths
  import opened Sights
  import D = Drains
  import S = Stacks
  import DrainFlow

  /** Freeing `c` reads a freed chunk exactly when the predecessor of `c` is spent for something below `c` and somebody
      asks for the former parent after that; otherwise the call ends as `Aftermath` says. */
  lemma FreeSafe<N>(w: Forest<N>, t: RefMap<N>, c: N, h: N)
    requires CanGo(w, t, c) && !Refusing(Find(w, c).info) && PrevOf(w, c) == Some(h)
    ensures var r := D.TryFree(w, t, c);
            if SignsOf(Find(w, c).kids, t, w, 1, h).late then r.Blind? else DrainFlow.Same(r, Aftermath(w, t, c))
  {
    var k, s, par := Find(w, c).kids, YardOf(w, t, c), ParentOf(w, c);
    StartInv(w, t, c);
    StartApart(w, t, c);
    PrevElsewhere(w, None, c);
    S.PrevParent(w, None, None, c);
    CutParent(w, None, c, h);
    forall x | x in Ids(k) ensures Agree(x, t, w, s.refs, s.rest) { StartAgree(w, t, c, x); }
    SameSigns(k, t, w, s.refs, s.rest, 1, h);
    SeesStatic(k, s, par, h);
    DrainFlow.TryIs(w, t, c);
    hide SignsOf;
  }

  /** The first child has no predecessor. */
  lemma FirstSafe<N>(w: Forest<N>, t: RefMap<N>, c: N)
    requires CanGo(w, t, c) && !Refusing(Find(w, c).info) && PrevOf(w, c) == None
    ensures DrainFlow.Same(D.TryFree(w, t, c), Aftermath(w, t, c))
  {
    SeesNone(Find(w, c).kids, YardOf(w, t, c), ParentOf(w, c));
    DrainFlow.TryIs(w, t, c);
  }

  // ---------- two inputs ----------

  const P := 1
  const C := 2
  const Y1 := 3
  const Y2 := 4
  const H := 5
  const G := 6

  function Plain(d: Destructor<int>): Info<int> {
    Info(8, d, false, Tied)
  }

  /** The second child of `C` has a destructor; or, if `top`, there is a top-level handle to it. */
  function Second(top: bool): Info<int> {
    Plain(if top then NoDestructor else Agrees)
  }

  function Kids(top: bool): Forest<int> {
    Cons(Y1, Plain(NoDestructor), Nil, Cons(Y2, Second(top), Nil, Nil))
  }

  function Beside(top: bool): Forest<int> {
    if top then Cons(G, Plain(Handle(Y2)), Nil, Nil) else Nil
  }

  /** `P` has the child `C` and, in front of it, a handle to `Y1`. */
  function Below(top: bool): Forest<int> {
    Cons(H, Plain(Handle(Y1)), Nil, Cons(C, Plain(NoDestructor), Kids(top), Nil))
  }

  function Input(top: bool): Forest<int> {
    Cons(P, Plain(NoDestructor), Below(top), Beside(top))
  }

  ghost function Lists(top: bool): RefMap<int> {
    if top then map[P := [], C := [], Y1 := [H], Y2 := [G], H := [], G := []]
    else map[P := [], C := [], Y1 := [H], Y2 := [], H := []]
  }

  lemma BelowFacts(top: bool)
    ensures var f := Below(top);
            && Ids(f) == {H, C, Y1, Y2} && Distinct(f) && Tidy(f) && Find(f, C).kids == Kids(top)
            && Find(f, H).info == Plain(Handle(Y1)) && Find(f, C).info == Plain(NoDestructor)
            && Find(f, Y1).info == Plain(NoDestructor) && Find(f, Y2).info == Second(top)
            && ParentIn(f, Some(P), C) == Some(P) && PrevIn(f, None, C) == Some(H) && ParentIn(f, Some(P), H) == Some(P)
  {
    var y := Cons(Y2, Second(top), Nil, Nil);
    var c := Cons(C, Plain(NoDestructor), Kids(top), Nil);
    assert Ids(y) == {Y2} && Ids(Kids(top)) == {Y1, Y2} && Ids(c) == {C, Y1, Y2};
    assert Distinct(Kids(top)) && Distinct(c) && Tidy(Kids(top)) && Tidy(c);
    assert Find(y, Y2) == y && Find(Kids(top), Y2) == y && Find(Kids(top), Y1) == Kids(top) && Find(c, C) == c;
    assert Find(c, Y1) == Kids(top) && Find(c, Y2) == y;
    assert ParentIn(c, Some(P), C) == Some(P) && PrevIn(c, Some(H), C) == Some(H);
  }

  lemma InputFacts(top: bool)
    ensures var w := Input(top);
            && Ids(w) == {P, C, Y1, Y2, H} + (if top then {G} else {}) && Distinct(w) && Tidy(w)
            && Find(w, C).kids == Kids(top)
            && ParentOf(w, C) == Some(P) && PrevOf(w, C) == Some(H) && ParentOf(w, H) == Some(P)
            && Find(w, H).info == Plain(Handle(Y1)) && Find(w, P).info == Plain(NoDestructor)
            && Find(w, C).info == Plain(NoDestructor)
            && Find(w, Y1).info == Plain(NoDestructor) && Find(w, Y2).info == Second(top)
            && (top ==> Find(w, G).info == Plain(Handle(Y2)) && ParentOf(w, G) == None)
  {
    BelowFacts(top);
    assert Ids(Beside(top)) == if top then {G} else {};
    hide Below;
  }

  lemma InputListed(top: bool)
    ensures Listed(Input(top), Lists(top)) && forall x :: x in Lists(top) ==> NoDup(Lists(top)[x])
  {
    InputFacts(top);
    var w, t := Input(top), Lists(top);
    hide Input;
    forall x, h | x in t && h in t[x] ensures (h == H && x == Y1) || (top && h == G && x == Y2) {}
  }

  lemma InputFiled(top: bool)
    ensures Filed(Input(top), Lists(top))
  {
    InputFacts(top);
    var w, t := Input(top), Lists(top);
    hide Input;
    forall h | h in Ids(w) && IsHandle(w, h)
      ensures h in t && t[h] == [] && Find(w, h).info.des.target in t && h in t[Find(w, h).info.des.target]
    {
      assert h == H || (top && h == G);
    }
  }

  /** The inputs are states that the allocator's own calls lead to, and all references to what is below `C` come from
      outside its tree. */
  lemma InputLegal(top: bool)
    ensures CanGo(Input(top), Lists(top), C)
  {
    InputFacts(top);
    InputListed(top);
    InputFiled(top);
    assert Ids(Kids(top)) == {Y1, Y2};
    hide Input, Kids, Listed, Filed, NoDup;
  }

  /** Freeing `C` frees the handle, which is the predecessor of `C`, and then asks it for the parent of `C`. */
  lemma InputBreaks(top: bool)
    ensures CanGo(Input(top), Lists(top), C) && PrevOf(Input(top), C) == Some(H)
    ensures D.TryFree(Input(top), Lists(top), C).Blind?
  {
    var w, t := Input(top), Lists(top);
    InputLegal(top);
    InputFacts(top);
    var y := Cons(Y2, Second(top), Nil, Nil);
    assert Arrive([H], w, 1) == Arrival(1, [H]);
    assert [G][1..] == [];
    assert top ==> Arrive([G], w, 1) == Arrive([], w, 0) == Arrival(0, []);
    assert SignsOf(y, t, w, 1, H).ask;
    assert SignsOf(Kids(top), t, w, 1, H).late;
    hide SignsOf, Input;
    FreeSafe(w, t, C, H);
  }
}
