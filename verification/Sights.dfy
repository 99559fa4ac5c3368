/**
 A chunk that is being freed has left its list but still finds its former parent through its former predecessor
 (talloc.c:182-194, 561-563). If the predecessor is a handle to a chunk below, it may be freed in the meantime.
 */
module Sights {
  import opened Forests
  import opened Releases
  import opened RefMaps
  import opened Flows
  import opened FlowFacts
  import opened Fates

  // ---------- round by round ----------

  /** The state after `n` rounds. */
  ghost function Rounds<N>(k: Forest<N>, s: Yard<N>, par: Option<N>, n: nat): (Forest<N>, Yard<N>)
    decreases n
  {
    if n == 0 || k.Nil? then (k, s) else
      var r := Round(k, s, Under(par));
      Rounds(r.0, r.1, par, n - 1)
  }

  /** The code is about to read the predecessor, and that is gone. */
  ghost predicate Blind<N>(k: Forest<N>, s: Yard<N>, prev: Option<N>) {
    Asks(k, s) && prev.Some? && prev.value !in Ids(s.rest)
  }

  ghost predicate BlindAt<N>(k: Forest<N>, s: Yard<N>, par: Option<N>, prev: Option<N>, n: nat) {
    var r := Rounds(k, s, par, n);
    Blind(r.0, r.1, prev)
  }

  /** The loop reads a freed predecessor exactly when `Sees` fails. */
  lemma {:induction false} SeesIff<N>(k: Forest<N>, s: Yard<N>, par: Option<N>, prev: Option<N>)
    ensures Sees(k, s, par, prev) <==> forall n: nat :: !BlindAt(k, s, par, prev, n)
    decreases Count(k)
  {
    assert BlindAt(k, s, par, prev, 0) <==> Blind(k, s, prev);
    if k.Cons? {
      var r := Round(k, s, Under(par));
      SeesIff(r.0, r.1, par, prev);
      forall n: nat ensures BlindAt(k, s, par, prev, n + 1) <==> BlindAt(r.0, r.1, par, prev, n) {}
      if Sees(k, s, par, prev) {
        forall n: nat ensures !BlindAt(k, s, par, prev, n) {
          if n > 0 { assert !BlindAt(r.0, r.1, par, prev, n - 1); }
        }
      } else if !Blind(k, s, prev) {
        var n: nat :| BlindAt(r.0, r.1, par, prev, n);
        assert BlindAt(k, s, par, prev, n + 1);
      }
    }
  }

  /** A predecessor that does not refer to anything below is always there. */
  lemma {:induction false} SeesOther<N>(k: Forest<N>, s: Yard<N>, par: Option<N>, prev: N)
    requires Inv(k, s, Under(par)) && prev in Ids(s.rest) && !Grips(k, s.refs, prev)
    ensures Sees(k, s, par, Some(prev))
    decreases Count(k)
  {
    if k.Cons? {
      var r := Round(k, s, Under(par));
      RoundKept(k, s, Under(par));
      assert prev !in Lost(k, s, r.0, r.1);
      if Grips(r.0, r.1.refs, prev) { GripsMore(k, s, r.0, r.1, prev); }
      SeesOther(r.0, r.1, par, prev);
    }
  }

  // ---------- what can be told beforehand ----------

  /** Where a chunk comes to rest that starts `d` levels below home, with which handles: every newest handle without a
      parent takes it one level up. Level 0 is home. */
  datatype Arrival<N> = Arrival(level: nat, hs: seq<N>)

  ghost function Arrive<N>(hs: seq<N>, rest: Forest<N>, d: nat): Arrival<N> {
    if d == 0 || hs == [] || ParentOf(rest, hs[0]).Some? then Arrival(d, hs) else Arrive(hs[1..], rest, d - 1)
  }

  /** Signs of what goes wrong: the handle `h` is spent for a chunk that is reached, while neither that nor anything
      above it comes to the first level (`high`), or while something does (`low`); after that, somebody on the first
      level asks for the former parent (`late`); somebody asks at all (`ask`). */
  datatype Signs = Signs(high: bool, low: bool, late: bool, ask: bool)

  /** First `a`, then `b`, in a list at an odd or even level. Every level that two chunks of a list go up turns their
      order round; so on the first level they come in their order if the level of the list is odd. */
  ghost function Join(a: Signs, b: Signs, odd: bool): Signs {
    Signs(a.high || b.high, a.low || b.low,
          || a.late || b.late || (a.high && b.ask) || (b.high && a.ask)
          || (a.low && odd && b.ask) || (b.low && !odd && a.ask),
          a.ask || b.ask)
  }

  ghost predicate Odd(d: nat) {
    d % 2 == 1
  }

  /** The signs in the list `k` at level `d`. */
  ghost function SignsOf<N>(k: Forest<N>, t: RefMap<N>, rest: Forest<N>, d: nat, h: N): Signs
    decreases k, 0
  {
    if k.Nil? then Signs(false, false, false, false)
    else
      var first := HeadSigns(k.info, k.kids, t, rest, Arrive(RefsOf(t, k.c), rest, d), h);
      Join(first, SignsOf(k.next, t, rest, d, h), Odd(d))
  }

  /** The signs in one tree whose root comes to rest as `a` says. */
  ghost function HeadSigns<N>(i: Info<N>, kids: Forest<N>, t: RefMap<N>, rest: Forest<N>, a: Arrival<N>, h: N): Signs
    decreases kids, 1
  {
    if a.level == 0 then Signs(false, false, false, true)
    else if a.hs != [] then Signs(a.hs[0] == h && a.level > 1, a.hs[0] == h && a.level == 1, false, false)
    else if Refusing(i) then Signs(false, false, false, true)
    else
      var b := SignsOf(kids, t, rest, a.level + 1, h);
      if a.level > 1 then b else Signs(false, b.high || b.low, b.late, b.ask || i.des != NoDestructor)
  }

  // ---------- how signs combine ----------

  lemma JoinSwap(a: Signs, b: Signs, c: Signs, odd: bool)
    ensures Join(Join(a, b, !odd), c, odd) == Join(b, Join(a, c, odd), odd)
  {
  }

  lemma {:induction false} LateAsks<N>(k: Forest<N>, t: RefMap<N>, rest: Forest<N>, d: nat, h: N)
    ensures SignsOf(k, t, rest, d, h).late ==> SignsOf(k, t, rest, d, h).ask
    decreases k
  {
    if k.Cons? {
      LateAsks(k.kids, t, rest, Arrive(RefsOf(t, k.c), rest, d).level + 1, h);
      LateAsks(k.next, t, rest, d, h);
    }
  }

  lemma {:induction false} Rises<N>(hs: seq<N>, rest: Forest<N>, d: nat)
    ensures Arrive(hs, rest, d).level <= d
  {
    if d > 0 && hs != [] && ParentOf(rest, hs[0]).None? { Rises(hs[1..], rest, d - 1); }
  }

  /** On the first level everything is on the first level. */
  lemma {:induction false} NoneHigh<N>(k: Forest<N>, t: RefMap<N>, rest: Forest<N>, h: N)
    ensures !SignsOf(k, t, rest, 1, h).high
  {
    if k.Cons? {
      Rises(RefsOf(t, k.c), rest, 1);
      NoneHigh(k.next, t, rest, h);
    }
  }

  lemma {:induction false} ArriveSame<N>(hs: seq<N>, rest: Forest<N>, rest': Forest<N>, d: nat)
    requires forall h :: h in hs ==> ParentOf(rest', h) == ParentOf(rest, h)
    ensures Arrive(hs, rest', d) == Arrive(hs, rest, d)
  {
    if d > 0 && hs != [] { ArriveSame(hs[1..], rest, rest', d - 1); }
  }

  lemma {:induction false} SameSigns<N>(k: Forest<N>, t: RefMap<N>, rest: Forest<N>, t': RefMap<N>, rest': Forest<N>,
                                        d: nat, h: N)
    requires forall y :: y in Ids(k) ==> Agree(y, t, rest, t', rest')
    ensures SignsOf(k, t', rest', d, h) == SignsOf(k, t, rest, d, h)
    decreases k, 1
  {
    if k.Cons? {
      assert k.c in Ids(k) && Agree(k.c, t, rest, t', rest');
      ArriveSame(RefsOf(t, k.c), rest, rest', d);
      var a := Arrive(RefsOf(t, k.c), rest, d);
      assert Arrive(RefsOf(t', k.c), rest', d) == a;
      HeadSame(k.info, k.kids, t, rest, t', rest', a, h);
      SameSigns(k.next, t, rest, t', rest', d, h);
      hide Agree, Arrive, Join, HeadSigns;
    }
  }

  lemma {:induction false} HeadSame<N>(i: Info<N>, kids: Forest<N>, t: RefMap<N>, rest: Forest<N>, t': RefMap<N>,
                                       rest': Forest<N>, a: Arrival<N>, h: N)
    requires forall y :: y in Ids(kids) ==> Agree(y, t, rest, t', rest')
    ensures HeadSigns(i, kids, t', rest', a, h) == HeadSigns(i, kids, t, rest, a, h)
    decreases kids, 2
  {
    SameSigns(kids, t, rest, t', rest', a.level + 1, h);
    hide Agree, SignsOf;
  }

  // ---------- the loop below a child ----------

  /** The signs in a state of the loop over the children `k`, `d` levels below home. */
  ghost function StateSigns<N>(k: Forest<N>, s: Yard<N>, d: nat, h: N): Signs
    requires d > 0
  {
    Join(SignsOf(k, s.refs, s.rest, d, h), SignsOf(s.list, s.refs, s.rest, d - 1, h), Odd(d - 1))
  }

  /** From one state to a later one: the signs stay, or `h` has been spent and all that ask come later. */
  ghost predicate Onward(a: Signs, there: bool, b: Signs, there': bool) {
    && (there' ==> there)
    && if there == there' then b == a else a.high && a.late == b.ask && a.ask == b.ask
  }

  lemma JoinOnward(a: Signs, there: bool, b: Signs, there': bool, c: Signs, odd: bool)
    requires Onward(a, there, b, there') && (c.late ==> c.ask)
    ensures Onward(Join(a, c, odd), there, Join(b, c, odd), there')
  {
  }

  /** `h` is a handle outside, and it has a parent as long as it is there. */
  ghost predicate Watches<N>(k: Forest<N>, s: Yard<N>, to: Dest<N>, h: N) {
    Inv(k, s, to) && h !in Ids(k) && h !in Ids(s.list) && (h in Ids(s.rest) ==> ParentOf(s.rest, h).Some?)
  }

  lemma StillWatches<N>(k: Forest<N>, s: Yard<N>, k': Forest<N>, s': Yard<N>, to: Dest<N>, h: N)
    requires Watches(k, s, to, h) && Kept(k, s, k', s') && Inv(k', s', to)
    ensures Watches(k', s', to, h) && (h in Ids(s'.rest) ==> h in Ids(s.rest))
  {
    assert h in All(k', s') ==> h in All(k, s);
    assert h in Ids(s'.rest) ==> h in All(k', s');
  }

  /** Nothing changes for the waiting siblings. */
  lemma ListSigns<N>(k: Forest<N>, s: Yard<N>, k': Forest<N>, s': Yard<N>, to: Dest<N>, d: nat, h: N)
    requires Inv(k, s, to) && Kept(k, s, k', s')
    ensures SignsOf(s.list, s'.refs, s'.rest, d, h) == SignsOf(s.list, s.refs, s.rest, d, h)
  {
    forall y | y in Ids(s.list) ensures Agree(y, s.refs, s.rest, s'.refs, s'.rest) { AgreeList(k, s, k', s', to, y); }
    SameSigns(s.list, s.refs, s.rest, s'.refs, s'.rest, d, h);
  }

  /** Nor for the other children and what is below the first one, when that goes elsewhere. */
  lemma NextSigns<N>(k: Forest<N>, s: Yard<N>, s': Yard<N>, to: Dest<N>, d: nat, h: N)
    requires k.Cons? && Inv(k, s, to) && Kept(k, s, k.next, s')
    requires forall z :: z in Lost(k, s, k.next, s') ==> z in RefsOf(s.refs, k.c)
    ensures SignsOf(k.next, s'.refs, s'.rest, d, h) == SignsOf(k.next, s.refs, s.rest, d, h)
    ensures SignsOf(k.kids, s'.refs, s'.rest, d, h) == SignsOf(k.kids, s.refs, s.rest, d, h)
  {
    forall y | y in Ids(k.next) + Ids(k.kids) ensures Agree(y, s.refs, s.rest, s'.refs, s'.rest) {
      NextAgree(k, s, s', to, y);
    }
    SameSigns(k.next, s.refs, s.rest, s'.refs, s'.rest, d, h);
    SameSigns(k.kids, s.refs, s.rest, s'.refs, s'.rest, d, h);
  }

  lemma InnerSigns<N>(k: Forest<N>, s: Yard<N>, to: Dest<N>, d: nat, h: N)
    requires k.Cons? && Inv(k, s, to)
    ensures SignsOf(k.kids, Inner(k, s).refs, s.rest, d, h) == SignsOf(k.kids, s.refs, s.rest, d, h)
    ensures SignsOf(k.next, Inner(k, s).refs, s.rest, d, h) == SignsOf(k.next, s.refs, s.rest, d, h)
  {
    forall y | y in Ids(k.kids) + Ids(k.next) ensures Agree(y, s.refs, s.rest, Inner(k, s).refs, s.rest) {
      forall g | g in RefsOf(s.refs, y) ensures g != k.c { assert y in Ids(k) + Ids(s.list) && Hold(s, y, g); }
      PurgedSame(s.refs, {k.c}, y);
    }
    SameSigns(k.kids, s.refs, s.rest, Inner(k, s).refs, s.rest, d, h);
    SameSigns(k.next, s.refs, s.rest, Inner(k, s).refs, s.rest, d, h);
  }

  /** The child is referred to: its newest handle goes, and the child with it. */
  lemma LeaveSigns<N>(k: Forest<N>, s: Yard<N>, to: Dest<N>, d: nat, h: N)
    requires k.Cons? && Watches(k, s, to, h) && RefsOf(s.refs, k.c) != []
    ensures var g := RefsOf(s.refs, k.c)[0];
            var s' := Round(k, s, to).1;
            && Round(k, s, to).0 == k.next
            && (h in Ids(s'.rest) <==> h in Ids(s.rest) && h != g)
            && SignsOf(k.next, s'.refs, s'.rest, d, h) == SignsOf(k.next, s.refs, s.rest, d, h)
            && SignsOf(k.kids, s'.refs, s'.rest, d, h) == SignsOf(k.kids, s.refs, s.rest, d, h)
            && g in Ids(s.rest)
  {
    var g := RefsOf(s.refs, k.c)[0];
    LeaveKept(k, s, to, g);
    LeaveLost(k, s, to, g);
    assert k.c in Ids(k) + Ids(s.list) && Hold(s, k.c, g);
    var s' := Round(k, s, to).1;
    NextSigns(k, s, s', to, d, h);
    hide KeptRefs, KeptPlaces, Honest, Held, Inv, SignsOf;
    assert g in Lost(k, s, k.next, s');
    assert h in Ids(s.rest) && h != g ==> h in All(k, s) && h !in Lost(k, s, k.next, s') && h in All(k.next, s');
    assert h in Ids(s'.rest) ==> h in All(k.next, s') && h in All(k, s);
  }

  /** A chunk that goes up one level with one handle less comes to rest as before. */
  lemma UpArrives<N>(k: Forest<N>, s: Yard<N>, d: nat)
    requires k.Cons? && Inv(k, s, Front) && RefsOf(s.refs, k.c) != [] && d > 0
    requires ParentOf(s.rest, RefsOf(s.refs, k.c)[0]).None?
    ensures var s' := Round(k, s, Front).1;
            && s'.list == Cons(k.c, k.info, k.kids, s.list)
            && Arrive(RefsOf(s'.refs, k.c), s'.rest, d - 1) == Arrive(RefsOf(s.refs, k.c), s.rest, d)
  {
    var hs := RefsOf(s.refs, k.c);
    var g, s' := hs[0], Round(k, s, Front).1;
    assert s' == Rise(Shed(s, g), Front, k);
    ShedRefs(k, s, Front, k.c, g);
    ShedKept(k, s, g, Front);
    forall b | b in hs[1..] ensures ParentOf(Shed(s, g).rest, b) == ParentOf(s.rest, b) {
      ShedHeld(k, s, g, Front, k.c, b);
    }
    hide Inv, Kept, Round;
    ArriveSame(hs[1..], s.rest, s'.rest, d - 1);
  }

  /** So the signs in its tree do not change. */
  lemma UpSigns<N>(k: Forest<N>, s: Yard<N>, d: nat, h: N)
    requires k.Cons? && Watches(k, s, Front, h) && RefsOf(s.refs, k.c) != [] && d > 0
    requires ParentOf(s.rest, RefsOf(s.refs, k.c)[0]).None?
    ensures var s' := Round(k, s, Front).1;
            && s'.list == Cons(k.c, k.info, k.kids, s.list)
            && HeadSigns(k.info, k.kids, s'.refs, s'.rest, Arrive(RefsOf(s'.refs, k.c), s'.rest, d - 1), h)
               == HeadSigns(k.info, k.kids, s.refs, s.rest, Arrive(RefsOf(s.refs, k.c), s.rest, d), h)
  {
    UpArrives(k, s, d);
    LeaveSigns(k, s, Front, Arrive(RefsOf(s.refs, k.c), s.rest, d).level + 1, h);
    hide Watches, Kept, SignsOf, Arrive, Round, RefsOf;
  }

  /** What one round does to the signs. */
  ghost predicate RoundOnward<N>(k: Forest<N>, s: Yard<N>, d: nat, h: N)
    requires k.Cons? && d > 0
  {
    var r := Round(k, s, Front);
    Onward(StateSigns(k, s, d, h), h in Ids(s.rest), StateSigns(r.0, r.1, d, h), h in Ids(r.1.rest))
  }

  lemma ListRound<N>(k: Forest<N>, s: Yard<N>, to: Dest<N>, d: nat, h: N)
    requires k.Cons? && Inv(k, s, to)
    ensures var s' := Round(k, s, to).1;
            SignsOf(s.list, s'.refs, s'.rest, d, h) == SignsOf(s.list, s.refs, s.rest, d, h)
  {
    RoundKept(k, s, to);
    var r := Round(k, s, to);
    hide Inv, Kept, Round, SignsOf;
    ListSigns(k, s, r.0, r.1, to, d, h);
  }

  lemma SpentOnward(spent: bool, n: Signs, l: Signs, odd: bool, there: bool)
    requires (n.late ==> n.ask) && (l.late ==> l.ask) && (spent ==> there)
    ensures Onward(Join(Join(Signs(spent, false, false, false), n, !odd), l, odd), there,
                   Join(n, l, odd), there && !spent)
  {
  }

  /** The newest handle has a parent. */
  lemma HeldRound<N>(k: Forest<N>, s: Yard<N>, d: nat, h: N)
    requires k.Cons? && Watches(k, s, Front, h) && d > 1 && RefsOf(s.refs, k.c) != []
    requires ParentOf(s.rest, RefsOf(s.refs, k.c)[0]).Some?
    ensures RoundOnward(k, s, d, h)
  {
    var r, hs := Round(k, s, Front), RefsOf(s.refs, k.c);
    LeaveSigns(k, s, Front, d, h);
    ListRound(k, s, Front, d - 1, h);
    assert r.1.list == s.list && Arrive(hs, s.rest, d) == Arrival(d, hs);
    LateAsks(k.next, s.refs, s.rest, d, h);
    LateAsks(s.list, s.refs, s.rest, d - 1, h);
    assert HeadSigns(k.info, k.kids, s.refs, s.rest, Arrival(d, hs), h) == Signs(hs[0] == h, false, false, false);
    assert !Odd(d - 1) == Odd(d);
    hide Arrive, Round, Watches, Join, Onward, HeadSigns;
    var n, l := SignsOf(k.next, s.refs, s.rest, d, h), SignsOf(s.list, s.refs, s.rest, d - 1, h);
    SpentOnward(hs[0] == h, n, l, Odd(d - 1), h in Ids(s.rest));
  }

  /** It has none, and the child goes one level up. */
  lemma RiseRound<N>(k: Forest<N>, s: Yard<N>, d: nat, h: N)
    requires k.Cons? && Watches(k, s, Front, h) && d > 1 && RefsOf(s.refs, k.c) != []
    requires ParentOf(s.rest, RefsOf(s.refs, k.c)[0]).None?
    ensures RoundOnward(k, s, d, h)
  {
    var r, hs := Round(k, s, Front), RefsOf(s.refs, k.c);
    LeaveSigns(k, s, Front, d, h);
    ListRound(k, s, Front, d - 1, h);
    UpSigns(k, s, d, h);
    assert h in Ids(s.rest) ==> h != hs[0];
    hide HeadSigns, Arrive, Round, Watches, Join, Onward;
    var head := HeadSigns(k.info, k.kids, s.refs, s.rest, Arrive(hs, s.rest, d), h);
    JoinSwap(head, SignsOf(k.next, s.refs, s.rest, d, h), SignsOf(s.list, s.refs, s.rest, d - 1, h), Odd(d - 1));
    SameOnward(StateSigns(k, s, d, h), h in Ids(s.rest));
  }

  lemma SameOnward(a: Signs, there: bool)
    ensures Onward(a, there, a, there)
  {
  }

  lemma RefuseRound<N>(k: Forest<N>, s: Yard<N>, d: nat, h: N)
    requires k.Cons? && Watches(k, s, Front, h) && d > 1 && RefsOf(s.refs, k.c) == [] && Refusing(k.info)
    ensures RoundOnward(k, s, d, h)
  {
    var r := Round(k, s, Front);
    RiseAll(k, s, Front);
    var head := Signs(false, false, false, true);
    var n, l := SignsOf(k.next, s.refs, s.rest, d, h), SignsOf(s.list, s.refs, s.rest, d - 1, h);
    assert SignsOf(k, s.refs, s.rest, d, h) == Join(head, n, !Odd(d - 1));
    assert r == (k.next, s.(list := Cons(k.c, k.info, k.kids, s.list)));
    assert SignsOf(r.1.list, s.refs, s.rest, d - 1, h) == Join(head, l, Odd(d - 1));
    hide SignsOf, Round, Watches;
    JoinSwap(head, n, l, Odd(d - 1));
  }

  /** The signs of a child that is freed are those of its own loop. */
  lemma FreedSigns<N>(k: Forest<N>, s: Yard<N>, to: Dest<N>, d: nat, h: N)
    requires k.Cons? && Inv(k, s, to) && d > 1 && RefsOf(s.refs, k.c) == [] && !Refusing(k.info)
    ensures SignsOf(k, s.refs, s.rest, d, h) == StateSigns(k.kids, Inner(k, s), d + 1, h)
  {
    InnerSigns(k, s, to, d + 1, h);
    InnerSigns(k, s, to, d, h);
    assert Arrive([], s.rest, d) == Arrival(d, []);
    hide Inv, Refusing;
  }

  lemma NilSigns<N>(m: Yard<N>, d: nat, h: N)
    requires d > 0
    ensures StateSigns(Nil, m, d, h) == SignsOf(m.list, m.refs, m.rest, d - 1, h)
  {
  }

  lemma FreeRound<N>(k: Forest<N>, s: Yard<N>, d: nat, h: N)
    requires k.Cons? && Watches(k, s, Front, h) && d > 1 && RefsOf(s.refs, k.c) == [] && !Refusing(k.info)
    requires Onward(StateSigns(k.kids, Inner(k, s), d + 1, h), h in Ids(s.rest),
                    StateSigns(Nil, Flow(k.kids, Inner(k, s), Front), d + 1, h),
                    h in Ids(Flow(k.kids, Inner(k, s), Front).rest))
    ensures RoundOnward(k, s, d, h)
  {
    var r, m := Round(k, s, Front), Flow(k.kids, Inner(k, s), Front);
    assert r == (m.list, Yard(s.list, m.rest, m.refs));
    RoundKept(k, s, Front);
    ListSigns(k, s, r.0, r.1, Front, d - 1, h);
    FreedSigns(k, s, Front, d, h);
    NilSigns(m, d + 1, h);
    LateAsks(s.list, s.refs, s.rest, d - 1, h);
    var a, b := SignsOf(k, s.refs, s.rest, d, h), SignsOf(r.0, r.1.refs, r.1.rest, d, h);
    hide SignsOf, Round, Watches, Onward, Join, Flow;
    JoinOnward(a, h in Ids(s.rest), b, h in Ids(r.1.rest), SignsOf(s.list, s.refs, s.rest, d - 1, h), Odd(d - 1));
  }

  lemma RoundSigns<N>(k: Forest<N>, s: Yard<N>, d: nat, h: N)
    requires k.Cons? && Watches(k, s, Front, h) && d > 1
    ensures var r := Round(k, s, Front); Watches(r.0, r.1, Front, h) && RoundOnward(k, s, d, h)
    decreases Count(k), 0
  {
    var r := Round(k, s, Front);
    RoundKept(k, s, Front);
    StillWatches(k, s, r.0, r.1, Front, h);
    if RefsOf(s.refs, k.c) != [] {
      if ParentOf(s.rest, RefsOf(s.refs, k.c)[0]).None? { RiseRound(k, s, d, h); } else { HeldRound(k, s, d, h); }
    } else if Refusing(k.info) {
      RefuseRound(k, s, d, h);
    } else {
      InnerInv(k, s, Front);
      FlowSigns(k.kids, Inner(k, s), d + 1, h);
      FreeRound(k, s, d, h);
    }
    hide RoundOnward;
  }

  lemma FlowSigns<N>(k: Forest<N>, s: Yard<N>, d: nat, h: N)
    requires Watches(k, s, Front, h) && d > 1
    ensures var m := Flow(k, s, Front);
            Onward(StateSigns(k, s, d, h), h in Ids(s.rest), StateSigns(Nil, m, d, h), h in Ids(m.rest))
    decreases Count(k), 1
  {
    if k.Cons? {
      var r := Round(k, s, Front);
      RoundSigns(k, s, d, h);
      FlowSigns(r.0, r.1, d, h);
    }
  }

  // ---------- the outermost loop ----------

  /** What goes wrong from this state of the outermost loop on: as long as `h` is there, somebody asks after it has been
      spent; otherwise somebody asks. */
  ghost predicate Wrong<N>(k: Forest<N>, s: Yard<N>, h: N) {
    var a := SignsOf(k, s.refs, s.rest, 1, h);
    if h in Ids(s.rest) then a.late else a.ask
  }

  /** A child that goes elsewhere. */
  lemma LeaveWrong<N>(k: Forest<N>, s: Yard<N>, par: Option<N>, h: N)
    requires k.Cons? && Watches(k, s, Under(par), h) && s.list == Nil && RefsOf(s.refs, k.c) != []
    ensures var r := Round(k, s, Under(par)); Wrong(k, s, h) <==> Wrong(r.0, r.1, h) || Blind(k, s, Some(h))
  {
    var hs := RefsOf(s.refs, k.c);
    LeaveSigns(k, s, Under(par), 1, h);
    LateAsks(k.next, s.refs, s.rest, 1, h);
    NoneHigh(k.next, s.refs, s.rest, h);
    var head := HeadSigns(k.info, k.kids, s.refs, s.rest, Arrive(hs, s.rest, 1), h);
    assert SignsOf(k, s.refs, s.rest, 1, h) == Join(head, SignsOf(k.next, s.refs, s.rest, 1, h), true);
    if ParentOf(s.rest, hs[0]).None? {
      assert Arrive(hs, s.rest, 1).level == 0;
    } else {
      assert head == Signs(false, hs[0] == h, false, false);
    }
    hide SignsOf, HeadSigns, Arrive, Round, Watches;
  }

  lemma RefuseWrong<N>(k: Forest<N>, s: Yard<N>, par: Option<N>, h: N)
    requires k.Cons? && Watches(k, s, Under(par), h) && s.list == Nil && RefsOf(s.refs, k.c) == [] && Refusing(k.info)
    ensures var r := Round(k, s, Under(par)); Wrong(k, s, h) <==> Wrong(r.0, r.1, h) || Blind(k, s, Some(h))
  {
    var r := Round(k, s, Under(par));
    RiseKept(k, s, Under(par));
    RiseAll(k, s, Under(par));
    NextSigns(k, s, r.1, Under(par), 1, h);
    NoneHigh(k.next, s.refs, s.rest, h);
    StillWatches(k, s, r.0, r.1, Under(par), h);
    assert h in Ids(s.rest) ==> h in All(r.0, r.1);
    var head := Signs(false, false, false, true);
    assert SignsOf(k, s.refs, s.rest, 1, h) == Join(head, SignsOf(k.next, s.refs, s.rest, 1, h), true);
    hide SignsOf, Round;
  }

  /** The signs of a child that is freed on the first level. */
  lemma TopSigns<N>(k: Forest<N>, s: Yard<N>, to: Dest<N>, h: N)
    requires k.Cons? && Inv(k, s, to) && RefsOf(s.refs, k.c) == [] && !Refusing(k.info)
    ensures var b, n := SignsOf(k.kids, s.refs, s.rest, 2, h), SignsOf(k.next, s.refs, s.rest, 1, h);
            && SignsOf(k, s.refs, s.rest, 1, h)
               == Join(Signs(false, b.high || b.low, b.late, b.ask || k.info.des != NoDestructor), n, true)
            && StateSigns(k.kids, Inner(k, s), 2, h) == Join(b, n, true)
  {
    InnerSigns(k, s, to, 2, h);
    InnerSigns(k, s, to, 1, h);
    assert Arrive([], s.rest, 1) == Arrival(1, []);
    hide Inv, Refusing;
  }

  lemma FreeWrong<N>(k: Forest<N>, s: Yard<N>, par: Option<N>, h: N)
    requires k.Cons? && Watches(k, s, Under(par), h) && s.list == Nil && RefsOf(s.refs, k.c) == [] && !Refusing(k.info)
    ensures var r := Round(k, s, Under(par)); Wrong(k, s, h) <==> Wrong(r.0, r.1, h) || Blind(k, s, Some(h))
  {
    var r := Round(k, s, Under(par));
    InnerInv(k, s, Under(par));
    FlowSigns(k.kids, Inner(k, s), 2, h);
    NoneHigh(k.next, s.refs, s.rest, h);
    LateAsks(k.next, s.refs, s.rest, 1, h);
    LateAsks(k.kids, s.refs, s.rest, 2, h);
    NilSigns(Flow(k.kids, Inner(k, s), Front), 2, h);
    TopSigns(k, s, Under(par), h);
    hide SignsOf, Watches, Flow, StateSigns;
  }

  /** The loop reads a freed predecessor exactly when the predecessor is spent for a chunk that is reached below the
      freed one, and somebody asks for the former parent after that. */
  lemma SeesStatic<N>(k: Forest<N>, s: Yard<N>, par: Option<N>, h: N)
    requires Watches(k, s, Under(par), h) && s.list == Nil
    ensures Sees(k, s, par, Some(h)) <==> !Wrong(k, s, h)
    decreases Count(k)
  {
    if k.Cons? {
      var to := Under(par);
      var r := Round(k, s, to);
      RoundKept(k, s, to);
      StillWatches(k, s, r.0, r.1, to, h);
      assert r.1.list == Nil;
      SeesStatic(r.0, r.1, par, h);
      if RefsOf(s.refs, k.c) != [] {
        LeaveWrong(k, s, par, h);
      } else if Refusing(k.info) {
        RefuseWrong(k, s, par, h);
      } else {
        FreeWrong(k, s, par, h);
      }
      hide Wrong;
    }
  }
}
