/**
 Resolving heap objects (phat.c:926-1073): a depth-first walk over the object graph that computes sizes,
 counts class-to-class arcs and shares one file position between all levels of the recursion.
 */
module Resolver {
  import opened Formats
  import opened Layout
  import opened HeapGraph
  import opened HeapWalk
  import opened HeapRuns
  import opened Arcs

  /** Every arc counts as many references as have been logged for its two classes. */
  ghost predicate Tallied(t: Classes, log: multiset<(CInfo, CInfo)>)
    reads t.Values`children
  {
    && (forall a :: a in t.Values ==> Single(a.children))
    && (forall a, b :: a in t.Values && b in t.Values ==> Tally(a.children, b) == log[(a, b)])
  }

  /** The object in the heap is as the state says; sizes are kept in 64 bits. */
  ghost predicate ObjectHeld(h: HObject, s: State)
    requires h in s.osize && h in s.csize
    reads h
  {
    (h.resolved <==> h in s.seen) && h.osize == Wrap(s.osize[h]) && h.csize == Wrap(s.csize[h])
  }

  ghost predicate ObjectsHeld(objs: set<HObject>, s: State)
    reads objs
  {
    objs <= s.osize.Keys && objs <= s.csize.Keys && forall h :: h in objs ==> ObjectHeld(h, s)
  }

  /** The total of a target, cut to 64 bits, is added to `h`. */
  method AddTotal(h: HObject, r: nat, ghost objs: set<HObject>, ghost s: State, ghost s': State, ghost total: nat)
    requires ObjectsHeld(objs, s) && h in objs && r == Wrap(total)
    requires s'.seen == s.seen && s'.osize == s.osize && s'.csize == s.csize[h := s.csize[h] + total]
    modifies h
    ensures ObjectsHeld(objs, s')
  {
    WrapSum(s.csize[h], total);
    h.csize := (h.csize + r) % TWO64;
  }

  /** From `m`, following the keys `keys` of `h` leads to `goal`. */
  ghost predicate Toward(d: Dump, m: State, h: HObject, keys: seq<int>, goal: State) {
    Fits(d, m) && Zeros(d, m) && h in m.seen && FollowAll(d, m, h, keys) == goal
  }

  lemma Arrived(d: Dump, m: State, h: HObject, goal: State)
    requires Toward(d, m, h, [], goal)
    ensures m == goal
  {
  }

  /** The self size is stored, and the call returns it with what was added. */
  method Store(h: HObject, size: nat, ghost objs: set<HObject>, ghost s: State, ghost s': State) returns (r: nat)
    requires ObjectsHeld(objs, s) && h in objs && (h.htype == VARRAY ==> s.csize[h] == 0)
    requires s'.seen == s.seen && s'.csize == s.csize && s'.osize == s.osize[h := size]
    modifies h
    ensures ObjectsHeld(objs, s') && r == Wrap(SumOf(s', h))
  {
    WrapSum(size, s.csize[h]);
    WrapMod(size);
    h.osize := size % TWO64;
    r := if h.htype == VARRAY then h.osize else (h.osize + h.csize) % TWO64;
  }

  method Mark(h: HObject, ghost objs: set<HObject>, ghost s: State)
    requires ObjectsHeld(objs, s) && h in objs
    modifies h
    ensures ObjectsHeld(objs, Marked(s, h))
  {
    h.resolved := true;
  }

  class Session {
    const d: Dump
    var pos: nat
    /** All field records in use. */
    ghost var recs: set<FInfo>
    /** Classes that have been laid out. */
    ghost var laid: set<CInfo>

    ghost predicate ClassesHeld(log: multiset<(CInfo, CInfo)>)
      reads this`recs, this`laid, recs, d.classes.Values`values, d.classes.Values`tfields, d.classes.Values`resolved,
              d.classes.Values`children
    {
      && Chained(d.classes, d.depth) && Separate(d.classes) && Good(d.classes, d.depth, d.identsz, recs)
      && Tallied(d.classes, log)
      && forall c :: c in laid ==> c in d.classes.Values && c.resolved
    }

    /** The heap holds the state `s`. */
    ghost predicate Held(s: State)
      reads this`recs, this`laid, recs, d.objects.Values
      reads d.classes.Values`values, d.classes.Values`tfields, d.classes.Values`resolved, d.classes.Values`children
    {
      ClassesHeld(s.log) && ObjectsHeld(d.objects.Values, s)
    }

    /** Before the first call: nothing resolved, all sizes zero, no arcs. */
    constructor (d: Dump)
      requires WellFormed(d) && Known(d)
      requires forall h :: h in d.objects.Values ==> !h.resolved && h.osize == 0 && h.csize == 0
      requires forall c :: c in d.classes.Values ==> !c.resolved && c.values == [] && c.children == []
      ensures this.d == d && Held(Start(d)) && AtRest(d, Start(d))
    {
      this.d, pos, recs, laid := d, 0, Records(d.classes), {};
    }

    // ---------- reading (phat.c:468-505) ----------

    /** An eight-byte identifier comes out scrambled, except for its low 32 bits. */
    method ReadIdent(ghost s: State) returns (ident: nat)
      requires d.identsz in {4, 8} && pos + d.identsz <= |d.file| && Held(s)
      modifies this`pos
      ensures Held(s) && Key(ident) == KeyAt(d, old(pos)) && pos == old(pos) + d.identsz
    {
      BigKey(d, pos);
      if d.identsz == 4 {
        ident := Word(d.file, pos, 4);
      } else {
        var high, low3, last := Word(d.file, pos, 4), Word(d.file, pos + 4, 3), d.file[pos + 7] as int;
        ident := ((high * TWO32 + low3) * 256 + last) % TWO64;
        LowBits(high, low3, last);
      }
      pos := pos + d.identsz;
    }

    method Seek(p: nat, ghost s: State)
      requires Held(s)
      modifies this`pos
      ensures Held(s) && pos == p
    {
      pos := p;
    }

    // ---------- classes ----------

    /** Lay out the class `c` if that has not been done. */
    method ResolveClass(c: CInfo, ghost log: multiset<(CInfo, CInfo)>)
      requires ClassesHeld(log) && c in d.classes.Values
      modifies this`recs, this`laid, d.classes.Values, Records(d.classes)
      ensures ClassesHeld(log) && c in laid
      ensures old(laid) <= laid
    {
      if !c.resolved {
        recs := ResolveClassNode(d.classes, c, d.identsz, d.depth, recs);
      }
      laid := laid + {c};
    }

    method AddArc(a: CInfo, b: CInfo, ghost log: multiset<(CInfo, CInfo)>)
      requires ClassesHeld(log) && a in d.classes.Values && b in d.classes.Values
      modifies d.classes.Values`children
      ensures ClassesHeld(log + multiset{(a, b)})
    {
      ArcAdd(a, b, 1);
    }

    // ---------- one reference ----------

    /** `h` is credited with a total, and the classes with an arc. */
    method CreditTo(h: HObject, a: CInfo, b: CInfo, r: nat, ghost s: State, ghost s': State, ghost total: nat)
      requires Held(s) && h in d.objects.Values && h in s.csize && a in d.classes.Values && b in d.classes.Values
               && r == Wrap(total)
      requires s'.seen == s.seen && s'.osize == s.osize && s'.csize == s.csize[h := s.csize[h] + total]
      requires s'.log == s.log + multiset{(a, b)}
      modifies h, d.classes.Values`children
      ensures Held(s')
    {
      assert allocated(d.objects.Values);
      AddTotal(h, r, d.objects.Values, s, s', total);
      AddArc(a, b, s.log);
    }

    method Credit(h: HObject, q: HObject, r: nat, ghost s: State, ghost total: nat)
      requires Fits(d, s) && Held(s) && h in s.seen && q in d.objects.Values && r == Wrap(total)
      modifies h, d.classes.Values`children
      ensures Held(Credited(d, s, h, q, total))
    {
      var a, b := ClassOf(d, h), ClassOf(d, q);
      ghost var s' := Credited(d, s, h, q, total);
      assert h in d.objects.Values && a in d.classes.Values && b in d.classes.Values;
      hide Fits, Credited, Held;
      CreditTo(h, a, b, r, s, s', total);
    }

    /** A reference from `h` to `q` is followed. */
    method FollowTo(h: HObject, q: HObject, ghost s: State, ghost v: State, ghost sum: nat, ghost goal: State)
      requires Fits(d, s) && Zeros(d, s) && Held(s) && h in d.objects.Values && q in d.objects.Values && h in v.seen
      requires v == Visit(d, s, q) && Fits(d, v) && sum == SumOf(v, q) && goal == Credited(d, v, h, q, sum)
      modifies this, d.objects.Values, d.classes.Values, Records(d.classes)
      ensures Held(goal) && old(laid) <= laid
      decreases d.objects.Values - s.seen, 1, 0
    {
      hide Fits, Zeros, Visit, Credited, Held, SumOf;
      var r := ResolveInstance(q, s);
      Credit(h, q, r, v, sum);
    }

    /** A reference of `h` is followed, if its key is in the table. */
    method Follow(h: HObject, key: int, ghost s: State)
      requires Fits(d, s) && Zeros(d, s) && Held(s) && h in s.seen
      modifies this, d.objects.Values, d.classes.Values, Records(d.classes)
      ensures Held(FollowOne(d, s, h, key)) && old(laid) <= laid
      decreases d.objects.Values - s.seen, 1, 1
    {
      assert h in d.objects.Values;
      hide Zeros, FollowAll, Visit, Held;
      if key in d.objects {
        var q := d.objects[key];
        ghost var v := Visit(d, s, q);
        FollowTo(h, q, s, v, SumOf(v, q), FollowOne(d, s, h, key));
      }
    }

    /** The first of the remaining references is followed. */
    method FollowNext(h: HObject, key: int, ghost m: State, ghost keys: seq<int>, ghost goal: State)
      returns (ghost m': State)
      requires Toward(d, m, h, keys, goal) && Held(m) && keys != [] && keys[0] == key
      modifies this, d.objects.Values, d.classes.Values, Records(d.classes)
      ensures Toward(d, m', h, keys[1..], goal) && Held(m') && m.seen <= m'.seen && old(laid) <= laid
      decreases d.objects.Values - m.seen, 2, 0
    {
      FollowZeros(d, m, h, key);
      m' := FollowOne(d, m, h, key);
      Follow(h, key, m);
    }

    // ---------- object arrays (phat.c:1008-1024) ----------

    method ReadArray(h: HObject, ghost s: State, ghost keys: seq<int>) returns (idents: seq<nat>)
      requires Held(s) && Local(d, h) && h.htype == OARRAY && keys == Refs(d, h)
      modifies this`pos
      ensures Held(s) && |idents| == |keys| && forall i :: 0 <= i < |keys| ==> Key(idents[i]) == keys[i]
    {
      idents := ReadIdents(h, keys, s);
    }

    method ReadIdents(h: HObject, ghost keys: seq<int>, ghost s: State) returns (idents: seq<nat>)
      requires d.identsz in {4, 8} && h.fpos + h.count * d.identsz <= |d.file| && keys == ArrayKeys(d, h.fpos, h.count)
               && Held(s)
      modifies this`pos
      ensures Held(s) && |idents| == |keys| && forall i :: 0 <= i < |keys| ==> Key(idents[i]) == keys[i]
    {
      idents := [];
      Seek(h.fpos, s);
      hide Held;
      ArrayKeysLen(d, h.fpos, h.count);
      for i := 0 to h.count
        invariant Held(s) && |idents| == i && pos == h.fpos + Offset(d.identsz, i)
        invariant forall j :: 0 <= j < i ==> Key(idents[j]) == keys[j]
      {
        ArrayKeysAt(d, h.fpos, h.count, i);
        var ident := ReadIdent(s);
        idents := idents + [ident];
      }
    }

    /** All identifiers are read before the first is followed. */
    method ScanArray(h: HObject, ghost s: State, ghost keys: seq<int>, ghost goal: State)
      requires Local(d, h) && h.htype == OARRAY && keys == Refs(d, h) && Toward(d, s, h, keys, goal) && Held(s)
      modifies this, d.objects.Values, d.classes.Values, Records(d.classes)
      ensures Held(goal) && old(laid) <= laid
      decreases d.objects.Values - s.seen, 4, 0
    {
      hide Fits, Zeros, FollowAll, FollowOne, Visit, Toward, Held;
      var idents := ReadArray(h, s, keys);
      FollowList(h, idents, s, keys, goal);
    }

    method FollowList(h: HObject, idents: seq<nat>, ghost s: State, ghost keys: seq<int>, ghost goal: State)
      requires Toward(d, s, h, keys, goal) && Held(s)
      requires |idents| == |keys| && forall i :: 0 <= i < |keys| ==> Key(idents[i]) == keys[i]
      modifies this, d.objects.Values, d.classes.Values, Records(d.classes)
      ensures Held(goal) && old(laid) <= laid
      decreases d.objects.Values - s.seen, 3, 0
    {
      hide Fits, Zeros, FollowAll, FollowOne, Visit, Held;
      ghost var m, rest := s, keys;
      for i := 0 to |idents|
        invariant rest == keys[i..] && Toward(d, m, h, rest, goal) && Held(m) && s.seen <= m.seen && old(laid) <= laid
      {
        m := FollowNext(h, Key(idents[i]), m, rest, goal);
        rest := rest[1..];
      }
      Arrived(d, m, h, goal);
    }

    // ---------- resolving ----------

    /** An object that was seen before, even one that is still being scanned, answers with what it has. */
    method ResolveInstance(h: HObject, ghost s: State) returns (r: nat)
      requires Fits(d, s) && Zeros(d, s) && Held(s) && h in d.objects.Values
      modifies this, d.objects.Values, d.classes.Values, Records(d.classes)
      ensures Held(Visit(d, s, h)) && r == Wrap(SumOf(Visit(d, s, h), h)) && old(laid) <= laid
      decreases d.objects.Values - s.seen, 0, 1
    {
      if h.resolved {
        WrapSum(s.osize[h], s.csize[h]);
        r := (h.osize + h.csize) % TWO64;
      } else {
        ghost var goal := FollowAll(d, Marked(s, h), h, Refs(d, h));
        GoalFacts(d, s, h, goal);
        r := ResolveNew(h, ClassOf(d, h), s, goal);
      }
    }

    method ResolveNew(h: HObject, c: CInfo, ghost s: State, ghost goal: State) returns (r: nat)
      requires Local(d, h) && c == ClassOf(d, h) && h in d.objects.Values && c in d.classes.Values && Held(s)
               && h !in s.seen
      requires Toward(d, Marked(s, h), h, Refs(d, h), goal) && Fits(d, goal) && h in goal.seen && h in goal.osize
               && h in goal.csize
      requires goal.osize[h] == 0 && (Refs(d, h) == [] ==> goal.csize[h] == 0)
      modifies this, d.objects.Values, d.classes.Values, Records(d.classes)
      ensures Held(Done(d, goal, h)) && r == Wrap(SumOf(Done(d, goal, h), h)) && old(laid) <= laid
      decreases d.objects.Values - s.seen, 0, 0
    {
      hide Fits, Zeros, FollowAll, FollowOne, Visit, Toward, Local, Refs, Self, Held;
      Enter(h, c, s);
      var size := Scan(h, c, Marked(s, h), goal);
      r := Finish(h, c, size, goal);
    }

    /** The object counts as resolved from here on, and its class is laid out. */
    method Enter(h: HObject, c: CInfo, ghost s: State)
      requires Held(s) && h in d.objects.Values && c in d.classes.Values
      modifies this`recs, this`laid, h, d.classes.Values, Records(d.classes)
      ensures Held(Marked(s, h)) && c in laid && old(laid) <= laid
    {
      assert allocated(d.objects.Values);
      Mark(h, d.objects.Values, s);
      ResolveClass(c, s.log);
    }

    /** The self size of `h`, after all its references have been followed. */
    method Scan(h: HObject, c: CInfo, ghost s: State, ghost goal: State) returns (size: nat)
      requires Local(d, h) && c == ClassOf(d, h) && c in laid && Toward(d, s, h, Refs(d, h), goal) && Held(s)
      modifies this, d.objects.Values, d.classes.Values, Records(d.classes)
      ensures Held(goal) && old(laid) <= laid && size == Self(d, h)
      decreases d.objects.Values - s.seen, 6, 0
    {
      hide Fits, Zeros, FollowAll, FollowOne, Visit, Held;
      if h.htype == VARRAY {
        size := BasicWidth(BasicType(h, c.name)) * h.count % TWO32;
        Arrived(d, s, h, goal);
      } else if h.htype == OARRAY {
        size := h.count * d.identsz % TWO32;
        ScanArray(h, s, Refs(d, h), goal);
      } else {
        SlotsFit(d, h);
        assert Slots(d, h)[0..] == Slots(d, h);
        size := ScanSlots(h, c, s, goal);
      }
    }

    /** The sizes are stored; empty arrays return before that. */
    method Finish(h: HObject, c: CInfo, size: nat, ghost goal: State) returns (r: nat)
      requires Fits(d, goal) && Held(goal) && h in goal.seen && Local(d, h) && c in d.classes.Values
               && size == Self(d, h)
      requires goal.osize[h] == 0 && (Refs(d, h) == [] ==> goal.csize[h] == 0)
      modifies h, c`size
      ensures Held(Done(d, goal, h)) && r == Wrap(SumOf(Done(d, goal, h), h))
    {
      assert h in d.objects.Values && h in goal.osize && h in goal.csize;
      NoRefs(d, h);
      hide Fits, Local, Refs, Self;
      ghost var done := Done(d, goal, h);
      if (h.htype == VARRAY || h.htype == OARRAY) && h.count == 0 {
        assert done.osize == goal.osize;
        r := 0;
      } else {
        assert allocated(d.objects.Values);
        r := Store(h, size, d.objects.Values, goal, done);
        SetSize(c, size % TWO64, goal.log);
      }
    }

    method SetSize(c: CInfo, size: nat, ghost log: multiset<(CInfo, CInfo)>)
      requires ClassesHeld(log) && c in d.classes.Values
      modifies c`size
      ensures ClassesHeld(log)
    {
      c.size := size;
    }

    // ---------- instances (phat.c:1027-1071) ----------

    lemma LaidOutNow(h: HObject, s: State)
      requires Held(s) && Classed(d, h) && ClassOf(d, h) in laid
      ensures ClassOf(d, h).tfields == |Slots(d, h)|
              && (|Slots(d, h)| > 0 ==> Matching(ClassOf(d, h).values, Slots(d, h)))
    {
    }

    method ReadSlot(h: HObject, info: FInfo, ghost slot: Slot, ghost s: State) returns (ident: nat)
      requires Held(s) && d.identsz in {4, 8} && Matches(info, slot) && h.fpos + slot.offset + d.identsz <= |d.file|
      modifies this`pos
      ensures Held(s) && Key(ident) == KeyAt(d, h.fpos + slot.offset)
    {
      Seek(h.fpos + info.offset, s);
      hide Held;
      ident := ReadIdent(s);
    }

    /** One slot: the position is set anew, and a reference is read and followed. */
    method ScanSlot(h: HObject, info: FInfo, ghost slot: Slot, ghost m: State, ghost keys: seq<int>,
                    ghost rest: seq<int>, ghost goal: State)
      returns (ghost m': State)
      requires Toward(d, m, h, keys, goal) && Held(m) && Matches(info, slot)
      requires IsRef(info.ftype) ==> d.identsz in {4, 8} && h.fpos + slot.offset + d.identsz <= |d.file|
                                     && keys == [KeyAt(d, h.fpos + slot.offset)] + rest
      requires !IsRef(info.ftype) ==> keys == rest
      modifies this, d.objects.Values, d.classes.Values, Records(d.classes)
      ensures Toward(d, m', h, rest, goal) && Held(m') && m.seen <= m'.seen && old(laid) <= laid
      decreases d.objects.Values - m.seen, 3, 0
    {
      hide Fits, Zeros, FollowAll, FollowOne, Visit, Toward, Held;
      m' := m;
      if IsRef(info.ftype) {
        assert keys[1..] == rest;
        var ident := ReadSlot(h, info, slot, m);
        m' := FollowNext(h, Key(ident), m, keys, goal);
      }
    }

    /** The record in the heap for slot `i`. */
    method GetSlot(h: HObject, c: CInfo, i: nat, ghost m: State) returns (info: FInfo)
      requires Held(m) && Classed(d, h) && c == ClassOf(d, h) && c in laid && i < |Slots(d, h)|
      ensures Held(m) && Matches(info, Slots(d, h)[i])
    {
      LaidOutNow(h, m);
      info := c.values[i];
    }

    /** What slot `i` adds to the size, after its reference has been followed. */
    method ScanAt(h: HObject, c: CInfo, i: nat, ghost m: State, ghost goal: State) returns (size: nat, ghost m': State)
      requires c in laid && SlotToward(d, m, h, c, i, goal) && i < |Slots(d, h)| && Held(m)
      modifies this, d.objects.Values, d.classes.Values, Records(d.classes)
      ensures SlotToward(d, m', h, c, i + 1, goal) && Held(m') && m.seen <= m'.seen && old(laid) <= laid
      ensures size + SizeFrom(d, h, i + 1) == SizeFrom(d, h, i)
      decreases d.objects.Values - m.seen, 4, 0
    {
      hide Fits, Zeros, FollowAll, FollowOne, Visit, Toward, Held;
      SlotStep(d, h, i);
      var info := GetSlot(h, c, i, m);
      size := Counted(info.ftype, d.identsz);
      m' := ScanSlot(h, info, Slots(d, h)[i], m, KeysFrom(d, h, i), KeysFrom(d, h, i + 1), goal);
    }

    method ScanSlots(h: HObject, c: CInfo, ghost s: State, ghost goal: State) returns (size: nat)
      requires c in laid && SlotToward(d, s, h, c, 0, goal) && Held(s)
      modifies this, d.objects.Values, d.classes.Values, Records(d.classes)
      ensures Held(goal) && old(laid) <= laid && size == SizeFrom(d, h, 0)
      decreases d.objects.Values - s.seen, 5, 0
    {
      hide Fits, Zeros, FollowAll, FollowOne, Visit, Toward, Held;
      ghost var m, all := s, SizeFrom(d, h, 0);
      size := 0;
      LaidOutNow(h, s);
      var n := c.tfields;
      for i := 0 to n
        invariant Scanning(d, m, h, c, i, n, size, all, goal) && Held(m) && s.seen <= m.seen && old(laid) <= laid
      {
        var w;
        w, m := ScanAt(h, c, i, m, goal);
        size := size + w;
      }
      SlotsDone(d, m, h, c, n, size, all, goal);
    }
  }

  /** The keys from slot `i` on. */
  ghost function KeysFrom(d: Dump, h: HObject, i: nat): seq<int>
    requires Local(d, h) && SlotsInFile(d, h) && i <= |Slots(d, h)|
  {
    SlotKeys(d, h.fpos, Slots(d, h)[i..])
  }

  /** The counted widths from slot `i` on. */
  ghost function SizeFrom(d: Dump, h: HObject, i: nat): nat
    requires Local(d, h) && i <= |Slots(d, h)|
  {
    CountedAll(Slots(d, h)[i..], d.identsz)
  }

  /** The scan of the instance `h` of class `c` has come to slot `i`. */
  ghost predicate SlotToward(d: Dump, m: State, h: HObject, c: CInfo, i: nat, goal: State) {
    Local(d, h) && SlotsInFile(d, h) && c == ClassOf(d, h) && i <= |Slots(d, h)|
        && Toward(d, m, h, KeysFrom(d, h, i), goal)
  }

  ghost predicate Scanning(d: Dump, m: State, h: HObject, c: CInfo, i: nat, n: nat, size: nat, all: nat, goal: State) {
    SlotToward(d, m, h, c, i, goal) && n == |Slots(d, h)| && size + SizeFrom(d, h, i) == all
  }

  lemma SlotsDone(d: Dump, m: State, h: HObject, c: CInfo, n: nat, size: nat, all: nat, goal: State)
    requires Scanning(d, m, h, c, n, n, size, all, goal)
    ensures m == goal && size == all
  {
    Arrived(d, m, h, goal);
  }

  lemma NoRefs(d: Dump, h: HObject)
    requires Local(d, h)
    ensures h.htype == VARRAY ==> Refs(d, h) == []
    ensures (h.htype == VARRAY || h.htype == OARRAY) && h.count == 0 ==> Refs(d, h) == [] && Self(d, h) == 0
  {
  }

  lemma GoalFacts(d: Dump, s: State, h: HObject, goal: State)
    requires Fits(d, s) && Zeros(d, s) && h in d.objects.Values && h !in s.seen
    requires goal == FollowAll(d, Marked(s, h), h, Refs(d, h))
    ensures Local(d, h) && Toward(d, Marked(s, h), h, Refs(d, h), goal) && Fits(d, goal) && h in goal.seen
    ensures goal.osize[h] == 0 && (Refs(d, h) == [] ==> goal.csize[h] == 0) && Visit(d, s, h) == Done(d, goal, h)
  {
    assert Local(d, h) && Fits(d, Marked(s, h)) && Zeros(d, Marked(s, h)) && s.csize[h] == 0;
    GoalSizes(d, Marked(s, h), h, goal);
    hide FollowOne, Local, Refs, FollowAll;
    assert Visit(d, s, h) == Done(d, goal, h);
  }

  lemma GoalSizes(d: Dump, s: State, h: HObject, goal: State)
    requires Fits(d, s) && Local(d, h) && h in s.seen && goal == FollowAll(d, s, h, Refs(d, h))
    ensures Fits(d, goal) && s.seen <= goal.seen && goal.osize[h] == s.osize[h] && (Refs(d, h) == [] ==> goal == s)
  {
    var xs := FollowAllScans(d, s, h, Refs(d, h));
    hide FollowOne, Visit, Local, Refs;
  }

  lemma FollowZeros(d: Dump, s: State, h: HObject, k: int)
    requires Fits(d, s) && Zeros(d, s) && h in s.seen
    ensures Zeros(d, FollowOne(d, s, h, k))
  {
    var xs := FollowOneScans(d, s, h, k);
  }

  /** What 64 bits hold of a number. */
  ghost function Wrap(n: nat): nat {
    if n < TWO64 then n else Wrap(n - TWO64)
  }

  lemma {:induction false} WrapMod(n: nat)
    ensures Wrap(n) == n % TWO64
  {
    if n >= TWO64 { WrapMod(n - TWO64); }
  }

  lemma {:induction false} WrapLeft(a: nat, b: nat)
    ensures Wrap(Wrap(a) + b) == Wrap(a + b)
  {
    if a >= TWO64 { WrapLeft(a - TWO64, b); }
  }

  lemma WrapSum(a: nat, b: nat)
    ensures (Wrap(a) + Wrap(b)) % TWO64 == Wrap(a + b)
  {
    WrapLeft(a, b);
    WrapLeft(b, Wrap(a));
    WrapMod(Wrap(a) + Wrap(b));
  }

  /** The offset of the element `i` of an array of identifiers. */
  function Offset(idsz: nat, i: nat): (o: nat)
    requires idsz in {4, 8}
    ensures o == i * idsz
  {
    if idsz == 4 then 4 * i else 8 * i
  }

  lemma {:induction false} ArrayKeysAt(d: Dump, at: nat, count: nat, i: nat)
    requires d.identsz in {4, 8} && at + count * d.identsz <= |d.file| && i < count
    ensures |ArrayKeys(d, at, count)| == count
    ensures at + Offset(d.identsz, i) + d.identsz <= |d.file|
    ensures ArrayKeys(d, at, count)[i] == KeyAt(d, at + Offset(d.identsz, i))
    decreases count
  {
    if d.identsz == 4 { assert count * 4 == 4 + (count - 1) * 4; } else { assert count * 8 == 8 + (count - 1) * 8; }
    if i > 0 {
      ArrayKeysAt(d, at + d.identsz, count - 1, i - 1);
    } else {
      ArrayKeysLen(d, at, count);
    }
  }

  lemma {:induction false} ArrayKeysLen(d: Dump, at: nat, count: nat)
    requires d.identsz in {4, 8} && at + count * d.identsz <= |d.file|
    ensures |ArrayKeys(d, at, count)| == count
    decreases count
  {
    if count > 0 { ArrayKeysLen(d, at + d.identsz, count - 1); }
  }

  ghost predicate SlotsInFile(d: Dump, h: HObject)
    requires Local(d, h)
  {
    forall s :: 0 <= s < |Slots(d, h)| ==>
        h.fpos + Slots(d, h)[s].offset + Width(Slots(d, h)[s].ftype, d.identsz) <= |d.file|
  }

  /** The keys and the counted widths from slot `i` on. */
  lemma SlotStep(d: Dump, h: HObject, i: nat)
    requires Local(d, h) && SlotsInFile(d, h) && i < |Slots(d, h)|
    ensures CountedAll(Slots(d, h)[i..], d.identsz) ==
            Counted(Slots(d, h)[i].ftype, d.identsz) + CountedAll(Slots(d, h)[i + 1..], d.identsz)
    ensures IsRef(Slots(d, h)[i].ftype) ==> h.fpos + Slots(d, h)[i].offset + d.identsz <= |d.file|
    ensures SlotKeys(d, h.fpos, Slots(d, h)[i..]) ==
              (if IsRef(Slots(d, h)[i].ftype) then [KeyAt(d, h.fpos + Slots(d, h)[i].offset)] else [])
              + SlotKeys(d, h.fpos, Slots(d, h)[i + 1..])
  {
    assert Slots(d, h)[i..][1..] == Slots(d, h)[i + 1..];
    assert Slots(d, h)[i..][0] == Slots(d, h)[i];
  }

  function Word(file: seq<Byte>, at: nat, n: nat): nat
    requires at + n <= |file|
  {
    if n == 0 then 0 else Word(file, at, n - 1) * 256 + file[at + n - 1] as int
  }

  lemma LowBits(high: nat, low3: nat, last: nat)
    requires low3 * 256 + last < TWO32
    ensures Key(((high * TWO32 + low3) * 256 + last) % TWO64) == low3 * 256 + last
  {
    LowPart(high * 256, low3 * 256 + last);
    assert (high * TWO32 + low3) * 256 + last == high * 256 * TWO32 + (low3 * 256 + last);
  }

  lemma LowPart(a: nat, b: nat)
    requires b < TWO32
    ensures Key((a * TWO32 + b) % TWO64) == b
  {
    var q := (a * TWO32 + b) / TWO64;
    assert (a * TWO32 + b) % TWO64 == (a - q * TWO32) * TWO32 + b;
  }

  lemma BigKey(d: Dump, at: nat)
    requires d.identsz in {4, 8} && at + d.identsz <= |d.file|
    ensures KeyAt(d, at) < TWO32
    ensures d.identsz == 4 ==> KeyAt(d, at) == Word(d.file, at, 4)
    ensures d.identsz == 8 ==> KeyAt(d, at) == Word(d.file, at + 4, 3) * 256 + d.file[at + 7] as int
  {
    var k := at + d.identsz - 4;
    assert Word(d.file, k, 1) == d.file[k] as int;
    assert Word(d.file, k, 2) == Word(d.file, k, 1) * 256 + d.file[k + 1] as int;
    assert Word(d.file, k, 3) == Word(d.file, k, 2) * 256 + d.file[k + 2] as int;
  }
}
