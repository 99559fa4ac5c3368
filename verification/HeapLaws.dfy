/** What the references, the arcs, the sizes and the totals of an object are, slot by slot and byte by byte. */
module HeapLaws {
  import opened Formats
  import opened Counting
  import opened Layout
  import opened HeapGraph
  import opened Resolver
  import Records
  import HeapReader

  // ---------- identifiers ----------

  /** The key of a stored identifier is the number that its last four bytes stand for, as for the reader. */
  lemma KeyIsLast(d: Dump, at: nat)
    requires d.identsz in {4, 8} && at + d.identsz <= |d.file|
    ensures KeyAt(d, at) == Records.Value(d.file[at + d.identsz - 4..at + d.identsz])
    ensures KeyAt(d, at) == HeapReader.KeyOf(d.file[at..at + d.identsz])
  {
    var p := at + d.identsz - 4;
    var b := d.file[p..p + 4];
    assert b[..3] == d.file[p..p + 3] && b[..3][..2] == d.file[p..p + 2] && b[..3][..2][..1] == d.file[p..p + 1];
    assert Records.Value(b[..3][..2][..1]) == d.file[p] as int;
    assert Records.Value(b[..3][..2]) == d.file[p] as int * 256 + d.file[p + 1] as int;
    assert Records.Value(b[..3]) == (d.file[p] as int * 256 + d.file[p + 1] as int) * 256 + d.file[p + 2] as int;
    assert d.file[at..at + d.identsz][d.identsz - 4..] == b;
  }

  // ---------- references ----------

  ghost predicate SlotsLie(d: Dump, at: nat, slots: seq<Slot>) {
    forall s :: 0 <= s < |slots| ==> at + slots[s].offset + Width(slots[s].ftype, d.identsz) <= |d.file|
  }

  /** The slot is of type 'L' or '[', and its stored identifier has a key that satisfies `p`. */
  ghost predicate Leads(d: Dump, at: nat, slot: Slot, p: int -> bool)
    requires d.identsz in {4, 8} && at + slot.offset + Width(slot.ftype, d.identsz) <= |d.file|
  {
    slot.ftype in {'L', '['} && p(KeyAt(d, at + slot.offset))
  }

  ghost function SlotMarks(d: Dump, at: nat, slots: seq<Slot>, p: int -> bool): (m: seq<bool>)
    requires d.identsz in {4, 8} && SlotsLie(d, at, slots)
    ensures |m| == |slots| && forall i :: 0 <= i < |m| ==> m[i] == Leads(d, at, slots[i], p)
  {
    seq(|slots|, i requires 0 <= i < |slots| => Leads(d, at, slots[i], p))
  }

  ghost function KeyMarks(keys: seq<int>, p: int -> bool): (m: seq<bool>)
    ensures |m| == |keys| && forall i :: 0 <= i < |m| ==> m[i] == p(keys[i])
  {
    seq(|keys|, i requires 0 <= i < |keys| => p(keys[i]))
  }

  lemma {:induction false} SlotKeysMarks(d: Dump, at: nat, slots: seq<Slot>, p: int -> bool)
    requires d.identsz in {4, 8} && SlotsLie(d, at, slots)
    ensures Marks(KeyMarks(SlotKeys(d, at, slots), p)) == Marks(SlotMarks(d, at, slots, p))
  {
    if slots != [] {
      var keys := SlotKeys(d, at, slots[1..]);
      SlotKeysMarks(d, at, slots[1..], p);
      assert SlotMarks(d, at, slots, p)[1..] == SlotMarks(d, at, slots[1..], p);
      if slots[0].ftype in {'L', '['} {
        var k := KeyAt(d, at + slots[0].offset);
        assert SlotKeys(d, at, slots) == [k] + keys;
        assert KeyMarks([k] + keys, p)[1..] == KeyMarks(keys, p);
      } else {
        assert SlotKeys(d, at, slots) == keys;
      }
    }
  }

  lemma {:induction false} KeyCount(keys: seq<int>, k: int, p: int -> bool)
    requires forall x :: p(x) <==> x == k
    ensures multiset(keys)[k] == Marks(KeyMarks(keys, p))
  {
    if keys != [] {
      KeyCount(keys[1..], k, p);
      assert keys == [keys[0]] + keys[1..];
      assert KeyMarks(keys, p)[1..] == KeyMarks(keys[1..], p);
    }
  }

  ghost predicate IsInstance(d: Dump, h: HObject) {
    Local(d, h) && h.htype != OARRAY && h.htype != VARRAY
  }

  /** The slots of an instance whose type is 'L' or '[' and whose stored identifier has the key `k`. */
  ghost function SlotsTo(d: Dump, h: HObject, k: int): set<nat>
    requires IsInstance(d, h)
  {
    SlotsFit(d, h);
    set i: nat | i < |Slots(d, h)| && Slots(d, h)[i].ftype in {'L', '['}
                 && KeyAt(d, h.fpos + Slots(d, h)[i].offset) == k
  }

  /** The references of an instance whose keys satisfy `p`, counted by slots. */
  lemma SlotsCount(d: Dump, h: HObject, p: int -> bool)
    requires IsInstance(d, h)
    ensures SlotsLie(d, h.fpos, Slots(d, h))
    ensures |set i: nat | i < |Slots(d, h)| && Leads(d, h.fpos, Slots(d, h)[i], p)| == Marks(KeyMarks(Refs(d, h), p))
  {
    SlotsFit(d, h);
    var m := SlotMarks(d, h.fpos, Slots(d, h), p);
    SlotKeysMarks(d, h.fpos, Slots(d, h), p);
    MarksCard(m);
    assert (set i: nat | i < |Slots(d, h)| && Leads(d, h.fpos, Slots(d, h)[i], p)) == set i: nat | i < |m| && m[i];
  }

  /** An instance refers to a key as often as it has such slots. */
  lemma InstanceRefs(d: Dump, h: HObject, k: int)
    requires IsInstance(d, h)
    ensures multiset(Refs(d, h))[k] == |SlotsTo(d, h, k)|
  {
    hide Slots, Refs;
    var p := (x: int) => x == k;
    SlotsCount(d, h, p);
    KeyCount(Refs(d, h), k, p);
    assert SlotsTo(d, h, k) == set i: nat | i < |Slots(d, h)| && Leads(d, h.fpos, Slots(d, h)[i], p);
  }

  // ---------- object arrays ----------

  /** Where the element `i` of an object array is stored. */
  ghost function ElemAt(d: Dump, h: HObject, i: nat): (at: nat)
    requires Local(d, h) && h.htype == OARRAY && i < h.count
    ensures at == h.fpos + i * d.identsz && at + d.identsz <= |d.file|
  {
    assert i * d.identsz + d.identsz == (i + 1) * d.identsz <= h.count * d.identsz;
    h.fpos + i * d.identsz
  }

  /** The key of the identifier stored there. */
  ghost function ElemKey(d: Dump, h: HObject, i: nat): int
    requires Local(d, h) && h.htype == OARRAY && i < h.count
  {
    KeyAt(d, ElemAt(d, h, i))
  }

  /** The elements of an object array whose stored identifier has the key `k`. */
  ghost function ElemsTo(d: Dump, h: HObject, k: int): set<nat>
    requires Local(d, h) && h.htype == OARRAY
  {
    set i: nat | i < h.count && ElemKey(d, h, i) == k
  }

  /** The elements are the references, in order. */
  lemma ElemKeys(d: Dump, h: HObject)
    requires Local(d, h) && h.htype == OARRAY
    ensures |Refs(d, h)| == h.count && forall i: nat :: i < h.count ==> Refs(d, h)[i] == ElemKey(d, h, i)
  {
    ArrayKeysLen(d, h.fpos, h.count);
    forall i: nat | i < h.count ensures Refs(d, h)[i] == ElemKey(d, h, i) {
      ArrayKeysAt(d, h.fpos, h.count, i);
    }
  }

  /** The references of an object array whose keys satisfy `p`, counted by elements. */
  lemma ElemsCount(d: Dump, h: HObject, p: int -> bool)
    requires Local(d, h) && h.htype == OARRAY
    ensures |set i: nat | i < h.count && p(ElemKey(d, h, i))| == Marks(KeyMarks(Refs(d, h), p))
  {
    hide Local, ElemKey, Refs;
    ElemKeys(d, h);
    var m := KeyMarks(Refs(d, h), p);
    MarksCard(m);
    assert (set i: nat | i < h.count && p(ElemKey(d, h, i))) == set i: nat | i < |m| && m[i];
  }

  lemma ArrayRefs(d: Dump, h: HObject, k: int)
    requires Local(d, h) && h.htype == OARRAY
    ensures multiset(Refs(d, h))[k] == |ElemsTo(d, h, k)|
  {
    hide Local, ElemKey, Refs;
    var p := (x: int) => x == k;
    ElemsCount(d, h, p);
    KeyCount(Refs(d, h), k, p);
    assert ElemsTo(d, h, k) == set i: nat | i < h.count && p(ElemKey(d, h, i));
  }

  lemma PrimitiveRefs(d: Dump, h: HObject)
    requires Local(d, h) && h.htype == VARRAY
    ensures Refs(d, h) == []
  {
  }

  // ---------- arcs ----------

  ghost predicate OfClass(d: Dump, k: int, b: CInfo)
    requires Known(d)
  {
    k in d.objects && ClassOf(d, d.objects[k]) == b
  }

  lemma {:induction false} ArcsMarks(d: Dump, a: CInfo, keys: seq<int>, x: CInfo, b: CInfo, p: int -> bool)
    requires Known(d) && forall k :: p(k) <==> OfClass(d, k, b)
    ensures ArcsOf(d, a, keys)[(x, b)] == if x == a then Marks(KeyMarks(keys, p)) else 0
  {
    if keys != [] {
      ArcsMarks(d, a, keys[1..], x, b, p);
      assert KeyMarks(keys, p)[1..] == KeyMarks(keys[1..], p);
      assert ArcAt(d, a, keys[0])[(x, b)] == if x == a && p(keys[0]) then 1 else 0;
    }
  }

  /** An instance adds to the arc from its class to `b` as many references as it has slots of type 'L' or '[' whose
      stored identifier is that of an object of class `b`; it adds nothing to arcs from other classes. */
  lemma InstanceArcs(d: Dump, h: HObject, x: CInfo, b: CInfo)
    requires Known(d) && IsInstance(d, h)
    ensures SlotsLie(d, h.fpos, Slots(d, h))
    ensures ObjectArcs(d, h)[(x, b)] ==
            if x != ClassOf(d, h) then 0
            else |set i: nat | i < |Slots(d, h)| && Slots(d, h)[i].ftype in {'L', '['}
                               && OfClass(d, KeyAt(d, h.fpos + Slots(d, h)[i].offset), b)|
  {
    hide Refs;
    var p := (k: int) => OfClass(d, k, b);
    SlotsCount(d, h, p);
    ArcsMarks(d, ClassOf(d, h), Refs(d, h), x, b, p);
    assert (set i: nat | i < |Slots(d, h)| && Slots(d, h)[i].ftype in {'L', '['}
                         && OfClass(d, KeyAt(d, h.fpos + Slots(d, h)[i].offset), b))
           == set i: nat | i < |Slots(d, h)| && Leads(d, h.fpos, Slots(d, h)[i], p);
  }

  /** An object array does so with its elements. */
  lemma ArrayArcs(d: Dump, h: HObject, x: CInfo, b: CInfo)
    requires Known(d) && Local(d, h) && h.htype == OARRAY
    ensures ObjectArcs(d, h)[(x, b)] ==
            if x != ClassOf(d, h) then 0
            else |set i: nat | i < h.count && OfClass(d, ElemKey(d, h, i), b)|
  {
    hide ElemKey, Refs, ChainWidth;
    var p := (k: int) => OfClass(d, k, b);
    ElemsCount(d, h, p);
    ArcsMarks(d, ClassOf(d, h), Refs(d, h), x, b, p);
    assert (set i: nat | i < h.count && OfClass(d, ElemKey(d, h, i), b))
           == set i: nat | i < h.count && p(ElemKey(d, h, i));
  }

  // ---------- totals ----------

  ghost function TotalAt(d: Dump, rank: map<HObject, nat>, k: int): nat
    requires Ranked(d, rank)
  {
    if k in d.objects then Tot(d, rank, d.objects[k]) else 0
  }

  /** The totals that the slots of an instance from `i` on refer to. */
  ghost function SlotTotals(d: Dump, rank: map<HObject, nat>, h: HObject, i: nat): nat
    requires Ranked(d, rank) && IsInstance(d, h) && i <= |Slots(d, h)|
    decreases |Slots(d, h)| - i
  {
    SlotsFit(d, h);
    if i == |Slots(d, h)| then 0
    else
      var slot := Slots(d, h)[i];
      (if slot.ftype in {'L', '['} then TotalAt(d, rank, KeyAt(d, h.fpos + slot.offset)) else 0)
      + SlotTotals(d, rank, h, i + 1)
  }

  lemma {:induction false} SlotTotalsAre(d: Dump, rank: map<HObject, nat>, h: HObject, i: nat, bound: nat)
    requires Ranked(d, rank) && IsInstance(d, h) && SlotsInFile(d, h) && i <= |Slots(d, h)|
    requires forall k :: k in KeysFrom(d, h, i) && k in d.objects ==> rank[d.objects[k]] < bound
    ensures SlotTotals(d, rank, h, i) == TotOf(d, rank, KeysFrom(d, h, i), bound)
    decreases |Slots(d, h)| - i
  {
    if i < |Slots(d, h)| {
      SlotStep(d, h, i);
      var slot := Slots(d, h)[i];
      if slot.ftype in {'L', '['} {
        assert KeysFrom(d, h, i)[1..] == KeysFrom(d, h, i + 1);
      } else {
        assert KeysFrom(d, h, i) == KeysFrom(d, h, i + 1);
      }
      SlotTotalsAre(d, rank, h, i + 1, bound);
    }
  }

  /** An instance holds itself and, slot by slot, what its slots of type 'L' or '[' refer to. */
  lemma InstanceTotal(d: Dump, rank: map<HObject, nat>, h: HObject)
    requires Ranked(d, rank) && h in d.objects.Values && IsInstance(d, h)
    ensures Tot(d, rank, h) == Self(d, h) + SlotTotals(d, rank, h, 0)
  {
    SlotsFit(d, h);
    assert Slots(d, h)[0..] == Slots(d, h);
    SlotTotalsAre(d, rank, h, 0, rank[h]);
  }

  /** The totals that the elements of an object array from `i` on refer to. */
  ghost function ElemTotals(d: Dump, rank: map<HObject, nat>, h: HObject, i: nat): nat
    requires Ranked(d, rank) && Local(d, h) && h.htype == OARRAY && i <= h.count
    decreases h.count - i
  {
    if i == h.count then 0 else TotalAt(d, rank, ElemKey(d, h, i)) + ElemTotals(d, rank, h, i + 1)
  }

  lemma {:induction false} ElemTotalsAre(d: Dump, rank: map<HObject, nat>, h: HObject, i: nat, bound: nat)
    requires Ranked(d, rank) && Local(d, h) && h.htype == OARRAY && i <= h.count && |Refs(d, h)| == h.count
    requires forall j: nat :: j < h.count ==> Refs(d, h)[j] == ElemKey(d, h, j)
    requires forall k :: k in Refs(d, h)[i..] && k in d.objects ==> rank[d.objects[k]] < bound
    ensures ElemTotals(d, rank, h, i) == TotOf(d, rank, Refs(d, h)[i..], bound)
    decreases h.count - i
  {
    if i < h.count {
      assert Refs(d, h)[i..][1..] == Refs(d, h)[i + 1..] && Refs(d, h)[i..][0] == Refs(d, h)[i];
      hide Refs;
      ElemTotalsAre(d, rank, h, i + 1, bound);
    }
  }

  /** An object array holds itself and, element by element, what its elements refer to. */
  lemma ArrayTotal(d: Dump, rank: map<HObject, nat>, h: HObject)
    requires Ranked(d, rank) && h in d.objects.Values && Local(d, h) && h.htype == OARRAY
    ensures Tot(d, rank, h) == h.count * d.identsz % TWO32 + ElemTotals(d, rank, h, 0)
  {
    ElemKeys(d, h);
    assert Refs(d, h)[0..] == Refs(d, h);
    ElemTotalsAre(d, rank, h, 0, rank[h]);
  }

  // ---------- places ----------

  ghost function Moved(s: Slot, gap: nat): Slot {
    s.(offset := s.offset + gap)
  }

  lemma {:induction false} PlacedMoved(fs: seq<FInfo>, idsz: nat, base: nat, gap: nat, j: nat)
    requires j < |fs|
    ensures Placed(fs, idsz, base + gap)[j] == Moved(Placed(fs, idsz, base)[j], gap)
  {
    WidthsTake(fs, idsz, base, j);
    WidthsTake(fs, idsz, base + gap, j);
  }

  lemma {:induction false} SlotsMoved(t: Classes, c: CInfo, n: nat, idsz: nat, base: nat, gap: nat)
    requires Ends(t, c, n)
    ensures var l, m := SlotsFrom(t, c, n, idsz, base + gap), SlotsFrom(t, c, n, idsz, base);
            |l| == |m| && forall i :: 0 <= i < |m| ==> l[i] == Moved(m[i], gap)
  {
    if n > 0 {
      SlotsMoved(t, Super(t, c), n - 1, idsz, base + Widths(c.fields, idsz), gap);
      forall j: nat | j < |c.fields|
        ensures Placed(c.fields, idsz, base + gap)[j] == Moved(Placed(c.fields, idsz, base)[j], gap)
      {
        PlacedMoved(c.fields, idsz, base, gap, j);
      }
    }
  }

  /** In the list of slots the fields of a class come last; in memory they come first, one after the other. What is
      inherited is as in the superclass, only further back by the width of the fields. */
  lemma {:induction false} Inherited(t: Classes, c: CInfo, n: nat, idsz: nat)
    requires Ends(t, c, n) && n > 0
    ensures var l, up := SlotsFrom(t, c, n, idsz, 0), SlotsFrom(t, Super(t, c), n - 1, idsz, 0);
            && |l| == |up| + |c.fields|
            && (forall i :: 0 <= i < |up| ==> l[i] == Moved(up[i], Widths(c.fields, idsz)))
            && forall j :: 0 <= j < |c.fields| ==>
                 l[|up| + j] == Slot(c.fields[j].ident, c.fields[j].ftype, Widths(c.fields[..j], idsz))
  {
    SlotsMoved(t, Super(t, c), n - 1, idsz, 0, Widths(c.fields, idsz));
    forall j | 0 <= j < |c.fields|
      ensures Placed(c.fields, idsz, 0)[j]
              == Slot(c.fields[j].ident, c.fields[j].ftype, Widths(c.fields[..j], idsz))
    {
      WidthsTake(c.fields, idsz, 0, j);
    }
  }

  // ---------- sizes ----------

  ghost function SlotWidths(slots: seq<Slot>, idsz: nat): nat {
    if slots == [] then 0 else Width(slots[0].ftype, idsz) + SlotWidths(slots[1..], idsz)
  }

  lemma {:induction false} SlotWidthsConcat(a: seq<Slot>, b: seq<Slot>, idsz: nat)
    ensures SlotWidths(a + b, idsz) == SlotWidths(a, idsz) + SlotWidths(b, idsz)
  {
    if a == [] {
      assert a + b == b;
    } else {
      SlotWidthsConcat(a[1..], b, idsz);
      assert (a + b)[1..] == a[1..] + b;
    }
  }

  lemma {:induction false} PlacedWidths(fs: seq<FInfo>, idsz: nat, base: nat)
    ensures SlotWidths(Placed(fs, idsz, base), idsz) == Widths(fs, idsz)
  {
    if fs != [] { PlacedWidths(fs[1..], idsz, base + Width(fs[0].ftype, idsz)); }
  }

  lemma {:induction false} ChainWidths(t: Classes, c: CInfo, n: nat, idsz: nat, base: nat)
    requires Ends(t, c, n)
    ensures SlotWidths(SlotsFrom(t, c, n, idsz, base), idsz) == ChainWidth(t, c, n, idsz)
  {
    if n > 0 {
      var up := base + Widths(c.fields, idsz);
      ChainWidths(t, Super(t, c), n - 1, idsz, up);
      PlacedWidths(c.fields, idsz, base);
      SlotWidthsConcat(SlotsFrom(t, Super(t, c), n - 1, idsz, up), Placed(c.fields, idsz, base), idsz);
    }
  }

  ghost function TypeMarks(slots: seq<Slot>, ftype: char): (m: seq<bool>)
    ensures |m| == |slots| && forall i :: 0 <= i < |m| ==> m[i] == (slots[i].ftype == ftype)
  {
    seq(|slots|, i requires 0 <= i < |slots| => slots[i].ftype == ftype)
  }

  lemma {:induction false} CountedMarks(slots: seq<Slot>, idsz: nat)
    ensures CountedAll(slots, idsz) + 4 * Marks(TypeMarks(slots, 'F')) + 8 * Marks(TypeMarks(slots, 'D'))
            == SlotWidths(slots, idsz)
  {
    if slots != [] {
      CountedMarks(slots[1..], idsz);
      assert TypeMarks(slots, 'F')[1..] == TypeMarks(slots[1..], 'F');
      assert TypeMarks(slots, 'D')[1..] == TypeMarks(slots[1..], 'D');
    }
  }

  /** The slots of the type. */
  ghost function SlotsOf(slots: seq<Slot>, ftype: char): set<nat> {
    set i: nat | i < |slots| && slots[i].ftype == ftype
  }

  lemma TypeCard(slots: seq<Slot>, ftype: char)
    ensures |SlotsOf(slots, ftype)| == Marks(TypeMarks(slots, ftype))
  {
    var m := TypeMarks(slots, ftype);
    MarksCard(m);
    assert SlotsOf(slots, ftype) == set i: nat | i < |m| && m[i];
  }

  /** The size of an instance is the width of all its fields, but without four bytes for every float and eight for every
      double. */
  lemma InstanceSize(d: Dump, h: HObject)
    requires IsInstance(d, h)
    ensures Self(d, h) + 4 * |SlotsOf(Slots(d, h), 'F')| + 8 * |SlotsOf(Slots(d, h), 'D')|
            == ChainWidth(d.classes, ClassOf(d, h), d.depth[ClassOf(d, h)], d.identsz)
  {
    ChainWidths(d.classes, ClassOf(d, h), d.depth[ClassOf(d, h)], d.identsz, 0);
    CountedMarks(Slots(d, h), d.identsz);
    TypeCard(Slots(d, h), 'F');
    TypeCard(Slots(d, h), 'D');
  }

  /** The tables of types agree: the signature in the file, the signature of an element, and the widths by signature and
      by basic type. */
  lemma TablesAgree(t: Byte, version: nat, idsz: nat)
    requires 4 <= t <= 11 && version >= 1
    ensures Records.ElemSig(t) == Records.Sig(version, t)
            && Width(Records.Sig(version, t), idsz) == BasicWidth(t as int)
    ensures BasicWidth(t as int) == if t % 4 == 0 then 1 else if t % 4 == 1 then 2 else if t % 4 == 2 then 4 else 8
    ensures Width(Records.Sig(version, 2), idsz) == idsz && Records.Sig(0, t) == t as char
  {
  }

  /** The size of a primitive array by the name of its class is that of its elements, in 32 bits. */
  lemma PrimitiveSize(d: Dump, h: HObject, t: Byte)
    requires Local(d, h) && h.htype == VARRAY && 4 <= t <= 11
    requires h.classId == t as int
             || (h.classId > 12 && |ClassOf(d, h).name| > 1 && ClassOf(d, h).name[1] == Records.Sig(1, t))
    ensures Self(d, h) == Width(Records.Sig(1, t), d.identsz) * h.count % TWO32
  {
  }
}
