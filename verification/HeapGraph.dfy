/**
 The object graph of a heap dump, as the records in the file give it: which slots of an object refer to
 which objects, how large it is by itself, and what it holds together with everything below it.
 */
module HeapGraph {
  import opened Formats
  import opened Layout

  const VARRAY := 2
  const OARRAY := 3

  /** A heap object. Only `resolved` and the sizes change. */
  class HObject {
    const htype: int
    const classId: int
    const fpos: nat
    const count: nat
    var resolved: bool
    var osize: nat
    var csize: nat

    constructor (htype: int, classId: int, fpos: nat, count: nat)
      ensures this.htype == htype && this.classId == classId && this.fpos == fpos && this.count == count
      ensures !resolved && osize == 0 && csize == 0
    {
      this.htype, this.classId, this.fpos, this.count := htype, classId, fpos, count;
      resolved, osize, csize := false, 0, 0;
    }
  }

  /** What a dump holds once it has been read: the file, the tables by 32-bit key, and the length of every superclass
      chain. */
  datatype Dump = Dump(file: seq<Byte>, identsz: nat, objects: map<int, HObject>, classes: Classes,
          ghost depth: map<CInfo, nat>)

  // ---------- identifiers ----------

  ghost function Big4(file: seq<Byte>, at: nat): nat
    requires at + 4 <= |file|
  {
    ((file[at] as int * 256 + file[at + 1] as int) * 256 + file[at + 2] as int) * 256 + file[at + 3] as int
  }

  /** The key of the identifier stored at `at`: its last four bytes. */
  ghost function KeyAt(d: Dump, at: nat): int
    requires d.identsz in {4, 8} && at + d.identsz <= |d.file|
  {
    Big4(d.file, at + d.identsz - 4)
  }

  // ---------- objects ----------

  function IsRef(ftype: char): bool {
    ftype == 'L' || ftype == '['
  }

  function ClassOf(d: Dump, h: HObject): CInfo
    requires Key(h.classId) in d.classes
  {
    d.classes[Key(h.classId)]
  }

  /** The classes of the objects in the table are known. */
  ghost predicate Known(d: Dump) {
    && (forall k {:trigger d.objects[k]} :: k in d.objects ==> Key(d.objects[k].classId) in d.classes)
    && (forall h :: h in d.objects.Values ==> Key(h.classId) in d.classes)
  }

  /** The class of an object is known and its superclass chain ends. */
  ghost predicate Classed(d: Dump, h: HObject) {
    && Key(h.classId) in d.classes && ClassOf(d, h) in d.depth
    && Ends(d.classes, ClassOf(d, h), d.depth[ClassOf(d, h)])
  }

  ghost function Slots(d: Dump, h: HObject): seq<Slot>
    requires Classed(d, h)
  {
    SlotsFrom(d.classes, ClassOf(d, h), d.depth[ClassOf(d, h)], d.identsz, 0)
  }

  /** The record of an object lies in the file. */
  ghost predicate Local(d: Dump, h: HObject) {
    && d.identsz in {4, 8} && Classed(d, h)
    && (h.htype == OARRAY ==> h.fpos + h.count * d.identsz <= |d.file|)
    && (h.htype != OARRAY && h.htype != VARRAY ==>
          h.fpos + ChainWidth(d.classes, ClassOf(d, h), d.depth[ClassOf(d, h)], d.identsz) <= |d.file|)
  }

  ghost predicate WellFormed(d: Dump) {
    && d.identsz in {4, 8} && Chained(d.classes, d.depth) && Separate(d.classes)
    && forall h {:trigger Local(d, h)} :: h in d.objects.Values ==> Local(d, h)
  }

  /** The keys in the elements `[i..count)` of an object array. */
  ghost function ArrayKeys(d: Dump, at: nat, count: nat): seq<int>
    requires d.identsz in {4, 8} && at + count * d.identsz <= |d.file|
    decreases count
  {
    if count == 0 then [] else [KeyAt(d, at)] + ArrayKeys(d, at + d.identsz, count - 1)
  }

  /** The keys in the reference slots of an instance. */
  ghost function SlotKeys(d: Dump, at: nat, slots: seq<Slot>): seq<int>
    requires d.identsz in {4, 8} && forall s :: 0 <= s < |slots| ==>
             at + slots[s].offset + Width(slots[s].ftype, d.identsz) <= |d.file|
  {
    if slots == [] then [] else
      assert IsRef(slots[0].ftype) ==> Width(slots[0].ftype, d.identsz) == d.identsz;
      (if IsRef(slots[0].ftype) then [KeyAt(d, at + slots[0].offset)] else []) + SlotKeys(d, at, slots[1..])
  }

  lemma SlotsFit(d: Dump, h: HObject)
    requires Local(d, h) && h.htype != OARRAY && h.htype != VARRAY
    ensures forall s :: 0 <= s < |Slots(d, h)| ==>
              h.fpos + Slots(d, h)[s].offset + Width(Slots(d, h)[s].ftype, d.identsz) <= |d.file|
  {
    var c := ClassOf(d, h);
    SlotsWithin(d.classes, c, d.depth[c], d.identsz, 0);
  }

  /** The keys that an object refers to, in the order they are followed. */
  ghost function Refs(d: Dump, h: HObject): seq<int>
    requires Local(d, h)
  {
    if h.htype == VARRAY then []
    else if h.htype == OARRAY then ArrayKeys(d, h.fpos, h.count)
    else SlotsFit(d, h); SlotKeys(d, h.fpos, Slots(d, h))
  }

  // ---------- sizes ----------

  /** What a field adds to the size of an instance; floats and doubles add nothing. */
  function Counted(ftype: char, idsz: nat): nat {
    if ftype == 'F' || ftype == 'D' then 0 else Width(ftype, idsz)
  }

  ghost function CountedAll(slots: seq<Slot>, idsz: nat): nat {
    if slots == [] then 0 else Counted(slots[0].ftype, idsz) + CountedAll(slots[1..], idsz)
  }

  /** The basic type of a primitive array, from the name of its class unless the class is a basic type itself. */
  function BasicType(h: HObject, name: string): int {
    var sig := if |name| > 1 then name[1] else '\0';
    if h.classId <= 12 then h.classId
    else match sig
      case 'B' => 8 case 'Z' => 8 case 'C' => 9 case 'S' => 9 case 'F' => 6 case 'D' => 7 case 'I' => 10 case 'J' => 11
      case _ => h.classId
  }

  function BasicWidth(basic: int): nat {
    match basic
    case 4 => 1 case 8 => 1 case 5 => 2 case 9 => 2 case 6 => 4 case 7 => 8 case 10 => 4 case 11 => 8
    case _ => 0
  }

  /** The size of an object by itself. Array sizes are computed in 32 bits. */
  ghost function Self(d: Dump, h: HObject): nat
    requires Local(d, h)
  {
    if h.htype == VARRAY then BasicWidth(BasicType(h, ClassOf(d, h).name)) * h.count % TWO32
    else if h.htype == OARRAY then h.count * d.identsz % TWO32
    else CountedAll(Slots(d, h), d.identsz)
  }

  // ---------- totals on graphs without cycles ----------

  /** References go down in rank. */
  ghost predicate Ranked(d: Dump, rank: map<HObject, nat>) {
    && WellFormed(d) && (forall h :: h in d.objects.Values ==> h in rank)
    && forall h, k :: h in d.objects.Values && k in Refs(d, h) && k in d.objects ==> rank[d.objects[k]] < rank[h]
  }

  /** The plain recursive definition: an object holds itself and what its slots refer to, slot by slot. */
  ghost function Tot(d: Dump, rank: map<HObject, nat>, h: HObject): nat
    requires Ranked(d, rank) && h in d.objects.Values
    decreases rank[h], 1, 0
  {
    Self(d, h) + TotOf(d, rank, Refs(d, h), rank[h])
  }

  ghost function TotAt(d: Dump, rank: map<HObject, nat>, k: int, bound: nat): nat
    requires Ranked(d, rank) && k in d.objects && rank[d.objects[k]] < bound
    decreases bound, 0, 0
  {
    Tot(d, rank, d.objects[k])
  }

  ghost function TotOf(d: Dump, rank: map<HObject, nat>, keys: seq<int>, bound: nat): nat
    requires Ranked(d, rank) && forall k :: k in keys && k in d.objects ==> rank[d.objects[k]] < bound
    decreases bound, 0, |keys| + 1
  {
    if keys == [] then 0 else
      (if keys[0] in d.objects then TotAt(d, rank, keys[0], bound) else 0) + TotOf(d, rank, keys[1..], bound)
  }

  // ---------- arcs ----------

  ghost function ArcAt(d: Dump, a: CInfo, k: int): multiset<(CInfo, CInfo)>
    requires Known(d)
  {
    if k in d.objects then multiset{(a, ClassOf(d, d.objects[k]))} else multiset{}
  }

  /** The arcs that an object adds. */
  ghost function ObjectArcs(d: Dump, h: HObject): multiset<(CInfo, CInfo)>
    requires Known(d) && Local(d, h)
  {
    ArcsOf(d, ClassOf(d, h), Refs(d, h))
  }

  /** The arcs that following these keys from an object of class `a` adds. */
  ghost function ArcsOf(d: Dump, a: CInfo, keys: seq<int>): multiset<(CInfo, CInfo)>
    requires Known(d)
  {
    if keys == [] then multiset{} else
      ArcAt(d, a, keys[0]) + ArcsOf(d, a, keys[1..])
  }

  ghost function AllArcs(d: Dump, hs: seq<HObject>): multiset<(CInfo, CInfo)>
    requires Known(d) && forall h :: h in hs ==> Local(d, h)
  {
    if hs == [] then multiset{} else assert hs[0] in hs; ObjectArcs(d, hs[0]) + AllArcs(d, hs[1..])
  }

  lemma {:induction false} AllConcat(d: Dump, xs: seq<HObject>, ys: seq<HObject>)
    requires Known(d) && (forall h :: h in xs ==> Local(d, h)) && forall h :: h in ys ==> Local(d, h)
    ensures AllArcs(d, xs + ys) == AllArcs(d, xs) + AllArcs(d, ys)
  {
    hide Local, Known, ObjectArcs;
    if xs == [] {
      assert xs + ys == ys;
    } else {
      AllConcat(d, xs[1..], ys);
      assert (xs + ys)[1..] == xs[1..] + ys;
    }
  }
}
