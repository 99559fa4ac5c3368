/** Class records and the layout of their instances (phat.c:826-924). */
module Layout {
  import opened Formats

  /** A field of a class. Its offset is set when the class, or a subclass, is laid out. */
  class FInfo {
    const ident: int
    const ftype: char
    var offset: int

    constructor (ident: int, ftype: char, offset: int)
      ensures this.ident == ident && this.ftype == ftype && this.offset == offset
    {
      this.ident, this.ftype, this.offset := ident, ftype, offset;
    }
  }

  /** How often the instances of one class refer to those of another. */
  datatype Arc = Arc(child: CInfo, count: nat)

  class CInfo {
    const ident: int
    const name: string
    const superId: int
    const fields: seq<FInfo>
    var tfields: nat
    var resolved: bool
    var values: seq<FInfo?>
    var size: nat
    var children: seq<Arc>

    constructor (ident: int, name: string, superId: int, fields: seq<FInfo>)
      ensures this.ident == ident && this.name == name && this.superId == superId && this.fields == fields
      ensures !resolved && children == []
    {
      this.ident, this.name, this.superId, this.fields := ident, name, superId, fields;
      tfields, resolved, values, size, children := 0, false, [], 0, [];
    }
  }

  /** Identifiers are cut to 32 bits when they are looked up. */
  function Key(ident: int): int {
    ident % 0x1_0000_0000
  }

  type Classes = map<int, CInfo>

  // ---------- superclass chains ----------

  function Super(t: Classes, c: CInfo): (s: CInfo?) {
    if Key(c.superId) in t then t[Key(c.superId)] else null
  }

  /** The superclass chain of `c` ends after `n` steps at a class without superclass. */
  ghost predicate Ends(t: Classes, c: CInfo, n: nat) {
    if c.superId == 0 then n == 0 else n > 0 && Super(t, c) != null && Ends(t, Super(t, c), n - 1)
  }

  /** The number of fields along the chain, without those of the class at its end. */
  function SClassSize(t: Classes, c: CInfo, ghost n: nat): (r: nat)
    requires Ends(t, c, n)
    ensures forall idsz, base :: r == |SlotsFrom(t, c, n, idsz, base)|
  {
    if c.superId == 0 then 0 else |c.fields| + SClassSize(t, Super(t, c), n - 1)
  }

  // ---------- where the fields are ----------

  datatype Slot = Slot(ident: int, ftype: char, offset: nat)

  ghost function Widths(fs: seq<FInfo>, idsz: nat): nat {
    if fs == [] then 0 else Width(fs[0].ftype, idsz) + Widths(fs[1..], idsz)
  }

  /** The fields of one class, one after the other from `base`. */
  ghost function Placed(fs: seq<FInfo>, idsz: nat, base: nat): (s: seq<Slot>)
    ensures |s| == |fs|
  {
    if fs == [] then [] else
      [Slot(fs[0].ident, fs[0].ftype, base)] + Placed(fs[1..], idsz, base + Width(fs[0].ftype, idsz))
  }

  /** The slots of an instance: superclass fields come first in the list, but the class's own data come first in
      memory. */
  ghost function SlotsFrom(t: Classes, c: CInfo, n: nat, idsz: nat, base: nat): seq<Slot>
    requires Ends(t, c, n)
  {
    if n == 0 then [] else
      SlotsFrom(t, Super(t, c), n - 1, idsz, base + Widths(c.fields, idsz)) + Placed(c.fields, idsz, base)
  }

  ghost function ChainWidth(t: Classes, c: CInfo, n: nat, idsz: nat): nat
    requires Ends(t, c, n)
  {
    if n == 0 then 0 else Widths(c.fields, idsz) + ChainWidth(t, Super(t, c), n - 1, idsz)
  }

  // ---------- slots tile the instance ----------

  ghost predicate Inside(s: Slot, idsz: nat, b: nat) {
    s.offset <= b < s.offset + Width(s.ftype, idsz)
  }

  lemma {:induction false} PlacedTiles(fs: seq<FInfo>, idsz: nat, base: nat, b: nat) returns (s: nat)
    requires base <= b < base + Widths(fs, idsz)
    ensures s < |fs| && Inside(Placed(fs, idsz, base)[s], idsz, b)
    ensures forall r :: 0 <= r < |fs| && Inside(Placed(fs, idsz, base)[r], idsz, b) ==> r == s
  {
    var w := Width(fs[0].ftype, idsz);
    PlacedWithin(fs[1..], idsz, base + w);
    if b < base + w {
      s := 0;
    } else {
      s := PlacedTiles(fs[1..], idsz, base + w, b);
      s := s + 1;
    }
  }

  lemma {:induction false} PlacedWithin(fs: seq<FInfo>, idsz: nat, base: nat)
    ensures forall r :: 0 <= r < |fs| ==>
      base <= Placed(fs, idsz, base)[r].offset
      && Placed(fs, idsz, base)[r].offset + Width(Placed(fs, idsz, base)[r].ftype, idsz) <= base + Widths(fs, idsz)
  {
    if fs != [] { PlacedWithin(fs[1..], idsz, base + Width(fs[0].ftype, idsz)); }
  }

  /** Every slot lies in the instance. */
  lemma {:induction false} SlotsWithin(t: Classes, c: CInfo, n: nat, idsz: nat, base: nat)
    requires Ends(t, c, n)
    ensures forall r :: 0 <= r < |SlotsFrom(t, c, n, idsz, base)| ==>
      base <= SlotsFrom(t, c, n, idsz, base)[r].offset
      && SlotsFrom(t, c, n, idsz, base)[r].offset + Width(SlotsFrom(t, c, n, idsz, base)[r].ftype, idsz)
           <= base + ChainWidth(t, c, n, idsz)
  {
    if n > 0 {
      PlacedWithin(c.fields, idsz, base);
      SlotsWithin(t, Super(t, c), n - 1, idsz, base + Widths(c.fields, idsz));
    }
  }

  /** Every byte of the instance belongs to exactly one slot. */
  lemma {:induction false} SlotsTile(t: Classes, c: CInfo, n: nat, idsz: nat, base: nat, b: nat) returns (s: nat)
    requires Ends(t, c, n) && base <= b < base + ChainWidth(t, c, n, idsz)
    ensures s < |SlotsFrom(t, c, n, idsz, base)| && Inside(SlotsFrom(t, c, n, idsz, base)[s], idsz, b)
    ensures forall r :: 0 <= r < |SlotsFrom(t, c, n, idsz, base)| ==>
              Inside(SlotsFrom(t, c, n, idsz, base)[r], idsz, b) ==> r == s
  {
    var own, up := Placed(c.fields, idsz, base), SlotsFrom(t, Super(t, c), n - 1, idsz, base + Widths(c.fields, idsz));
    PlacedWithin(c.fields, idsz, base);
    SlotsWithin(t, Super(t, c), n - 1, idsz, base + Widths(c.fields, idsz));
    if b < base + Widths(c.fields, idsz) {
      s := PlacedTiles(c.fields, idsz, base, b);
      s := |up| + s;
    } else {
      s := SlotsTile(t, Super(t, c), n - 1, idsz, base + Widths(c.fields, idsz), b);
    }
  }

  // ---------- filling the slots ----------

  ghost predicate Matches(v: FInfo?, s: Slot)
    reads v
  {
    v != null && v.ident == s.ident && v.ftype == s.ftype && v.offset == s.offset
  }

  ghost predicate FilledAs(vals: seq<FInfo?>, slots: seq<Slot>, lo: int, hi: int)
    requires 0 <= lo <= hi <= |vals| == |slots|
    reads vals
  {
    forall s :: lo <= s < hi ==> Matches(vals[s], slots[s])
  }

  lemma {:induction false} WidthsTake(fs: seq<FInfo>, idsz: nat, base: nat, k: nat)
    requires k < |fs|
    ensures Placed(fs, idsz, base)[k] == Slot(fs[k].ident, fs[k].ftype, base + Widths(fs[..k], idsz))
    ensures Widths(fs[..k + 1], idsz) == Widths(fs[..k], idsz) + Width(fs[k].ftype, idsz)
  {
    if k > 0 {
      WidthsTake(fs[1..], idsz, base + Width(fs[0].ftype, idsz), k - 1);
      assert fs[..k][1..] == fs[1..][..k - 1];
      assert fs[..k + 1][1..] == fs[1..][..k];
    } else {
      assert fs[..1][1..] == [];
    }
  }

  /** The slots at and above the class `cc` of the chain, `target` of them above it. */
  ghost predicate At(t: Classes, slots: seq<Slot>, idsz: nat, cc: CInfo, m: nat, target: nat, start: nat) {
    && Ends(t, cc, m) && m > 0 && target + |cc.fields| <= |slots|
    && slots[..target + |cc.fields|] == SlotsFrom(t, cc, m, idsz, start)
    && target == |SlotsFrom(t, Super(t, cc), m - 1, idsz, start + Widths(cc.fields, idsz))|
  }

  /** One step up the chain; there is one, as long as slots are missing. */
  lemma Climb(t: Classes, slots: seq<Slot>, idsz: nat, cc: CInfo, m: nat, target: nat, start: nat)
    requires At(t, slots, idsz, cc, m, target, start) && target > 0
    ensures Super(t, cc) != null && Super(t, cc).superId != 0 && target >= |Super(t, cc).fields|
    ensures At(t, slots, idsz, Super(t, cc), m - 1, target - |Super(t, cc).fields|, start + Widths(cc.fields, idsz))
  {
    var up := SlotsFrom(t, Super(t, cc), m - 1, idsz, start + Widths(cc.fields, idsz));
    assert slots[..target] == slots[..target + |cc.fields|][..target] == up;
  }

  /** What the loop has done: the slots from `target + |cc.fields|` on are filled, and `fieldNo` slots of `cc`. */
  ghost predicate Progress(slots: seq<Slot>, vals: seq<FInfo?>, target: nat, width: nat, fieldNo: nat)
    reads vals
  {
    && |vals| == |slots| && fieldNo <= width && target + width <= |vals|
    && FilledAs(vals, slots, target, target + fieldNo) && FilledAs(vals, slots, target + width, |vals|)
    && (forall s :: 0 <= s < target ==> vals[s] == null)
    && (forall s :: target + fieldNo <= s < target + width ==> vals[s] == null)
  }

  /** The class whose next field is to be placed. */
  method NextClass(t: Classes, c: CInfo, fieldNo: nat, target: nat, idsz: nat,
                   ghost slots: seq<Slot>, ghost vals: seq<FInfo?>, ghost m: nat, ghost start: nat)
    returns (cc: CInfo, f: nat, tg: nat, ghost k: nat, ghost st: nat)
    requires At(t, slots, idsz, c, m, target, start) && Progress(slots, vals, target, |c.fields|, fieldNo)
    requires target > 0 || fieldNo < |c.fields|
    ensures At(t, slots, idsz, cc, k, tg, st) && Progress(slots, vals, tg, |cc.fields|, f) && f < |cc.fields|
    ensures tg + |cc.fields| - f == target + |c.fields| - fieldNo
    ensures st + Widths(cc.fields[..f], idsz) == start + Widths(c.fields[..fieldNo], idsz)
    ensures st + ChainWidth(t, cc, k, idsz) == start + ChainWidth(t, c, m, idsz)
    ensures (cc == c && k == m && tg == target && f == fieldNo) || k < m
  {
    cc, f, tg := c, fieldNo, target;
    k, st := m, start;
    while f >= |cc.fields|
      invariant At(t, slots, idsz, cc, k, tg, st) && Progress(slots, vals, tg, |cc.fields|, f)
      invariant tg + |cc.fields| - f == target + |c.fields| - fieldNo
      invariant st + Widths(cc.fields[..f], idsz) == start + Widths(c.fields[..fieldNo], idsz)
      invariant st + ChainWidth(t, cc, k, idsz) == start + ChainWidth(t, c, m, idsz)
      invariant (cc == c && k == m && tg == target && f == fieldNo) || k < m
      decreases k
    {
      Climb(t, slots, idsz, cc, k, tg, st);
      assert cc.fields[..f] == cc.fields;
      k, st := k - 1, st + Widths(cc.fields, idsz);
      cc := Super(t, cc);
      f := 0;
      tg := tg - |cc.fields|;
    }
  }

  /** The record for one slot: the class's own, or a copy of a superclass's, at the offset `index`. */
  method Record(own: bool, src: FInfo, index: nat) returns (v: FInfo)
    modifies if own then {src} else {}
    ensures v.ident == src.ident && v.ftype == src.ftype && v.offset == index
    ensures if own then v == src else fresh(v)
  {
    v := src;
    if !own {
      v := new FInfo(src.ident, src.ftype, src.offset);
    }
    v.offset := index;
  }

  lemma {:induction false} EndsOnce(t: Classes, c: CInfo, a: nat, b: nat)
    requires Ends(t, c, a) && Ends(t, c, b)
    ensures a == b
  {
    if a > 0 { EndsOnce(t, Super(t, c), a - 1, b - 1); }
  }

  lemma Other(t: Classes, c: CInfo, cc: CInfo, n: nat, m: nat)
    requires Ends(t, c, n) && Ends(t, cc, m) && m < n
    ensures cc != c
  {
    if cc == c { EndsOnce(t, c, n, m); }
  }

  /** A record that no filled slot uses may be changed. */
  lemma Untouched(slots: seq<Slot>, vals: seq<FInfo?>, target: nat, width: nat, fieldNo: nat, v: FInfo)
    requires Progress(slots, vals, target, width, fieldNo) && fieldNo < width && Matches(v, slots[target + fieldNo])
    ensures Progress(slots, vals[target + fieldNo := v], target, width, fieldNo + 1)
  {
  }

  /** The slot of the next field is the one at `target + fieldNo`. */
  lemma NextSlot(t: Classes, slots: seq<Slot>, idsz: nat, cc: CInfo, m: nat, target: nat, start: nat, fieldNo: nat)
    requires At(t, slots, idsz, cc, m, target, start) && fieldNo < |cc.fields|
    ensures slots[target + fieldNo] ==
            Slot(cc.fields[fieldNo].ident, cc.fields[fieldNo].ftype, start + Widths(cc.fields[..fieldNo], idsz))
    ensures Widths(cc.fields[..fieldNo + 1], idsz)
            == Widths(cc.fields[..fieldNo], idsz) + Width(cc.fields[fieldNo].ftype, idsz)
  {
    WidthsTake(cc.fields, idsz, start, fieldNo);
    assert slots[target + fieldNo] == slots[..target + |cc.fields|][target + fieldNo];
  }

  /** Place one field. */
  method PlaceOne(c: CInfo, cc: CInfo, vals: seq<FInfo?>, target: nat, fieldNo: nat, index: nat, ghost slots: seq<Slot>)
    returns (v: FInfo)
    requires fieldNo < |cc.fields| && Progress(slots, vals, target, |cc.fields|, fieldNo)
    requires slots[target + fieldNo] == Slot(cc.fields[fieldNo].ident, cc.fields[fieldNo].ftype, index)
    requires cc == c ==> cc.fields[fieldNo] !in vals
    modifies if cc == c then {cc.fields[fieldNo]} else {}
    ensures Progress(slots, vals[target + fieldNo := v], target, |cc.fields|, fieldNo + 1)
    ensures if cc == c then v == cc.fields[fieldNo] else fresh(v)
  {
    v := Record(cc == c, cc.fields[fieldNo], index);
    assert Progress(slots, vals, target, |cc.fields|, fieldNo);
    Untouched(slots, vals, target, |cc.fields|, fieldNo, v);
  }

  lemma {:induction false} EmptyChain(t: Classes, c: CInfo, n: nat, idsz: nat, base: nat)
    requires Ends(t, c, n) && SlotsFrom(t, c, n, idsz, base) == []
    ensures ChainWidth(t, c, n, idsz) == 0
  {
    if n > 0 {
      assert |SlotsFrom(t, c, n, idsz, base)| ==
             |SlotsFrom(t, Super(t, c), n - 1, idsz, base + Widths(c.fields, idsz))| + |c.fields|;
      EmptyChain(t, Super(t, c), n - 1, idsz, base + Widths(c.fields, idsz));
    }
  }

  /** When no slot is missing, the rest of the chain has no fields. */
  lemma Finished(t: Classes, slots: seq<Slot>, idsz: nat, cc: CInfo, m: nat, target: nat, start: nat)
    requires At(t, slots, idsz, cc, m, target, start) && target == 0
    ensures ChainWidth(t, cc, m, idsz) == Widths(cc.fields, idsz) && cc.fields[..|cc.fields|] == cc.fields
  {
    EmptyChain(t, Super(t, cc), m - 1, idsz, start + Widths(cc.fields, idsz));
  }

  /** The state of the loop. */
  ghost predicate Doing(t: Classes, c: CInfo, n: nat, idsz: nat, slots: seq<Slot>, vals: seq<FInfo?>,
                        cc: CInfo, m: nat, target: nat, start: nat, fieldNo: nat, index: nat)
    reads vals
  {
    && Ends(t, c, n) && At(t, slots, idsz, cc, m, target, start) && Progress(slots, vals, target, |cc.fields|, fieldNo)
    && index == start + Widths(cc.fields[..fieldNo], idsz)
    && start + ChainWidth(t, cc, m, idsz) == ChainWidth(t, c, n, idsz) && m <= n && (m == n ==> cc == c)
    && (m == n ==> forall j :: fieldNo <= j < |c.fields| ==> c.fields[j] !in vals)
  }

  ghost predicate Distinct(fs: seq<FInfo>) {
    forall i, j :: 0 <= i < j < |fs| ==> fs[i] != fs[j]
  }

  /** One round of the loop. */
  method Round(t: Classes, c: CInfo, cc: CInfo, vals: seq<FInfo?>, fieldNo: nat, target: nat, index: nat, idsz: nat,
               ghost slots: seq<Slot>, ghost n: nat, ghost m: nat, ghost start: nat)
    returns (k: CInfo, f: nat, tg: nat, v: FInfo, ghost m': nat, ghost st: nat)
    requires Doing(t, c, n, idsz, slots, vals, cc, m, target, start, fieldNo, index) && Distinct(c.fields)
    requires target > 0 || fieldNo < |cc.fields|
    modifies c.fields
    ensures f < |k.fields| && tg + |k.fields| - f == target + |cc.fields| - fieldNo && tg + f < |vals|
    ensures Doing(t, c, n, idsz, slots, vals[tg + f := v], k, m', tg, st, f + 1, index + Width(k.fields[f].ftype, idsz))
    ensures fresh(v) || v in c.fields
  {
    k, f, tg, m', st := NextClass(t, cc, fieldNo, target, idsz, slots, vals, m, start);
    NextSlot(t, slots, idsz, k, m', tg, st, f);
    if m' < n { Other(t, c, k, n, m'); }
    v := PlaceOne(c, k, vals, tg, f, index, slots);
    assert m' == n ==> forall j :: f < j < |c.fields| ==> c.fields[j] != v;
  }

  lemma Begin(t: Classes, c: CInfo, n: nat, idsz: nat, vals: seq<FInfo?>)
    requires Ends(t, c, n) && n > 0 && |vals| == |SlotsFrom(t, c, n, idsz, 0)| && forall s :: 0 <= s < |vals| ==>
             vals[s] == null
    ensures |vals| >= |c.fields|
            && Doing(t, c, n, idsz, SlotsFrom(t, c, n, idsz, 0), vals, c, n, |vals| - |c.fields|, 0, 0, 0)
  {
    assert SlotsFrom(t, c, n, idsz, 0)[..|vals|] == SlotsFrom(t, c, n, idsz, 0);
  }

  lemma End(t: Classes, c: CInfo, n: nat, idsz: nat, slots: seq<Slot>, vals: seq<FInfo?>,
            cc: CInfo, m: nat, target: nat, start: nat, fieldNo: nat, index: nat)
    requires Doing(t, c, n, idsz, slots, vals, cc, m, target, start, fieldNo, index) && target + |cc.fields| == fieldNo
    ensures |vals| == |slots| && FilledAs(vals, slots, 0, |slots|) && index == ChainWidth(t, c, n, idsz)
  {
    Finished(t, slots, idsz, cc, m, target, start);
  }

  /** The loop of `resolveClassNode`: every slot is filled exactly once, own fields with the class's own records,
      inherited ones with copies. */
  method Fill(t: Classes, c: CInfo, tfields: nat, idsz: nat, ghost n: nat) returns (vals: seq<FInfo?>, index: nat)
    requires Ends(t, c, n) && n > 0 && tfields == |SlotsFrom(t, c, n, idsz, 0)| > 0 && Distinct(c.fields)
    modifies c.fields
    ensures |vals| == tfields && FilledAs(vals, SlotsFrom(t, c, n, idsz, 0), 0, tfields)
    ensures index == ChainWidth(t, c, n, idsz)
    ensures forall s :: 0 <= s < |vals| ==> vals[s] != null && (fresh(vals[s]) || vals[s] in c.fields)
  {
    ghost var slots := SlotsFrom(t, c, n, idsz, 0);
    vals := seq(tfields, _ => null);
    var cc := c;
    ghost var m: nat, start: nat := n, 0;
    var target: nat, fieldNo: nat := tfields - |c.fields|, 0;
    index := 0;
    Begin(t, c, n, idsz, vals);
    for i := 0 to tfields
      invariant Doing(t, c, n, idsz, slots, vals, cc, m, target, start, fieldNo, index)
      invariant i + target + |cc.fields| == tfields + fieldNo
      invariant forall s :: 0 <= s < |vals| && vals[s] != null ==> fresh(vals[s]) || vals[s] in c.fields
    {
      var v;
      cc, fieldNo, target, v, m, start := Round(t, c, cc, vals, fieldNo, target, index, idsz, slots, n, m, start);
      vals := vals[target + fieldNo := v];
      index := index + Width(cc.fields[fieldNo].ftype, idsz);
      fieldNo := fieldNo + 1;
    }
    End(t, c, n, idsz, slots, vals, cc, m, target, start, fieldNo, index);
  }

  // ---------- resolving a class ----------

  /** Every class has a finite chain, of the given length. */
  ghost predicate Chained(t: Classes, depth: map<CInfo, nat>) {
    0 !in t && forall c :: c in t.Values ==> c in depth && Ends(t, c, depth[c])
  }

  /** The field records of all classes. */
  ghost function Records(t: Classes): set<FInfo> {
    set c, v | c in t.Values && v in c.fields :: v
  }

  /** No two classes share a field record. */
  ghost predicate Separate(t: Classes) {
    && (forall c :: c in t.Values ==> Distinct(c.fields))
    && (forall c, d, v :: c in t.Values && d in t.Values && v in c.fields && v in d.fields ==> c == d)
  }

  ghost predicate LaidOut(t: Classes, c: CInfo, n: nat, idsz: nat)
    requires Ends(t, c, n)
    reads c`values, c`tfields, c.values
  {
    c.tfields == |SlotsFrom(t, c, n, idsz, 0)| && (c.tfields > 0 ==> Matching(c.values, SlotsFrom(t, c, n, idsz, 0)))
  }

  ghost predicate Matching(vals: seq<FInfo?>, slots: seq<Slot>)
    reads vals
  {
    |vals| == |slots| && forall s :: 0 <= s < |vals| ==> Matches(vals[s], slots[s])
  }

  /** The records of a class that has been laid out are its own or nobody's. */
  ghost predicate Keeps(t: Classes, c: CInfo)
    reads c`values
  {
    forall s, d :: 0 <= s < |c.values| && d in t.Values && c.values[s] != null && c.values[s] in d.fields ==> d == c
  }

  ghost predicate Good(t: Classes, depth: map<CInfo, nat>, idsz: nat, recs: set<FInfo>)
    requires Chained(t, depth)
    reads t.Values`values, t.Values`tfields, t.Values`resolved, recs
  {
    && (forall c, v :: c in t.Values && v in c.fields ==> v in recs)
    && (forall c, v :: c in t.Values && v in c.values && v != null ==> v in recs)
    && (forall c :: c in t.Values && c.resolved ==> LaidOut(t, c, depth[c], idsz))
    && (forall c :: c in t.Values ==> Keeps(t, c) && (c.resolved || c.values == []))
  }

  /** Fill the slots of `c`; no other class notices. */
  method FillFor(t: Classes, c: CInfo, idsz: nat, ghost depth: map<CInfo, nat>, ghost recs: set<FInfo>)
    returns (vals: seq<FInfo?>, index: nat)
    requires c in t.Values && Chained(t, depth) && Separate(t) && Good(t, depth, idsz, recs)
    requires !c.resolved && c.tfields == |SlotsFrom(t, c, depth[c], idsz, 0)| > 0
    modifies c.fields
    ensures |vals| == c.tfields && FilledAs(vals, SlotsFrom(t, c, depth[c], idsz, 0), 0, c.tfields)
    ensures index == ChainWidth(t, c, depth[c], idsz)
    ensures forall s :: 0 <= s < |vals| ==> vals[s] != null && (fresh(vals[s]) || vals[s] in c.fields)
    ensures forall d :: d in t.Values && d.resolved ==> LaidOut(t, d, depth[d], idsz)
  {
    assert forall d, s :: d in t.Values && d.resolved && 0 <= s < |d.values| ==>
             d.values[s] == null || d.values[s] !in c.fields by {
      assert forall d :: d in t.Values && d.resolved ==> Keeps(t, d);
    }
    assert forall d :: d in t.Values && d.resolved ==> LaidOut(t, d, depth[d], idsz);
    vals, index := Fill(t, c, c.tfields, idsz, depth[c]);
  }

  /** The class takes its slots; this is when it counts as resolved. */
  method Take(t: Classes, c: CInfo, vals: seq<FInfo?>, index: nat, idsz: nat, ghost depth: map<CInfo, nat>,
              ghost recs: set<FInfo>)
    requires c in t.Values && Chained(t, depth) && !c.resolved && c.tfields > 0
    requires c.tfields == |SlotsFrom(t, c, depth[c], idsz, 0)| && Matching(vals, SlotsFrom(t, c, depth[c], idsz, 0))
    requires forall d :: d in t.Values && d.resolved ==> LaidOut(t, d, depth[d], idsz)
    modifies c
    ensures c.values == vals && c.size == index && c.resolved && c.children == old(c.children)
            && c.tfields == old(c.tfields)
    ensures forall d :: d in t.Values && d.resolved ==> LaidOut(t, d, depth[d], idsz)
  {
    c.values := vals;
    c.size := index;
    c.resolved := true;
  }

  /** A class with fields gets its layout; no other class notices. */
  method LayOutFields(t: Classes, c: CInfo, idsz: nat, ghost depth: map<CInfo, nat>, ghost recs: set<FInfo>)
    returns (ghost recs': set<FInfo>)
    requires c in t.Values && Chained(t, depth) && Separate(t) && Good(t, depth, idsz, recs)
    requires !c.resolved && c.tfields == |SlotsFrom(t, c, depth[c], idsz, 0)| > 0
    modifies c, c.fields
    ensures Good(t, depth, idsz, recs') && c.resolved
    ensures c.children == old(c.children) && c.tfields == old(c.tfields) && c.size == ChainWidth(t, c, depth[c], idsz)
  {
    var vals, index := FillFor(t, c, idsz, depth, recs);
    recs' := recs + set v: FInfo | v in vals;
    Take(t, c, vals, index, idsz, depth, recs);
    assert Keeps(t, c);
    assert forall d :: d in t.Values ==> Keeps(t, d);
  }

  /** `c` gets its layout; no other class notices. */
  method LayOut(t: Classes, c: CInfo, idsz: nat, ghost depth: map<CInfo, nat>, ghost recs: set<FInfo>)
    returns (ghost recs': set<FInfo>)
    requires c in t.Values && Chained(t, depth) && Separate(t) && Good(t, depth, idsz, recs)
    requires !c.resolved && c.tfields == |SlotsFrom(t, c, depth[c], idsz, 0)|
    modifies c, c.fields
    ensures Good(t, depth, idsz, recs') && c.resolved
    ensures c.children == old(c.children) && c.tfields == old(c.tfields)
    ensures c.size == if c.tfields > 0 then ChainWidth(t, c, depth[c], idsz) else old(c.size)
  {
    if c.tfields > 0 {
      recs' := LayOutFields(t, c, idsz, depth, recs);
    } else {
      recs' := recs;
      c.resolved := true;
    }
  }

  lemma DepthOfSuper(t: Classes, c: CInfo, depth: map<CInfo, nat>)
    requires c in t.Values && Chained(t, depth)
    ensures Super(t, c) == null <==> c.superId == 0
    ensures Super(t, c) != null ==> Super(t, c) in t.Values && depth[Super(t, c)] + 1 == depth[c]
  {
    assert Ends(t, c, depth[c]);
    if Super(t, c) != null {
      assert Super(t, c) in t.Values;
      EndsOnce(t, Super(t, c), depth[Super(t, c)], depth[c] - 1);
    }
  }

  /** Lay out `c` and its superclasses. Classes that already were resolved, and all layouts they have, stay as they
      are. */
  method ResolveClassNode(t: Classes, c: CInfo, idsz: nat, ghost depth: map<CInfo, nat>, ghost recs: set<FInfo>)
    returns (ghost recs': set<FInfo>)
    requires c in t.Values && Chained(t, depth) && Separate(t) && Good(t, depth, idsz, recs)
    modifies t.Values, Records(t)
    ensures Good(t, depth, idsz, recs') && c.resolved
    ensures forall d :: d in t.Values && (old(d.resolved) || depth[d] > depth[c]) ==> unchanged(d)
    ensures forall d :: d in t.Values ==> d.children == old(d.children) && (old(d.resolved) ==> d.resolved)
    ensures !old(c.resolved) && c.tfields > 0 ==> c.size == ChainWidth(t, c, depth[c], idsz)
    decreases depth[c], 1
  {
    recs' := recs;
    if c.resolved {
      return;
    }
    CountFields(t, c, idsz, depth, recs);
    recs' := ResolveSuper(t, c, idsz, depth, recs);
    assert forall v :: v in c.fields ==> v in Records(t);
    recs' := LayOut(t, c, idsz, depth, recs');
  }

  method CountFields(t: Classes, c: CInfo, idsz: nat, ghost depth: map<CInfo, nat>, ghost recs: set<FInfo>)
    requires c in t.Values && Chained(t, depth) && Good(t, depth, idsz, recs) && !c.resolved
    modifies c`tfields
    ensures Good(t, depth, idsz, recs) && c.tfields == |SlotsFrom(t, c, depth[c], idsz, 0)|
  {
    c.tfields := SClassSize(t, c, depth[c]);
  }

  method ResolveSuper(t: Classes, c: CInfo, idsz: nat, ghost depth: map<CInfo, nat>, ghost recs: set<FInfo>)
    returns (ghost recs': set<FInfo>)
    requires c in t.Values && Chained(t, depth) && Separate(t) && Good(t, depth, idsz, recs)
    modifies t.Values, Records(t)
    ensures Good(t, depth, idsz, recs')
    ensures forall d :: d in t.Values && (old(d.resolved) || depth[d] >= depth[c]) ==> unchanged(d)
    ensures forall d :: d in t.Values ==> d.children == old(d.children) && (old(d.resolved) ==> d.resolved)
    decreases depth[c], 0
  {
    recs' := recs;
    var super := Super(t, c);
    DepthOfSuper(t, c, depth);
    if super != null {
      recs' := ResolveClassNode(t, super, idsz, depth, recs);
    }
  }
}
