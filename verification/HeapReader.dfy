/** Reading a heap dump record (phat.c:565-772, 1303-1498). */
module HeapReader {
  import opened Formats
  import opened Records

  // ---------- what a record means ----------

  datatype Obj = Obj(htype: int, classId: int, fpos: nat, size: nat, count: nat)
  datatype ClassRec = ClassRec(superKey: int, statics: nat, fields: seq<(int, char)>)

  /** The tables that reading fills; the counters are kept by the tag of the sub-records they count. */
  datatype Tables = Tables(
    objects: map<int, Obj>,
    roots: map<int, int>,
    counts: map<int, nat>,
    classes: map<int, ClassRec>,
    tally: map<int, nat>)

  /** The file, and what is known before the record: the names of the loaded classes, and classes by name. */
  datatype Config = Config(file: seq<Byte>, identsz: nat, version: nat, names: map<int, string>,
                           byName: map<string, int>, stringKey: int)

  /** The key of an identifier: its last four bytes. */
  ghost function KeyOf(id: seq<Byte>): int
    requires |id| >= 4
  {
    Value(id[|id| - 4..])
  }

  function Get(m: map<int, nat>, k: int): nat {
    if k in m then m[k] else 0
  }

  function Bump(m: map<int, nat>, k: int): map<int, nat> {
    m[k := Get(m, k) + 1]
  }

  function ArrayName(ptype: Byte): string {
    ['[', ElemSig(ptype)]
  }

  /** The classes that a sub-record needs are loaded. */
  ghost predicate Loaded(g: Config, s: Sub)
    requires |s.id| >= 4
  {
    match s
    case Root(_, _, _) => true
    case ClassDump(id, _, _, _, _, _, _, _) => KeyOf(id) in g.names
    case Instance(_, _, classId, _) => |classId| >= 4 && KeyOf(classId) in g.names
    case ObjArray(_, _, classId, _, _) => |classId| >= 4 && KeyOf(classId) in g.names
        && g.names[KeyOf(classId)] in g.byName
    case PrimArray(_, _, ptype, _, _) => ArrayName(ptype) in g.byName
  }

  ghost predicate Fine(g: Config, s: Sub) {
    g.identsz in {4, 8} && Good(s, g.version, g.identsz) && Loaded(g, s)
  }

  ghost function FieldsOf(version: nat, fs: seq<Field>): seq<(int, char)>
    requires forall f :: f in fs ==> |f.id| >= 4
  {
    if fs == [] then [] else
      assert fs[0] in fs;
      [(KeyOf(fs[0].id), Sig(version, fs[0].ptype))] + FieldsOf(version, fs[1..])
  }

  function RootEffect(t: Tables, tag: Byte, key: int): Tables {
    var u := if tag == 0xff then t else t.(tally := Bump(t.tally, tag));
    if 1 <= tag <= 7 then u.(roots := u.roots[key := tag]) else u
  }

  function ClassEffect(t: Tables, key: int, rec: ClassRec): Tables {
    t.(classes := t.classes[key := rec], tally := Bump(t.tally, 0x20))
  }

  /** Of a class with many instances only the first ones are kept, unless it is the class of strings. */
  function InstanceEffect(g: Config, t: Tables, key: int, classKey: int, fpos: nat): Tables {
    var u := t.(counts := Bump(t.counts, classKey), tally := Bump(t.tally, 0x21));
    if Get(u.counts, classKey) < 50000 || classKey == g.stringKey
        then u.(objects := u.objects[key := Obj(1, classKey, fpos, 0, 0)]) else u
  }

  function ArrayEffect(t: Tables, tag: int, key: int, o: Obj): Tables {
    t.(objects := t.objects[key := o], tally := Bump(t.tally, tag))
  }

  ghost function ClassOfDump(g: Config, s: Sub): ClassRec
    requires s.ClassDump? && Fine(g, s)
  {
    assert forall f :: f in s.fields ==> GoodField(f, g.identsz);
    ClassRec(KeyOf(s.superId), |s.statics|, FieldsOf(g.version, s.fields))
  }

  /** What the sub-record `s` at position `at` adds to the tables. */
  ghost function Effect(g: Config, t: Tables, s: Sub, at: nat): Tables
    requires Fine(g, s)
  {
    if s.Root? then RootEffect(t, s.tag, KeyOf(s.id))
    else if s.ClassDump? then ClassEffect(t, KeyOf(s.id), ClassOfDump(g, s))
    else if s.Instance? then InstanceEffect(g, t, KeyOf(s.id), KeyOf(s.classId), at + 9 + 2 * g.identsz)
    else if s.ObjArray? then
      ArrayEffect(t, 0x22, KeyOf(s.id),
                  Obj(3, g.byName[g.names[KeyOf(s.classId)]], at + 9 + 2 * g.identsz, g.identsz, s.count))
    else
      ArrayEffect(t, 0x23, KeyOf(s.id),
                  Obj(2, g.byName[ArrayName(s.ptype)], at + 10 + g.identsz,
                      Width(ElemSig(s.ptype), g.identsz), s.count))
  }

  ghost function Bytes(g: Config, s: Sub): seq<Byte>
    requires Fine(g, s)
  {
    Enc(s)
  }

  ghost function Len(g: Config, s: Sub): nat
    requires Fine(g, s)
  {
    |Bytes(g, s)|
  }

  ghost predicate AllFine(g: Config, subs: seq<Sub>) {
    forall s :: s in subs ==> Fine(g, s)
  }

  ghost function Effects(g: Config, t: Tables, subs: seq<Sub>, at: nat): Tables
    requires AllFine(g, subs)
    decreases subs
  {
    if subs == [] then t else
      assert subs[0] in subs;
      Effects(g, Effect(g, t, subs[0], at), subs[1..], at + Len(g, subs[0]))
  }

  /** How many sub-records have this tag. */
  ghost function Kinds(subs: seq<Sub>, tag: int): nat {
    if subs == [] then 0 else (if TagOf(subs[0]) == tag then 1 else 0) + Kinds(subs[1..], tag)
  }

  lemma OneCounted(g: Config, t: Tables, s: Sub, at: nat, tag: int)
    requires Fine(g, s) && tag != 0xff
    ensures Get(Effect(g, t, s, at).tally, tag) == Get(t.tally, tag) + if TagOf(s) == tag then 1 else 0
  {
    hide Fine, KeyOf, ClassOfDump, ArrayName, ElemSig, Width;
  }

  /** Each counter grows by the number of sub-records of its kind; unknown roots are not counted. */
  lemma {:induction false} CountersExact(g: Config, t: Tables, subs: seq<Sub>, at: nat, tag: int)
    requires AllFine(g, subs) && tag != 0xff
    ensures Get(Effects(g, t, subs, at).tally, tag) == Get(t.tally, tag) + Kinds(subs, tag)
    decreases subs
  {
    hide Fine, Effect, Len, Get;
    if subs != [] {
      assert subs[0] in subs;
      OneCounted(g, t, subs[0], at, tag);
      CountersExact(g, Effect(g, t, subs[0], at), subs[1..], at + Len(g, subs[0]), tag);
    }
  }

  // ---------- what the remaining size loses sight of ----------

  /** How much too large the remaining size is after a sub-record. */
  ghost function Slack(s: Sub): nat {
    if s.ClassDump? then |s.pool| else 0
  }

  ghost function Slacks(subs: seq<Sub>): nat {
    if subs == [] then 0 else Slack(subs[0]) + Slacks(subs[1..])
  }

  /** The remaining size is right exactly when no class has constants. */
  lemma {:induction false} SlacksZero(subs: seq<Sub>)
    ensures Slacks(subs) == 0 <==> forall s :: s in subs && s.ClassDump? ==> s.pool == []
  {
    if subs != [] {
      SlacksZero(subs[1..]);
      assert forall s :: s in subs <==> s == subs[0] || s in subs[1..];
    }
  }

  /** A class with one constant, of one byte. */
  ghost function PoolClass(): Sub {
    ClassDump([0, 0, 0, 1], [0, 0, 0, 0], [0, 0, 0, 0], seq(20, i => 0), [0, 0, 0, 0], [Const([0, 1], 8, [7])], [], [])
  }

  /** The class is well formed, and its name is known. */
  ghost function PoolConfig(): Config {
    Config(Enc(PoolClass()), 4, 1, map[1 := "A"], map[], 0)
  }

  lemma PoolGood()
    ensures Good(PoolClass(), 1, 4)
  {
    var s := PoolClass();
    forall c | c in s.pool ensures GoodConst(c, 1, 4) { assert c == Const([0, 1], 8, [7]); }
  }

  lemma PoolFine()
    ensures Fine(PoolConfig(), PoolClass())
  {
    PoolGood();
    hide Good, Enc;
    var id: seq<Byte> := [0, 0, 0, 1];
    assert id[0..] == id;
    FourBytes(id);
  }

  /** A record on which the reader does not stop at the end: one more byte seems to remain. */
  lemma PoolWitness()
    ensures RecordAt(PoolConfig(), 0, [PoolClass()]) && RecordLen(PoolConfig(), [PoolClass()]) == |PoolConfig().file|
    ensures Slacks([PoolClass()]) == 1
  {
    var g, s := PoolConfig(), PoolClass();
    PoolFine();
    assert Slack(s) == 1;
    hide Fine, Enc, PoolClass;
    assert [s][1..] == [];
    assert RecordBytes(g, [s]) == Bytes(g, s) + [] == Enc(s);
    assert g.file[0..|g.file|] == g.file;
  }

  // ---------- bytes ----------

  /** The bytes `b` come next in the file. */
  ghost predicate Next(file: seq<Byte>, pos: nat, b: seq<Byte>) {
    pos + |b| <= |file| && file[pos..pos + |b|] == b
  }

  lemma NextSplit(file: seq<Byte>, pos: nat, a: seq<Byte>, b: seq<Byte>)
    requires Next(file, pos, a + b)
    ensures Next(file, pos, a) && Next(file, pos + |a|, b)
  {
    assert a == (a + b)[..|a|] && b == (a + b)[|a|..];
    assert file[pos..pos + |a|] == file[pos..pos + |a + b|][..|a|];
    assert file[pos + |a|..pos + |a| + |b|] == file[pos..pos + |a + b|][|a|..];
  }

  lemma TwoBytes(b: seq<Byte>)
    requires |b| == 2
    ensures Value(b) == b[0] as int * 256 + b[1] as int
  {
    assert b[..1] == [b[0]] && Value([b[0]]) == Value([]) * 256 + b[0] as int;
  }

  lemma FourBytes(b: seq<Byte>)
    requires |b| == 4
    ensures Value(b) == ((b[0] as int * 256 + b[1] as int) * 256 + b[2] as int) * 256 + b[3] as int
  {
    TwoBytes(b[..2]);
    assert b[..3][..2] == b[..2] && Value(b[..3]) == Value(b[..2]) * 256 + b[2] as int;
  }

  /** The remaining size is an unsigned 32-bit number. */
  function Minus(hsize: nat, n: nat): nat {
    (hsize - n) % TWO32
  }

  lemma MinusExact(hsize: nat, n: nat)
    requires n <= hsize < TWO32
    ensures Minus(hsize, n) == hsize - n
  {
  }

  class Reader {
    const g: Config
    var pos: nat
    var t: Tables

    constructor (g: Config, pos: nat)
      ensures this.g == g && this.pos == pos && t == Tables(map[], map[], map[], map[], map[])
    {
      this.g, this.pos, t := g, pos, Tables(map[], map[], map[], map[], map[]);
    }

    // ---------- primitives (phat.c:428-505) ----------

    method GetByte(ghost b: Byte) returns (x: Byte)
      requires Next(g.file, pos, [b])
      modifies this`pos
      ensures x == b && pos == old(pos) + 1
    {
      assert g.file[pos] == g.file[pos..pos + 1][0];
      x := g.file[pos];
      pos := pos + 1;
    }

    method ReadUshort(ghost n: nat) returns (v: nat)
      requires n < TWO16 && Next(g.file, pos, Enc16(n))
      modifies this`pos
      ensures v == n && pos == old(pos) + 2
    {
      ghost var w := g.file[pos..pos + 2];
      assert g.file[pos] == w[0] && g.file[pos + 1] == w[1];
      TwoBytes(w);
      v := g.file[pos] as int * 256 + g.file[pos + 1] as int;
      pos := pos + 2;
    }

    method ReadUint(ghost b: seq<Byte>) returns (v: nat)
      requires |b| == 4 && Next(g.file, pos, b)
      modifies this`pos
      ensures v == Value(b) && pos == old(pos) + 4
    {
      ghost var w := g.file[pos..pos + 4];
      assert g.file[pos] == w[0] && g.file[pos + 1] == w[1] && g.file[pos + 2] == w[2] && g.file[pos + 3] == w[3];
      FourBytes(w);
      v := ((g.file[pos] as int * 256 + g.file[pos + 1] as int) * 256 + g.file[pos + 2] as int) * 256
           + g.file[pos + 3] as int;
      pos := pos + 4;
    }

    /** The key of an identifier: all that the tables use. */
    method ReadIdent(ghost id: seq<Byte>) returns (key: int)
      requires g.identsz in {4, 8} && |id| == g.identsz && Next(g.file, pos, id)
      modifies this`pos
      ensures key == KeyOf(id) && pos == old(pos) + g.identsz
    {
      if g.identsz == 8 {
        assert id == id[..4] + id[4..];
        NextSplit(g.file, pos, id[..4], id[4..]);
        var high := ReadUint(id[..4]);
        key := ReadUint(id[4..]);
      } else {
        assert id[0..] == id;
        key := ReadUint(id);
      }
    }

    /** `fseek` over bytes that are not looked at. */
    method Skip(n: nat, ghost b: seq<Byte>)
      requires |b| == n && Next(g.file, pos, b)
      modifies this`pos
      ensures pos == old(pos) + n
    {
      pos := pos + n;
    }

    // ---------- values, statics and fields (phat.c:565-622, 661-687) ----------

    /** A type byte and a value; the result is what the caller subtracts for the value. */
    method ReadValue(ghost ptype: Byte, ghost value: seq<Byte>) returns (width: int)
      requires Next(g.file, pos, [ptype] + value) && GoodValue(ptype, value, g.version, g.identsz)
      modifies this`pos
      ensures width == |value| && pos == old(pos) + 1 + |value|
    {
      NextSplit(g.file, pos, [ptype], value);
      var b := GetByte(ptype);
      var sig := Sig(g.version, b);
      width := Width(sig, g.identsz);
      if sig == 'Z' {
        assert g.file[pos] == g.file[pos..pos + |value|][0];
        width := if g.file[pos] <= 1 then 1 else -1;
        pos := pos + 1;
      } else {
        pos := pos + width;
      }
    }

    method ReadStatic(hsize: nat, ghost st: Static) returns (h: nat)
      requires GoodStatic(st, g.version, g.identsz) && g.identsz in {4, 8}
      requires Next(g.file, pos, st.id + [st.ptype] + st.value) && g.identsz + 1 + |st.value| <= hsize < TWO32
      modifies this`pos
      ensures pos == old(pos) + g.identsz + 1 + |st.value| && h == hsize - (g.identsz + 1 + |st.value|)
    {
      assert st.id + [st.ptype] + st.value == st.id + ([st.ptype] + st.value);
      NextSplit(g.file, pos, st.id, [st.ptype] + st.value);
      var key := ReadIdent(st.id);
      h := Minus(hsize, g.identsz);
      var w := ReadValue(st.ptype, st.value);
      h := Minus(h, 1 + w);
    }

    method ReadStatics(hsize: nat, count: nat, ghost ss: seq<Static>) returns (h: nat)
      requires g.identsz in {4, 8} && count == |ss| && forall st :: st in ss ==> GoodStatic(st, g.version, g.identsz)
      requires Next(g.file, pos, EncStatics(ss)) && |EncStatics(ss)| <= hsize < TWO32
      modifies this`pos
      ensures pos == old(pos) + |EncStatics(ss)| && h == hsize - |EncStatics(ss)|
    {
      h := hsize;
      ghost var rest := ss;
      for i := 0 to count
        invariant rest == ss[i..] && Next(g.file, pos, EncStatics(rest)) && |EncStatics(rest)| <= h < TWO32
        invariant h - |EncStatics(rest)| == hsize - |EncStatics(ss)|
                  && pos + |EncStatics(rest)| == old(pos) + |EncStatics(ss)|
      {
        assert rest[0] == ss[i] && ss[i] in ss;
        hide GoodStatic;
        StaticLen(rest[0], g.version, g.identsz);
        NextSplit(g.file, pos, rest[0].id + [rest[0].ptype] + rest[0].value, EncStatics(rest[1..]));
        h := ReadStatic(h, rest[0]);
        rest := rest[1..];
      }
    }

    method ReadField(hsize: nat, ghost f: Field) returns (h: nat, field: (int, char))
      requires |f.id| == g.identsz && g.identsz in {4, 8} && Next(g.file, pos, f.id + [f.ptype])
               && g.identsz + 1 <= hsize < TWO32
      modifies this`pos
      ensures pos == old(pos) + g.identsz + 1 && h == hsize - (g.identsz + 1)
              && field == (KeyOf(f.id), Sig(g.version, f.ptype))
    {
      NextSplit(g.file, pos, f.id, [f.ptype]);
      var key := ReadIdent(f.id);
      var b := GetByte(f.ptype);
      field := (key, Sig(g.version, b));
      h := Minus(hsize, 1 + g.identsz);
    }

    method ReadFields(hsize: nat, count: nat, ghost fs: seq<Field>) returns (h: nat, fields: seq<(int, char)>)
      requires g.identsz in {4, 8} && count == |fs| && Idents(fs, g.identsz)
      requires Next(g.file, pos, EncFields(fs)) && |EncFields(fs)| <= hsize < TWO32
      modifies this`pos
      ensures pos == old(pos) + |EncFields(fs)| && h == hsize - |EncFields(fs)| && fields == FieldsOf(g.version, fs)
    {
      h, fields := hsize, [];
      ghost var rest := fs;
      FieldsBegin(g, fs);
      hide EncFields, FieldsLeft, KeyOf, Sig, FieldsOf, Idents, Next;
      for i := 0 to count
        invariant rest == fs[i..] && Idents(rest, g.identsz) && Next(g.file, pos, EncFields(rest))
                  && |EncFields(rest)| <= h < TWO32
        invariant h - |EncFields(rest)| == hsize - |EncFields(fs)|
                  && pos + |EncFields(rest)| == old(pos) + |EncFields(fs)|
        invariant FieldsLeft(g, fields, rest, fs)
      {
        FieldTaken(g, fields, rest, fs);
        var field;
        h, field := TakeField(h, rest);
        fields := fields + [field];
        rest := rest[1..];
      }
      FieldsEnd(g, fields, rest, fs);
    }

    method TakeField(hsize: nat, ghost fs: seq<Field>) returns (h: nat, field: (int, char))
      requires g.identsz in {4, 8} && fs != [] && Idents(fs, g.identsz) && |fs[0].id| >= 4
      requires Next(g.file, pos, EncFields(fs)) && |EncFields(fs)| <= hsize < TWO32
      modifies this`pos
      ensures Next(g.file, pos, EncFields(fs[1..])) && Idents(fs[1..], g.identsz) && |EncFields(fs[1..])| <= h < TWO32
      ensures h - |EncFields(fs[1..])| == hsize - |EncFields(fs)|
              && pos + |EncFields(fs[1..])| == old(pos) + |EncFields(fs)|
      ensures field == (KeyOf(fs[0].id), Sig(g.version, fs[0].ptype))
    {
      hide EncFields, KeyOf, Sig, Idents;
      FieldStep(fs, g.identsz);
      NextSplit(g.file, pos, fs[0].id + [fs[0].ptype], EncFields(fs[1..]));
      hide Next;
      h, field := ReadField(hsize, fs[0]);
    }

    // ---------- classes (phat.c:624-690) ----------

    /** The type byte of a constant is read but not subtracted. */
    method ReadConst(hsize: nat, ghost c: Const) returns (h: nat)
      requires GoodConst(c, g.version, g.identsz)
      requires Next(g.file, pos, c.index + [c.ptype] + c.value) && 3 + |c.value| <= hsize < TWO32
      modifies this`pos
      ensures pos == old(pos) + 3 + |c.value| && h == hsize - (2 + |c.value|)
    {
      assert c.index + [c.ptype] + c.value == c.index + ([c.ptype] + c.value);
      NextSplit(g.file, pos, c.index, [c.ptype] + c.value);
      Skip(2, c.index);
      h := Minus(hsize, 2);
      var w := ReadValue(c.ptype, c.value);
      h := Minus(h, w);
    }

    /** After the constants the remaining size is too large by their number. */
    method ReadPool(hsize: nat, count: nat, ghost cs: seq<Const>) returns (h: nat)
      requires count == |cs| && forall c :: c in cs ==> GoodConst(c, g.version, g.identsz)
      requires Next(g.file, pos, EncPool(cs)) && |EncPool(cs)| <= hsize < TWO32
      modifies this`pos
      ensures pos == old(pos) + |EncPool(cs)| && h == hsize - |EncPool(cs)| + |cs| <= hsize
    {
      h := hsize;
      ghost var rest := cs;
      for i := 0 to count
        invariant rest == cs[i..] && Next(g.file, pos, EncPool(rest)) && |EncPool(rest)| <= h <= hsize
        invariant h - |EncPool(rest)| == hsize - |EncPool(cs)| + i && pos + |EncPool(rest)| == old(pos) + |EncPool(cs)|
      {
        assert rest[0] == cs[i] && cs[i] in cs;
        hide GoodConst;
        ConstLen(rest[0], g.version, g.identsz);
        NextSplit(g.file, pos, rest[0].index + [rest[0].ptype] + rest[0].value, EncPool(rest[1..]));
        h := ReadConst(h, rest[0]);
        rest := rest[1..];
      }
    }

    method ReadTail(hsize: nat, ghost s: Sub) returns (h: nat, count: nat, fs: seq<(int, char)>)
      requires s.ClassDump? && g.identsz in {4, 8} && Counted(s) && Idents(s.fields, g.identsz)
               && GoodMembers(s, g.version, g.identsz)
      requires Next(g.file, pos, TailOf(s)) && |TailOf(s)| <= hsize < TWO32
      modifies this`pos
      ensures pos == old(pos) + |TailOf(s)| && h == hsize - |TailOf(s)| + |s.pool| <= hsize
      ensures count == |s.statics| && fs == FieldsOf(g.version, s.fields)
    {
      TailParts(g.file, pos, s);
      hide Next, Enc16, EncPool, EncMembers, TailOf, FieldsOf, GoodConst, GoodStatic, Minus, Idents;
      var n := ReadUshort(|s.pool|);
      MinusExact(hsize, 2);
      h := Minus(hsize, 2);
      h := ReadPool(h, n, s.pool);
      h, count, fs := ReadMembers(h, s.statics, s.fields);
    }

    method ReadMembers(hsize: nat, ghost statics: seq<Static>, ghost fields: seq<Field>)
      returns (h: nat, count: nat, fs: seq<(int, char)>)
      requires g.identsz in {4, 8} && |statics| < TWO16 && |fields| < TWO16 && Idents(fields, g.identsz)
      requires forall st :: st in statics ==> GoodStatic(st, g.version, g.identsz)
      requires Next(g.file, pos, EncMembers(statics, fields)) && |EncMembers(statics, fields)| <= hsize < TWO32
      modifies this`pos
      ensures pos == old(pos) + |EncMembers(statics, fields)| && h == hsize - |EncMembers(statics, fields)|
      ensures count == |statics| && fs == FieldsOf(g.version, fields)
    {
      hide Next, Enc16, EncMembers, EncStatics, EncFields, FieldsOf, GoodStatic, Minus, Idents;
      MembersParts(g.file, pos, statics, fields);
      count := ReadUshort(|statics|);
      MinusExact(hsize, 2);
      h := Minus(hsize, 2);
      h := ReadStatics(h, count, statics);
      var n := ReadUshort(|fields|);
      MinusExact(h, 2);
      h := Minus(h, 2);
      h, fs := ReadFields(h, n, fields);
    }

    /** The part of a class dump that has a fixed size. */
    method ReadFixed(ghost s: Sub, ghost tail: seq<Byte>) returns (key: int, superKey: int)
      requires s.ClassDump? && g.identsz in {4, 8} && |s.id| == |s.superId| == g.identsz && |s.stack| == |s.size| == 4
               && |s.others| == 5 * g.identsz
      requires Next(g.file, pos, s.id + (s.stack + (s.superId + (s.others + (s.size + tail)))))
      modifies this`pos
      ensures key == KeyOf(s.id) && superKey == KeyOf(s.superId) && pos == old(pos) + 7 * g.identsz + 8
              && Next(g.file, pos, tail)
    {
      hide Next, KeyOf, Value;
      ghost var e := s.size + tail;
      ghost var d := s.others + e;
      ghost var c := s.superId + d;
      ghost var b := s.stack + c;
      NextSplit(g.file, pos, s.id, b);
      key := ReadIdent(s.id);
      NextSplit(g.file, pos, s.stack, c);
      var stack := ReadUint(s.stack);
      NextSplit(g.file, pos, s.superId, d);
      superKey := ReadIdent(s.superId);
      NextSplit(g.file, pos, s.others, e);
      Skip(5 * g.identsz, s.others);
      NextSplit(g.file, pos, s.size, tail);
      var size := ReadUint(s.size);
    }

    /** A class is read to its end, but the remaining size goes down by one too little for every constant. */
    method ReadClass(hsize: nat, ghost s: Sub) returns (h: nat)
      requires ClassAt(g, pos, s) && ClassLen(g, s) <= hsize < TWO32
      modifies this`pos, this`t
      ensures pos == old(pos) + ClassLen(g, s) && h == hsize - ClassLen(g, s) + |s.pool| <= hsize
      ensures t == ClassRead(g, old(t), s, old(pos))
    {
      ghost var tail := TailOf(s);
      hide TailOf, KeyOf, Next, GoodMembers, ClassEffect, Minus, Idents, FieldsOf;
      var key, superKey := ReadFixed(s, tail);
      MinusExact(hsize, 7 * g.identsz + 8);
      h := Minus(hsize, 7 * g.identsz + 8);
      var count, fs;
      h, count, fs := ReadTail(h, s);
      t := ClassEffect(t, key, ClassRec(superKey, count, fs));
    }

    // ---------- instances (phat.c:1439-1477) ----------

    method ReadInstance(hsize: nat, ghost s: Sub) returns (h: nat)
      requires InstanceAt(g, pos, s) && InstanceLen(g, s) <= hsize < TWO32
      modifies this`pos, this`t
      ensures pos == old(pos) + InstanceLen(g, s) && h == hsize - InstanceLen(g, s)
              && t == InstanceRead(g, old(t), s, old(pos))
      ensures InstanceKept(g, old(t), t, KeyOf(s.id), KeyOf(s.classId), old(pos) + 8 + 2 * g.identsz)
    {
      hide KeyOf, Next, Enc32, InstanceAt, InstanceRead, InstanceEffect, Minus, InstanceKept;
      InstanceEntry(g, t, s, pos);
      var key, classKey, isz := ReadInstanceHead(s);
      MinusExact(hsize, isz + 8 + g.identsz + g.identsz);
      h := Minus(hsize, isz + 8 + g.identsz + g.identsz);
      t := InstanceEffect(g, t, key, classKey, pos);
      Skip(isz, s.data);
    }

    method ReadInstanceHead(ghost s: Sub) returns (key: int, classKey: int, isz: nat)
      requires InstanceAt(g, pos, s)
      modifies this`pos
      ensures pos == old(pos) + 2 * g.identsz + 8 && Next(g.file, pos, s.data)
      ensures key == KeyOf(s.id) && classKey == KeyOf(s.classId) && isz == |s.data|
    {
      hide KeyOf, Next, Enc32;
      key := ReadIdent(s.id);
      var stack := ReadUint(s.stack);
      classKey := ReadIdent(s.classId);
      isz := ReadUint(Enc32(|s.data|));
    }

    // ---------- arrays (phat.c:692-772) ----------

    method ReadArrayHead(hsize: nat, ghost s: Sub) returns (h: nat, key: int, isz: nat)
      requires (s.ObjArray? || s.PrimArray?) && |s.id| == g.identsz && |s.stack| == 4 && g.identsz in {4, 8}
               && s.count < TWO32
      requires Next(g.file, pos, s.id) && Next(g.file, pos + g.identsz, s.stack)
               && Next(g.file, pos + g.identsz + 4, Enc32(s.count))
      requires g.identsz + 8 <= hsize < TWO32
      modifies this`pos
      ensures pos == old(pos) + g.identsz + 8 && h == hsize - (g.identsz + 8) && key == KeyOf(s.id) && isz == s.count
    {
      hide KeyOf, Next, Enc32, Minus;
      key := ReadIdent(s.id);
      var stack := ReadUint(s.stack);
      isz := ReadUint(Enc32(s.count));
      MinusExact(hsize, 8 + g.identsz);
      h := Minus(hsize, 8 + g.identsz);
    }

    /** The elements are skipped; their size is computed in 32 bits. */
    method SkipElements(hsize: nat, elsz: nat, isz: nat, ghost elems: seq<Byte>) returns (h: nat)
      requires |elems| == Span(elsz, isz) && |elems| <= hsize < TWO32 && Next(g.file, pos, elems)
      modifies this`pos
      ensures pos == old(pos) + |elems| && h == hsize - |elems|
    {
      SpanIs(elsz, isz);
      h := Minus(hsize, elsz * isz % TWO32);
      Skip(elsz * isz % TWO32, elems);
    }

    method ReadArray(hsize: nat, prim: bool, ghost s: Sub) returns (h: nat)
      requires ArrayAt(g, pos, s) && prim == s.PrimArray? && ArrayLen(g, s) <= hsize < TWO32
      modifies this`pos, this`t
      ensures pos == old(pos) + ArrayLen(g, s) && h == hsize - ArrayLen(g, s) && t == ArrayRead(g, old(t), s, old(pos))
    {
      hide Next, KeyOf, ArrayEffect, Width, ElemSig, Enc32, ArrayName, Span;
      if prim {
        h := ReadPrimArray(hsize, s);
      } else {
        h := ReadObjArray(hsize, s);
      }
    }

    method ReadPrimArray(hsize: nat, ghost s: Sub) returns (h: nat)
      requires s.PrimArray? && ArrayAt(g, pos, s) && g.identsz + 9 + |s.elems| <= hsize < TWO32
      modifies this`pos, this`t
      ensures pos == old(pos) + g.identsz + 9 + |s.elems| && h == hsize - (g.identsz + 9 + |s.elems|)
      ensures t == ArrayEffect(old(t), 0x23, KeyOf(s.id),
                     Obj(2, g.byName[ArrayName(s.ptype)], old(pos) + 9 + g.identsz,
                         Width(ElemSig(s.ptype), g.identsz), s.count))
    {
      hide KeyOf, Next, Enc32, Minus, ArrayEffect, Width, ElemSig, Span;
      var key, isz;
      h, key, isz := ReadArrayHead(hsize, s);
      var ptype := GetByte(s.ptype);
      MinusExact(h, 1);
      h := Minus(h, 1);
      var elsz := Width(ElemSig(ptype), g.identsz);
      t := ArrayEffect(t, 0x23, key, Obj(2, g.byName[ArrayName(ptype)], pos, elsz, isz));
      h := SkipElements(h, elsz, isz, s.elems);
    }

    method ReadObjArray(hsize: nat, ghost s: Sub) returns (h: nat)
      requires s.ObjArray? && ArrayAt(g, pos, s) && 2 * g.identsz + 8 + |s.elems| <= hsize < TWO32
      modifies this`pos, this`t
      ensures pos == old(pos) + 2 * g.identsz + 8 + |s.elems| && h == hsize - (2 * g.identsz + 8 + |s.elems|)
      ensures t == ArrayEffect(old(t), 0x22, KeyOf(s.id),
                     Obj(3, g.byName[g.names[KeyOf(s.classId)]], old(pos) + 8 + 2 * g.identsz, g.identsz, s.count))
    {
      hide KeyOf, Next, Enc32, Minus, ArrayEffect, Span;
      var key, isz;
      h, key, isz := ReadArrayHead(hsize, s);
      var classKey := ReadIdent(s.classId);
      MinusExact(h, g.identsz);
      h := Minus(h, g.identsz);
      t := ArrayEffect(t, 0x22, key, Obj(3, g.byName[g.names[classKey]], pos, g.identsz, isz));
      h := SkipElements(h, g.identsz, isz, s.elems);
    }

    // ---------- roots (phat.c:1315-1431) ----------

    /** The nine kinds of roots differ in what follows the identifier, in the counter, and in the table entry. */
    method ReadRoot(hsize: nat, tag: Byte, ghost s: Sub) returns (h: nat)
      requires RootAt(g, pos, s) && s.tag == tag && g.identsz + |s.rest| <= hsize < TWO32
      modifies this`pos, this`t
      ensures pos == old(pos) + g.identsz + |s.rest| && h == hsize - (g.identsz + |s.rest|)
              && t == RootEffect(old(t), tag, KeyOf(s.id))
      ensures pos == old(pos) + (if tag == 1 then 2 else 1) * g.identsz
                     + if tag in {2, 3, 8} then 8 else if tag in {4, 6} then 4 else 0
      ensures t.roots == if tag in {1, 2, 3, 4, 5, 6, 7} then old(t).roots[KeyOf(s.id) := tag as int] else old(t).roots
    {
      hide KeyOf, Minus;
      var key := ReadIdent(s.id);
      var rest := RootRest(tag, g.identsz);
      Skip(rest, s.rest);
      MinusExact(hsize, g.identsz + rest);
      h := Minus(hsize, g.identsz + rest);
      t := RootEffect(t, tag, key);
    }

    // ---------- the loop (phat.c:1303-1498) ----------

    /** One sub-record. */
    method ReadSub(hsize: nat, ghost s: Sub) returns (h: nat)
      requires Fine(g, s) && Next(g.file, pos, Bytes(g, s)) && Len(g, s) <= hsize < TWO32
      modifies this`pos, this`t
      ensures pos == old(pos) + Len(g, s) && h == hsize - Len(g, s) + Slack(s) < hsize
              && t == Effect(g, old(t), s, old(pos))
    {
      hide Fine, Bytes, Next, Effect, Len, Minus, BodyAt, TagOf;
      SubParts(g, pos, s);
      MinusExact(hsize, 1);
      var tag := GetByte(TagOf(s));
      h := Minus(hsize, 1);
      h := ReadBody(h, tag, s, pos - 1);
    }

    /** One round of the loop. */
    method ReadRound(hsize: nat, ghost rest: seq<Sub>, ghost over: nat, ghost goal: Tables) returns (h: nat)
      requires Pending(g, t, pos, rest, hsize, over, goal) && rest != []
      modifies this`pos, this`t
      ensures Pending(g, t, pos, rest[1..], h, over + Slack(rest[0]), goal)
      ensures hsize > 0 && h + (pos - old(pos)) == hsize + Slack(rest[0])
    {
      hide Fine, Effect, Effects, Len, RecordAt, RecordLen, Bytes, Next, Slack;
      Step(g, t, pos, rest, hsize, over, goal);
      h := ReadSub(hsize, rest[0]);
    }

    /** As many rounds of the loop as there are sub-records: its guard holds before each, and afterwards the remaining
        size is the number of constants in all pools together. */
    method ReadRounds(hsize: nat, count: nat, ghost subs: seq<Sub>) returns (h: nat)
      requires RecordAt(g, pos, subs) && hsize == RecordLen(g, subs) < TWO32 && count == |subs|
      modifies this`pos, this`t
      ensures pos == old(pos) + hsize && t == Effects(g, old(t), subs, old(pos)) && h == Slacks(subs)
    {
      h := hsize;
      ghost var rest, goal := subs, Effects(g, t, subs, pos);
      ghost var over: nat := 0;
      assert Pending(g, t, pos, rest, h, over, goal);
      hide Fine, Effects, RecordAt, RecordLen, Slack, Pending;
      for i := 0 to count
        invariant rest == subs[i..] && Pending(g, t, pos, rest, h, over, goal) && h + (pos - old(pos)) == hsize + over
        invariant over + Slacks(rest) == Slacks(subs)
      {
        ghost var slack := Slack(rest[0]);
        h := ReadRound(h, rest, over, goal);
        rest, over := rest[1..], over + slack;
      }
      Over(g, t, pos, rest, h, over, goal);
    }

    /** The whole record, without constants: the remaining size and the bytes consumed always add up to its length, the
        reader stops at its end, and every counter grows by the number of sub-records of its kind. */
    method ReadHeap(hsize: nat, ghost subs: seq<Sub>)
      requires RecordAt(g, pos, subs) && hsize == RecordLen(g, subs) < TWO32
      requires forall s :: s in subs && s.ClassDump? ==> s.pool == []
      modifies this`pos, this`t
      ensures pos == old(pos) + hsize && t == Effects(g, old(t), subs, old(pos))
      ensures forall tag :: tag != 0xff ==> Get(t.tally, tag) == Get(old(t).tally, tag) + Kinds(subs, tag)
    {
      forall tag | tag != 0xff
        ensures Get(Effects(g, t, subs, pos).tally, tag) == Get(t.tally, tag) + Kinds(subs, tag)
      {
        CountersExact(g, t, subs, pos, tag);
      }
      SlacksZero(subs);
      hide Fine, Effects, Get, Kinds, RecordAt, RecordLen;
      ReadSubs(hsize, subs, Effects(g, t, subs, pos));
    }

    method ReadSubs(hsize: nat, ghost subs: seq<Sub>, ghost goal: Tables)
      requires RecordAt(g, pos, subs) && hsize == RecordLen(g, subs) < TWO32 && Effects(g, t, subs, pos) == goal
               && Slacks(subs) == 0
      modifies this`pos, this`t
      ensures pos == old(pos) + hsize && t == goal
    {
      var h: nat := hsize;
      ghost var rest := subs;
      hide Fine, Effects, RecordAt, RecordLen, Slack;
      while h > 0
        invariant Pending(g, t, pos, rest, h, 0, goal) && h + (pos - old(pos)) == hsize && Slacks(rest) == 0
        decreases |rest|
      {
        assert rest != [] by { More(g, t, pos, rest, h, goal); }
        h := ReadRound(h, rest, 0, goal);
        rest := rest[1..];
      }
      Ended(g, t, pos, rest, goal);
    }

    method ReadBody(hsize: nat, tag: Byte, ghost s: Sub, ghost at: nat) returns (h: nat)
      requires tag == TagOf(s) && Fine(g, s) && pos == at + 1 && BodyAt(g, pos, s) && Len(g, s) - 1 <= hsize < TWO32
      modifies this`pos, this`t
      ensures pos == at + Len(g, s) && h == hsize - (Len(g, s) - 1) + Slack(s) <= hsize && t == Effect(g, old(t), s, at)
    {
      TagTells(g, s);
      hide Fine, Effect, Len, BodyAt, TagOf;
      if tag == 0x20 {
        h := ClassCase(hsize, s, at);
      } else if tag == 0x21 {
        h := InstanceCase(hsize, s, at);
      } else if tag == 0x22 || tag == 0x23 {
        h := ArrayCase(hsize, tag == 0x23, s, at);
      } else {
        h := RootCase(hsize, tag, s, at);
      }
    }

    method ClassCase(hsize: nat, ghost s: Sub, ghost at: nat) returns (h: nat)
      requires s.ClassDump? && Fine(g, s) && pos == at + 1 && BodyAt(g, pos, s) && Len(g, s) - 1 <= hsize < TWO32
      modifies this`pos, this`t
      ensures pos == at + Len(g, s) && h == hsize - (Len(g, s) - 1) + Slack(s) <= hsize && t == Effect(g, old(t), s, at)
    {
      hide Fine, Effect, Len, BodyAt, ClassAt, ClassLen, ClassRead;
      ClassBody(g, t, at, s);
      h := ReadClass(hsize, s);
    }

    method InstanceCase(hsize: nat, ghost s: Sub, ghost at: nat) returns (h: nat)
      requires s.Instance? && Fine(g, s) && pos == at + 1 && BodyAt(g, pos, s) && Len(g, s) - 1 <= hsize < TWO32
      modifies this`pos, this`t
      ensures pos == at + Len(g, s) && h == hsize - (Len(g, s) - 1) + Slack(s) <= hsize && t == Effect(g, old(t), s, at)
    {
      hide Fine, Effect, Len, BodyAt, InstanceAt, InstanceLen, InstanceRead;
      InstanceBody(g, t, at, s);
      h := ReadInstance(hsize, s);
    }

    method ArrayCase(hsize: nat, prim: bool, ghost s: Sub, ghost at: nat) returns (h: nat)
      requires (if prim then s.PrimArray? else s.ObjArray?) && Fine(g, s) && pos == at + 1 && BodyAt(g, pos, s)
               && Len(g, s) - 1 <= hsize < TWO32
      modifies this`pos, this`t
      ensures pos == at + Len(g, s) && h == hsize - (Len(g, s) - 1) + Slack(s) <= hsize && t == Effect(g, old(t), s, at)
    {
      hide Fine, Effect, Len, BodyAt, ArrayAt, ArrayLen, ArrayRead;
      ArrayBody(g, t, at, s);
      h := ReadArray(hsize, prim, s);
    }

    method RootCase(hsize: nat, tag: Byte, ghost s: Sub, ghost at: nat) returns (h: nat)
      requires s.Root? && s.tag == tag && Fine(g, s) && pos == at + 1 && BodyAt(g, pos, s)
               && Len(g, s) - 1 <= hsize < TWO32
      modifies this`pos, this`t
      ensures pos == at + Len(g, s) && h == hsize - (Len(g, s) - 1) + Slack(s) <= hsize && t == Effect(g, old(t), s, at)
    {
      hide Fine, Effect, Len, BodyAt, RootAt, RootEffect, KeyOf;
      RootBody(g, t, at, s);
      h := ReadRoot(hsize, tag, s);
    }
  }

  lemma TagTells(g: Config, s: Sub)
    requires Fine(g, s)
    ensures TagOf(s) == 0x20 <==> s.ClassDump?
    ensures TagOf(s) == 0x21 <==> s.Instance?
    ensures TagOf(s) == 0x22 <==> s.ObjArray?
    ensures TagOf(s) == 0x23 <==> s.PrimArray?
    ensures s.Root? ==> TagOf(s) == s.tag
  {
    hide Loaded;
  }

  /** The parts of an array come next in the file. */
  ghost predicate ArrayAt(g: Config, pos: nat, s: Sub) {
    && (s.ObjArray? || s.PrimArray?) && g.identsz in {4, 8} && |s.id| == g.identsz && |s.stack| == 4 && s.count < TWO32
    && Next(g.file, pos, s.id) && Next(g.file, pos + g.identsz, s.stack)
    && Next(g.file, pos + g.identsz + 4, Enc32(s.count))
    && (s.ObjArray? ==> |s.classId| == g.identsz && |s.elems| == Span(g.identsz, s.count)
                        && Next(g.file, pos + g.identsz + 8, s.classId)
                        && Next(g.file, pos + 2 * g.identsz + 8, s.elems)
                        && KeyOf(s.classId) in g.names && g.names[KeyOf(s.classId)] in g.byName)
    && (s.PrimArray? ==> |s.elems| == Span(Width(ElemSig(s.ptype), g.identsz), s.count)
                         && Next(g.file, pos + g.identsz + 8, [s.ptype]) && Next(g.file, pos + g.identsz + 9, s.elems)
                         && ArrayName(s.ptype) in g.byName)
  }

  ghost function ArrayLen(g: Config, s: Sub): nat
    requires s.ObjArray? || s.PrimArray?
  {
    g.identsz + 8 + (if s.ObjArray? then g.identsz else 1) + |s.elems|
  }

  ghost function ArrayRead(g: Config, t: Tables, s: Sub, pos: nat): Tables
    requires ArrayAt(g, pos, s)
  {
    if s.ObjArray? then
      ArrayEffect(t, 0x22, KeyOf(s.id),
                  Obj(3, g.byName[g.names[KeyOf(s.classId)]], pos + 8 + 2 * g.identsz, g.identsz, s.count))
    else
      ArrayEffect(t, 0x23, KeyOf(s.id),
                  Obj(2, g.byName[ArrayName(s.ptype)], pos + 9 + g.identsz,
                      Width(ElemSig(s.ptype), g.identsz), s.count))
  }

  lemma ArrayParts(g: Config, pos: nat, s: Sub)
    requires (s.ObjArray? || s.PrimArray?) && Fine(g, s) && Next(g.file, pos, Body(s))
    ensures ArrayAt(g, pos, s) && |Body(s)| == ArrayLen(g, s)
  {
    hide Enc32, Fine, Body, KeyOf, ArrayName, Width, ElemSig, Span, Next;
    if s.ObjArray? { ObjShape(g, s); } else { PrimShape(g, s); }
    var n := Enc32(s.count);
    var c := if s.ObjArray? then s.classId else [s.ptype];
    NextSplit(g.file, pos, s.id, s.stack + (n + (c + s.elems)));
    NextSplit(g.file, pos + g.identsz, s.stack, n + (c + s.elems));
    NextSplit(g.file, pos + g.identsz + 4, n, c + s.elems);
    NextSplit(g.file, pos + g.identsz + 8, c, s.elems);
  }

  lemma ObjShape(g: Config, s: Sub)
    requires s.ObjArray? && Fine(g, s)
    ensures g.identsz in {4, 8} && |s.id| == g.identsz == |s.classId| && |s.stack| == 4 && s.count < TWO32
    ensures |s.elems| == Span(g.identsz, s.count)
    ensures KeyOf(s.classId) in g.names && g.names[KeyOf(s.classId)] in g.byName
    ensures Body(s) == s.id + (s.stack + (Enc32(s.count) + (s.classId + s.elems)))
  {
    hide Enc32, Span, KeyOf;
  }

  lemma PrimShape(g: Config, s: Sub)
    requires s.PrimArray? && Fine(g, s)
    ensures g.identsz in {4, 8} && |s.id| == g.identsz && |s.stack| == 4 && s.count < TWO32
    ensures |s.elems| == Span(Width(ElemSig(s.ptype), g.identsz), s.count) && ArrayName(s.ptype) in g.byName
    ensures Body(s) == s.id + (s.stack + (Enc32(s.count) + ([s.ptype] + s.elems)))
  {
    hide Enc32, Width, ElemSig, Span, ArrayName;
  }

  /** The parts of an instance come next in the file. */
  ghost predicate InstanceAt(g: Config, pos: nat, s: Sub) {
    && s.Instance? && g.identsz in {4, 8} && |s.id| == |s.classId| == g.identsz && |s.stack| == 4 && |s.data| < TWO32
    && Next(g.file, pos, s.id) && Next(g.file, pos + g.identsz, s.stack) && Next(g.file, pos + g.identsz + 4, s.classId)
    && Next(g.file, pos + 2 * g.identsz + 4, Enc32(|s.data|)) && Next(g.file, pos + 2 * g.identsz + 8, s.data)
  }

  /** There is one instance more of the class `c`. If it is among the first 49999, or a string, it can be found at its
      own key `k`, with its class and the place of its data. Everything else stays. */
  ghost predicate InstanceKept(g: Config, t: Tables, u: Tables, k: int, c: int, at: nat) {
    && Get(u.counts, c) == Get(t.counts, c) + 1 && (forall x :: x != c ==> Get(u.counts, x) == Get(t.counts, x))
    && (Get(u.counts, c) < 50000 || c == g.stringKey ==> k in u.objects && u.objects[k] == Obj(1, c, at, 0, 0))
    && (!(Get(u.counts, c) < 50000 || c == g.stringKey) ==> u.objects == t.objects)
    && (forall x :: x in u.objects <==> x in t.objects || (x == k && (Get(u.counts, c) < 50000 || c == g.stringKey)))
    && (forall x :: x in t.objects && x != k ==> u.objects[x] == t.objects[x])
    && u.roots == t.roots && u.classes == t.classes
  }

  ghost function InstanceLen(g: Config, s: Sub): nat
    requires s.Instance?
  {
    2 * g.identsz + 8 + |s.data|
  }

  ghost function InstanceRead(g: Config, t: Tables, s: Sub, pos: nat): Tables
    requires InstanceAt(g, pos, s)
  {
    InstanceEffect(g, t, KeyOf(s.id), KeyOf(s.classId), pos + 8 + 2 * g.identsz)
  }

  lemma InstanceEntry(g: Config, t: Tables, s: Sub, pos: nat)
    requires InstanceAt(g, pos, s)
    ensures s.Instance? && |s.id| >= 4 && |s.classId| >= 4 && |s.data| < TWO32
    ensures var u := InstanceEffect(g, t, KeyOf(s.id), KeyOf(s.classId), pos + 8 + 2 * g.identsz);
            u == InstanceRead(g, t, s, pos)
            && InstanceKept(g, t, u, KeyOf(s.id), KeyOf(s.classId), pos + 8 + 2 * g.identsz)
  {
    hide KeyOf, Next;
  }

  lemma InstanceParts(g: Config, pos: nat, s: Sub)
    requires s.Instance? && Fine(g, s) && Next(g.file, pos, Body(s))
    ensures InstanceAt(g, pos, s) && |Body(s)| == InstanceLen(g, s)
  {
    hide Loaded;
    var n := Enc32(|s.data|);
    assert Body(s) == s.id + (s.stack + (s.classId + (n + s.data)));
    hide Enc32, Next, Body;
    NextSplit(g.file, pos, s.id, s.stack + (s.classId + (n + s.data)));
    NextSplit(g.file, pos + g.identsz, s.stack, s.classId + (n + s.data));
    NextSplit(g.file, pos + g.identsz + 4, s.classId, n + s.data);
    NextSplit(g.file, pos + 2 * g.identsz + 4, n, s.data);
  }

  /** The parts of a class come next in the file. */
  ghost predicate ClassAt(g: Config, pos: nat, s: Sub) {
    && s.ClassDump? && g.identsz in {4, 8} && |s.id| == |s.superId| == g.identsz && |s.stack| == |s.size| == 4
    && |s.others| == 5 * g.identsz
    && Counted(s) && Idents(s.fields, g.identsz) && GoodMembers(s, g.version, g.identsz)
    && Next(g.file, pos, s.id + (s.stack + (s.superId + (s.others + (s.size + TailOf(s))))))
  }

  ghost predicate Counted(s: Sub)
    requires s.ClassDump?
  {
    |s.pool| < TWO16 && |s.statics| < TWO16 && |s.fields| < TWO16
  }

  ghost predicate GoodMembers(s: Sub, version: nat, idsz: nat)
    requires s.ClassDump?
  {
    (forall c :: c in s.pool ==> GoodConst(c, version, idsz)) && forall st :: st in s.statics ==>
        GoodStatic(st, version, idsz)
  }

  ghost function TailOf(s: Sub): seq<Byte>
    requires s.ClassDump? && Counted(s)
  {
    EncTail(s.pool, s.statics, s.fields)
  }

  ghost function ClassLen(g: Config, s: Sub): nat
    requires s.ClassDump? && Counted(s)
  {
    7 * g.identsz + 8 + |TailOf(s)|
  }

  ghost function ClassRead(g: Config, t: Tables, s: Sub, pos: nat): Tables
    requires ClassAt(g, pos, s)
  {
    ClassEffect(t, KeyOf(s.id), ClassRec(KeyOf(s.superId), |s.statics|, FieldsOf(g.version, s.fields)))
  }

  lemma ClassParts(g: Config, pos: nat, s: Sub)
    requires s.ClassDump? && Fine(g, s) && Next(g.file, pos, Body(s))
    ensures ClassAt(g, pos, s) && |Body(s)| == ClassLen(g, s)
  {
    hide Loaded, GoodStatic, GoodConst, EncTail, Next;
    forall f | f in s.fields ensures |f.id| == g.identsz { assert GoodField(f, g.identsz); }
    JoinedLen(s.id, s.stack, s.superId, s.others, s.size, TailOf(s));
  }

  // ---------- roots ----------

  ghost predicate RootAt(g: Config, pos: nat, s: Sub) {
    && s.Root? && g.identsz in {4, 8} && |s.id| == g.identsz && |s.rest| == RootRest(s.tag, g.identsz)
    && Next(g.file, pos, s.id) && Next(g.file, pos + g.identsz, s.rest)
  }

  lemma RootParts(g: Config, pos: nat, s: Sub)
    requires s.Root? && Fine(g, s) && Next(g.file, pos, Body(s))
    ensures RootAt(g, pos, s) && |Body(s)| == g.identsz + |s.rest| && IsRoot(s.tag)
  {
    hide Loaded;
    NextSplit(g.file, pos, s.id, s.rest);
  }

  // ---------- any sub-record ----------

  /** The body of a sub-record comes next in the file. */
  ghost predicate BodyAt(g: Config, pos: nat, s: Sub)
    requires Fine(g, s)
  {
    Next(g.file, pos, Body(s))
  }

  lemma SubParts(g: Config, pos: nat, s: Sub)
    requires Fine(g, s) && Next(g.file, pos, Bytes(g, s))
    ensures Next(g.file, pos, [TagOf(s)]) && BodyAt(g, pos + 1, s) && Len(g, s) >= 1
  {
    NextSplit(g.file, pos, [TagOf(s)], Body(s));
    hide Fine, Next;
  }

  // What the cases read is what the sub-record means.

  lemma LenBody(g: Config, s: Sub)
    requires Fine(g, s)
    ensures Len(g, s) == 1 + |Body(s)|
  {
    assert |Enc(s)| == 1 + |Body(s)|;
    hide Body;
  }

  lemma BodyNext(g: Config, pos: nat, s: Sub)
    requires Fine(g, s) && BodyAt(g, pos, s)
    ensures Next(g.file, pos, Body(s))
  {
    hide Body, Next;
  }

  lemma ClassBody(g: Config, t: Tables, at: nat, s: Sub)
    requires s.ClassDump? && Fine(g, s) && BodyAt(g, at + 1, s)
    ensures ClassAt(g, at + 1, s) && Len(g, s) == 1 + ClassLen(g, s)
            && Effect(g, t, s, at) == ClassRead(g, t, s, at + 1)
  {
    hide BodyAt, Len, ClassAt, ClassLen, Effect, ClassRead, Body, Next;
    BodyNext(g, at + 1, s);
    ClassParts(g, at + 1, s);
    LenBody(g, s);
    ClassReads(g, t, at, s);
  }

  lemma ClassReads(g: Config, t: Tables, at: nat, s: Sub)
    requires s.ClassDump? && Fine(g, s) && ClassAt(g, at + 1, s)
    ensures Effect(g, t, s, at) == ClassRead(g, t, s, at + 1)
  {
    hide Fine, KeyOf, FieldsOf, ClassEffect, ClassAt;
  }

  lemma InstanceBody(g: Config, t: Tables, at: nat, s: Sub)
    requires s.Instance? && Fine(g, s) && BodyAt(g, at + 1, s)
    ensures InstanceAt(g, at + 1, s) && Len(g, s) == 1 + InstanceLen(g, s)
            && Effect(g, t, s, at) == InstanceRead(g, t, s, at + 1)
  {
    hide BodyAt, Len, InstanceAt, InstanceLen, Effect, InstanceRead, Body, Next;
    BodyNext(g, at + 1, s);
    InstanceParts(g, at + 1, s);
    LenBody(g, s);
    InstanceReads(g, t, at, s);
  }

  lemma InstanceReads(g: Config, t: Tables, at: nat, s: Sub)
    requires s.Instance? && Fine(g, s) && InstanceAt(g, at + 1, s)
    ensures Effect(g, t, s, at) == InstanceRead(g, t, s, at + 1)
  {
    hide Fine, KeyOf, InstanceEffect, InstanceAt;
  }

  lemma ArrayBody(g: Config, t: Tables, at: nat, s: Sub)
    requires (s.ObjArray? || s.PrimArray?) && Fine(g, s) && BodyAt(g, at + 1, s)
    ensures ArrayAt(g, at + 1, s) && Len(g, s) == 1 + ArrayLen(g, s)
            && Effect(g, t, s, at) == ArrayRead(g, t, s, at + 1)
  {
    hide BodyAt, Len, ArrayAt, ArrayLen, Effect, ArrayRead, Body, Next;
    BodyNext(g, at + 1, s);
    ArrayParts(g, at + 1, s);
    LenBody(g, s);
    ArrayReads(g, t, at, s);
  }

  lemma ArrayReads(g: Config, t: Tables, at: nat, s: Sub)
    requires (s.ObjArray? || s.PrimArray?) && Fine(g, s) && ArrayAt(g, at + 1, s)
    ensures Effect(g, t, s, at) == ArrayRead(g, t, s, at + 1)
  {
    hide Fine, KeyOf, ArrayEffect, ArrayAt, ElemSig, Width;
  }

  lemma RootBody(g: Config, t: Tables, at: nat, s: Sub)
    requires s.Root? && Fine(g, s) && BodyAt(g, at + 1, s)
    ensures RootAt(g, at + 1, s) && Len(g, s) == 1 + (g.identsz + |s.rest|)
            && Effect(g, t, s, at) == RootEffect(t, s.tag, KeyOf(s.id))
  {
    hide BodyAt, Len, RootAt, Effect, RootEffect, Body, Next;
    BodyNext(g, at + 1, s);
    RootParts(g, at + 1, s);
    LenBody(g, s);
    RootReads(g, t, at, s);
  }

  lemma RootReads(g: Config, t: Tables, at: nat, s: Sub)
    requires s.Root? && Fine(g, s) && |s.id| >= 4
    ensures Effect(g, t, s, at) == RootEffect(t, s.tag, KeyOf(s.id))
  {
    hide Fine, KeyOf, RootEffect;
  }

  lemma MembersParts(file: seq<Byte>, pos: nat, statics: seq<Static>, fields: seq<Field>)
    requires |statics| < TWO16 && |fields| < TWO16 && Next(file, pos, EncMembers(statics, fields))
    ensures |EncMembers(statics, fields)| == 4 + |EncStatics(statics)| + |EncFields(fields)|
    ensures Next(file, pos, Enc16(|statics|)) && Next(file, pos + 2, EncStatics(statics))
    ensures Next(file, pos + 2 + |EncStatics(statics)|, Enc16(|fields|))
            && Next(file, pos + 4 + |EncStatics(statics)|, EncFields(fields))
  {
    hide Enc16, EncStatics, EncFields, Next;
    var es, ef, ns, nf := EncStatics(statics), EncFields(fields), Enc16(|statics|), Enc16(|fields|);
    NextSplit(file, pos, ns, es + (nf + ef));
    NextSplit(file, pos + 2, es, nf + ef);
    NextSplit(file, pos + 2 + |es|, nf, ef);
  }

  lemma TailParts(file: seq<Byte>, pos: nat, s: Sub)
    requires s.ClassDump? && Counted(s) && Next(file, pos, TailOf(s))
    ensures |TailOf(s)| == 2 + |EncPool(s.pool)| + |EncMembers(s.statics, s.fields)|
    ensures Next(file, pos, Enc16(|s.pool|)) && Next(file, pos + 2, EncPool(s.pool))
    ensures Next(file, pos + 2 + |EncPool(s.pool)|, EncMembers(s.statics, s.fields))
  {
    hide Enc16, EncPool, EncMembers, Next;
    NextSplit(file, pos, Enc16(|s.pool|), EncPool(s.pool) + EncMembers(s.statics, s.fields));
    NextSplit(file, pos + 2, EncPool(s.pool), EncMembers(s.statics, s.fields));
  }

  lemma JoinedLen(a: seq<Byte>, b: seq<Byte>, c: seq<Byte>, d: seq<Byte>, e: seq<Byte>, f: seq<Byte>)
    ensures |a + (b + (c + (d + (e + f))))| == |a| + |b| + |c| + |d| + |e| + |f|
  {
  }

  lemma FieldsBegin(g: Config, fs: seq<Field>)
    requires forall f :: f in fs ==> |f.id| >= 4
    ensures FieldsLeft(g, [], fs, fs)
  {
  }

  lemma FieldsEnd(g: Config, fields: seq<(int, char)>, rest: seq<Field>, fs: seq<Field>)
    requires FieldsLeft(g, fields, rest, fs) && rest == []
    ensures (forall f :: f in fs ==> |f.id| >= 4) && fields == FieldsOf(g.version, fs) && EncFields(rest) == []
  {
  }

  /** The fields read so far and those still to come make up the list. */
  ghost predicate FieldsLeft(g: Config, fields: seq<(int, char)>, rest: seq<Field>, fs: seq<Field>) {
    && (forall f :: f in rest ==> |f.id| >= 4) && (forall f :: f in fs ==> |f.id| >= 4)
    && fields + FieldsOf(g.version, rest) == FieldsOf(g.version, fs)
  }

  lemma FieldTaken(g: Config, fields: seq<(int, char)>, rest: seq<Field>, fs: seq<Field>)
    requires rest != [] && FieldsLeft(g, fields, rest, fs)
    ensures |rest[0].id| >= 4
            && FieldsLeft(g, fields + [(KeyOf(rest[0].id), Sig(g.version, rest[0].ptype))], rest[1..], fs)
  {
    assert rest[0] in rest;
    hide KeyOf, Sig;
    var x := (KeyOf(rest[0].id), Sig(g.version, rest[0].ptype));
    assert FieldsOf(g.version, rest) == [x] + FieldsOf(g.version, rest[1..]);
    assert fields + ([x] + FieldsOf(g.version, rest[1..])) == fields + [x] + FieldsOf(g.version, rest[1..]);
  }

  ghost predicate Idents(fs: seq<Field>, idsz: nat) {
    idsz >= 4 && forall f :: f in fs ==> |f.id| == idsz
  }

  lemma FieldStep(fs: seq<Field>, idsz: nat)
    requires fs != [] && Idents(fs, idsz)
    ensures |fs[0].id| == idsz && Idents(fs[1..], idsz)
    ensures EncFields(fs) == fs[0].id + [fs[0].ptype] + EncFields(fs[1..])
    ensures |EncFields(fs)| == idsz + 1 + |EncFields(fs[1..])|
  {
    assert fs[0] in fs;
  }

  lemma ConstLen(c: Const, version: nat, idsz: nat)
    requires GoodConst(c, version, idsz)
    ensures |c.index + [c.ptype] + c.value| == 3 + |c.value|
  {
  }

  lemma StaticLen(st: Static, version: nat, idsz: nat)
    requires GoodStatic(st, version, idsz)
    ensures |st.id + [st.ptype] + st.value| == idsz + 1 + |st.value|
  {
  }

  // ---------- records ----------

  ghost function RecordBytes(g: Config, subs: seq<Sub>): seq<Byte>
    requires AllFine(g, subs)
  {
    if subs == [] then [] else assert subs[0] in subs; Bytes(g, subs[0]) + RecordBytes(g, subs[1..])
  }

  lemma {:induction false} RecordIsEnc(g: Config, subs: seq<Sub>)
    requires AllFine(g, subs)
    ensures (forall s :: s in subs ==> Sized(s)) && RecordBytes(g, subs) == EncAll(subs)
  {
    forall s | s in subs ensures Sized(s) { assert Fine(g, s); }
    if subs != [] { RecordIsEnc(g, subs[1..]); }
  }

  /** The encoding of these sub-records comes next in the file. */
  ghost predicate RecordAt(g: Config, pos: nat, subs: seq<Sub>) {
    AllFine(g, subs) && Next(g.file, pos, RecordBytes(g, subs))
  }

  ghost function RecordLen(g: Config, subs: seq<Sub>): nat
    requires AllFine(g, subs)
  {
    |RecordBytes(g, subs)|
  }

  lemma RecordParts(g: Config, pos: nat, subs: seq<Sub>)
    requires RecordAt(g, pos, subs) && subs != []
    ensures Fine(g, subs[0]) && AllFine(g, subs[1..]) && RecordLen(g, subs) == Len(g, subs[0]) + RecordLen(g, subs[1..])
    ensures Next(g.file, pos, Bytes(g, subs[0])) && RecordAt(g, pos + Len(g, subs[0]), subs[1..])
  {
    hide Fine, Next, Bytes;
    assert subs[0] in subs;
    NextSplit(g.file, pos, Bytes(g, subs[0]), RecordBytes(g, subs[1..]));
  }

  lemma NonEmpty(g: Config, s: Sub)
    requires Fine(g, s)
    ensures Len(g, s) > 0
  {
  }

  /** The bytes of `rest` come next and lead to the tables `goal`; the remaining size `h` is `over` too large. */
  ghost predicate Pending(g: Config, t: Tables, pos: nat, rest: seq<Sub>, h: nat, over: nat, goal: Tables) {
    RecordAt(g, pos, rest) && h == RecordLen(g, rest) + over < TWO32 && Effects(g, t, rest, pos) == goal
  }

  lemma Step(g: Config, t: Tables, pos: nat, rest: seq<Sub>, h: nat, over: nat, goal: Tables)
    requires Pending(g, t, pos, rest, h, over, goal) && rest != []
    ensures Fine(g, rest[0]) && Next(g.file, pos, Bytes(g, rest[0])) && 0 < Len(g, rest[0]) <= h
    ensures Pending(g, Effect(g, t, rest[0], pos), pos + Len(g, rest[0]), rest[1..], h - Len(g, rest[0]), over, goal)
  {
    hide Fine, Effect, Len, Next, Bytes;
    RecordParts(g, pos, rest);
    hide RecordAt, RecordLen;
    NonEmpty(g, rest[0]);
  }

  lemma More(g: Config, t: Tables, pos: nat, rest: seq<Sub>, h: nat, goal: Tables)
    requires Pending(g, t, pos, rest, h, 0, goal) && h > 0
    ensures rest != []
  {
  }

  lemma Over(g: Config, t: Tables, pos: nat, rest: seq<Sub>, h: nat, over: nat, goal: Tables)
    requires Pending(g, t, pos, rest, h, over, goal) && rest == []
    ensures t == goal && h == over
  {
  }

  lemma Ended(g: Config, t: Tables, pos: nat, rest: seq<Sub>, goal: Tables)
    requires Pending(g, t, pos, rest, 0, 0, goal)
    ensures t == goal
  {
    hide Fine, Effect, Bytes, Next;
    if rest != [] {
      RecordParts(g, pos, rest);
      NonEmpty(g, rest[0]);
    }
  }
}
