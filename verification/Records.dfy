/**
 The sub-records of a heap dump record, as the HPROF agent writes them: section "Binary Dump Format (format=b)" of the
 HPROF manual, record HPROF_HEAP_DUMP. Identifiers and values are kept as the bytes they are.
 */
module Records {
  import opened Formats

  datatype Const = Const(index: seq<Byte>, ptype: Byte, value: seq<Byte>)
  datatype Static = Static(id: seq<Byte>, ptype: Byte, value: seq<Byte>)
  datatype Field = Field(id: seq<Byte>, ptype: Byte)

  datatype Sub =
    | Root(tag: Byte, id: seq<Byte>, rest: seq<Byte>)
    | ClassDump(id: seq<Byte>, stack: seq<Byte>, superId: seq<Byte>, others: seq<Byte>, size: seq<Byte>,
                pool: seq<Const>, statics: seq<Static>, fields: seq<Field>)
    | Instance(id: seq<Byte>, stack: seq<Byte>, classId: seq<Byte>, data: seq<Byte>)
    | ObjArray(id: seq<Byte>, stack: seq<Byte>, classId: seq<Byte>, count: nat, elems: seq<Byte>)
    | PrimArray(id: seq<Byte>, stack: seq<Byte>, ptype: Byte, count: nat, elems: seq<Byte>)

  // ---------- encoding ----------

  ghost function Pow256(k: nat): nat {
    if k == 0 then 1 else 256 * Pow256(k - 1)
  }

  /** The number that big-endian bytes stand for. */
  ghost function Value(b: seq<Byte>): nat {
    if b == [] then 0 else Value(b[..|b| - 1]) * 256 + b[|b| - 1] as int
  }

  /** `k` bytes for a number, big end first. */
  ghost function BigEndian(n: nat, k: nat): (b: seq<Byte>)
    requires n < Pow256(k)
    ensures |b| == k && Value(b) == n
  {
    if k == 0 then [] else
      var init := BigEndian(n / 256, k - 1);
      assert (init + [n % 256])[..k - 1] == init;
      init + [n % 256]
  }

  ghost function Enc16(n: nat): (b: seq<Byte>)
    requires n < TWO16
    ensures |b| == 2 && Value(b) == n
  {
    assert Pow256(2) == TWO16 by { assert Pow256(1) == 256; }
    BigEndian(n, 2)
  }

  ghost function Enc32(n: nat): (b: seq<Byte>)
    requires n < TWO32
    ensures |b| == 4 && Value(b) == n
  {
    assert Pow256(4) == TWO32 by { assert Pow256(1) == 256 && Pow256(2) == 0x1_0000 && Pow256(3) == 0x100_0000; }
    BigEndian(n, 4)
  }

  ghost function EncPool(cs: seq<Const>): seq<Byte> {
    if cs == [] then [] else (cs[0].index + [cs[0].ptype] + cs[0].value) + EncPool(cs[1..])
  }

  ghost function EncStatics(ss: seq<Static>): seq<Byte> {
    if ss == [] then [] else (ss[0].id + [ss[0].ptype] + ss[0].value) + EncStatics(ss[1..])
  }

  ghost function EncFields(fs: seq<Field>): seq<Byte> {
    if fs == [] then [] else (fs[0].id + [fs[0].ptype]) + EncFields(fs[1..])
  }

  ghost predicate Sized(s: Sub) {
    match s
    case Root(_, _, _) => true
    case ClassDump(_, _, _, _, _, pool, statics, fields) => |pool| < TWO16 && |statics| < TWO16 && |fields| < TWO16
    case Instance(_, _, _, data) => |data| < TWO32
    case ObjArray(_, _, _, count, _) => count < TWO32
    case PrimArray(_, _, _, count, _) => count < TWO32
  }

  /** The statics and fields of a class. */
  ghost function EncMembers(statics: seq<Static>, fields: seq<Field>): seq<Byte>
    requires |statics| < TWO16 && |fields| < TWO16
  {
    Enc16(|statics|) + (EncStatics(statics) + (Enc16(|fields|) + EncFields(fields)))
  }

  /** The bytes of a class after its fixed part. */
  ghost function EncTail(pool: seq<Const>, statics: seq<Static>, fields: seq<Field>): seq<Byte>
    requires |pool| < TWO16 && |statics| < TWO16 && |fields| < TWO16
  {
    Enc16(|pool|) + (EncPool(pool) + EncMembers(statics, fields))
  }

  ghost function Body(s: Sub): seq<Byte>
    requires Sized(s)
  {
    match s
    case Root(_, id, rest) => id + rest
    case ClassDump(id, stack, superId, others, size, pool, statics, fields) =>
      id + (stack + (superId + (others + (size + EncTail(pool, statics, fields)))))
    case Instance(id, stack, classId, data) => id + (stack + (classId + (Enc32(|data|) + data)))
    case ObjArray(id, stack, classId, count, elems) => id + (stack + (Enc32(count) + (classId + elems)))
    case PrimArray(id, stack, ptype, count, elems) => id + (stack + (Enc32(count) + ([ptype] + elems)))
  }

  function TagOf(s: Sub): Byte {
    match s
    case Root(tag, _, _) => tag
    case ClassDump(_, _, _, _, _, _, _, _) => 0x20
    case Instance(_, _, _, _) => 0x21
    case ObjArray(_, _, _, _, _) => 0x22
    case PrimArray(_, _, _, _, _) => 0x23
  }

  ghost function Enc(s: Sub): seq<Byte>
    requires Sized(s)
  {
    [TagOf(s)] + Body(s)
  }

  ghost function EncAll(subs: seq<Sub>): seq<Byte>
    requires forall s :: s in subs ==> Sized(s)
  {
    if subs == [] then [] else assert subs[0] in subs; Enc(subs[0]) + EncAll(subs[1..])
  }

  // ---------- types ----------

  /** `sigFromType`; before version 1 of the format, the byte is the signature. */
  function Sig(version: nat, t: Byte): char {
    if version < 1 then t as char
    else match t
      case 2 => 'L' case 4 => 'Z' case 5 => 'C' case 6 => 'F' case 7 => 'D' case 8 => 'B' case 9 => 'S'
      case 10 => 'I' case 11 => 'J'
      case _ => 'U'
  }

  /** The signature and width of the elements of a primitive array. */
  function ElemSig(t: Byte): char {
    match t
    case 4 => 'Z' case 5 => 'C' case 6 => 'F' case 7 => 'D' case 8 => 'B' case 9 => 'S' case 10 => 'I' case 11 => 'J'
    case _ => '0'
  }

  /** The bytes that follow the identifier of a root, by tag. */
  function RootRest(tag: Byte, idsz: nat): nat {
    match tag
    case 1 => idsz
    case 8 => 8 case 2 => 8 case 3 => 8
    case 4 => 4 case 6 => 4
    case _ => 0
  }

  predicate IsRoot(tag: Byte) {
    tag == 0xff || 1 <= tag <= 8
  }

  // ---------- well-formed sub-records ----------

  ghost predicate GoodValue(ptype: Byte, value: seq<Byte>, version: nat, idsz: nat) {
    |value| == Width(Sig(version, ptype), idsz) > 0 && (Sig(version, ptype) == 'Z' ==> value[0] <= 1)
  }

  ghost predicate GoodConst(c: Const, version: nat, idsz: nat) {
    |c.index| == 2 && GoodValue(c.ptype, c.value, version, idsz)
  }

  ghost predicate GoodStatic(st: Static, version: nat, idsz: nat) {
    |st.id| == idsz && GoodValue(st.ptype, st.value, version, idsz)
  }

  ghost predicate GoodField(f: Field, idsz: nat) {
    |f.id| == idsz
  }

  ghost predicate Good(s: Sub, version: nat, idsz: nat) {
    && Sized(s) && |s.id| == idsz
    && match s
       case Root(tag, _, rest) => IsRoot(tag) && |rest| == RootRest(tag, idsz)
       case ClassDump(_, stack, superId, others, size, pool, statics, fields) =>
         && |stack| == 4 && |superId| == idsz && |others| == 5 * idsz && |size| == 4
         && (forall c :: c in pool ==> GoodConst(c, version, idsz))
         && (forall st :: st in statics ==> GoodStatic(st, version, idsz))
         && (forall f :: f in fields ==> GoodField(f, idsz))
       case Instance(_, stack, classId, _) => |stack| == 4 && |classId| == idsz
       case ObjArray(_, stack, classId, count, elems) =>
         |stack| == 4 && |classId| == idsz && |elems| == Span(idsz, count)
       case PrimArray(_, stack, ptype, count, elems) =>
         |stack| == 4 && 4 <= ptype <= 11 && |elems| == Span(Width(ElemSig(ptype), idsz), count)
  }
}
