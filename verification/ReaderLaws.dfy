/** What the tables of the reader hold after a record, entry by entry. */
module ReaderLaws {
  import opened Formats
  import opened Counting
  import opened Records
  import opened HeapReader
  import HeapGraph

  /** Where the sub-record `i` begins. */
  ghost function PosOf(g: Config, subs: seq<Sub>, at: nat, i: nat): nat
    requires AllFine(g, subs) && i <= |subs|
  {
    if i == 0 then at else
      assert subs[0] in subs;
      PosOf(g, subs[1..], at + Len(g, subs[0]), i - 1)
  }

  // ---------- instances of a class ----------

  ghost predicate InstanceOf(g: Config, s: Sub, c: int) {
    Fine(g, s) && s.Instance? && KeyOf(s.classId) == c
  }

  ghost function InstanceMarks(g: Config, subs: seq<Sub>, c: int): (m: seq<bool>)
    ensures |m| == |subs| && forall i :: 0 <= i < |m| ==> m[i] == InstanceOf(g, subs[i], c)
  {
    seq(|subs|, i requires 0 <= i < |subs| => InstanceOf(g, subs[i], c))
  }

  /** How many instances of the class `c` there are among the first `n` sub-records. */
  ghost function Instances(g: Config, subs: seq<Sub>, c: int, n: nat): nat
    requires n <= |subs|
  {
    |set i: nat | i < n && InstanceOf(g, subs[i], c)|
  }

  lemma InstancesMarks(g: Config, subs: seq<Sub>, c: int, n: nat)
    requires n <= |subs|
    ensures Instances(g, subs, c, n) == Marks(InstanceMarks(g, subs[..n], c))
  {
    var m := InstanceMarks(g, subs[..n], c);
    MarksCard(m);
    assert (set i: nat | i < n && InstanceOf(g, subs[i], c)) == set i: nat | i < |m| && m[i];
  }

  lemma InstancesFirst(g: Config, subs: seq<Sub>, c: int, n: nat)
    requires 0 < n <= |subs|
    ensures Instances(g, subs, c, n)
            == (if InstanceOf(g, subs[0], c) then 1 else 0) + Instances(g, subs[1..], c, n - 1)
  {
    hide Instances, InstanceOf;
    InstancesMarks(g, subs, c, n);
    InstancesMarks(g, subs[1..], c, n - 1);
    var l, m := InstanceMarks(g, subs[..n], c), InstanceMarks(g, subs[1..][..n - 1], c);
    assert |l[1..]| == |m|;
    forall i | 0 <= i < |m| ensures l[1..][i] == m[i] { assert subs[..n][i + 1] == subs[1..][..n - 1][i]; }
    assert l[1..] == m;
  }

  lemma CountsFirst(g: Config, t: Tables, s: Sub, at: nat, c: int)
    requires Fine(g, s)
    ensures Get(Effect(g, t, s, at).counts, c) == Get(t.counts, c) + if InstanceOf(g, s, c) then 1 else 0
  {
    hide Fine, KeyOf, ClassOfDump, ArrayName, ElemSig, Width;
  }

  /** Every class has as many instances more as the record has. */
  lemma {:induction false} CountsExact(g: Config, t: Tables, subs: seq<Sub>, at: nat, c: int)
    requires AllFine(g, subs)
    ensures Get(Effects(g, t, subs, at).counts, c) == Get(t.counts, c) + Instances(g, subs, c, |subs|)
    decreases |subs|
  {
    hide Fine, Effect, Len, Get, Instances;
    if subs == [] {
      InstancesMarks(g, subs, c, 0);
    } else {
      assert subs[0] in subs;
      InstancesFirst(g, subs, c, |subs|);
      CountsFirst(g, t, subs[0], at, c);
      CountsExact(g, Effect(g, t, subs[0], at), subs[1..], at + Len(g, subs[0]), c);
    }
  }

  // ---------- objects ----------

  /** The sub-record `s` puts an object into the table at the key `k`, when `n` instances of its class have been
      counted, itself among them: arrays always do, instances as long as there are not too many of their class. */
  ghost predicate Stores(g: Config, s: Sub, k: int, n: nat) {
    && Fine(g, s) && !s.Root? && !s.ClassDump? && KeyOf(s.id) == k
    && (s.Instance? ==> n < 50000 || KeyOf(s.classId) == g.stringKey)
  }

  /** The number that decides for the sub-record `i`. */
  ghost function Seen(g: Config, t: Tables, subs: seq<Sub>, i: nat): nat
    requires AllFine(g, subs) && i < |subs|
  {
    assert subs[i] in subs;
    if subs[i].Instance? then Get(t.counts, KeyOf(subs[i].classId)) + Instances(g, subs, KeyOf(subs[i].classId), i + 1)
    else 0
  }

  ghost predicate StoresAt(g: Config, t: Tables, subs: seq<Sub>, i: nat, k: int)
    requires AllFine(g, subs) && i < |subs|
  {
    Stores(g, subs[i], k, Seen(g, t, subs, i))
  }

  /** What is known of the object that `s` stores, if the sub-record ends at `end`: its type, its class, the size and
      the number of its elements, and that its data are the last bytes of the sub-record. */
  ghost predicate Describes(g: Config, s: Sub, end: nat, o: Obj)
    requires Fine(g, s)
  {
    match s
    case Instance(_, _, classId, data) =>
      o.htype == 1 && o.classId == KeyOf(classId) && o.fpos + |data| == end && o.size == 0 && o.count == 0
    case ObjArray(_, _, classId, count, elems) =>
      && o.htype == HeapGraph.OARRAY && o.classId == g.byName[g.names[KeyOf(classId)]] && o.fpos + |elems| == end
      && o.size == g.identsz && o.count == count
    case PrimArray(_, _, ptype, count, elems) =>
      && o.htype == HeapGraph.VARRAY && ['[', Sig(1, ptype)] in g.byName && o.classId == g.byName[['[', Sig(1, ptype)]]
      && o.fpos + |elems| == end && o.size == Width(Sig(1, ptype), g.identsz) && o.count == count
    case _ => false
  }

  lemma BodyLen(g: Config, s: Sub)
    requires Fine(g, s) && !s.Root? && !s.ClassDump?
    ensures s.Instance? ==> Len(g, s) == 9 + 2 * g.identsz + |s.data|
    ensures s.ObjArray? ==> Len(g, s) == 9 + 2 * g.identsz + |s.elems|
    ensures s.PrimArray? ==> Len(g, s) == 10 + g.identsz + |s.elems|
  {
    LenBody(g, s);
    hide Loaded, Len;
    match s
    case Instance(id, stack, classId, data) =>
      JoinLen(id, stack, classId, Enc32(|data|), data);
    case ObjArray(id, stack, classId, count, elems) =>
      JoinLen(id, stack, Enc32(count), classId, elems);
    case PrimArray(id, stack, ptype, count, elems) =>
      JoinLen(id, stack, Enc32(count), [ptype], elems);
    case _ =>
  }

  lemma JoinLen(a: seq<Byte>, b: seq<Byte>, c: seq<Byte>, d: seq<Byte>, e: seq<Byte>)
    ensures |a + (b + (c + (d + e)))| == |a| + |b| + |c| + |d| + |e|
  {
  }

  lemma PrimName(g: Config, s: Sub)
    requires Fine(g, s) && s.PrimArray?
    ensures ElemSig(s.ptype) == Sig(1, s.ptype)
            && ArrayName(s.ptype) == ['[', Sig(1, s.ptype)] && ArrayName(s.ptype) in g.byName
  {
  }

  lemma ObjName(g: Config, s: Sub)
    requires Fine(g, s) && s.ObjArray?
    ensures |s.classId| >= 4 && KeyOf(s.classId) in g.names && g.names[KeyOf(s.classId)] in g.byName
  {
  }

  /** The tables agree at `k`. */
  ghost predicate SameAt<T(!new)>(u: map<int, T>, v: map<int, T>, k: int) {
    (k in u <==> k in v) && (k in u ==> u[k] == v[k])
  }

  ghost predicate StoredAs(g: Config, t: Tables, s: Sub, at: nat, k: int, stores: bool)
    requires Fine(g, s)
  {
    var u := Effect(g, t, s, at).objects;
    if stores then k in u && Describes(g, s, at + Len(g, s), u[k]) else SameAt(u, t.objects, k)
  }

  lemma ClassIdLong(g: Config, s: Sub)
    requires Fine(g, s) && s.Instance?
    ensures |s.classId| >= 4
  {
  }

  lemma BumpGet(m: map<int, nat>, k: int)
    ensures Get(Bump(m, k), k) == Get(m, k) + 1
  {
  }

  lemma InstanceStored(g: Config, t: Tables, s: Sub, at: nat, k: int)
    requires Fine(g, s) && s.Instance?
    ensures StoredAs(g, t, s, at, k, Stores(g, s, k, Get(t.counts, KeyOf(s.classId)) + 1))
  {
    hide Fine, KeyOf, Len, Get, Bump;
    ClassIdLong(g, s);
    BodyLen(g, s);
    BumpGet(t.counts, KeyOf(s.classId));
  }

  lemma ArrayStored(g: Config, t: Tables, s: Sub, at: nat, k: int, n: nat)
    requires Fine(g, s) && (s.ObjArray? || s.PrimArray?)
    ensures StoredAs(g, t, s, at, k, Stores(g, s, k, n))
  {
    hide Fine, KeyOf, Len, Width, ElemSig, Sig, ArrayName;
    BodyLen(g, s);
    if s.PrimArray? { PrimName(g, s); } else { ObjName(g, s); }
  }

  lemma OtherStored(g: Config, t: Tables, s: Sub, at: nat, k: int, n: nat)
    requires Fine(g, s) && (s.Root? || s.ClassDump?)
    ensures StoredAs(g, t, s, at, k, Stores(g, s, k, n))
  {
    hide Fine, KeyOf, Len, ClassOfDump;
  }

  lemma ObjectFirst(g: Config, t: Tables, s: Sub, at: nat, k: int)
    requires Fine(g, s)
    ensures StoredAs(g, t, s, at, k, Stores(g, s, k, if s.Instance? then Get(t.counts, KeyOf(s.classId)) + 1 else 0))
  {
    hide StoredAs, Stores;
    if s.Instance? {
      InstanceStored(g, t, s, at, k);
    } else if s.ObjArray? || s.PrimArray? {
      ArrayStored(g, t, s, at, k, 0);
    } else {
      OtherStored(g, t, s, at, k, 0);
    }
  }

  /** After the first sub-record the others decide as before. */
  lemma StoresNext(g: Config, t: Tables, subs: seq<Sub>, at: nat, i: nat, k: int)
    requires AllFine(g, subs) && 0 < i < |subs|
    ensures Fine(g, subs[0]) && AllFine(g, subs[1..])
    ensures StoresAt(g, Effect(g, t, subs[0], at), subs[1..], i - 1, k) == StoresAt(g, t, subs, i, k)
  {
    hide Fine, Effect, KeyOf, Get, Instances, Stores;
    assert subs[0] in subs && subs[i] in subs;
    if subs[i].Instance? {
      ClassIdLong(g, subs[i]);
      var c := KeyOf(subs[i].classId);
      InstancesFirst(g, subs, c, i + 1);
      CountsFirst(g, t, subs[0], at, c);
    }
  }

  lemma FirstInstance(g: Config, subs: seq<Sub>, c: int)
    requires subs != []
    ensures Instances(g, subs, c, 1) == if InstanceOf(g, subs[0], c) then 1 else 0
  {
    InstancesFirst(g, subs, c, 1);
    InstancesMarks(g, subs[1..], c, 0);
  }

  lemma StoresFirst(g: Config, t: Tables, subs: seq<Sub>, at: nat, k: int)
    requires AllFine(g, subs) && subs != []
    ensures StoredAs(g, t, subs[0], at, k, StoresAt(g, t, subs, 0, k))
  {
    hide Fine, KeyOf, Get, Instances, Stores, StoredAs;
    assert subs[0] in subs;
    ObjectFirst(g, t, subs[0], at, k);
    if subs[0].Instance? {
      ClassIdLong(g, subs[0]);
      var c := KeyOf(subs[0].classId);
      FirstInstance(g, subs, c);
    }
  }

  /** A key that no sub-record stores at keeps its object, or stays free. */
  lemma {:induction false} ObjectKept(g: Config, t: Tables, subs: seq<Sub>, at: nat, k: int)
    requires AllFine(g, subs) && forall i: nat :: i < |subs| ==> !StoresAt(g, t, subs, i, k)
    ensures SameAt(Effects(g, t, subs, at).objects, t.objects, k)
    decreases |subs|
  {
    hide Fine, Effect, Len, StoresAt;
    if subs != [] {
      assert subs[0] in subs;
      var u := Effect(g, t, subs[0], at);
      StoresFirst(g, t, subs, at, k);
      forall i: nat | i < |subs| - 1 ensures !StoresAt(g, u, subs[1..], i, k) {
        StoresNext(g, t, subs, at, i + 1, k);
      }
      ObjectKept(g, u, subs[1..], at + Len(g, subs[0]), k);
    }
  }

  /** The last sub-record that stores at a key determines the object there. */
  lemma {:induction false} ObjectLast(g: Config, t: Tables, subs: seq<Sub>, at: nat, i: nat, k: int)
    requires AllFine(g, subs) && i < |subs| && StoresAt(g, t, subs, i, k)
    requires forall j: nat :: i < j < |subs| ==> !StoresAt(g, t, subs, j, k)
    ensures var u := Effects(g, t, subs, at).objects;
            Fine(g, subs[i]) && k in u && Describes(g, subs[i], PosOf(g, subs, at, i + 1), u[k])
    decreases |subs|
  {
    hide Fine, Effect, Len, StoresAt, Describes;
    assert subs[0] in subs && subs[i] in subs;
    var u := Effect(g, t, subs[0], at);
    var next := at + Len(g, subs[0]);
    assert PosOf(g, subs, at, i + 1) == PosOf(g, subs[1..], next, i);
    if i == 0 {
      StoresFirst(g, t, subs, at, k);
      forall j: nat | j < |subs| - 1 ensures !StoresAt(g, u, subs[1..], j, k) { StoresNext(g, t, subs, at, j + 1, k); }
      ObjectKept(g, u, subs[1..], next, k);
    } else {
      StoresNext(g, t, subs, at, i, k);
      forall j: nat | i - 1 < j < |subs| - 1 ensures !StoresAt(g, u, subs[1..], j, k) {
        StoresNext(g, t, subs, at, j + 1, k);
      }
      ObjectLast(g, u, subs[1..], next, i - 1, k);
    }
  }

  // ---------- roots ----------

  /** The sub-record is a root that goes into the table at the key `k`: unknown roots and thread objects do not. */
  ghost predicate RootOf(g: Config, s: Sub, k: int) {
    Fine(g, s) && s.Root? && s.tag in {1, 2, 3, 4, 5, 6, 7} && KeyOf(s.id) == k
  }

  lemma RootIs(g: Config, s: Sub, k: int)
    requires RootOf(g, s, k)
    ensures s.Root?
  {
    hide Fine, KeyOf;
  }

  lemma RootFirst(g: Config, t: Tables, s: Sub, at: nat, k: int)
    requires Fine(g, s)
    ensures var u := Effect(g, t, s, at).roots;
            if RootOf(g, s, k) then k in u && u[k] == s.tag else SameAt(u, t.roots, k)
  {
    if s.Root? {
      RootEntered(g, t, s, at, k);
    } else {
      NotRoot(g, t, s, at);
      hide Fine, Effect, KeyOf;
    }
  }

  lemma RootEntered(g: Config, t: Tables, s: Sub, at: nat, k: int)
    requires Fine(g, s) && s.Root?
    ensures var u := Effect(g, t, s, at).roots;
            if RootOf(g, s, k) then k in u && u[k] == s.tag else SameAt(u, t.roots, k)
  {
    hide Fine, KeyOf, Bump;
  }

  lemma NotRoot(g: Config, t: Tables, s: Sub, at: nat)
    requires Fine(g, s) && !s.Root?
    ensures Effect(g, t, s, at).roots == t.roots
  {
    hide Fine, KeyOf, ClassOfDump, ArrayName, ElemSig, Width, Bump, Get;
  }

  /** A key that is not a root keeps its entry. */
  lemma {:induction false} RootKept(g: Config, t: Tables, subs: seq<Sub>, at: nat, k: int)
    requires AllFine(g, subs) && forall s :: s in subs ==> !RootOf(g, s, k)
    ensures SameAt(Effects(g, t, subs, at).roots, t.roots, k)
    decreases |subs|
  {
    hide Fine, Effect, Len, RootOf;
    if subs != [] {
      assert subs[0] in subs;
      RootFirst(g, t, subs[0], at, k);
      RootKept(g, Effect(g, t, subs[0], at), subs[1..], at + Len(g, subs[0]), k);
    }
  }

  /** The last root at a key gives it its kind. */
  lemma {:induction false} RootLast(g: Config, t: Tables, subs: seq<Sub>, at: nat, i: nat, k: int)
    requires AllFine(g, subs) && i < |subs| && RootOf(g, subs[i], k)
    requires forall s :: s in subs[i + 1..] ==> !RootOf(g, s, k)
    ensures var u := Effects(g, t, subs, at).roots;
            RootOf(g, subs[i], k) && k in u && u[k] == subs[i].tag
    decreases |subs|
  {
    hide Fine, Effect, Len, RootOf;
    assert subs[0] in subs;
    RootIs(g, subs[i], k);
    var u := Effect(g, t, subs[0], at);
    if i == 0 {
      RootFirst(g, t, subs[0], at, k);
      RootKept(g, u, subs[1..], at + Len(g, subs[0]), k);
    } else {
      assert subs[1..][i..] == subs[i + 1..];
      RootLast(g, u, subs[1..], at + Len(g, subs[0]), i - 1, k);
    }
  }

  // ---------- classes ----------

  ghost predicate DumpOf(g: Config, s: Sub, k: int) {
    Fine(g, s) && s.ClassDump? && KeyOf(s.id) == k
  }

  lemma DumpIs(g: Config, s: Sub, k: int)
    requires DumpOf(g, s, k)
    ensures Fine(g, s) && s.ClassDump?
  {
    hide Fine, KeyOf;
  }

  /** What is kept of a class: its superclass, how many statics it has, and its fields in order, each by the key of its
      name and its type. */
  ghost predicate Dumped(g: Config, s: Sub, r: ClassRec)
    requires Fine(g, s) && s.ClassDump?
  {
    && |s.superId| >= 4 && r.superKey == KeyOf(s.superId) && r.statics == |s.statics| && |r.fields| == |s.fields|
    && forall j :: 0 <= j < |s.fields| ==>
         |s.fields[j].id| >= 4 && r.fields[j] == (KeyOf(s.fields[j].id), Sig(g.version, s.fields[j].ptype))
  }

  lemma {:induction false} FieldsAt(version: nat, fs: seq<Field>)
    requires forall f :: f in fs ==> |f.id| >= 4
    ensures |FieldsOf(version, fs)| == |fs|
    ensures forall j :: 0 <= j < |fs| ==> |fs[j].id| >= 4
                                          && FieldsOf(version, fs)[j] == (KeyOf(fs[j].id), Sig(version, fs[j].ptype))
  {
    hide KeyOf, Sig;
    if fs != [] {
      FieldsAt(version, fs[1..]);
      assert fs[0] in fs;
      forall j | 0 <= j < |fs|
        ensures |fs[j].id| >= 4 && FieldsOf(version, fs)[j] == (KeyOf(fs[j].id), Sig(version, fs[j].ptype))
      {
        if j > 0 { assert fs[1..][j - 1] == fs[j]; }
      }
    }
  }

  lemma LongIds(g: Config, s: Sub)
    requires Fine(g, s) && s.ClassDump?
    ensures |s.superId| >= 4 && forall f :: f in s.fields ==> |f.id| >= 4
  {
    hide GoodConst, GoodStatic, Loaded;
    assert forall f :: f in s.fields ==> GoodField(f, g.identsz);
  }

  lemma DumpRecords(g: Config, s: Sub)
    requires Fine(g, s) && s.ClassDump?
    ensures Dumped(g, s, ClassOfDump(g, s))
  {
    hide Fine, KeyOf, Sig, FieldsOf;
    LongIds(g, s);
    FieldsAt(g.version, s.fields);
  }

  lemma ClassFirst(g: Config, t: Tables, s: Sub, at: nat, k: int)
    requires Fine(g, s)
    ensures var u := Effect(g, t, s, at).classes;
            if DumpOf(g, s, k) then k in u && Dumped(g, s, u[k]) else SameAt(u, t.classes, k)
  {
    hide Fine, KeyOf, ClassOfDump, ArrayName, ElemSig, Width, Dumped;
    if s.ClassDump? { DumpRecords(g, s); }
  }

  /** A class that is not dumped keeps what is known of it. */
  lemma {:induction false} ClassKept(g: Config, t: Tables, subs: seq<Sub>, at: nat, k: int)
    requires AllFine(g, subs) && forall s :: s in subs ==> !DumpOf(g, s, k)
    ensures SameAt(Effects(g, t, subs, at).classes, t.classes, k)
    decreases |subs|
  {
    hide Fine, Effect, Len, DumpOf;
    if subs != [] {
      assert subs[0] in subs;
      ClassFirst(g, t, subs[0], at, k);
      ClassKept(g, Effect(g, t, subs[0], at), subs[1..], at + Len(g, subs[0]), k);
    }
  }

  /** The last dump of a class determines what is kept of it. */
  lemma {:induction false} ClassLast(g: Config, t: Tables, subs: seq<Sub>, at: nat, i: nat, k: int)
    requires AllFine(g, subs) && i < |subs| && DumpOf(g, subs[i], k)
    requires forall s :: s in subs[i + 1..] ==> !DumpOf(g, s, k)
    ensures var u := Effects(g, t, subs, at).classes;
            DumpOf(g, subs[i], k) && k in u && Dumped(g, subs[i], u[k])
    decreases |subs|
  {
    hide Fine, Effect, Len, DumpOf, Dumped;
    assert subs[0] in subs;
    DumpIs(g, subs[i], k);
    var u := Effect(g, t, subs[0], at);
    if i == 0 {
      ClassFirst(g, t, subs[0], at, k);
      ClassKept(g, u, subs[1..], at + Len(g, subs[0]), k);
    } else {
      assert subs[1..][i..] == subs[i + 1..];
      ClassLast(g, u, subs[1..], at + Len(g, subs[0]), i - 1, k);
    }
  }
}
