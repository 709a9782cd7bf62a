/** `MarshalROOT` and `UnmarshalROOT` of the ten record types, step by step over the
    buffers. Every marshal method appends exactly the encoding of its record (or nothing,
    when the buffer already holds an error); every unmarshal method does to the receiver
    and to the read buffer exactly what the decoder function of the same record does. */
module Ocdb {
  import opened Wire
  import opened Records
  import opened Registry
  import opened Codec
  import opened Buffers

  // ================================================================ marshalling

  /** The embedded base object. */
  method MarshalObject(w: WBuffer, b: Object)
    modifies w
    ensures w.err == old(w.err)
    ensures w.data == if w.err.Some? then old(w.data) else old(w.data) + ObjectBytes(b)
  {
    w.WriteU32(b.uid);
    w.WriteU32(b.bits);
  }

  method MarshalPath(w: WBuffer, p: Path) returns (n: int, e: Option<Error>)
    modifies w
    ensures w.err == old(w.err) && e == w.err
    ensures w.err.Some? ==> w.data == old(w.data) && n == 0
    ensures w.err.None? ==> w.data == old(w.data) + PathBytes(p) && n == |PathBytes(p)|
  {
    if w.err.Some? {
      return 0, w.err;
    }
    ghost var pre := w.data;
    var pos := w.WriteVersion(RVersion(PathKind));
    ghost var h := w.data;
    MarshalObject(w, p.base);
    w.WriteString(p.path);
    w.WriteString(p.lvl0);
    w.WriteString(p.lvl1);
    w.WriteString(p.lvl2);
    w.WriteBool(p.valid);
    w.WriteBool(p.wildcard);
    ghost var payload := ObjectBytes(p.base) + Str(p.path) + Str(p.lvl0) + Str(p.lvl1) + Str(p.lvl2)
                         + BoolByte(p.valid) + BoolByte(p.wildcard);
    assert w.data == h + payload by {
      Appended7(h, ObjectBytes(p.base), Str(p.path), Str(p.lvl0), Str(p.lvl1), Str(p.lvl2), BoolByte(p.valid), BoolByte(p.wildcard));
    }
    n, e := w.SetByteCount(pos, Class(PathKind), pre, RVersion(PathKind), payload);
  }

  method MarshalRunRange(w: WBuffer, rr: RunRange) returns (n: int, e: Option<Error>)
    modifies w
    ensures w.err == old(w.err) && e == w.err
    ensures w.err.Some? ==> w.data == old(w.data) && n == 0
    ensures w.err.None? ==> w.data == old(w.data) + RunRangeBytes(rr) && n == |RunRangeBytes(rr)|
  {
    if w.err.Some? {
      return 0, w.err;
    }
    ghost var pre := w.data;
    var pos := w.WriteVersion(RVersion(RunRangeKind));
    ghost var h := w.data;
    MarshalObject(w, rr.base);
    w.WriteI32(rr.first);
    w.WriteI32(rr.last);
    ghost var payload := ObjectBytes(rr.base) + BE32(rr.first as int) + BE32(rr.last as int);
    assert w.data == h + payload by {
      Appended3(h, ObjectBytes(rr.base), BE32(rr.first as int), BE32(rr.last as int));
    }
    n, e := w.SetByteCount(pos, Class(RunRangeKind), pre, RVersion(RunRangeKind), payload);
  }

  method MarshalID(w: WBuffer, id: ID) returns (n: int, e: Option<Error>)
    modifies w
    ensures w.err == old(w.err) && e == w.err
    ensures w.err.Some? ==> w.data == old(w.data) && n == 0
    ensures w.err.None? ==> w.data == old(w.data) + IDBytes(id) && n == |IDBytes(id)|
  {
    if w.err.Some? {
      return 0, w.err;
    }
    ghost var pre := w.data;
    var pos := w.WriteVersion(RVersion(IDKind));
    ghost var h := w.data;
    MarshalObject(w, id.base);
    var _, _ := MarshalPath(w, id.path);
    var _, _ := MarshalRunRange(w, id.runs);
    w.WriteI32(id.vers);
    w.WriteI32(id.subvers);
    w.WriteString(id.last);
    ghost var payload := ObjectBytes(id.base) + PathBytes(id.path) + RunRangeBytes(id.runs)
                         + BE32(id.vers as int) + BE32(id.subvers as int) + Str(id.last);
    assert w.data == h + payload by {
      Appended6(h, ObjectBytes(id.base), PathBytes(id.path), RunRangeBytes(id.runs), BE32(id.vers as int), BE32(id.subvers as int), Str(id.last));
    }
    n, e := w.SetByteCount(pos, Class(IDKind), pre, RVersion(IDKind), payload);
  }

  method MarshalVStore(w: WBuffer, s: AliMUONVStore) returns (n: int, e: Option<Error>)
    modifies w
    ensures w.err == old(w.err) && e == w.err
    ensures w.err.Some? ==> w.data == old(w.data) && n == 0
    ensures w.err.None? ==> w.data == old(w.data) + VStoreBytes(s) && n == |VStoreBytes(s)|
  {
    if w.err.Some? {
      return 0, w.err;
    }
    ghost var pre := w.data;
    var pos := w.WriteVersion(RVersion(MUONVStoreKind));
    ghost var h := w.data;
    MarshalObject(w, s.base);
    n, e := w.SetByteCount(pos, Class(MUONVStoreKind), pre, RVersion(MUONVStoreKind), ObjectBytes(s.base));
  }

  method MarshalVCalibParam(w: WBuffer, p: AliMUONVCalibParam) returns (n: int, e: Option<Error>)
    modifies w
    ensures w.err == old(w.err) && e == w.err
    ensures w.err.Some? ==> w.data == old(w.data) && n == 0
    ensures w.err.None? ==> w.data == old(w.data) + VCalibParamBytes(p) && n == |VCalibParamBytes(p)|
  {
    if w.err.Some? {
      return 0, w.err;
    }
    ghost var pre := w.data;
    var pos := w.WriteVersion(RVersion(MUONVCalibParamKind));
    ghost var h := w.data;
    MarshalObject(w, p.base);
    n, e := w.SetByteCount(pos, Class(MUONVCalibParamKind), pre, RVersion(MUONVCalibParamKind), ObjectBytes(p.base));
  }

  method MarshalCalibParamND(w: WBuffer, p: AliMUONCalibParamND) returns (n: int, e: Option<Error>)
    modifies w
    ensures w.err == old(w.err) && e == w.err
    ensures w.err.Some? ==> w.data == old(w.data) && n == 0
    ensures w.err.None? ==> w.data == old(w.data) + CalibParamNDBytes(p) && n == |CalibParamNDBytes(p)|
  {
    if w.err.Some? {
      return 0, w.err;
    }
    ghost var pre := w.data;
    var pos := w.WriteVersion(RVersion(MUONCalibParamNDKind));
    ghost var h := w.data;
    var _, _ := MarshalVCalibParam(w, p.base);
    w.WriteI32(p.dim);
    w.WriteI32(p.size);
    w.WriteI32(p.n);
    w.WriteI8(1);
    w.WriteFastArrayU64(p.vs);
    ghost var payload := VCalibParamBytes(p.base) + BE32(p.dim as int) + BE32(p.size as int)
                         + BE32(p.n as int) + I8Byte(1) + FastU64(p.vs);
    assert w.data == h + payload by {
      Appended6(h, VCalibParamBytes(p.base), BE32(p.dim as int), BE32(p.size as int), BE32(p.n as int), I8Byte(1), FastU64(p.vs));
    }
    n, e := w.SetByteCount(pos, Class(MUONCalibParamNDKind), pre, RVersion(MUONCalibParamNDKind), payload);
  }

  /** `WriteObjectAny`: the class name, then the object; an empty name for nil. */
  method WriteObjectAny(w: WBuffer, x: Option<Obj>)
    modifies w
    ensures w.err == old(w.err)
    ensures w.data == if w.err.Some? then old(w.data) else old(w.data) + AnyBytes(x)
    decreases x
  {
    match x
    case None =>
      w.WriteU32(0);
    case Some(o) =>
      w.WriteString(Latin1(Class(KindOf(o))));
      var _, _ := MarshalObj(w, o);
      Appended2(old(w.data), Str(Latin1(Class(KindOf(o)))), ObjBytes(o));
  }

  /** The `MarshalROOT` of the dynamic class of `o`. */
  method MarshalObj(w: WBuffer, o: Obj) returns (n: int, e: Option<Error>)
    modifies w
    ensures w.err == old(w.err) && e == w.err
    ensures w.err.Some? ==> w.data == old(w.data) && n == 0
    ensures w.err.None? ==> w.data == old(w.data) + ObjBytes(o) && n == |ObjBytes(o)|
    decreases o
  {
    match o
    case OEntry(x) => n, e := MarshalEntry(w, x);
    case OID(x) => n, e := MarshalID(w, x);
    case OPath(x) => n, e := MarshalPath(w, x);
    case ORunRange(x) => n, e := MarshalRunRange(w, x);
    case OMetaData(x) => n, e := MarshalMetaData(w, x);
    case O2DMap(x) => n, e := MarshalMUON2DMap(w, x);
    case OVStore(x) => n, e := MarshalVStore(w, x);
    case OExMap(x) => n, e := MarshalExMap(w, x);
    case OCalibParamND(x) => n, e := MarshalCalibParamND(w, x);
    case OVCalibParam(x) => n, e := MarshalVCalibParam(w, x);
  }

  method MarshalEntry(w: WBuffer, en: Entry) returns (n: int, e: Option<Error>)
    modifies w
    ensures w.err == old(w.err) && e == w.err
    ensures w.err.Some? ==> w.data == old(w.data) && n == 0
    ensures w.err.None? ==> w.data == old(w.data) + EntryBytes(en) && n == |EntryBytes(en)|
    decreases en
  {
    if w.err.Some? {
      return 0, w.err;
    }
    ghost var pre := w.data;
    var pos := w.WriteVersion(RVersion(EntryKind));
    ghost var h := w.data;
    MarshalObject(w, en.base);
    WriteObjectAny(w, en.obj);
    var _, _ := MarshalID(w, en.id);
    WriteMetaSlot(w, en.meta);
    w.WriteBool(en.owner);
    ghost var payload := ObjectBytes(en.base) + AnyBytes(en.obj) + IDBytes(en.id) + MetaSlotBytes(en.meta)
                         + BoolByte(en.owner);
    assert w.data == h + payload by {
      Appended5(h, ObjectBytes(en.base), AnyBytes(en.obj), IDBytes(en.id), MetaSlotBytes(en.meta), BoolByte(en.owner));
    }
    n, e := w.SetByteCount(pos, Class(EntryKind), pre, RVersion(EntryKind), payload);
  }

  /** `WriteObjectAny` on the `*MetaData` slot. */
  method WriteMetaSlot(w: WBuffer, m: Option<MetaData>)
    modifies w
    ensures w.err == old(w.err)
    ensures w.data == if w.err.Some? then old(w.data) else old(w.data) + MetaSlotBytes(m)
    decreases m
  {
    match m
    case None =>
      w.WriteU32(0);
    case Some(md) =>
      w.WriteString(Latin1(Class(MetaDataKind)));
      var _, _ := MarshalMetaData(w, md);
      Appended2(old(w.data), Str(Latin1(Class(MetaDataKind))), MetaDataBytes(md));
  }

  method MarshalMetaData(w: WBuffer, m: MetaData) returns (n: int, e: Option<Error>)
    modifies w
    ensures w.err == old(w.err) && e == w.err
    ensures w.err.Some? ==> w.data == old(w.data) && n == 0
    ensures w.err.None? ==> w.data == old(w.data) + MetaDataBytes(m) && n == |MetaDataBytes(m)|
    decreases m
  {
    if w.err.Some? {
      return 0, w.err;
    }
    ghost var pre := w.data;
    var pos := w.WriteVersion(RVersion(MetaDataKind));
    ghost var h := w.data;
    MarshalObject(w, m.base);
    w.WriteString(m.cls);
    w.WriteString(m.resp);
    w.WriteU32(m.beam);
    w.WriteString(m.vers);
    w.WriteString(m.comment);
    MarshalMap(w, m.props);
    ghost var payload := ObjectBytes(m.base) + Str(m.cls) + Str(m.resp) + BE32(m.beam as int)
                         + Str(m.vers) + Str(m.comment) + MapBytes(m.props);
    assert w.data == h + payload by {
      Appended7(h, ObjectBytes(m.base), Str(m.cls), Str(m.resp), BE32(m.beam as int), Str(m.vers), Str(m.comment), MapBytes(m.props));
    }
    n, e := w.SetByteCount(pos, Class(MetaDataKind), pre, RVersion(MetaDataKind), payload);
  }

  /** `rcont.Map`: the count, then key and value of each entry. */
  method MarshalMap(w: WBuffer, ps: seq<Pair>)
    modifies w
    ensures w.err == old(w.err)
    ensures w.data == if w.err.Some? then old(w.data) else old(w.data) + MapBytes(ps)
    decreases ps
  {
    if w.err.Some? {
      return;
    }
    w.WriteCount(|ps|);
    var i := 0;
    while i < |ps|
      invariant 0 <= i <= |ps|
      invariant w.err == old(w.err) && w.err.None?
      invariant w.data == old(w.data) + BE32(|ps|) + PairsBytes(ps[..i])
    {
      WritePair(w, ps[i]);
      assert w.data == old(w.data) + BE32(|ps|) + PairsBytes(ps[..i + 1]) by {
        assert ps[..i + 1][..i] == ps[..i];
        Appended2(old(w.data) + BE32(|ps|), PairsBytes(ps[..i]), PairBytes(ps[i]));
      }
      i := i + 1;
    }
    assert w.data == old(w.data) + MapBytes(ps) by {
      assert ps[..i] == ps;
      Appended2(old(w.data), BE32(|ps|), PairsBytes(ps));
    }
  }

  method WritePair(w: WBuffer, p: Pair)
    modifies w
    ensures w.err == old(w.err)
    ensures w.data == if w.err.Some? then old(w.data) else old(w.data) + PairBytes(p)
    decreases p
  {
    WriteObjectAny(w, p.key);
    WriteObjectAny(w, p.val);
    Appended2(old(w.data), AnyBytes(p.key), AnyBytes(p.val));
  }

  method MarshalMUON2DMap(w: WBuffer, m: AliMUON2DMap) returns (n: int, e: Option<Error>)
    modifies w
    ensures w.err == old(w.err) && e == w.err
    ensures w.err.Some? ==> w.data == old(w.data) && n == 0
    ensures w.err.None? ==> w.data == old(w.data) + MUON2DMapBytes(m) && n == |MUON2DMapBytes(m)|
    decreases m
  {
    if w.err.Some? {
      return 0, w.err;
    }
    ghost var pre := w.data;
    var pos := w.WriteVersion(RVersion(MUON2DMapKind));
    ghost var h := w.data;
    var _, _ := MarshalVStore(w, m.base);
    WriteExMapSlot(w, m.exmap);
    w.WriteBool(m.opt);
    ghost var payload := VStoreBytes(m.base) + ExMapSlotBytes(m.exmap) + BoolByte(m.opt);
    assert w.data == h + payload by {
      Appended3(h, VStoreBytes(m.base), ExMapSlotBytes(m.exmap), BoolByte(m.opt));
    }
    n, e := w.SetByteCount(pos, Class(MUON2DMapKind), pre, RVersion(MUON2DMapKind), payload);
  }

  /** `WriteObjectAny` on the `*AliMpExMap` slot. */
  method WriteExMapSlot(w: WBuffer, x: Option<AliMpExMap>)
    modifies w
    ensures w.err == old(w.err)
    ensures w.data == if w.err.Some? then old(w.data) else old(w.data) + ExMapSlotBytes(x)
    decreases x
  {
    match x
    case None =>
      w.WriteU32(0);
    case Some(em) =>
      w.WriteString(Latin1(Class(MpExMapKind)));
      var _, _ := MarshalExMap(w, em);
      Appended2(old(w.data), Str(Latin1(Class(MpExMapKind))), ExMapBytes(em));
  }

  method MarshalExMap(w: WBuffer, x: AliMpExMap) returns (n: int, e: Option<Error>)
    modifies w
    ensures w.err == old(w.err) && e == w.err
    ensures w.err.Some? ==> w.data == old(w.data) && n == 0
    ensures w.err.None? ==> w.data == old(w.data) + ExMapBytes(x) && n == |ExMapBytes(x)|
    decreases x
  {
    if w.err.Some? {
      return 0, w.err;
    }
    ghost var pre := w.data;
    var pos := w.WriteVersion(RVersion(MpExMapKind));
    ghost var h := w.data;
    MarshalObject(w, x.base);
    MarshalObjArray(w, x.objs);
    MarshalArrayL64(w, x.keys);
    ghost var payload := ObjectBytes(x.base) + ObjArrayBytes(x.objs) + KeysBytes(x.keys);
    assert w.data == h + payload by {
      Appended3(h, ObjectBytes(x.base), ObjArrayBytes(x.objs), KeysBytes(x.keys));
    }
    n, e := w.SetByteCount(pos, Class(MpExMapKind), pre, RVersion(MpExMapKind), payload);
  }

  /** `rcont.ObjArray`: the count, then each element as a polymorphic slot. */
  method MarshalObjArray(w: WBuffer, s: seq<Option<Obj>>)
    modifies w
    ensures w.err == old(w.err)
    ensures w.data == if w.err.Some? then old(w.data) else old(w.data) + ObjArrayBytes(s)
    decreases s
  {
    if w.err.Some? {
      return;
    }
    w.WriteCount(|s|);
    var i := 0;
    while i < |s|
      invariant 0 <= i <= |s|
      invariant w.err == old(w.err) && w.err.None?
      invariant w.data == old(w.data) + BE32(|s|) + ObjsBytes(s[..i])
    {
      WriteObjectAny(w, s[i]);
      assert w.data == old(w.data) + BE32(|s|) + ObjsBytes(s[..i + 1]) by {
        assert s[..i + 1][..i] == s[..i];
        Appended2(old(w.data) + BE32(|s|), ObjsBytes(s[..i]), AnyBytes(s[i]));
      }
      i := i + 1;
    }
    assert w.data == old(w.data) + ObjArrayBytes(s) by {
      assert s[..i] == s;
      Appended2(old(w.data), BE32(|s|), ObjsBytes(s));
    }
  }

  /** `rcont.ArrayL64`: the count, then the values. */
  method MarshalArrayL64(w: WBuffer, ks: seq<i64>)
    modifies w
    ensures w.err == old(w.err)
    ensures w.data == if w.err.Some? then old(w.data) else old(w.data) + KeysBytes(ks)
  {
    w.WriteCount(|ks|);
    w.WriteFastArrayU64(AsWords(ks));
  }

  // ================================================================ unmarshalling

  method UnmarshalObject(r: RBuffer, o: Object) returns (o2: Object, e: Option<Error>)
    requires r.Valid()
    modifies r
    ensures r.Valid() && (o2, r.Cur()) == DecObject(r.data, old(r.Cur()), o) && e == r.err
  {
    if r.err.Some? {
      return o, r.err;
    }
    var uid := r.ReadU32();
    var bits := r.ReadU32();
    o2 := Object(uid, bits);
    e := r.err;
  }

  method UnmarshalPath(r: RBuffer, o: Path) returns (o2: Path, e: Option<Error>)
    requires r.Valid()
    modifies r
    ensures r.Valid() && (o2, r.Cur()) == DecPath(r.data, old(r.Cur()), o) && e == r.err
  {
    if r.err.Some? {
      return o, r.err;
    }
    var start := r.pos;
    var _, pos, bcnt := r.ReadVersion();
    o2 := o;
    var base, err := UnmarshalObject(r, o2.base);
    o2 := o2.(base := base);
    if err.Some? {
      return o2, err;
    }
    var path := r.ReadString();
    var lvl0 := r.ReadString();
    var lvl1 := r.ReadString();
    var lvl2 := r.ReadString();
    var valid := r.ReadBool();
    var wildcard := r.ReadBool();
    o2 := o2.(path := path, lvl0 := lvl0, lvl1 := lvl1, lvl2 := lvl2, valid := valid, wildcard := wildcard);
    r.CheckByteCount(pos, bcnt, start, Class(PathKind));
    e := r.err;
  }

  method UnmarshalRunRange(r: RBuffer, o: RunRange) returns (o2: RunRange, e: Option<Error>)
    requires r.Valid()
    modifies r
    ensures r.Valid() && (o2, r.Cur()) == DecRunRange(r.data, old(r.Cur()), o) && e == r.err
  {
    if r.err.Some? {
      return o, r.err;
    }
    var start := r.pos;
    var _, pos, bcnt := r.ReadVersion();
    o2 := o;
    var base, err := UnmarshalObject(r, o2.base);
    o2 := o2.(base := base);
    if err.Some? {
      return o2, err;
    }
    var first := r.ReadI32();
    var last := r.ReadI32();
    o2 := o2.(first := first, last := last);
    r.CheckByteCount(pos, bcnt, start, Class(RunRangeKind));
    e := r.err;
  }

  method UnmarshalID(r: RBuffer, o: ID) returns (o2: ID, e: Option<Error>)
    requires r.Valid()
    modifies r
    ensures r.Valid() && (o2, r.Cur()) == DecID(r.data, old(r.Cur()), o) && e == r.err
  {
    if r.err.Some? {
      return o, r.err;
    }
    var start := r.pos;
    var _, pos, bcnt := r.ReadVersion();
    o2 := o;
    var base, err := UnmarshalObject(r, o2.base);
    o2 := o2.(base := base);
    if err.Some? {
      return o2, err;
    }
    var path, err2 := UnmarshalPath(r, o2.path);
    o2 := o2.(path := path);
    if err2.Some? {
      return o2, err2;
    }
    var runs, err3 := UnmarshalRunRange(r, o2.runs);
    o2 := o2.(runs := runs);
    if err3.Some? {
      return o2, err3;
    }
    var vers := r.ReadI32();
    var subvers := r.ReadI32();
    var last := r.ReadString();
    o2 := o2.(vers := vers, subvers := subvers, last := last);
    r.CheckByteCount(pos, bcnt, start, Class(IDKind));
    e := r.err;
  }

  method UnmarshalVStore(r: RBuffer, o: AliMUONVStore) returns (o2: AliMUONVStore, e: Option<Error>)
    requires r.Valid()
    modifies r
    ensures r.Valid() && (o2, r.Cur()) == DecVStore(r.data, old(r.Cur()), o) && e == r.err
  {
    if r.err.Some? {
      return o, r.err;
    }
    var start := r.pos;
    var _, pos, bcnt := r.ReadVersion();
    o2 := o;
    var base, err := UnmarshalObject(r, o2.base);
    o2 := o2.(base := base);
    if err.Some? {
      return o2, err;
    }
    r.CheckByteCount(pos, bcnt, start, Class(MUONVStoreKind));
    e := r.err;
  }

  method UnmarshalVCalibParam(r: RBuffer, o: AliMUONVCalibParam) returns (o2: AliMUONVCalibParam, e: Option<Error>)
    requires r.Valid()
    modifies r
    ensures r.Valid() && (o2, r.Cur()) == DecVCalibParam(r.data, old(r.Cur()), o) && e == r.err
  {
    if r.err.Some? {
      return o, r.err;
    }
    var start := r.pos;
    var _, pos, bcnt := r.ReadVersion();
    o2 := o;
    var base, err := UnmarshalObject(r, o2.base);
    o2 := o2.(base := base);
    if err.Some? {
      return o2, err;
    }
    r.CheckByteCount(pos, bcnt, start, Class(MUONVCalibParamKind));
    e := r.err;
  }

  method UnmarshalCalibParamND(r: RBuffer, o: AliMUONCalibParamND) returns (o2: AliMUONCalibParamND, e: Option<Error>)
    requires r.Valid()
    modifies r
    ensures r.Valid() && (o2, r.Cur()) == DecCalibParamND(r.data, old(r.Cur()), o) && e == r.err
  {
    if r.err.Some? {
      return o, r.err;
    }
    var start := r.pos;
    var _, pos, bcnt := r.ReadVersion();
    o2 := o;
    var base, err := UnmarshalVCalibParam(r, o2.base);
    o2 := o2.(base := base);
    if err.Some? {
      return o2, err;
    }
    var dim := r.ReadI32();
    var size := r.ReadI32();
    var n := r.ReadI32();
    var _ := r.ReadI8();
    var vs := r.ReadFastArrayU64(n as int);
    o2 := o2.(dim := dim, size := size, n := n, vs := vs);
    r.CheckByteCount(pos, bcnt, start, Class(MUONCalibParamNDKind));
    e := r.err;
  }

  /** `ReadObjectAny`: the class name, nil for an empty one; otherwise a blank instance from
      the registry decodes itself, and nil is returned when that fails. */
  method ReadObjectAny(r: RBuffer, t: FactoryTable) returns (x: Option<Obj>)
    requires r.Valid() && t.table == Table()
    modifies r
    ensures r.Valid() && (x, r.Cur()) == DecAny(r.data, old(r.Cur()))
    decreases |r.data| - r.pos, 0, 0
  {
    if r.err.Some? {
      return None;
    }
    var name := r.ReadString();
    if r.err.Some? || name == [] {
      return None;
    }
    var cls := FromLatin1(name);
    var blank := Resolve(t, cls);
    if blank.None? {
      r.Fail(UnknownClass(cls));
      return None;
    }
    var obj, err := UnmarshalObj(r, t, blank.value);
    x := if err.Some? then None else Some(obj);
  }

  /** The `UnmarshalROOT` of the dynamic class of `o`. */
  method UnmarshalObj(r: RBuffer, t: FactoryTable, o: Obj) returns (o2: Obj, e: Option<Error>)
    requires r.Valid() && t.table == Table()
    modifies r
    ensures r.Valid() && (o2, r.Cur()) == DecObj(r.data, old(r.Cur()), o) && e == r.err
    decreases |r.data| - r.pos, 4, 0
  {
    match o
    case OEntry(x) => var y, err := UnmarshalEntry(r, t, x); o2, e := OEntry(y), err;
    case OID(x) => var y, err := UnmarshalID(r, x); o2, e := OID(y), err;
    case OPath(x) => var y, err := UnmarshalPath(r, x); o2, e := OPath(y), err;
    case ORunRange(x) => var y, err := UnmarshalRunRange(r, x); o2, e := ORunRange(y), err;
    case OMetaData(x) => var y, err := UnmarshalMetaData(r, t, x); o2, e := OMetaData(y), err;
    case O2DMap(x) => var y, err := UnmarshalMUON2DMap(r, t, x); o2, e := O2DMap(y), err;
    case OVStore(x) => var y, err := UnmarshalVStore(r, x); o2, e := OVStore(y), err;
    case OExMap(x) => var y, err := UnmarshalExMap(r, t, x); o2, e := OExMap(y), err;
    case OCalibParamND(x) => var y, err := UnmarshalCalibParamND(r, x); o2, e := OCalibParamND(y), err;
    case OVCalibParam(x) => var y, err := UnmarshalVCalibParam(r, x); o2, e := OVCalibParam(y), err;
  }

  method UnmarshalEntry(r: RBuffer, t: FactoryTable, o: Entry) returns (o2: Entry, e: Option<Error>)
    requires r.Valid() && t.table == Table()
    modifies r
    ensures r.Valid() && (o2, r.Cur()) == DecEntry(r.data, old(r.Cur()), o) && e == r.err
    decreases |r.data| - r.pos, 3, 0
  {
    if r.err.Some? {
      return o, r.err;
    }
    var start := r.pos;
    var _, pos, bcnt := r.ReadVersion();
    o2 := o;
    var base, err := UnmarshalObject(r, o2.base);
    o2 := o2.(base := base);
    if err.Some? {
      return o2, err;
    }
    var obj := ReadObjectAny(r, t);
    o2 := o2.(obj := obj);
    var id, err2 := UnmarshalID(r, o2.id);
    o2 := o2.(id := id);
    if err2.Some? {
      return o2, err2;
    }
    var meta := ReadMetaSlot(r, t);
    var owner := r.ReadBool();
    o2 := o2.(meta := meta, owner := owner);
    r.CheckByteCount(pos, bcnt, start, Class(EntryKind));
    e := r.err;
  }

  /** The `*MetaData` slot: nil first, then the object read, which must be a MetaData. */
  method ReadMetaSlot(r: RBuffer, t: FactoryTable) returns (m: Option<MetaData>)
    requires r.Valid() && t.table == Table()
    modifies r
    ensures r.Valid() && (m, r.Cur()) == DecMetaSlot(r.data, old(r.Cur()))
    decreases |r.data| - r.pos, 1, 0
  {
    m := None;
    var obj := ReadObjectAny(r, t);
    if obj.Some? {
      if obj.value.OMetaData? {
        m := Some(obj.value.meta);
      } else {
        r.Fail(WrongType(Class(MetaDataKind), Class(KindOf(obj.value))));
      }
    }
  }

  method UnmarshalMetaData(r: RBuffer, t: FactoryTable, o: MetaData) returns (o2: MetaData, e: Option<Error>)
    requires r.Valid() && t.table == Table()
    modifies r
    ensures r.Valid() && (o2, r.Cur()) == DecMetaData(r.data, old(r.Cur()), o) && e == r.err
    decreases |r.data| - r.pos, 3, 0
  {
    if r.err.Some? {
      return o, r.err;
    }
    var start := r.pos;
    var _, pos, bcnt := r.ReadVersion();
    o2 := o;
    var base, err := UnmarshalObject(r, o2.base);
    o2 := o2.(base := base);
    if err.Some? {
      return o2, err;
    }
    var cls := r.ReadString();
    var resp := r.ReadString();
    var beam := r.ReadU32();
    var vers := r.ReadString();
    var comment := r.ReadString();
    var props, err2 := UnmarshalMap(r, t);
    o2 := o2.(cls := cls, resp := resp, beam := beam, vers := vers, comment := comment, props := props);
    if err2.Some? {
      return o2, err2;
    }
    r.CheckByteCount(pos, bcnt, start, Class(MetaDataKind));
    e := r.err;
  }

  /** `rcont.Map`: the count, then key and value of each entry, in order. */
  method UnmarshalMap(r: RBuffer, t: FactoryTable) returns (ps: seq<Pair>, e: Option<Error>)
    requires r.Valid() && t.table == Table()
    modifies r
    ensures r.Valid() && (ps, r.Cur()) == DecMap(r.data, old(r.Cur())) && e == r.err
    decreases |r.data| - r.pos, 2, 0
  {
    var n := r.ReadCount();
    ghost var c1 := r.Cur();
    ps := [];
    var i := 0;
    while i < n
      invariant 0 <= i <= n && r.Valid()
      invariant old(r.pos) <= c1.pos
      invariant (ps, r.Cur()) == DecPairs(r.data, c1, i)
    {
      var key := ReadObjectAny(r, t);
      var val := ReadObjectAny(r, t);
      ps := ps + [Pair(key, val)];
      i := i + 1;
    }
    e := r.err;
  }

  method UnmarshalMUON2DMap(r: RBuffer, t: FactoryTable, o: AliMUON2DMap) returns (o2: AliMUON2DMap, e: Option<Error>)
    requires r.Valid() && t.table == Table()
    modifies r
    ensures r.Valid() && (o2, r.Cur()) == DecMUON2DMap(r.data, old(r.Cur()), o) && e == r.err
    decreases |r.data| - r.pos, 3, 0
  {
    if r.err.Some? {
      return o, r.err;
    }
    var start := r.pos;
    var _, pos, bcnt := r.ReadVersion();
    o2 := o;
    var base, err := UnmarshalVStore(r, o2.base);
    o2 := o2.(base := base);
    if err.Some? {
      return o2, err;
    }
    var exmap := ReadExMapSlot(r, t);
    var opt := r.ReadBool();
    o2 := o2.(exmap := exmap, opt := opt);
    r.CheckByteCount(pos, bcnt, start, Class(MUON2DMapKind));
    e := r.err;
  }

  /** The `*AliMpExMap` slot: nil first, then the object read, which must be an AliMpExMap. */
  method ReadExMapSlot(r: RBuffer, t: FactoryTable) returns (x: Option<AliMpExMap>)
    requires r.Valid() && t.table == Table()
    modifies r
    ensures r.Valid() && (x, r.Cur()) == DecExMapSlot(r.data, old(r.Cur()))
    decreases |r.data| - r.pos, 1, 0
  {
    x := None;
    var obj := ReadObjectAny(r, t);
    if obj.Some? {
      if obj.value.OExMap? {
        x := Some(obj.value.exmap);
      } else {
        r.Fail(WrongType(Class(MpExMapKind), Class(KindOf(obj.value))));
      }
    }
  }

  method UnmarshalExMap(r: RBuffer, t: FactoryTable, o: AliMpExMap) returns (o2: AliMpExMap, e: Option<Error>)
    requires r.Valid() && t.table == Table()
    modifies r
    ensures r.Valid() && (o2, r.Cur()) == DecExMap(r.data, old(r.Cur()), o) && e == r.err
    decreases |r.data| - r.pos, 3, 0
  {
    if r.err.Some? {
      return o, r.err;
    }
    var start := r.pos;
    var _, pos, bcnt := r.ReadVersion();
    o2 := o;
    var base, err := UnmarshalObject(r, o2.base);
    o2 := o2.(base := base);
    if err.Some? {
      return o2, err;
    }
    var objs, err2 := UnmarshalObjArray(r, t);
    o2 := o2.(objs := objs);
    if err2.Some? {
      return o2, err2;
    }
    var keys, err3 := UnmarshalArrayL64(r);
    o2 := o2.(keys := keys);
    if err3.Some? {
      return o2, err3;
    }
    r.CheckByteCount(pos, bcnt, start, Class(MpExMapKind));
    e := r.err;
  }

  /** `rcont.ObjArray`: the count, then each element as a polymorphic slot. */
  method UnmarshalObjArray(r: RBuffer, t: FactoryTable) returns (s: seq<Option<Obj>>, e: Option<Error>)
    requires r.Valid() && t.table == Table()
    modifies r
    ensures r.Valid() && (s, r.Cur()) == DecObjArray(r.data, old(r.Cur())) && e == r.err
    decreases |r.data| - r.pos, 2, 0
  {
    var n := r.ReadCount();
    ghost var c1 := r.Cur();
    s := [];
    var i := 0;
    while i < n
      invariant 0 <= i <= n && r.Valid()
      invariant old(r.pos) <= c1.pos
      invariant (s, r.Cur()) == DecObjs(r.data, c1, i)
    {
      var x := ReadObjectAny(r, t);
      s := s + [x];
      i := i + 1;
    }
    e := r.err;
  }

  /** `rcont.ArrayL64`: the count, then that many values. */
  method UnmarshalArrayL64(r: RBuffer) returns (ks: seq<i64>, e: Option<Error>)
    requires r.Valid()
    modifies r
    ensures r.Valid() && (ks, r.Cur()) == DecArrayL64(r.data, old(r.Cur())) && e == r.err
  {
    var n := r.ReadCount();
    var ws := r.ReadFastArrayU64(n);
    ks := AsInt64s(ws);
    e := r.err;
  }
}
