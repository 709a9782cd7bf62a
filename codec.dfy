/** The specification of the record codec, as pure functions.

    `XBytes(x)` is the byte string that marshalling `x` appends: a frame
    (version, byte count, payload) whose payload is the base object followed by
    the fields in declaration order.

    `DecX(d, c, o)` is what unmarshalling does to the receiver `o` and to the
    cursor `c` over the bytes `d`, step by step as the methods do it. Fields are
    assigned one at a time, so a failed decode leaves the receiver partly
    updated; the error is sticky in the cursor. */
module Codec {
  import opened Wire
  import opened Records
  import opened Registry

  // ================================================================ encoders

  function Frame(k: Kind, payload: bytes): (r: bytes)
    ensures |r| == HeaderSize + |payload|
  {
    Framed(RVersion(k), payload)
  }

  /** A class-name tag in front of the object, as written for a non-nil polymorphic slot. */
  function Tagged(k: Kind, body: bytes): (r: bytes)
    ensures |r| == 4 + |Class(k)| + |body|
  {
    Str(Latin1(Class(k))) + body
  }

  /** The nil sentinel of a polymorphic slot: an empty class name. */
  function NilTag(): (r: bytes)
    ensures |r| == 4
  {
    BE32(0)
  }

  function ObjectBytes(b: Object): (r: bytes)
    ensures |r| == 8
  {
    BE32(b.uid as int) + BE32(b.bits as int)
  }

  function PathBytes(p: Path): bytes {
    Frame(PathKind, ObjectBytes(p.base) + Str(p.path) + Str(p.lvl0) + Str(p.lvl1) + Str(p.lvl2)
                    + BoolByte(p.valid) + BoolByte(p.wildcard))
  }

  function RunRangeBytes(rr: RunRange): bytes {
    Frame(RunRangeKind, ObjectBytes(rr.base) + BE32(rr.first as int) + BE32(rr.last as int))
  }

  function IDBytes(id: ID): bytes {
    Frame(IDKind, ObjectBytes(id.base) + PathBytes(id.path) + RunRangeBytes(id.runs)
                  + BE32(id.vers as int) + BE32(id.subvers as int) + Str(id.last))
  }

  function VStoreBytes(s: AliMUONVStore): bytes {
    Frame(MUONVStoreKind, ObjectBytes(s.base))
  }

  function VCalibParamBytes(p: AliMUONVCalibParam): bytes {
    Frame(MUONVCalibParamKind, ObjectBytes(p.base))
  }

  /** The reserved byte `1` precedes the values; `n` is written as given, the values as `|vs|` words. */
  function CalibParamNDBytes(p: AliMUONCalibParamND): bytes {
    Frame(MUONCalibParamNDKind, VCalibParamBytes(p.base) + BE32(p.dim as int) + BE32(p.size as int)
                                + BE32(p.n as int) + I8Byte(1) + FastU64(p.vs))
  }

  /** Signed keys as the words of the fast array, and back. */
  function AsWords(ks: seq<i64>): (r: seq<u64>)
    ensures |r| == |ks|
  {
    seq(|ks|, i requires 0 <= i < |ks| => ((ks[i] as int) % TWO64) as u64)
  }

  function AsInt64s(ws: seq<u64>): (r: seq<i64>)
    ensures |r| == |ws|
  {
    seq(|ws|, i requires 0 <= i < |ws| => ToI64(ws[i] as nat))
  }

  /** An `rcont.ArrayL64`: a count, then the values. */
  function KeysBytes(ks: seq<i64>): bytes {
    BE32(|ks|) + FastU64(AsWords(ks))
  }

  function AnyBytes(x: Option<Obj>): (r: bytes)
    ensures |r| >= 4
  {
    match x
    case None => NilTag()
    case Some(o) => Tagged(KindOf(o), ObjBytes(o))
  }

  function ObjBytes(o: Obj): bytes {
    match o
    case OEntry(e) => EntryBytes(e)
    case OID(id) => IDBytes(id)
    case OPath(p) => PathBytes(p)
    case ORunRange(rr) => RunRangeBytes(rr)
    case OMetaData(m) => MetaDataBytes(m)
    case O2DMap(m) => MUON2DMapBytes(m)
    case OVStore(s) => VStoreBytes(s)
    case OExMap(x) => ExMapBytes(x)
    case OCalibParamND(p) => CalibParamNDBytes(p)
    case OVCalibParam(p) => VCalibParamBytes(p)
  }

  function EntryBytes(e: Entry): bytes {
    Frame(EntryKind, ObjectBytes(e.base) + AnyBytes(e.obj) + IDBytes(e.id) + MetaSlotBytes(e.meta)
                     + BoolByte(e.owner))
  }

  /** The `*MetaData` slot is written as a polymorphic slot. */
  function MetaSlotBytes(m: Option<MetaData>): bytes {
    match m
    case None => NilTag()
    case Some(md) => Tagged(MetaDataKind, MetaDataBytes(md))
  }

  function MetaDataBytes(m: MetaData): bytes {
    Frame(MetaDataKind, ObjectBytes(m.base) + Str(m.cls) + Str(m.resp) + BE32(m.beam as int)
                        + Str(m.vers) + Str(m.comment) + MapBytes(m.props))
  }

  /** An `rcont.Map`: a count, then the entries. */
  function MapBytes(ps: seq<Pair>): bytes
    decreases ps, 1
  {
    BE32(|ps|) + PairsBytes(ps)
  }

  /** The entries of an `rcont.Map`, key then value, in order. */
  function PairsBytes(ps: seq<Pair>): (r: bytes)
    ensures |r| >= 8 * |ps|
    decreases ps, 0
  {
    if ps == [] then [] else PairsBytes(ps[..|ps| - 1]) + PairBytes(ps[|ps| - 1])
  }

  function PairBytes(p: Pair): (r: bytes)
    ensures |r| >= 8
  {
    AnyBytes(p.key) + AnyBytes(p.val)
  }

  function MUON2DMapBytes(m: AliMUON2DMap): bytes {
    Frame(MUON2DMapKind, VStoreBytes(m.base) + ExMapSlotBytes(m.exmap) + BoolByte(m.opt))
  }

  function ExMapSlotBytes(x: Option<AliMpExMap>): bytes {
    match x
    case None => NilTag()
    case Some(em) => Tagged(MpExMapKind, ExMapBytes(em))
  }

  function ExMapBytes(x: AliMpExMap): bytes {
    Frame(MpExMapKind, ObjectBytes(x.base) + ObjArrayBytes(x.objs) + KeysBytes(x.keys))
  }

  /** An `rcont.ObjArray`: a count, then the elements. */
  function ObjArrayBytes(s: seq<Option<Obj>>): bytes
    decreases s, 1
  {
    BE32(|s|) + ObjsBytes(s)
  }

  /** The elements of an `rcont.ObjArray`, in order. */
  function ObjsBytes(s: seq<Option<Obj>>): (r: bytes)
    ensures |r| >= 4 * |s|
    decreases s, 0
  {
    if s == [] then [] else ObjsBytes(s[..|s| - 1]) + AnyBytes(s[|s| - 1])
  }

  // ================================================================ decoders

  /** `c2` continues `c` on `d`: it does not move back, and an error already in `c` stays put. */
  predicate Advances(d: bytes, c: Cursor, c2: Cursor) {
    c.pos <= c2.pos <= |d| && (c.err.Some? ==> c2 == c)
  }

  /** A frame starting at `p` was read to `q`: the header fits, and the bytes after the
      count field are exactly the count it declares. */
  predicate FrameConsumed(d: bytes, p: nat, q: nat) {
    p + HeaderSize <= |d| && q == p + HeaderSize + Val32(d[p + 2..p + HeaderSize])
  }

  function DecObject(d: bytes, c: Cursor, o: Object): (r: (Object, Cursor))
    requires c.pos <= |d|
    ensures Advances(d, c, r.1) && (c.err.Some? ==> r.0 == o)
    ensures r.1.err.None? ==> r.1.pos == c.pos + 8
  {
    if c.err.Some? then (o, c)
    else
      var (uid, c1) := ReadU32(d, c);
      var (bits, c2) := ReadU32(d, c1);
      (Object(uid, bits), c2)
  }

  function DecPath(d: bytes, c: Cursor, o: Path): (r: (Path, Cursor))
    requires c.pos <= |d|
    ensures Advances(d, c, r.1) && (c.err.Some? ==> r.0 == o)
    ensures r.1.err.None? ==> FrameConsumed(d, c.pos, r.1.pos)
  {
    if c.err.Some? then (o, c)
    else
      var start := c.pos;
      var (_, pos, bcnt, c1) := ReadVersion(d, c);
      var (base, c2) := DecObject(d, c1, o.base);
      var o1 := o.(base := base);
      if c2.err.Some? then (o1, c2)
      else
        var (path, c3) := ReadString(d, c2);
        var (lvl0, c4) := ReadString(d, c3);
        var (lvl1, c5) := ReadString(d, c4);
        var (lvl2, c6) := ReadString(d, c5);
        var (valid, c7) := ReadBool(d, c6);
        var (wildcard, c8) := ReadBool(d, c7);
        (o1.(path := path, lvl0 := lvl0, lvl1 := lvl1, lvl2 := lvl2, valid := valid, wildcard := wildcard),
         CheckByteCount(c8, pos, bcnt, start, Class(PathKind)))
  }

  function DecRunRange(d: bytes, c: Cursor, o: RunRange): (r: (RunRange, Cursor))
    requires c.pos <= |d|
    ensures Advances(d, c, r.1) && (c.err.Some? ==> r.0 == o)
    ensures r.1.err.None? ==> FrameConsumed(d, c.pos, r.1.pos)
  {
    if c.err.Some? then (o, c)
    else
      var start := c.pos;
      var (_, pos, bcnt, c1) := ReadVersion(d, c);
      var (base, c2) := DecObject(d, c1, o.base);
      var o1 := o.(base := base);
      if c2.err.Some? then (o1, c2)
      else
        var (first, c3) := ReadI32(d, c2);
        var (last, c4) := ReadI32(d, c3);
        (o1.(first := first, last := last), CheckByteCount(c4, pos, bcnt, start, Class(RunRangeKind)))
  }

  function DecID(d: bytes, c: Cursor, o: ID): (r: (ID, Cursor))
    requires c.pos <= |d|
    ensures Advances(d, c, r.1) && (c.err.Some? ==> r.0 == o)
    ensures r.1.err.None? ==> FrameConsumed(d, c.pos, r.1.pos)
  {
    if c.err.Some? then (o, c)
    else
      var start := c.pos;
      var (_, pos, bcnt, c1) := ReadVersion(d, c);
      var (base, c2) := DecObject(d, c1, o.base);
      var o1 := o.(base := base);
      if c2.err.Some? then (o1, c2)
      else
        var (path, c3) := DecPath(d, c2, o1.path);
        var o2 := o1.(path := path);
        if c3.err.Some? then (o2, c3)
        else
          var (runs, c4) := DecRunRange(d, c3, o2.runs);
          var o3 := o2.(runs := runs);
          if c4.err.Some? then (o3, c4)
          else
            var (vers, c5) := ReadI32(d, c4);
            var (subvers, c6) := ReadI32(d, c5);
            var (last, c7) := ReadString(d, c6);
            (o3.(vers := vers, subvers := subvers, last := last),
             CheckByteCount(c7, pos, bcnt, start, Class(IDKind)))
  }

  function DecVStore(d: bytes, c: Cursor, o: AliMUONVStore): (r: (AliMUONVStore, Cursor))
    requires c.pos <= |d|
    ensures Advances(d, c, r.1) && (c.err.Some? ==> r.0 == o)
    ensures r.1.err.None? ==> FrameConsumed(d, c.pos, r.1.pos)
  {
    if c.err.Some? then (o, c)
    else
      var start := c.pos;
      var (_, pos, bcnt, c1) := ReadVersion(d, c);
      var (base, c2) := DecObject(d, c1, o.base);
      var o1 := o.(base := base);
      if c2.err.Some? then (o1, c2)
      else (o1, CheckByteCount(c2, pos, bcnt, start, Class(MUONVStoreKind)))
  }

  function DecVCalibParam(d: bytes, c: Cursor, o: AliMUONVCalibParam): (r: (AliMUONVCalibParam, Cursor))
    requires c.pos <= |d|
    ensures Advances(d, c, r.1) && (c.err.Some? ==> r.0 == o)
    ensures r.1.err.None? ==> FrameConsumed(d, c.pos, r.1.pos)
  {
    if c.err.Some? then (o, c)
    else
      var start := c.pos;
      var (_, pos, bcnt, c1) := ReadVersion(d, c);
      var (base, c2) := DecObject(d, c1, o.base);
      var o1 := o.(base := base);
      if c2.err.Some? then (o1, c2)
      else (o1, CheckByteCount(c2, pos, bcnt, start, Class(MUONVCalibParamKind)))
  }

  /** Reads exactly `n` values, whatever `|vs|` the writer had; the reserved byte is discarded. */
  function DecCalibParamND(d: bytes, c: Cursor, o: AliMUONCalibParamND): (r: (AliMUONCalibParamND, Cursor))
    requires c.pos <= |d|
    ensures Advances(d, c, r.1) && (c.err.Some? ==> r.0 == o)
    ensures r.1.err.None? ==> FrameConsumed(d, c.pos, r.1.pos)
  {
    if c.err.Some? then (o, c)
    else
      var start := c.pos;
      var (_, pos, bcnt, c1) := ReadVersion(d, c);
      var (base, c2) := DecVCalibParam(d, c1, o.base);
      var o1 := o.(base := base);
      if c2.err.Some? then (o1, c2)
      else
        var (dim, c3) := ReadI32(d, c2);
        var (size, c4) := ReadI32(d, c3);
        var (n, c5) := ReadI32(d, c4);
        var (_, c6) := ReadI8(d, c5);
        var (vs, c7) := ReadFastU64(d, c6, n as int);
        (o1.(dim := dim, size := size, n := n, vs := vs),
         CheckByteCount(c7, pos, bcnt, start, Class(MUONCalibParamNDKind)))
  }

  /** `ReadObjectAny`: a class name, empty for nil; a known name is resolved through the
      registry and the blank instance decodes itself. */
  function DecAny(d: bytes, c: Cursor): (r: (Option<Obj>, Cursor))
    requires c.pos <= |d|
    ensures Advances(d, c, r.1) && (c.err.Some? ==> r.0 == None)
    ensures r.1.err.Some? ==> r.0 == None
    decreases |d| - c.pos, 0, 0
  {
    if c.err.Some? then (None, c)
    else
      var (name, c1) := ReadString(d, c);
      if c1.err.Some? || name == [] then (None, c1)
      else
        var cls := FromLatin1(name);
        match Lookup(cls)
        case None => (None, c1.(err := Some(UnknownClass(cls))))
        case Some(blank) =>
          var (x, c2) := DecObj(d, c1, blank);
          (if c2.err.Some? then None else Some(x), c2)
  }

  /** Decodes into the blank `o`, as the class of `o` prescribes. */
  function DecObj(d: bytes, c: Cursor, o: Obj): (r: (Obj, Cursor))
    requires c.pos <= |d|
    ensures Advances(d, c, r.1) && (c.err.Some? ==> r.0 == o)
    ensures r.1.err.None? ==> FrameConsumed(d, c.pos, r.1.pos)
    decreases |d| - c.pos, 4, 0
  {
    match o
    case OEntry(e) => var (x, c1) := DecEntry(d, c, e); (OEntry(x), c1)
    case OID(id) => var (x, c1) := DecID(d, c, id); (OID(x), c1)
    case OPath(p) => var (x, c1) := DecPath(d, c, p); (OPath(x), c1)
    case ORunRange(rr) => var (x, c1) := DecRunRange(d, c, rr); (ORunRange(x), c1)
    case OMetaData(m) => var (x, c1) := DecMetaData(d, c, m); (OMetaData(x), c1)
    case O2DMap(m) => var (x, c1) := DecMUON2DMap(d, c, m); (O2DMap(x), c1)
    case OVStore(s) => var (x, c1) := DecVStore(d, c, s); (OVStore(x), c1)
    case OExMap(em) => var (x, c1) := DecExMap(d, c, em); (OExMap(x), c1)
    case OCalibParamND(p) => var (x, c1) := DecCalibParamND(d, c, p); (OCalibParamND(x), c1)
    case OVCalibParam(p) => var (x, c1) := DecVCalibParam(d, c, p); (OVCalibParam(x), c1)
  }

  function DecEntry(d: bytes, c: Cursor, o: Entry): (r: (Entry, Cursor))
    requires c.pos <= |d|
    ensures Advances(d, c, r.1) && (c.err.Some? ==> r.0 == o)
    ensures r.1.err.None? ==> FrameConsumed(d, c.pos, r.1.pos)
    decreases |d| - c.pos, 3, 0
  {
    if c.err.Some? then (o, c)
    else
      var start := c.pos;
      var (_, pos, bcnt, c1) := ReadVersion(d, c);
      var (base, c2) := DecObject(d, c1, o.base);
      var o1 := o.(base := base);
      if c2.err.Some? then (o1, c2)
      else
        var (obj, c3) := DecAny(d, c2);
        var o2 := o1.(obj := obj);
        var (id, c4) := DecID(d, c3, o2.id);
        var o3 := o2.(id := id);
        if c4.err.Some? then (o3, c4)
        else
          var (meta, c5) := DecMetaSlot(d, c4);
          var (owner, c6) := ReadBool(d, c5);
          (o3.(meta := meta, owner := owner), CheckByteCount(c6, pos, bcnt, start, Class(EntryKind)))
  }

  /** The `*MetaData` slot: reset to nil, then a non-nil object must be a MetaData. */
  function DecMetaSlot(d: bytes, c: Cursor): (r: (Option<MetaData>, Cursor))
    requires c.pos <= |d|
    ensures Advances(d, c, r.1) && (r.1.err.Some? ==> r.0 == None)
    decreases |d| - c.pos, 1, 0
  {
    var (x, c1) := DecAny(d, c);
    match x
    case None => (None, c1)
    case Some(OMetaData(m)) => (Some(m), c1)
    case Some(other) => (None, c1.(err := Some(WrongType(Class(MetaDataKind), Class(KindOf(other))))))
  }

  function DecMetaData(d: bytes, c: Cursor, o: MetaData): (r: (MetaData, Cursor))
    requires c.pos <= |d|
    ensures Advances(d, c, r.1) && (c.err.Some? ==> r.0 == o)
    ensures r.1.err.None? ==> FrameConsumed(d, c.pos, r.1.pos)
    decreases |d| - c.pos, 3, 0
  {
    if c.err.Some? then (o, c)
    else
      var start := c.pos;
      var (_, pos, bcnt, c1) := ReadVersion(d, c);
      var (base, c2) := DecObject(d, c1, o.base);
      var o1 := o.(base := base);
      if c2.err.Some? then (o1, c2)
      else
        var (cls, c3) := ReadString(d, c2);
        var (resp, c4) := ReadString(d, c3);
        var (beam, c5) := ReadU32(d, c4);
        var (vers, c6) := ReadString(d, c5);
        var (comment, c7) := ReadString(d, c6);
        var (props, c9) := DecMap(d, c7);
        var o2 := o1.(cls := cls, resp := resp, beam := beam, vers := vers, comment := comment, props := props);
        if c9.err.Some? then (o2, c9)
        else (o2, CheckByteCount(c9, pos, bcnt, start, Class(MetaDataKind)))
  }

  /** `rcont.Map`: a count, then that many entries. */
  function DecMap(d: bytes, c: Cursor): (r: (seq<Pair>, Cursor))
    requires c.pos <= |d|
    ensures Advances(d, c, r.1)
    decreases |d| - c.pos, 2, 0
  {
    var (n, c1) := ReadCount(d, c);
    DecPairs(d, c1, n)
  }

  /** The first `k` entries of a map. */
  function DecPairs(d: bytes, c: Cursor, k: nat): (r: (seq<Pair>, Cursor))
    requires c.pos <= |d|
    ensures Advances(d, c, r.1) && |r.0| == k
    decreases |d| - c.pos, 1, k
  {
    if k == 0 then ([], c)
    else
      var (ps, c1) := DecPairs(d, c, k - 1);
      var (key, c2) := DecAny(d, c1);
      var (val, c3) := DecAny(d, c2);
      (ps + [Pair(key, val)], c3)
  }

  function DecMUON2DMap(d: bytes, c: Cursor, o: AliMUON2DMap): (r: (AliMUON2DMap, Cursor))
    requires c.pos <= |d|
    ensures Advances(d, c, r.1) && (c.err.Some? ==> r.0 == o)
    ensures r.1.err.None? ==> FrameConsumed(d, c.pos, r.1.pos)
    decreases |d| - c.pos, 3, 0
  {
    if c.err.Some? then (o, c)
    else
      var start := c.pos;
      var (_, pos, bcnt, c1) := ReadVersion(d, c);
      var (base, c2) := DecVStore(d, c1, o.base);
      var o1 := o.(base := base);
      if c2.err.Some? then (o1, c2)
      else
        var (exmap, c3) := DecExMapSlot(d, c2);
        var (opt, c4) := ReadBool(d, c3);
        (o1.(exmap := exmap, opt := opt), CheckByteCount(c4, pos, bcnt, start, Class(MUON2DMapKind)))
  }

  /** The `*AliMpExMap` slot: reset to nil, then a non-nil object must be an AliMpExMap. */
  function DecExMapSlot(d: bytes, c: Cursor): (r: (Option<AliMpExMap>, Cursor))
    requires c.pos <= |d|
    ensures Advances(d, c, r.1) && (r.1.err.Some? ==> r.0 == None)
    decreases |d| - c.pos, 1, 0
  {
    var (x, c1) := DecAny(d, c);
    match x
    case None => (None, c1)
    case Some(OExMap(em)) => (Some(em), c1)
    case Some(other) => (None, c1.(err := Some(WrongType(Class(MpExMapKind), Class(KindOf(other))))))
  }

  function DecExMap(d: bytes, c: Cursor, o: AliMpExMap): (r: (AliMpExMap, Cursor))
    requires c.pos <= |d|
    ensures Advances(d, c, r.1) && (c.err.Some? ==> r.0 == o)
    ensures r.1.err.None? ==> FrameConsumed(d, c.pos, r.1.pos)
    decreases |d| - c.pos, 3, 0
  {
    if c.err.Some? then (o, c)
    else
      var start := c.pos;
      var (_, pos, bcnt, c1) := ReadVersion(d, c);
      var (base, c2) := DecObject(d, c1, o.base);
      var o1 := o.(base := base);
      if c2.err.Some? then (o1, c2)
      else
        var (objs, c4) := DecObjArray(d, c2);
        var o2 := o1.(objs := objs);
        if c4.err.Some? then (o2, c4)
        else
          var (keys, c6) := DecArrayL64(d, c4);
          var o3 := o2.(keys := keys);
          if c6.err.Some? then (o3, c6)
          else (o3, CheckByteCount(c6, pos, bcnt, start, Class(MpExMapKind)))
  }

  /** `rcont.ObjArray`: a count, then that many elements. */
  function DecObjArray(d: bytes, c: Cursor): (r: (seq<Option<Obj>>, Cursor))
    requires c.pos <= |d|
    ensures Advances(d, c, r.1)
    decreases |d| - c.pos, 2, 0
  {
    var (n, c1) := ReadCount(d, c);
    DecObjs(d, c1, n)
  }

  /** `rcont.ArrayL64`: a count, then that many 64-bit words read as signed values. */
  function DecArrayL64(d: bytes, c: Cursor): (r: (seq<i64>, Cursor))
    requires c.pos <= |d|
    ensures Advances(d, c, r.1)
  {
    var (n, c1) := ReadCount(d, c);
    var (ws, c2) := ReadFastU64(d, c1, n);
    (AsInt64s(ws), c2)
  }

  /** The first `k` elements of an object array. */
  function DecObjs(d: bytes, c: Cursor, k: nat): (r: (seq<Option<Obj>>, Cursor))
    requires c.pos <= |d|
    ensures Advances(d, c, r.1) && |r.0| == k
    decreases |d| - c.pos, 1, k
  {
    if k == 0 then ([], c)
    else
      var (s, c1) := DecObjs(d, c, k - 1);
      var (x, c2) := DecAny(d, c1);
      (s + [x], c2)
  }
}
