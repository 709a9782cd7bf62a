/** What the codec promises: decoding what was encoded gives back the record and consumes
    exactly its bytes; every frame declares the size of its payload; errors are sticky,
    and a failing nested decode leaves the later fields of the receiver untouched. */
module Properties {
  import opened Wire
  import opened Records
  import opened Registry
  import opened Codec

  // ================================================================ well-formed records

  /** The one constraint that the encoder does not enforce: a CalibParamND writes `|vs|`
      words but declares `n`, and the decoder reads `n` of them. */
  predicate WfCalibParamND(p: AliMUONCalibParamND) {
    p.n as int == |p.vs|
  }

  predicate WfAny(x: Option<Obj>) {
    x.Some? ==> WfObj(x.value)
  }

  predicate WfObj(o: Obj) {
    match o
    case OEntry(e) => WfEntry(e)
    case OMetaData(m) => WfMetaData(m)
    case O2DMap(m) => WfMUON2DMap(m)
    case OExMap(x) => WfExMap(x)
    case OCalibParamND(p) => WfCalibParamND(p)
    case _ => true
  }

  predicate WfEntry(e: Entry) {
    WfAny(e.obj) && (e.meta.Some? ==> WfMetaData(e.meta.value))
  }

  predicate WfMetaData(m: MetaData) {
    WfPairs(m.props)
  }

  predicate WfPairs(ps: seq<Pair>) {
    forall i :: 0 <= i < |ps| ==> WfPair(ps[i])
  }

  predicate WfPair(p: Pair) {
    WfAny(p.key) && WfAny(p.val)
  }

  predicate WfMUON2DMap(m: AliMUON2DMap) {
    m.exmap.Some? ==> WfExMap(m.exmap.value)
  }

  predicate WfExMap(x: AliMpExMap) {
    forall i :: 0 <= i < |x.objs| ==> WfAny(x.objs[i])
  }

  // ================================================================ frames

  /** Reading the header of an encoded frame gives its version and the payload size. */
  lemma OpenFrame(d: bytes, q: nat, k: Kind, payload: bytes)
    requires At(d, q, Frame(k, payload)) && |d| < TWO32
    ensures ReadVersion(d, Cursor(q, None)) == (RVersion(k), q + HeaderSize, |payload|, Cursor(q + HeaderSize, None))
    ensures At(d, q + HeaderSize, payload)
  {
    AtSplit(d, q, BE16(RVersion(k)) + BE32(|payload|), payload);
    ReadVersionAt(d, q, RVersion(k), |payload|);
  }

  /** `OpenFrame` with the payload size given by name. */
  lemma OpenFrameN(d: bytes, q: nat, k: Kind, payload: bytes, n: nat)
    requires At(d, q, Frame(k, payload)) && |d| < TWO32 && n == |payload|
    ensures ReadVersion(d, Cursor(q, None)) == (1, q + HeaderSize, n, Cursor(q + HeaderSize, None))
    ensures At(d, q + HeaderSize, payload)
  {
    OpenFrame(d, q, k, payload);
  }

  // Proof scaffolding, not a model of anything in the source: where each piece of a
  // concatenation sits in `d`.

  lemma At3(d: bytes, p: nat, a: bytes, b: bytes, c: bytes)
    requires At(d, p, a + b + c)
    ensures At(d, p, a) && At(d, p + |a|, b) && At(d, p + |a| + |b|, c)
  {
    AtSplit(d, p, a + b, c);
    AtSplit(d, p, a, b);
  }

  lemma At5(d: bytes, p: nat, a: bytes, b: bytes, c: bytes, e: bytes, f: bytes)
    requires At(d, p, a + b + c + e + f)
    ensures At(d, p, a) && At(d, p + |a|, b) && At(d, p + |a| + |b|, c)
    ensures At(d, p + |a| + |b| + |c|, e) && At(d, p + |a| + |b| + |c| + |e|, f)
  {
    AtSplit(d, p, a + b + c + e, f);
    AtSplit(d, p, a + b + c, e);
    At3(d, p, a, b, c);
  }

  lemma At6(d: bytes, p: nat, a: bytes, b: bytes, c: bytes, e: bytes, f: bytes, g: bytes)
    requires At(d, p, a + b + c + e + f + g)
    ensures At(d, p, a) && At(d, p + |a|, b) && At(d, p + |a| + |b|, c)
    ensures At(d, p + |a| + |b| + |c|, e) && At(d, p + |a| + |b| + |c| + |e|, f)
    ensures At(d, p + |a| + |b| + |c| + |e| + |f|, g)
  {
    AtSplit(d, p, a + b + c + e + f, g);
    At5(d, p, a, b, c, e, f);
  }

  lemma At7(d: bytes, p: nat, a: bytes, b: bytes, c: bytes, e: bytes, f: bytes, g: bytes, h: bytes)
    requires At(d, p, a + b + c + e + f + g + h)
    ensures At(d, p, a) && At(d, p + |a|, b) && At(d, p + |a| + |b|, c)
    ensures At(d, p + |a| + |b| + |c|, e) && At(d, p + |a| + |b| + |c| + |e|, f)
    ensures At(d, p + |a| + |b| + |c| + |e| + |f|, g)
    ensures At(d, p + |a| + |b| + |c| + |e| + |f| + |g|, h)
  {
    AtSplit(d, p, a + b + c + e + f + g, h);
    At6(d, p, a, b, c, e, f, g);
  }

  // ================================================================ round trips
  //
  // Each `XRoundTrip` decodes the bytes of `XBytes(x)`, wherever they sit in `d` (at `q`),
  // into any receiver: the result is `x` and the cursor ends right after those bytes. The
  // `XLayout` lemmas say where each field sits; the other helpers read two or three
  // fields each, so that no single proof has to track the whole frame.

  lemma ObjectRoundTrip(d: bytes, q: nat, b: Object, o: Object)
    requires At(d, q, ObjectBytes(b))
    ensures DecObject(d, Cursor(q, None), o).0 == b && DecObject(d, Cursor(q, None), o).1 == Cursor(q + 8, None)
  {
    AtSplit(d, q, BE32(b.uid as int), BE32(b.bits as int));
    ReadU32At(d, q, b.uid as int);
    ReadU32At(d, q + 4, b.bits as int);
  }

  // ---------------------------------------------------------------- Path

  lemma PathLayout(d: bytes, q: nat, p: Path)
    requires At(d, q, PathBytes(p)) && |d| < TWO32
    ensures ReadVersion(d, Cursor(q, None)) == (1, q + HeaderSize, |PathBytes(p)| - HeaderSize, Cursor(q + HeaderSize, None))
    ensures var h := q + HeaderSize;
      var q2 := h + 8 + 4 + |p.path|;
      var q3 := q2 + 4 + |p.lvl0|;
      var q4 := q3 + 4 + |p.lvl1|;
      var q5 := q4 + 4 + |p.lvl2|;
      At(d, h, ObjectBytes(p.base)) && At(d, h + 8, Str(p.path)) && At(d, q2, Str(p.lvl0)) &&
      At(d, q3, Str(p.lvl1)) && At(d, q4, Str(p.lvl2)) &&
      At(d, q5, BoolByte(p.valid)) && At(d, q5 + 1, BoolByte(p.wildcard))
  {
    var a, s0, s1, s2, s3 := ObjectBytes(p.base), Str(p.path), Str(p.lvl0), Str(p.lvl1), Str(p.lvl2);
    var v, w := BoolByte(p.valid), BoolByte(p.wildcard);
    OpenFrame(d, q, PathKind, a + s0 + s1 + s2 + s3 + v + w);
    At7(d, q + HeaderSize, a, s0, s1, s2, s3, v, w);
  }

  lemma PathHead(d: bytes, q: nat, p: Path, o: Path)
    requires At(d, q, PathBytes(p)) && |d| < TWO32
    ensures ReadVersion(d, Cursor(q, None)) == (1, q + HeaderSize, |PathBytes(p)| - HeaderSize, Cursor(q + HeaderSize, None))
    ensures DecObject(d, Cursor(q + HeaderSize, None), o.base).0 == p.base && DecObject(d, Cursor(q + HeaderSize, None), o.base).1 == Cursor(q + HeaderSize + 8, None)
  {
    PathLayout(d, q, p);
    ObjectRoundTrip(d, q + HeaderSize, p.base, o.base);
  }

  lemma PathNames(d: bytes, q: nat, p: Path)
    requires At(d, q, PathBytes(p)) && |d| < TWO32
    ensures var q1 := q + HeaderSize + 8;
      var q2 := q1 + 4 + |p.path|;
      ReadString(d, Cursor(q1, None)) == (p.path, Cursor(q2, None)) &&
      ReadString(d, Cursor(q2, None)) == (p.lvl0, Cursor(q2 + 4 + |p.lvl0|, None))
  {
    PathLayout(d, q, p);
    ReadStringAt(d, q + HeaderSize + 8, p.path);
    ReadStringAt(d, q + HeaderSize + 8 + 4 + |p.path|, p.lvl0);
  }

  lemma PathLevels(d: bytes, q: nat, p: Path)
    requires At(d, q, PathBytes(p)) && |d| < TWO32
    ensures var q3 := q + HeaderSize + 8 + 4 + |p.path| + 4 + |p.lvl0|;
      var q4 := q3 + 4 + |p.lvl1|;
      ReadString(d, Cursor(q3, None)) == (p.lvl1, Cursor(q4, None)) &&
      ReadString(d, Cursor(q4, None)) == (p.lvl2, Cursor(q4 + 4 + |p.lvl2|, None))
  {
    PathLayout(d, q, p);
    ReadStringAt(d, q + HeaderSize + 8 + 4 + |p.path| + 4 + |p.lvl0|, p.lvl1);
    ReadStringAt(d, q + HeaderSize + 8 + 4 + |p.path| + 4 + |p.lvl0| + 4 + |p.lvl1|, p.lvl2);
  }

  lemma PathFlags(d: bytes, q: nat, p: Path)
    requires At(d, q, PathBytes(p)) && |d| < TWO32
    ensures var q5 := q + HeaderSize + 8 + 4 + |p.path| + 4 + |p.lvl0| + 4 + |p.lvl1| + 4 + |p.lvl2|;
      ReadBool(d, Cursor(q5, None)) == (p.valid, Cursor(q5 + 1, None)) &&
      ReadBool(d, Cursor(q5 + 1, None)) == (p.wildcard, Cursor(q5 + 1 + 1, None))
  {
    PathLayout(d, q, p);
    var q5 := q + HeaderSize + 8 + 4 + |p.path| + 4 + |p.lvl0| + 4 + |p.lvl1| + 4 + |p.lvl2|;
    ReadBoolAt(d, q5, p.valid);
    ReadBoolAt(d, q5 + 1, p.wildcard);
  }

  lemma PathRoundTrip(d: bytes, q: nat, p: Path, o: Path)
    requires At(d, q, PathBytes(p)) && |d| < TWO32
    ensures DecPath(d, Cursor(q, None), o).0 == p && DecPath(d, Cursor(q, None), o).1 == Cursor(q + |PathBytes(p)|, None)
  {
    PathHead(d, q, p, o);
    PathNames(d, q, p);
    PathLevels(d, q, p);
    PathFlags(d, q, p);
  }

  // ---------------------------------------------------------------- RunRange

  lemma RunRangeRoundTrip(d: bytes, q: nat, rr: RunRange, o: RunRange)
    requires At(d, q, RunRangeBytes(rr)) && |d| < TWO32
    ensures DecRunRange(d, Cursor(q, None), o).0 == rr && DecRunRange(d, Cursor(q, None), o).1 == Cursor(q + |RunRangeBytes(rr)|, None)
  {
    var a, f, l := ObjectBytes(rr.base), BE32(rr.first as int), BE32(rr.last as int);
    OpenFrame(d, q, RunRangeKind, a + f + l);
    At3(d, q + HeaderSize, a, f, l);
    ObjectRoundTrip(d, q + HeaderSize, rr.base, o.base);
    ReadI32At(d, q + HeaderSize + 8, rr.first);
    ReadI32At(d, q + HeaderSize + 8 + 4, rr.last);
  }

  // ---------------------------------------------------------------- ID

  lemma IDLayout(d: bytes, q: nat, id: ID)
    requires At(d, q, IDBytes(id)) && |d| < TWO32
    ensures ReadVersion(d, Cursor(q, None)) == (1, q + HeaderSize, |IDBytes(id)| - HeaderSize, Cursor(q + HeaderSize, None))
    ensures var h := q + HeaderSize;
      var qr := h + 8 + |PathBytes(id.path)|;
      var qv := qr + |RunRangeBytes(id.runs)|;
      At(d, h, ObjectBytes(id.base)) && At(d, h + 8, PathBytes(id.path)) && At(d, qr, RunRangeBytes(id.runs)) &&
      At(d, qv, BE32(id.vers as int)) && At(d, qv + 4, BE32(id.subvers as int)) && At(d, qv + 4 + 4, Str(id.last))
  {
    var a, p, r := ObjectBytes(id.base), PathBytes(id.path), RunRangeBytes(id.runs);
    var v, s, l := BE32(id.vers as int), BE32(id.subvers as int), Str(id.last);
    OpenFrame(d, q, IDKind, a + p + r + v + s + l);
    At6(d, q + HeaderSize, a, p, r, v, s, l);
  }

  lemma IDHead(d: bytes, q: nat, id: ID, o: ID)
    requires At(d, q, IDBytes(id)) && |d| < TWO32
    ensures ReadVersion(d, Cursor(q, None)) == (1, q + HeaderSize, |IDBytes(id)| - HeaderSize, Cursor(q + HeaderSize, None))
    ensures DecObject(d, Cursor(q + HeaderSize, None), o.base).0 == id.base && DecObject(d, Cursor(q + HeaderSize, None), o.base).1 == Cursor(q + HeaderSize + 8, None)
  {
    IDLayout(d, q, id);
    ObjectRoundTrip(d, q + HeaderSize, id.base, o.base);
  }

  lemma IDPath(d: bytes, q: nat, id: ID, o: ID)
    requires At(d, q, IDBytes(id)) && |d| < TWO32
    ensures var q1 := q + HeaderSize + 8;
      DecPath(d, Cursor(q1, None), o.path).0 == id.path && DecPath(d, Cursor(q1, None), o.path).1 == Cursor(q1 + |PathBytes(id.path)|, None)
  {
    IDLayout(d, q, id);
    PathRoundTrip(d, q + HeaderSize + 8, id.path, o.path);
  }

  lemma IDRuns(d: bytes, q: nat, id: ID, o: ID)
    requires At(d, q, IDBytes(id)) && |d| < TWO32
    ensures var qr := q + HeaderSize + 8 + |PathBytes(id.path)|;
      DecRunRange(d, Cursor(qr, None), o.runs).0 == id.runs && DecRunRange(d, Cursor(qr, None), o.runs).1 == Cursor(qr + |RunRangeBytes(id.runs)|, None)
  {
    IDLayout(d, q, id);
    RunRangeRoundTrip(d, q + HeaderSize + 8 + |PathBytes(id.path)|, id.runs, o.runs);
  }

  lemma IDVersions(d: bytes, q: nat, id: ID)
    requires At(d, q, IDBytes(id)) && |d| < TWO32
    ensures var qv := q + HeaderSize + 8 + |PathBytes(id.path)| + |RunRangeBytes(id.runs)|;
      ReadI32(d, Cursor(qv, None)) == (id.vers, Cursor(qv + 4, None)) &&
      ReadI32(d, Cursor(qv + 4, None)) == (id.subvers, Cursor(qv + 4 + 4, None)) &&
      ReadString(d, Cursor(qv + 4 + 4, None)) == (id.last, Cursor(qv + 4 + 4 + 4 + |id.last|, None))
  {
    IDLayout(d, q, id);
    var qv := q + HeaderSize + 8 + |PathBytes(id.path)| + |RunRangeBytes(id.runs)|;
    ReadI32At(d, qv, id.vers);
    ReadI32At(d, qv + 4, id.subvers);
    ReadStringAt(d, qv + 4 + 4, id.last);
  }

  lemma IDRoundTrip(d: bytes, q: nat, id: ID, o: ID)
    requires At(d, q, IDBytes(id)) && |d| < TWO32
    ensures DecID(d, Cursor(q, None), o).0 == id && DecID(d, Cursor(q, None), o).1 == Cursor(q + |IDBytes(id)|, None)
  {
    IDHead(d, q, id, o);
    IDPath(d, q, id, o);
    IDRuns(d, q, id, o);
    IDVersions(d, q, id);
  }

  // ---------------------------------------------------------------- AliMUONVStore, AliMUONVCalibParam

  lemma VStoreRoundTrip(d: bytes, q: nat, s: AliMUONVStore, o: AliMUONVStore)
    requires At(d, q, VStoreBytes(s)) && |d| < TWO32
    ensures DecVStore(d, Cursor(q, None), o).0 == s && DecVStore(d, Cursor(q, None), o).1 == Cursor(q + |VStoreBytes(s)|, None)
  {
    OpenFrame(d, q, MUONVStoreKind, ObjectBytes(s.base));
    ObjectRoundTrip(d, q + HeaderSize, s.base, o.base);
  }

  lemma VCalibParamRoundTrip(d: bytes, q: nat, p: AliMUONVCalibParam, o: AliMUONVCalibParam)
    requires At(d, q, VCalibParamBytes(p)) && |d| < TWO32
    ensures DecVCalibParam(d, Cursor(q, None), o).0 == p && DecVCalibParam(d, Cursor(q, None), o).1 == Cursor(q + |VCalibParamBytes(p)|, None)
  {
    OpenFrame(d, q, MUONVCalibParamKind, ObjectBytes(p.base));
    ObjectRoundTrip(d, q + HeaderSize, p.base, o.base);
  }

  // ---------------------------------------------------------------- AliMUONCalibParamND

  lemma CalibParamNDLayout(d: bytes, q: nat, p: AliMUONCalibParamND)
    requires At(d, q, CalibParamNDBytes(p)) && |d| < TWO32
    ensures ReadVersion(d, Cursor(q, None)) ==
      (1, q + HeaderSize, |CalibParamNDBytes(p)| - HeaderSize, Cursor(q + HeaderSize, None))
    ensures var h := q + HeaderSize;
      At(d, h, VCalibParamBytes(p.base)) && At(d, h + 14, BE32(p.dim as int)) &&
      At(d, h + 14 + 4, BE32(p.size as int)) && At(d, h + 14 + 8, BE32(p.n as int)) &&
      At(d, h + 14 + 12, I8Byte(1)) && At(d, h + 14 + 12 + 1, FastU64(p.vs))
  {
    var b, m, z, n, r, v := VCalibParamBytes(p.base), BE32(p.dim as int), BE32(p.size as int),
                            BE32(p.n as int), I8Byte(1), FastU64(p.vs);
    OpenFrame(d, q, MUONCalibParamNDKind, b + m + z + n + r + v);
    At6(d, q + HeaderSize, b, m, z, n, r, v);
  }

  lemma CalibParamNDHead(d: bytes, q: nat, p: AliMUONCalibParamND, o: AliMUONCalibParamND)
    requires At(d, q, CalibParamNDBytes(p)) && |d| < TWO32
    ensures ReadVersion(d, Cursor(q, None)) ==
      (1, q + HeaderSize, |CalibParamNDBytes(p)| - HeaderSize, Cursor(q + HeaderSize, None))
    ensures DecVCalibParam(d, Cursor(q + HeaderSize, None), o.base).0 == p.base && DecVCalibParam(d, Cursor(q + HeaderSize, None), o.base).1 == Cursor(q + HeaderSize + 14, None)
  {
    CalibParamNDLayout(d, q, p);
    VCalibParamRoundTrip(d, q + HeaderSize, p.base, o.base);
  }

  lemma CalibParamNDSizes(d: bytes, q: nat, p: AliMUONCalibParamND)
    requires At(d, q, CalibParamNDBytes(p)) && |d| < TWO32
    ensures var h := q + HeaderSize + 14;
      ReadI32(d, Cursor(h, None)) == (p.dim, Cursor(h + 4, None)) &&
      ReadI32(d, Cursor(h + 4, None)) == (p.size, Cursor(h + 8, None)) &&
      ReadI32(d, Cursor(h + 8, None)) == (p.n, Cursor(h + 12, None))
  {
    CalibParamNDLayout(d, q, p);
    ReadI32At(d, q + HeaderSize + 14, p.dim);
    ReadI32At(d, q + HeaderSize + 14 + 4, p.size);
    ReadI32At(d, q + HeaderSize + 14 + 8, p.n);
  }

  lemma CalibParamNDValues(d: bytes, q: nat, p: AliMUONCalibParamND)
    requires At(d, q, CalibParamNDBytes(p)) && |d| < TWO32
    ensures var h := q + HeaderSize + 14 + 12;
      ReadI8(d, Cursor(h, None)) == (1, Cursor(h + 1, None)) &&
      ReadFastU64(d, Cursor(h + 1, None), |p.vs|) == (p.vs, Cursor(h + 1 + 8 * |p.vs|, None))
  {
    CalibParamNDLayout(d, q, p);
    ReadI8At(d, q + HeaderSize + 14 + 12, 1);
    ReadFastU64At(d, q + HeaderSize + 14 + 12 + 1, p.vs);
  }

  /** The declared count must be the number of values for the record to come back. */
  lemma CalibParamNDRoundTrip(d: bytes, q: nat, p: AliMUONCalibParamND, o: AliMUONCalibParamND)
    requires At(d, q, CalibParamNDBytes(p)) && |d| < TWO32
    requires WfCalibParamND(p)
    ensures DecCalibParamND(d, Cursor(q, None), o).0 == p && DecCalibParamND(d, Cursor(q, None), o).1 == Cursor(q + |CalibParamNDBytes(p)|, None)
  {
    CalibParamNDHead(d, q, p, o);
    CalibParamNDSizes(d, q, p);
    CalibParamNDValues(d, q, p);
  }

  // ---------------------------------------------------------------- ArrayL64

  lemma AsInt64sAsWords(ks: seq<i64>)
    ensures AsInt64s(AsWords(ks)) == ks
  {
    forall i | 0 <= i < |ks|
      ensures AsInt64s(AsWords(ks))[i] == ks[i]
    {
      var k := ks[i] as int;
      assert AsWords(ks)[i] as int == if k < 0 then k + TWO64 else k;
    }
  }

  lemma KeysRoundTrip(d: bytes, q: nat, ks: seq<i64>)
    requires At(d, q, KeysBytes(ks)) && |d| < TWO32
    ensures DecArrayL64(d, Cursor(q, None)).0 == ks && DecArrayL64(d, Cursor(q, None)).1 == Cursor(q + |KeysBytes(ks)|, None)
  {
    AtSplit(d, q, BE32(|ks|), FastU64(AsWords(ks)));
    ReadCountAt(d, q, |ks|);
    ReadFastU64At(d, q + 4, AsWords(ks));
    AsInt64sAsWords(ks);
  }


  // ---------------------------------------------------------------- polymorphic slots and the records that nest them
  //
  // The round trips below are one mutual induction over the value being decoded, in step
  // with the encoders: each call is on a component of the value, or on the same value at a
  // lower second measure (from a record to the lemma that decodes its pieces). Each record
  // is handled in three steps: where its pieces sit (`Layout`), that each piece decodes
  // (`Pieces`), and that the decoder assembles the pieces into the record (`Assemble`,
  // which knows nothing of the encoder).

  /** The class-name tag in front of an object: it reads back as the name, which the
      registry resolves to a blank of that class. */
  lemma TagRoundTrip(d: bytes, q: nat, k: Kind, body: bytes, q1: nat)
    requires At(d, q, Tagged(k, body)) && |d| < TWO32 && q1 == q + 4 + |Class(k)|
    ensures ReadString(d, Cursor(q, None)) == (Latin1(Class(k)), Cursor(q1, None))
    ensures Latin1(Class(k)) != [] && FromLatin1(Latin1(Class(k))) == Class(k)
    ensures Lookup(Class(k)) == Some(Blank(k))
    ensures At(d, q1, body) && q1 + |body| == q + |Tagged(k, body)|
  {
    AtSplit(d, q, Str(Latin1(Class(k))), body);
    ReadStringAt(d, q, Latin1(Class(k)));
    FromLatin1Latin1(Class(k));
    ResolveClass(k);
  }

  /** A tagged slot decodes to what the blank of its class decodes from the body. */
  lemma TaggedAssemble(d: bytes, q: nat, o: Obj, k: Kind, q1: nat, r: nat)
    requires q <= |d| && ReadString(d, Cursor(q, None)) == (Latin1(Class(k)), Cursor(q1, None))
    requires Latin1(Class(k)) != [] && FromLatin1(Latin1(Class(k))) == Class(k)
    requires Lookup(Class(k)) == Some(Blank(k)) && q1 <= |d|
    requires DecObj(d, Cursor(q1, None), Blank(k)).0 == o
    requires DecObj(d, Cursor(q1, None), Blank(k)).1 == Cursor(r, None)
    ensures DecAny(d, Cursor(q, None)).0 == Some(o) && DecAny(d, Cursor(q, None)).1 == Cursor(r, None)
  {
  }

  /** The nil sentinel decodes to nil. */
  lemma NilRoundTrip(d: bytes, q: nat)
    requires At(d, q, NilTag())
    ensures DecAny(d, Cursor(q, None)).0 == None && DecAny(d, Cursor(q, None)).1 == Cursor(q + 4, None)
  {
    assert Str([]) == NilTag();
    ReadStringAt(d, q, []);
  }

  /** A slot as `ReadObjectAny` reads it: nil for the empty class name, otherwise the class
      is resolved through the registry and the blank instance decodes the object. */
  lemma {:induction false} AnyRoundTrip(d: bytes, q: nat, x: Option<Obj>)
    requires At(d, q, AnyBytes(x)) && |d| < TWO32 && WfAny(x)
    ensures DecAny(d, Cursor(q, None)).0 == x && DecAny(d, Cursor(q, None)).1 == Cursor(q + |AnyBytes(x)|, None)
    decreases x, 0
  {
    match x
    case None =>
      NilRoundTrip(d, q);
    case Some(o) =>
      var k := KindOf(o);
      var q1 := q + 4 + |Class(k)|;
      TagRoundTrip(d, q, k, ObjBytes(o), q1);
      ObjRoundTrip(d, q1, o, Blank(k));
      TaggedAssemble(d, q, o, k, q1, q1 + |ObjBytes(o)|);
  }

  /** A blank of the right class decodes the object, whatever the blank held. */
  lemma {:induction false} ObjRoundTrip(d: bytes, q: nat, o: Obj, b: Obj)
    requires At(d, q, ObjBytes(o)) && |d| < TWO32 && WfObj(o)
    requires KindOf(b) == KindOf(o)
    ensures DecObj(d, Cursor(q, None), b).0 == o && DecObj(d, Cursor(q, None), b).1 == Cursor(q + |ObjBytes(o)|, None)
    decreases o, 1
  {
    var r := q + |ObjBytes(o)|;
    if o.OEntry? || o.OID? {
      ObjCasesEntry(d, q, o, b, r);
    } else if o.OPath? || o.ORunRange? || o.OMetaData? {
      ObjCasesPath(d, q, o, b, r);
    } else if o.O2DMap? || o.OVStore? || o.OExMap? {
      ObjCasesMap(d, q, o, b, r);
    } else {
      ObjCasesCalib(d, q, o, b, r);
    }
  }

  // The dispatch of `ObjRoundTrip` on the record type, in four groups, with the end
  // position named.

  lemma {:induction false} ObjCasesEntry(d: bytes, q: nat, o: Obj, b: Obj, r: nat)
    requires At(d, q, ObjBytes(o)) && |d| < TWO32 && WfObj(o)
    requires KindOf(b) == KindOf(o) && r == q + |ObjBytes(o)|
    requires o.OEntry? || o.OID?
    ensures DecObj(d, Cursor(q, None), b).0 == o && DecObj(d, Cursor(q, None), b).1 == Cursor(r, None)
    decreases o, 0
  {
    match o
    case OEntry(e) => EntryRoundTrip(d, q, e, b.entry);
    case OID(id) => IDRoundTrip(d, q, id, b.id);
  }

  lemma {:induction false} ObjCasesPath(d: bytes, q: nat, o: Obj, b: Obj, r: nat)
    requires At(d, q, ObjBytes(o)) && |d| < TWO32 && WfObj(o)
    requires KindOf(b) == KindOf(o) && r == q + |ObjBytes(o)|
    requires o.OPath? || o.ORunRange? || o.OMetaData?
    ensures DecObj(d, Cursor(q, None), b).0 == o && DecObj(d, Cursor(q, None), b).1 == Cursor(r, None)
    decreases o, 0
  {
    match o
    case OPath(p) => PathRoundTrip(d, q, p, b.path);
    case ORunRange(rr) => RunRangeRoundTrip(d, q, rr, b.runs);
    case OMetaData(m) => MetaDataRoundTrip(d, q, m, b.meta);
  }

  lemma {:induction false} ObjCasesMap(d: bytes, q: nat, o: Obj, b: Obj, r: nat)
    requires At(d, q, ObjBytes(o)) && |d| < TWO32 && WfObj(o)
    requires KindOf(b) == KindOf(o) && r == q + |ObjBytes(o)|
    requires o.O2DMap? || o.OVStore? || o.OExMap?
    ensures DecObj(d, Cursor(q, None), b).0 == o && DecObj(d, Cursor(q, None), b).1 == Cursor(r, None)
    decreases o, 0
  {
    match o
    case O2DMap(m) => MUON2DMapRoundTrip(d, q, m, b.map2d);
    case OVStore(s) => VStoreRoundTrip(d, q, s, b.store);
    case OExMap(em) => ExMapRoundTrip(d, q, em, b.exmap);
  }

  lemma {:induction false} ObjCasesCalib(d: bytes, q: nat, o: Obj, b: Obj, r: nat)
    requires At(d, q, ObjBytes(o)) && |d| < TWO32 && WfObj(o)
    requires KindOf(b) == KindOf(o) && r == q + |ObjBytes(o)|
    requires o.OCalibParamND? || o.OVCalibParam?
    ensures DecObj(d, Cursor(q, None), b).0 == o && DecObj(d, Cursor(q, None), b).1 == Cursor(r, None)
    decreases o, 0
  {
    match o
    case OCalibParamND(p) => CalibParamNDRoundTrip(d, q, p, b.param);
    case OVCalibParam(p) => VCalibParamRoundTrip(d, q, p, b.vparam);
  }

  // ---------------------------------------------------------------- Entry

  lemma EntryLayout(d: bytes, q: nat, e: Entry, n: nat, qa: nat, qi: nat, qm: nat, qw: nat)
    requires At(d, q, EntryBytes(e)) && |d| < TWO32 && n == |EntryBytes(e)| - HeaderSize
    requires qa == q + HeaderSize + 8 && qi == qa + |AnyBytes(e.obj)| && qm == qi + |IDBytes(e.id)|
    requires qw == qm + |MetaSlotBytes(e.meta)|
    ensures ReadVersion(d, Cursor(q, None)) == (1, q + HeaderSize, n, Cursor(q + HeaderSize, None))
    ensures At(d, q + HeaderSize, ObjectBytes(e.base)) && At(d, qa, AnyBytes(e.obj)) && At(d, qi, IDBytes(e.id))
    ensures At(d, qm, MetaSlotBytes(e.meta)) && At(d, qw, BoolByte(e.owner))
    ensures qw + 1 == q + HeaderSize + n <= |d|
  {
    var a, x, i, m, w := ObjectBytes(e.base), AnyBytes(e.obj), IDBytes(e.id), MetaSlotBytes(e.meta), BoolByte(e.owner);
    OpenFrameN(d, q, EntryKind, a + x + i + m + w, n);
    AtSplitAt(d, q + HeaderSize, a + x + i + m, w, qw);
    AtSplitAt(d, q + HeaderSize, a + x + i, m, qm);
    AtSplitAt(d, q + HeaderSize, a + x, i, qi);
    AtSplitAt(d, q + HeaderSize, a, x, qa);
  }

  // The components of an Entry in three parts: the header, the base and the object; the ID;
  // the meta slot and the owner flag.

  lemma {:induction false} EntryHead(d: bytes, q: nat, e: Entry, o: Entry, n: nat, qa: nat, qi: nat, qm: nat, qw: nat)
    requires At(d, q, EntryBytes(e)) && |d| < TWO32 && WfEntry(e) && n == |EntryBytes(e)| - HeaderSize
    requires qa == q + HeaderSize + 8 && qi == qa + |AnyBytes(e.obj)| && qm == qi + |IDBytes(e.id)|
    requires qw == qm + |MetaSlotBytes(e.meta)|
    ensures qw + 1 == q + HeaderSize + n <= |d|
    ensures ReadVersion(d, Cursor(q, None)) == (1, q + HeaderSize, n, Cursor(q + HeaderSize, None))
    ensures DecObject(d, Cursor(q + HeaderSize, None), o.base).0 == e.base
    ensures DecObject(d, Cursor(q + HeaderSize, None), o.base).1 == Cursor(qa, None)
    ensures DecAny(d, Cursor(qa, None)).0 == e.obj && DecAny(d, Cursor(qa, None)).1 == Cursor(qi, None)
    decreases e, 0
  {
    EntryLayout(d, q, e, n, qa, qi, qm, qw);
    ObjectRoundTrip(d, q + HeaderSize, e.base, o.base);
    AnyRoundTrip(d, qa, e.obj);
  }

  lemma EntryID(d: bytes, q: nat, e: Entry, o: Entry, n: nat, qa: nat, qi: nat, qm: nat, qw: nat)
    requires At(d, q, EntryBytes(e)) && |d| < TWO32 && WfEntry(e) && n == |EntryBytes(e)| - HeaderSize
    requires qa == q + HeaderSize + 8 && qi == qa + |AnyBytes(e.obj)| && qm == qi + |IDBytes(e.id)|
    requires qw == qm + |MetaSlotBytes(e.meta)|
    ensures DecID(d, Cursor(qi, None), o.id).0 == e.id && DecID(d, Cursor(qi, None), o.id).1 == Cursor(qm, None)
  {
    EntryLayout(d, q, e, n, qa, qi, qm, qw);
    IDRoundTrip(d, qi, e.id, o.id);
  }

  lemma {:induction false} EntryTail(d: bytes, q: nat, e: Entry, o: Entry, n: nat, qa: nat, qi: nat, qm: nat, qw: nat)
    requires At(d, q, EntryBytes(e)) && |d| < TWO32 && WfEntry(e) && n == |EntryBytes(e)| - HeaderSize
    requires qa == q + HeaderSize + 8 && qi == qa + |AnyBytes(e.obj)| && qm == qi + |IDBytes(e.id)|
    requires qw == qm + |MetaSlotBytes(e.meta)|
    ensures DecMetaSlot(d, Cursor(qm, None)).0 == e.meta && DecMetaSlot(d, Cursor(qm, None)).1 == Cursor(qw, None)
    ensures ReadBool(d, Cursor(qw, None)) == (e.owner, Cursor(qw + 1, None))
    decreases e, 0
  {
    EntryLayout(d, q, e, n, qa, qi, qm, qw);
    MetaSlotRoundTrip(d, qm, e.meta);
    ReadBoolAt(d, qw, e.owner);
  }

  lemma EntryAssemble(d: bytes, q: nat, e: Entry, o: Entry, n: nat, qa: nat, qi: nat, qm: nat, qw: nat)
    requires qw + 1 == q + HeaderSize + n <= |d|
    requires ReadVersion(d, Cursor(q, None)) == (1, q + HeaderSize, n, Cursor(q + HeaderSize, None))
    requires DecObject(d, Cursor(q + HeaderSize, None), o.base).0 == e.base
    requires DecObject(d, Cursor(q + HeaderSize, None), o.base).1 == Cursor(qa, None)
    requires DecAny(d, Cursor(qa, None)).0 == e.obj && DecAny(d, Cursor(qa, None)).1 == Cursor(qi, None)
    requires DecID(d, Cursor(qi, None), o.id).0 == e.id && DecID(d, Cursor(qi, None), o.id).1 == Cursor(qm, None)
    requires DecMetaSlot(d, Cursor(qm, None)).0 == e.meta && DecMetaSlot(d, Cursor(qm, None)).1 == Cursor(qw, None)
    requires ReadBool(d, Cursor(qw, None)) == (e.owner, Cursor(qw + 1, None))
    ensures DecEntry(d, Cursor(q, None), o).0 == e
    ensures DecEntry(d, Cursor(q, None), o).1 == Cursor(q + HeaderSize + n, None)
  {
  }

  lemma {:induction false} EntryRoundTrip(d: bytes, q: nat, e: Entry, o: Entry)
    requires At(d, q, EntryBytes(e)) && |d| < TWO32 && WfEntry(e)
    ensures DecEntry(d, Cursor(q, None), o).0 == e
    ensures DecEntry(d, Cursor(q, None), o).1 == Cursor(q + |EntryBytes(e)|, None)
    decreases e, 1
  {
    var qa := q + HeaderSize + 8;
    var qi := qa + |AnyBytes(e.obj)|;
    var qm := qi + |IDBytes(e.id)|;
    var qw := qm + |MetaSlotBytes(e.meta)|;
    var n := |EntryBytes(e)| - HeaderSize;
    EntryHead(d, q, e, o, n, qa, qi, qm, qw);
    EntryID(d, q, e, o, n, qa, qi, qm, qw);
    EntryTail(d, q, e, o, n, qa, qi, qm, qw);
    EntryAssemble(d, q, e, o, n, qa, qi, qm, qw);
  }

  /** The metadata slot accepts exactly what was written: nil, or a tagged MetaData. */
  lemma {:induction false} MetaSlotRoundTrip(d: bytes, q: nat, m: Option<MetaData>)
    requires At(d, q, MetaSlotBytes(m)) && |d| < TWO32
    requires m.Some? ==> WfMetaData(m.value)
    ensures DecMetaSlot(d, Cursor(q, None)).0 == m && DecMetaSlot(d, Cursor(q, None)).1 == Cursor(q + |MetaSlotBytes(m)|, None)
    decreases m, 0
  {
    match m
    case None =>
      NilRoundTrip(d, q);
    case Some(md) =>
      var q1 := q + 4 + |Class(MetaDataKind)|;
      MetaSlotSome(d, q, md, q1, q1 + |MetaDataBytes(md)|);
  }

  /** The non-nil case of `MetaSlotRoundTrip`, with the positions named. */
  lemma {:induction false} MetaSlotSome(d: bytes, q: nat, md: MetaData, q1: nat, r: nat)
    requires At(d, q, Tagged(MetaDataKind, MetaDataBytes(md))) && |d| < TWO32 && WfMetaData(md)
    requires q1 == q + 4 + |Class(MetaDataKind)| && r == q1 + |MetaDataBytes(md)|
    ensures DecMetaSlot(d, Cursor(q, None)).0 == Some(md) && DecMetaSlot(d, Cursor(q, None)).1 == Cursor(r, None)
    decreases md, 2
  {
    TagRoundTrip(d, q, MetaDataKind, MetaDataBytes(md), q1);
    MetaDataRoundTrip(d, q1, md, Blank(MetaDataKind).meta);
    MetaDataObj(d, q1, md, Blank(MetaDataKind), r);
    TaggedAssemble(d, q, OMetaData(md), MetaDataKind, q1, r);
    MetaSlotAssemble(d, q, md, r);
  }

  /** The blank MetaData decodes a MetaData object as the MetaData decoder does. */
  lemma MetaDataObj(d: bytes, q: nat, m: MetaData, b: Obj, r: nat)
    requires q <= |d| && b.OMetaData?
    requires DecMetaData(d, Cursor(q, None), b.meta).0 == m
    requires DecMetaData(d, Cursor(q, None), b.meta).1 == Cursor(r, None)
    ensures DecObj(d, Cursor(q, None), b).0 == OMetaData(m)
    ensures DecObj(d, Cursor(q, None), b).1 == Cursor(r, None)
  {
  }

  /** A slot holding a MetaData object is accepted by the metadata slot. */
  lemma MetaSlotAssemble(d: bytes, q: nat, m: MetaData, r: nat)
    requires q <= |d|
    requires DecAny(d, Cursor(q, None)).0 == Some(OMetaData(m)) && DecAny(d, Cursor(q, None)).1 == Cursor(r, None)
    ensures DecMetaSlot(d, Cursor(q, None)).0 == Some(m) && DecMetaSlot(d, Cursor(q, None)).1 == Cursor(r, None)
  {
  }

  // ---------------------------------------------------------------- MetaData

  lemma MetaDataLayout(d: bytes, q: nat, m: MetaData, n: nat, q2: nat, q3: nat, q5: nat, q6: nat)
    requires At(d, q, MetaDataBytes(m)) && |d| < TWO32 && n == |MetaDataBytes(m)| - HeaderSize
    requires q2 == q + HeaderSize + 8 + 4 + |m.cls| && q3 == q2 + 4 + |m.resp|
    requires q5 == q3 + 4 + 4 + |m.vers| && q6 == q5 + 4 + |m.comment|
    ensures ReadVersion(d, Cursor(q, None)) == (1, q + HeaderSize, n, Cursor(q + HeaderSize, None))
    ensures At(d, q + HeaderSize, ObjectBytes(m.base)) && At(d, q + HeaderSize + 8, Str(m.cls))
    ensures At(d, q2, Str(m.resp)) && At(d, q3, BE32(m.beam as int)) && At(d, q3 + 4, Str(m.vers))
    ensures At(d, q5, Str(m.comment)) && At(d, q6, MapBytes(m.props))
    ensures q6 + |MapBytes(m.props)| == q + HeaderSize + n <= |d|
  {
    var a, s0, s1, b := ObjectBytes(m.base), Str(m.cls), Str(m.resp), BE32(m.beam as int);
    var s2, s3, p := Str(m.vers), Str(m.comment), MapBytes(m.props);
    OpenFrameN(d, q, MetaDataKind, a + s0 + s1 + b + s2 + s3 + p, n);
    At7(d, q + HeaderSize, a, s0, s1, b, s2, s3, p);
  }

  lemma MetaDataNames(d: bytes, q: nat, m: MetaData, n: nat, q2: nat, q3: nat, q5: nat, q6: nat)
    requires At(d, q, MetaDataBytes(m)) && |d| < TWO32 && n == |MetaDataBytes(m)| - HeaderSize
    requires q2 == q + HeaderSize + 8 + 4 + |m.cls| && q3 == q2 + 4 + |m.resp|
    requires q5 == q3 + 4 + 4 + |m.vers| && q6 == q5 + 4 + |m.comment|
    ensures ReadString(d, Cursor(q + HeaderSize + 8, None)) == (m.cls, Cursor(q2, None))
    ensures ReadString(d, Cursor(q2, None)) == (m.resp, Cursor(q3, None))
  {
    MetaDataLayout(d, q, m, n, q2, q3, q5, q6);
    ReadStringAt(d, q + HeaderSize + 8, m.cls);
    ReadStringAt(d, q2, m.resp);
  }

  lemma MetaDataBeam(d: bytes, q: nat, m: MetaData, n: nat, q2: nat, q3: nat, q5: nat, q6: nat)
    requires At(d, q, MetaDataBytes(m)) && |d| < TWO32 && n == |MetaDataBytes(m)| - HeaderSize
    requires q2 == q + HeaderSize + 8 + 4 + |m.cls| && q3 == q2 + 4 + |m.resp|
    requires q5 == q3 + 4 + 4 + |m.vers| && q6 == q5 + 4 + |m.comment|
    ensures ReadU32(d, Cursor(q3, None)) == (m.beam, Cursor(q3 + 4, None))
    ensures ReadString(d, Cursor(q3 + 4, None)) == (m.vers, Cursor(q5, None))
  {
    MetaDataLayout(d, q, m, n, q2, q3, q5, q6);
    ReadU32ValAt(d, q3, m.beam);
    ReadStringAt(d, q3 + 4, m.vers);
  }

  lemma MetaDataComment(d: bytes, q: nat, m: MetaData, n: nat, q2: nat, q3: nat, q5: nat, q6: nat)
    requires At(d, q, MetaDataBytes(m)) && |d| < TWO32 && n == |MetaDataBytes(m)| - HeaderSize
    requires q2 == q + HeaderSize + 8 + 4 + |m.cls| && q3 == q2 + 4 + |m.resp|
    requires q5 == q3 + 4 + 4 + |m.vers| && q6 == q5 + 4 + |m.comment|
    ensures ReadString(d, Cursor(q5, None)) == (m.comment, Cursor(q6, None))
  {
    MetaDataLayout(d, q, m, n, q2, q3, q5, q6);
    ReadStringAt(d, q5, m.comment);
  }

  lemma {:induction false} MetaDataPieces(d: bytes, q: nat, m: MetaData, o: MetaData, n: nat, q2: nat, q3: nat, q5: nat, q6: nat)
    requires At(d, q, MetaDataBytes(m)) && |d| < TWO32 && WfMetaData(m) && n == |MetaDataBytes(m)| - HeaderSize
    requires q2 == q + HeaderSize + 8 + 4 + |m.cls| && q3 == q2 + 4 + |m.resp|
    requires q5 == q3 + 4 + 4 + |m.vers| && q6 == q5 + 4 + |m.comment|
    ensures ReadVersion(d, Cursor(q, None)) == (1, q + HeaderSize, n, Cursor(q + HeaderSize, None))
    ensures DecObject(d, Cursor(q + HeaderSize, None), o.base).0 == m.base
    ensures DecObject(d, Cursor(q + HeaderSize, None), o.base).1 == Cursor(q + HeaderSize + 8, None)
    ensures DecMap(d, Cursor(q6, None)).0 == m.props && DecMap(d, Cursor(q6, None)).1 == Cursor(q + HeaderSize + n, None)
    ensures q + HeaderSize + n <= |d|
    decreases m, 0
  {
    MetaDataLayout(d, q, m, n, q2, q3, q5, q6);
    ObjectRoundTrip(d, q + HeaderSize, m.base, o.base);
    MapRoundTrip(d, q6, m.props);
  }

  lemma MetaDataAssemble(d: bytes, q: nat, m: MetaData, o: MetaData, n: nat, q2: nat, q3: nat, q5: nat, q6: nat)
    requires q + HeaderSize + n <= |d|
    requires ReadVersion(d, Cursor(q, None)) == (1, q + HeaderSize, n, Cursor(q + HeaderSize, None))
    requires DecObject(d, Cursor(q + HeaderSize, None), o.base).0 == m.base
    requires DecObject(d, Cursor(q + HeaderSize, None), o.base).1 == Cursor(q + HeaderSize + 8, None)
    requires ReadString(d, Cursor(q + HeaderSize + 8, None)) == (m.cls, Cursor(q2, None))
    requires ReadString(d, Cursor(q2, None)) == (m.resp, Cursor(q3, None))
    requires ReadU32(d, Cursor(q3, None)) == (m.beam, Cursor(q3 + 4, None))
    requires ReadString(d, Cursor(q3 + 4, None)) == (m.vers, Cursor(q5, None))
    requires ReadString(d, Cursor(q5, None)) == (m.comment, Cursor(q6, None))
    requires DecMap(d, Cursor(q6, None)).0 == m.props && DecMap(d, Cursor(q6, None)).1 == Cursor(q + HeaderSize + n, None)
    ensures DecMetaData(d, Cursor(q, None), o).0 == m
    ensures DecMetaData(d, Cursor(q, None), o).1 == Cursor(q + HeaderSize + n, None)
  {
  }

  lemma {:induction false} MetaDataRoundTrip(d: bytes, q: nat, m: MetaData, o: MetaData)
    requires At(d, q, MetaDataBytes(m)) && |d| < TWO32 && WfMetaData(m)
    ensures DecMetaData(d, Cursor(q, None), o).0 == m
    ensures DecMetaData(d, Cursor(q, None), o).1 == Cursor(q + |MetaDataBytes(m)|, None)
    decreases m, 1
  {
    var q2 := q + HeaderSize + 8 + 4 + |m.cls|;
    var q3 := q2 + 4 + |m.resp|;
    var q5 := q3 + 4 + 4 + |m.vers|;
    var q6 := q5 + 4 + |m.comment|;
    var n := |MetaDataBytes(m)| - HeaderSize;
    MetaDataPieces(d, q, m, o, n, q2, q3, q5, q6);
    MetaDataNames(d, q, m, n, q2, q3, q5, q6);
    MetaDataBeam(d, q, m, n, q2, q3, q5, q6);
    MetaDataComment(d, q, m, n, q2, q3, q5, q6);
    MetaDataAssemble(d, q, m, o, n, q2, q3, q5, q6);
  }

  // ---------------------------------------------------------------- Map

  lemma {:induction false} MapRoundTrip(d: bytes, q: nat, ps: seq<Pair>)
    requires At(d, q, MapBytes(ps)) && |d| < TWO32 && WfPairs(ps)
    ensures DecMap(d, Cursor(q, None)).0 == ps && DecMap(d, Cursor(q, None)).1 == Cursor(q + |MapBytes(ps)|, None)
    decreases ps, 1
  {
    AtSplit(d, q, BE32(|ps|), PairsBytes(ps));
    ReadCountAt(d, q, |ps|);
    PairsRoundTrip(d, q + 4, ps);
  }

  lemma {:induction false} PairRoundTrip(d: bytes, q: nat, p: Pair, q1: nat, q2: nat)
    requires At(d, q, AnyBytes(p.key)) && At(d, q1, AnyBytes(p.val)) && |d| < TWO32
    requires WfAny(p.key) && WfAny(p.val)
    requires q1 == q + |AnyBytes(p.key)| && q2 == q1 + |AnyBytes(p.val)|
    ensures DecAny(d, Cursor(q, None)).0 == p.key && DecAny(d, Cursor(q, None)).1 == Cursor(q1, None)
    ensures DecAny(d, Cursor(q1, None)).0 == p.val && DecAny(d, Cursor(q1, None)).1 == Cursor(q2, None)
    decreases p, 0
  {
    AnyRoundTrip(d, q, p.key);
    AnyRoundTrip(d, q1, p.val);
  }

  lemma PairsLayout(d: bytes, q: nat, ps: seq<Pair>, init: seq<Pair>, last: Pair, q1: nat)
    requires ps != [] && init == ps[..|ps| - 1] && last == ps[|ps| - 1]
    requires At(d, q, PairsBytes(ps)) && q1 == q + |PairsBytes(init)|
    ensures At(d, q, PairsBytes(init)) && At(d, q1, PairBytes(last))
  {
    assert PairsBytes(ps) == PairsBytes(init) + PairBytes(last);
    AtSplitAt(d, q, PairsBytes(init), PairBytes(last), q1);
  }

  lemma PairLayout(d: bytes, q: nat, p: Pair, q1: nat, q2: nat)
    requires At(d, q, PairBytes(p))
    requires q1 == q + |AnyBytes(p.key)| && q2 == q1 + |AnyBytes(p.val)|
    ensures At(d, q, AnyBytes(p.key)) && At(d, q1, AnyBytes(p.val)) && q2 == q + |PairBytes(p)|
  {
    AtSplit(d, q, AnyBytes(p.key), AnyBytes(p.val));
  }

  lemma PairsAssemble(d: bytes, q: nat, init: seq<Pair>, key: Option<Obj>, val: Option<Obj>, q1: nat, q2: nat, q3: nat)
    requires q <= |d|
    requires DecPairs(d, Cursor(q, None), |init|).0 == init && DecPairs(d, Cursor(q, None), |init|).1 == Cursor(q1, None)
    requires DecAny(d, Cursor(q1, None)).0 == key && DecAny(d, Cursor(q1, None)).1 == Cursor(q2, None)
    requires DecAny(d, Cursor(q2, None)).0 == val && DecAny(d, Cursor(q2, None)).1 == Cursor(q3, None)
    ensures DecPairs(d, Cursor(q, None), |init| + 1).0 == init + [Pair(key, val)]
    ensures DecPairs(d, Cursor(q, None), |init| + 1).1 == Cursor(q3, None)
  {
  }

  /** A non-empty sequence is its prefix and its last element. */
  lemma SplitLast<T>(s: seq<T>)
    requires s != []
    ensures s[..|s| - 1] + [s[|s| - 1]] == s && |s[..|s| - 1]| + 1 == |s|
  {
  }

  lemma WfPairsInit(ps: seq<Pair>)
    requires WfPairs(ps) && ps != []
    ensures WfPairs(ps[..|ps| - 1]) && WfPair(ps[|ps| - 1])
  {
    var init := ps[..|ps| - 1];
    assert forall i :: 0 <= i < |init| ==> init[i] == ps[i];
  }

  lemma {:induction false} PairsRoundTrip(d: bytes, q: nat, ps: seq<Pair>)
    requires At(d, q, PairsBytes(ps)) && |d| < TWO32 && WfPairs(ps)
    ensures DecPairs(d, Cursor(q, None), |ps|).0 == ps
    ensures DecPairs(d, Cursor(q, None), |ps|).1 == Cursor(q + |PairsBytes(ps)|, None)
    decreases ps, 0
  {
    if ps != [] {
      var init, last := ps[..|ps| - 1], ps[|ps| - 1];
      var q1 := q + |PairsBytes(init)|;
      var q2 := q1 + |AnyBytes(last.key)|;
      var q3 := q2 + |AnyBytes(last.val)|;
      PairsLayout(d, q, ps, init, last, q1);
      PairLayout(d, q1, last, q2, q3);
      WfPairsInit(ps);
      PairsRoundTrip(d, q, init);
      PairRoundTrip(d, q1, last, q2, q3);
      PairsAssemble(d, q, init, last.key, last.val, q1, q2, q3);
      SplitLast(ps);
    }
  }

  // ---------------------------------------------------------------- AliMUON2DMap

  lemma MUON2DMapLayout(d: bytes, q: nat, m: AliMUON2DMap, n: nat, qb: nat)
    requires At(d, q, MUON2DMapBytes(m)) && |d| < TWO32 && n == |MUON2DMapBytes(m)| - HeaderSize
    requires qb == q + HeaderSize + 14 + |ExMapSlotBytes(m.exmap)|
    ensures ReadVersion(d, Cursor(q, None)) == (1, q + HeaderSize, n, Cursor(q + HeaderSize, None))
    ensures At(d, q + HeaderSize, VStoreBytes(m.base)) && At(d, q + HeaderSize + 14, ExMapSlotBytes(m.exmap))
    ensures At(d, qb, BoolByte(m.opt)) && qb + 1 == q + HeaderSize + n <= |d|
  {
    var s, x, b := VStoreBytes(m.base), ExMapSlotBytes(m.exmap), BoolByte(m.opt);
    OpenFrameN(d, q, MUON2DMapKind, s + x + b, n);
    At3(d, q + HeaderSize, s, x, b);
  }

  lemma {:induction false} MUON2DMapPieces(d: bytes, q: nat, m: AliMUON2DMap, o: AliMUON2DMap, n: nat, qb: nat)
    requires At(d, q, MUON2DMapBytes(m)) && |d| < TWO32 && WfMUON2DMap(m) && n == |MUON2DMapBytes(m)| - HeaderSize
    requires qb == q + HeaderSize + 14 + |ExMapSlotBytes(m.exmap)|
    ensures ReadVersion(d, Cursor(q, None)) == (1, q + HeaderSize, n, Cursor(q + HeaderSize, None))
    ensures DecVStore(d, Cursor(q + HeaderSize, None), o.base).0 == m.base
    ensures DecVStore(d, Cursor(q + HeaderSize, None), o.base).1 == Cursor(q + HeaderSize + 14, None)
    ensures DecExMapSlot(d, Cursor(q + HeaderSize + 14, None)).0 == m.exmap
    ensures DecExMapSlot(d, Cursor(q + HeaderSize + 14, None)).1 == Cursor(qb, None)
    ensures ReadBool(d, Cursor(qb, None)) == (m.opt, Cursor(qb + 1, None))
    ensures qb + 1 == q + HeaderSize + n <= |d|
    decreases m, 0
  {
    MUON2DMapLayout(d, q, m, n, qb);
    VStoreRoundTrip(d, q + HeaderSize, m.base, o.base);
    ExMapSlotRoundTrip(d, q + HeaderSize + 14, m.exmap);
    ReadBoolAt(d, qb, m.opt);
  }

  lemma MUON2DMapAssemble(d: bytes, q: nat, m: AliMUON2DMap, o: AliMUON2DMap, n: nat, qb: nat)
    requires qb + 1 == q + HeaderSize + n <= |d|
    requires ReadVersion(d, Cursor(q, None)) == (1, q + HeaderSize, n, Cursor(q + HeaderSize, None))
    requires DecVStore(d, Cursor(q + HeaderSize, None), o.base).0 == m.base
    requires DecVStore(d, Cursor(q + HeaderSize, None), o.base).1 == Cursor(q + HeaderSize + 14, None)
    requires DecExMapSlot(d, Cursor(q + HeaderSize + 14, None)).0 == m.exmap
    requires DecExMapSlot(d, Cursor(q + HeaderSize + 14, None)).1 == Cursor(qb, None)
    requires ReadBool(d, Cursor(qb, None)) == (m.opt, Cursor(qb + 1, None))
    ensures DecMUON2DMap(d, Cursor(q, None), o).0 == m
    ensures DecMUON2DMap(d, Cursor(q, None), o).1 == Cursor(q + HeaderSize + n, None)
  {
  }

  lemma {:induction false} MUON2DMapRoundTrip(d: bytes, q: nat, m: AliMUON2DMap, o: AliMUON2DMap)
    requires At(d, q, MUON2DMapBytes(m)) && |d| < TWO32 && WfMUON2DMap(m)
    ensures DecMUON2DMap(d, Cursor(q, None), o).0 == m
    ensures DecMUON2DMap(d, Cursor(q, None), o).1 == Cursor(q + |MUON2DMapBytes(m)|, None)
    decreases m, 1
  {
    var qb := q + HeaderSize + 14 + |ExMapSlotBytes(m.exmap)|;
    var n := |MUON2DMapBytes(m)| - HeaderSize;
    MUON2DMapPieces(d, q, m, o, n, qb);
    MUON2DMapAssemble(d, q, m, o, n, qb);
  }

  /** The exmap slot accepts exactly what was written: nil, or a tagged AliMpExMap. */
  lemma {:induction false} ExMapSlotRoundTrip(d: bytes, q: nat, x: Option<AliMpExMap>)
    requires At(d, q, ExMapSlotBytes(x)) && |d| < TWO32
    requires x.Some? ==> WfExMap(x.value)
    ensures DecExMapSlot(d, Cursor(q, None)).0 == x && DecExMapSlot(d, Cursor(q, None)).1 == Cursor(q + |ExMapSlotBytes(x)|, None)
    decreases x, 0
  {
    match x
    case None =>
      NilRoundTrip(d, q);
    case Some(em) =>
      var q1 := q + 4 + |Class(MpExMapKind)|;
      ExMapSlotSome(d, q, em, q1, q1 + |ExMapBytes(em)|);
  }

  /** The non-nil case of `ExMapSlotRoundTrip`, with the positions named. */
  lemma {:induction false} ExMapSlotSome(d: bytes, q: nat, em: AliMpExMap, q1: nat, r: nat)
    requires At(d, q, Tagged(MpExMapKind, ExMapBytes(em))) && |d| < TWO32 && WfExMap(em)
    requires q1 == q + 4 + |Class(MpExMapKind)| && r == q1 + |ExMapBytes(em)|
    ensures DecExMapSlot(d, Cursor(q, None)).0 == Some(em) && DecExMapSlot(d, Cursor(q, None)).1 == Cursor(r, None)
    decreases em, 2
  {
    TagRoundTrip(d, q, MpExMapKind, ExMapBytes(em), q1);
    ExMapRoundTrip(d, q1, em, Blank(MpExMapKind).exmap);
    ExMapObj(d, q1, em, Blank(MpExMapKind), r);
    TaggedAssemble(d, q, OExMap(em), MpExMapKind, q1, r);
    ExMapSlotAssemble(d, q, em, r);
  }

  /** The blank AliMpExMap decodes an AliMpExMap object as the AliMpExMap decoder does. */
  lemma ExMapObj(d: bytes, q: nat, x: AliMpExMap, b: Obj, r: nat)
    requires q <= |d| && b.OExMap?
    requires DecExMap(d, Cursor(q, None), b.exmap).0 == x
    requires DecExMap(d, Cursor(q, None), b.exmap).1 == Cursor(r, None)
    ensures DecObj(d, Cursor(q, None), b).0 == OExMap(x)
    ensures DecObj(d, Cursor(q, None), b).1 == Cursor(r, None)
  {
  }

  /** A slot holding an AliMpExMap object is accepted by the exmap slot. */
  lemma ExMapSlotAssemble(d: bytes, q: nat, x: AliMpExMap, r: nat)
    requires q <= |d|
    requires DecAny(d, Cursor(q, None)).0 == Some(OExMap(x)) && DecAny(d, Cursor(q, None)).1 == Cursor(r, None)
    ensures DecExMapSlot(d, Cursor(q, None)).0 == Some(x) && DecExMapSlot(d, Cursor(q, None)).1 == Cursor(r, None)
  {
  }

  // ---------------------------------------------------------------- AliMpExMap

  lemma ExMapLayout(d: bytes, q: nat, x: AliMpExMap, n: nat, qk: nat)
    requires At(d, q, ExMapBytes(x)) && |d| < TWO32 && n == |ExMapBytes(x)| - HeaderSize
    requires qk == q + HeaderSize + 8 + |ObjArrayBytes(x.objs)|
    ensures ReadVersion(d, Cursor(q, None)) == (1, q + HeaderSize, n, Cursor(q + HeaderSize, None))
    ensures At(d, q + HeaderSize, ObjectBytes(x.base)) && At(d, q + HeaderSize + 8, ObjArrayBytes(x.objs))
    ensures At(d, qk, KeysBytes(x.keys)) && qk + |KeysBytes(x.keys)| == q + HeaderSize + n <= |d|
  {
    var a, s, k := ObjectBytes(x.base), ObjArrayBytes(x.objs), KeysBytes(x.keys);
    OpenFrameN(d, q, MpExMapKind, a + s + k, n);
    At3(d, q + HeaderSize, a, s, k);
  }

  lemma {:induction false} ExMapPieces(d: bytes, q: nat, x: AliMpExMap, o: AliMpExMap, n: nat, qk: nat)
    requires At(d, q, ExMapBytes(x)) && |d| < TWO32 && WfExMap(x) && n == |ExMapBytes(x)| - HeaderSize
    requires qk == q + HeaderSize + 8 + |ObjArrayBytes(x.objs)|
    ensures ReadVersion(d, Cursor(q, None)) == (1, q + HeaderSize, n, Cursor(q + HeaderSize, None))
    ensures DecObject(d, Cursor(q + HeaderSize, None), o.base).0 == x.base
    ensures DecObject(d, Cursor(q + HeaderSize, None), o.base).1 == Cursor(q + HeaderSize + 8, None)
    ensures DecObjArray(d, Cursor(q + HeaderSize + 8, None)).0 == x.objs
    ensures DecObjArray(d, Cursor(q + HeaderSize + 8, None)).1 == Cursor(qk, None)
    ensures DecArrayL64(d, Cursor(qk, None)).0 == x.keys
    ensures DecArrayL64(d, Cursor(qk, None)).1 == Cursor(q + HeaderSize + n, None)
    ensures q + HeaderSize + n <= |d|
    decreases x, 0
  {
    ExMapLayout(d, q, x, n, qk);
    ObjectRoundTrip(d, q + HeaderSize, x.base, o.base);
    ObjArrayRoundTrip(d, q + HeaderSize + 8, x.objs);
    KeysRoundTrip(d, qk, x.keys);
  }

  lemma ExMapAssemble(d: bytes, q: nat, x: AliMpExMap, o: AliMpExMap, n: nat, qk: nat)
    requires q + HeaderSize + n <= |d|
    requires ReadVersion(d, Cursor(q, None)) == (1, q + HeaderSize, n, Cursor(q + HeaderSize, None))
    requires DecObject(d, Cursor(q + HeaderSize, None), o.base).0 == x.base
    requires DecObject(d, Cursor(q + HeaderSize, None), o.base).1 == Cursor(q + HeaderSize + 8, None)
    requires DecObjArray(d, Cursor(q + HeaderSize + 8, None)).0 == x.objs
    requires DecObjArray(d, Cursor(q + HeaderSize + 8, None)).1 == Cursor(qk, None)
    requires DecArrayL64(d, Cursor(qk, None)).0 == x.keys
    requires DecArrayL64(d, Cursor(qk, None)).1 == Cursor(q + HeaderSize + n, None)
    ensures DecExMap(d, Cursor(q, None), o).0 == x
    ensures DecExMap(d, Cursor(q, None), o).1 == Cursor(q + HeaderSize + n, None)
  {
  }

  lemma {:induction false} ExMapRoundTrip(d: bytes, q: nat, x: AliMpExMap, o: AliMpExMap)
    requires At(d, q, ExMapBytes(x)) && |d| < TWO32 && WfExMap(x)
    ensures DecExMap(d, Cursor(q, None), o).0 == x
    ensures DecExMap(d, Cursor(q, None), o).1 == Cursor(q + |ExMapBytes(x)|, None)
    decreases x, 1
  {
    var qk := q + HeaderSize + 8 + |ObjArrayBytes(x.objs)|;
    var n := |ExMapBytes(x)| - HeaderSize;
    ExMapPieces(d, q, x, o, n, qk);
    ExMapAssemble(d, q, x, o, n, qk);
  }

  // ---------------------------------------------------------------- object arrays

  lemma {:induction false} ObjArrayRoundTrip(d: bytes, q: nat, s: seq<Option<Obj>>)
    requires At(d, q, ObjArrayBytes(s)) && |d| < TWO32
    requires forall i :: 0 <= i < |s| ==> WfAny(s[i])
    ensures DecObjArray(d, Cursor(q, None)).0 == s && DecObjArray(d, Cursor(q, None)).1 == Cursor(q + |ObjArrayBytes(s)|, None)
    decreases s, 1
  {
    AtSplit(d, q, BE32(|s|), ObjsBytes(s));
    ReadCountAt(d, q, |s|);
    ObjsRoundTrip(d, q + 4, s);
  }

  lemma ObjsLayout(d: bytes, q: nat, s: seq<Option<Obj>>, init: seq<Option<Obj>>, last: Option<Obj>, q1: nat, q2: nat)
    requires s != [] && init == s[..|s| - 1] && last == s[|s| - 1]
    requires At(d, q, ObjsBytes(s)) && q1 == q + |ObjsBytes(init)| && q2 == q1 + |AnyBytes(last)|
    ensures At(d, q, ObjsBytes(init)) && At(d, q1, AnyBytes(last)) && q2 == q + |ObjsBytes(s)|
  {
    assert ObjsBytes(s) == ObjsBytes(init) + AnyBytes(last);
    AtSplitAt(d, q, ObjsBytes(init), AnyBytes(last), q1);
  }

  lemma WfObjsInit(s: seq<Option<Obj>>, init: seq<Option<Obj>>)
    requires s != [] && init == s[..|s| - 1]
    requires forall i :: 0 <= i < |s| ==> WfAny(s[i])
    ensures (forall i :: 0 <= i < |init| ==> WfAny(init[i])) && WfAny(s[|s| - 1])
  {
    assert forall i :: 0 <= i < |init| ==> init[i] == s[i];
  }

  lemma ObjsAssemble(d: bytes, q: nat, init: seq<Option<Obj>>, x: Option<Obj>, q1: nat, q2: nat)
    requires q <= |d|
    requires DecObjs(d, Cursor(q, None), |init|).0 == init && DecObjs(d, Cursor(q, None), |init|).1 == Cursor(q1, None)
    requires DecAny(d, Cursor(q1, None)).0 == x && DecAny(d, Cursor(q1, None)).1 == Cursor(q2, None)
    ensures DecObjs(d, Cursor(q, None), |init| + 1).0 == init + [x]
    ensures DecObjs(d, Cursor(q, None), |init| + 1).1 == Cursor(q2, None)
  {
  }

  lemma {:induction false} ObjsRoundTrip(d: bytes, q: nat, s: seq<Option<Obj>>)
    requires At(d, q, ObjsBytes(s)) && |d| < TWO32
    requires forall i :: 0 <= i < |s| ==> WfAny(s[i])
    ensures DecObjs(d, Cursor(q, None), |s|).0 == s && DecObjs(d, Cursor(q, None), |s|).1 == Cursor(q + |ObjsBytes(s)|, None)
    decreases s, 0
  {
    if s != [] {
      var init, last := s[..|s| - 1], s[|s| - 1];
      var q1 := q + |ObjsBytes(init)|;
      var q2 := q1 + |AnyBytes(last)|;
      ObjsLayout(d, q, s, init, last, q1, q2);
      WfObjsInit(s, init);
      ObjsRoundTrip(d, q, init);
      AnyRoundTrip(d, q1, last);
      ObjsAssemble(d, q, init, last, q1, q2);
      SplitLast(s);
    }
  }

  // ================================================================ framing

  /** The header of a finished frame: the version, then the number of bytes after the count. */
  predicate IsFrame(s: bytes) {
    |s| >= HeaderSize && s[..2] == BE16(1) && s[2..HeaderSize] == BE32(|s| - HeaderSize)
  }

  lemma FrameIsFrame(k: Kind, payload: bytes)
    ensures IsFrame(Frame(k, payload))
  {
    var s := Frame(k, payload);
    assert s[..2] == BE16(1);
    assert s[2..HeaderSize] == BE32(|payload|);
  }

  /** Every encoded record is a finished frame of version 1 whose count is the size of what follows. */
  lemma ObjFraming(o: Obj)
    ensures IsFrame(ObjBytes(o))
  {
    if o.OEntry? || o.OID? || o.OPath? || o.ORunRange? || o.OMetaData? {
      FramingEntry(o);
    } else {
      FramingMap(o);
    }
  }

  lemma FramingEntry(o: Obj)
    requires o.OEntry? || o.OID? || o.OPath? || o.ORunRange? || o.OMetaData?
    ensures IsFrame(ObjBytes(o))
  {
    forall k: Kind, payload: bytes
      ensures IsFrame(Frame(k, payload))
    {
      FrameIsFrame(k, payload);
    }
    match o
    case OEntry(e) =>
    case OID(id) =>
    case OPath(p) =>
    case ORunRange(rr) =>
    case OMetaData(m) =>
  }

  lemma FramingMap(o: Obj)
    requires o.O2DMap? || o.OVStore? || o.OExMap? || o.OCalibParamND? || o.OVCalibParam?
    ensures IsFrame(ObjBytes(o))
  {
    forall k: Kind, payload: bytes
      ensures IsFrame(Frame(k, payload))
    {
      FrameIsFrame(k, payload);
    }
    match o
    case O2DMap(m) =>
    case OVStore(s) =>
    case OExMap(em) =>
    case OCalibParamND(p) =>
    case OVCalibParam(p) =>
  }

  /** The count of a frame sitting at `q`, read from any prefix of `d` that holds the header. */
  lemma DeclaredCount(d: bytes, q: nat, s: bytes, m: nat)
    requires At(d, q, s) && IsFrame(s) && |d| < TWO32 && m <= |d|
    ensures q + HeaderSize <= m ==> Val32(d[..m][q + 2..q + HeaderSize]) == |s| - HeaderSize
  {
    if q + HeaderSize <= m {
      assert d[..m][q + 2..q + HeaderSize] == d[q + 2..q + HeaderSize];
      AtSlice(d, q, s, 2, HeaderSize);
      Val32BE32(|s| - HeaderSize);
    }
  }

  /** A record cut short anywhere is rejected: its frame declares more than the buffer holds. */
  lemma TruncationDetected(d: bytes, q: nat, o: Obj, b: Obj, m: nat)
    requires At(d, q, ObjBytes(o)) && |d| < TWO32 && q <= m < q + |ObjBytes(o)|
    ensures DecObj(d[..m], Cursor(q, None), b).1.err.Some?
  {
    ObjFraming(o);
    DeclaredCount(d, q, ObjBytes(o), m);
  }

  // ================================================================ rejected input

  /** A class name that no record type carries is an `UnknownClass` error, at the end of the name. */
  lemma UnknownClassRejected(d: bytes, q: nat, name: bytes)
    requires At(d, q, Str(name)) && |d| < TWO32 && name != []
    requires forall k: Kind :: Class(k) != FromLatin1(name)
    ensures DecAny(d, Cursor(q, None)).0 == None
    ensures DecAny(d, Cursor(q, None)).1 == Cursor(q + 4 + |name|, Some(UnknownClass(FromLatin1(name))))
  {
    ReadStringAt(d, q, name);
    TableNames(FromLatin1(name));
    assert Lookup(FromLatin1(name)) == None;
  }

  /** A non-nil `*MetaData` slot holding another record type is a `WrongType` error. */
  lemma MetaSlotWrongType(d: bytes, q: nat, o: Obj, r: nat)
    requires At(d, q, AnyBytes(Some(o))) && |d| < TWO32 && WfObj(o) && !o.OMetaData?
    requires r == q + |AnyBytes(Some(o))|
    ensures DecMetaSlot(d, Cursor(q, None)).0 == None
    ensures DecMetaSlot(d, Cursor(q, None)).1 == Cursor(r, Some(WrongType(Class(MetaDataKind), Class(KindOf(o)))))
  {
    AnyRoundTrip(d, q, Some(o));
    MetaSlotRejects(d, q, o, r);
  }

  /** A non-nil `*AliMpExMap` slot holding another record type is a `WrongType` error. */
  lemma ExMapSlotWrongType(d: bytes, q: nat, o: Obj, r: nat)
    requires At(d, q, AnyBytes(Some(o))) && |d| < TWO32 && WfObj(o) && !o.OExMap?
    requires r == q + |AnyBytes(Some(o))|
    ensures DecExMapSlot(d, Cursor(q, None)).0 == None
    ensures DecExMapSlot(d, Cursor(q, None)).1 == Cursor(r, Some(WrongType(Class(MpExMapKind), Class(KindOf(o)))))
  {
    AnyRoundTrip(d, q, Some(o));
    ExMapSlotRejects(d, q, o, r);
  }

  lemma MetaSlotRejects(d: bytes, q: nat, o: Obj, r: nat)
    requires q <= |d| && !o.OMetaData?
    requires DecAny(d, Cursor(q, None)).0 == Some(o) && DecAny(d, Cursor(q, None)).1 == Cursor(r, None)
    ensures DecMetaSlot(d, Cursor(q, None)).0 == None
    ensures DecMetaSlot(d, Cursor(q, None)).1 == Cursor(r, Some(WrongType(Class(MetaDataKind), Class(KindOf(o)))))
  {
  }

  lemma ExMapSlotRejects(d: bytes, q: nat, o: Obj, r: nat)
    requires q <= |d| && !o.OExMap?
    requires DecAny(d, Cursor(q, None)).0 == Some(o) && DecAny(d, Cursor(q, None)).1 == Cursor(r, None)
    ensures DecExMapSlot(d, Cursor(q, None)).0 == None
    ensures DecExMapSlot(d, Cursor(q, None)).1 == Cursor(r, Some(WrongType(Class(MpExMapKind), Class(KindOf(o)))))
  {
  }

  /** A CalibParamND whose declared count `n` is not the number of its values does not come back:
      the reader takes `n` words, so the frame check (or the read itself) fails. With
      `CalibParamNDRoundTrip` this makes `n == |vs|` exactly the condition for a round trip. */
  lemma CalibParamNDCountMismatch(d: bytes, q: nat, p: AliMUONCalibParamND, o: AliMUONCalibParamND)
    requires At(d, q, CalibParamNDBytes(p)) && |d| < TWO32 && p.n as int != |p.vs|
    ensures DecCalibParamND(d, Cursor(q, None), o).1.err.Some?
  {
    CalibParamNDHead(d, q, p, o);
    CalibParamNDSizes(d, q, p);
    CalibParamNDValues(d, q, p);
  }

  // ================================================================ nested failures abort

  /** A failing base object ends the Entry decode there: nothing after it is read. */
  lemma EntryAbortsOnBase(d: bytes, c: Cursor, o: Entry, c2: Cursor)
    requires c.pos <= |d| && c.err.None?
    requires c2 == DecObject(d, ReadVersion(d, c).3, o.base).1 && c2.err.Some?
    ensures DecEntry(d, c, o).1 == c2
    ensures DecEntry(d, c, o).0 == o.(base := DecObject(d, ReadVersion(d, c).3, o.base).0)
  {
  }

  /** A failing ID ends the Entry decode there: the meta slot and the owner flag are not read. */
  lemma EntryAbortsOnID(d: bytes, c: Cursor, o: Entry, c2: Cursor, c3: Cursor)
    requires c.pos <= |d| && c.err.None?
    requires c2 == DecObject(d, ReadVersion(d, c).3, o.base).1 && c2.err.None?
    requires c3 == DecAny(d, c2).1 && DecID(d, c3, o.id).1.err.Some?
    ensures DecEntry(d, c, o).1 == DecID(d, c3, o.id).1
    ensures DecEntry(d, c, o).0.meta == o.meta && DecEntry(d, c, o).0.owner == o.owner
  {
  }

  /** A failing path ends the ID decode there: the run range and the versions are not read. */
  lemma IDAbortsOnPath(d: bytes, c: Cursor, o: ID, c2: Cursor)
    requires c.pos <= |d| && c.err.None?
    requires c2 == DecObject(d, ReadVersion(d, c).3, o.base).1 && c2.err.None?
    requires DecPath(d, c2, o.path).1.err.Some?
    ensures DecID(d, c, o).1 == DecPath(d, c2, o.path).1
    ensures DecID(d, c, o).0.runs == o.runs && DecID(d, c, o).0.vers == o.vers
    ensures DecID(d, c, o).0.subvers == o.subvers && DecID(d, c, o).0.last == o.last
  {
  }

  /** A failing run range ends the ID decode there: the versions and the last storage are not read. */
  lemma IDAbortsOnRuns(d: bytes, c: Cursor, o: ID, c2: Cursor, c3: Cursor)
    requires c.pos <= |d| && c.err.None?
    requires c2 == DecObject(d, ReadVersion(d, c).3, o.base).1 && c2.err.None?
    requires c3 == DecPath(d, c2, o.path).1 && c3.err.None?
    requires DecRunRange(d, c3, o.runs).1.err.Some?
    ensures DecID(d, c, o).1 == DecRunRange(d, c3, o.runs).1
    ensures DecID(d, c, o).0.vers == o.vers && DecID(d, c, o).0.subvers == o.subvers
    ensures DecID(d, c, o).0.last == o.last
  {
  }

  /** A failing object array ends the AliMpExMap decode there: the keys are not read. */
  lemma ExMapAbortsOnObjs(d: bytes, c: Cursor, o: AliMpExMap, c2: Cursor)
    requires c.pos <= |d| && c.err.None?
    requires c2 == DecObject(d, ReadVersion(d, c).3, o.base).1 && c2.err.None?
    requires DecObjArray(d, c2).1.err.Some?
    ensures DecExMap(d, c, o).1 == DecObjArray(d, c2).1
    ensures DecExMap(d, c, o).0.keys == o.keys
  {
  }

  /** A failing base object ends the ID decode there: path, run range and versions are not read. */
  lemma IDAbortsOnBase(d: bytes, c: Cursor, o: ID, c2: Cursor)
    requires c.pos <= |d| && c.err.None?
    requires c2 == DecObject(d, ReadVersion(d, c).3, o.base).1 && c2.err.Some?
    ensures DecID(d, c, o).1 == c2
    ensures DecID(d, c, o).0 == o.(base := DecObject(d, ReadVersion(d, c).3, o.base).0)
  {
  }

  /** A failing base object ends the Path decode there: the strings and flags are not read. */
  lemma PathAbortsOnBase(d: bytes, c: Cursor, o: Path, c2: Cursor)
    requires c.pos <= |d| && c.err.None?
    requires c2 == DecObject(d, ReadVersion(d, c).3, o.base).1 && c2.err.Some?
    ensures DecPath(d, c, o).1 == c2
    ensures DecPath(d, c, o).0 == o.(base := DecObject(d, ReadVersion(d, c).3, o.base).0)
  {
  }

  /** A failing base object ends the RunRange decode there: the bounds are not read. */
  lemma RunRangeAbortsOnBase(d: bytes, c: Cursor, o: RunRange, c2: Cursor)
    requires c.pos <= |d| && c.err.None?
    requires c2 == DecObject(d, ReadVersion(d, c).3, o.base).1 && c2.err.Some?
    ensures DecRunRange(d, c, o).1 == c2
    ensures DecRunRange(d, c, o).0 == o.(base := DecObject(d, ReadVersion(d, c).3, o.base).0)
  {
  }

  /** A failing base object ends the MetaData decode there: the strings and the map are not read. */
  lemma MetaDataAbortsOnBase(d: bytes, c: Cursor, o: MetaData, c2: Cursor)
    requires c.pos <= |d| && c.err.None?
    requires c2 == DecObject(d, ReadVersion(d, c).3, o.base).1 && c2.err.Some?
    ensures DecMetaData(d, c, o).1 == c2
    ensures DecMetaData(d, c, o).0 == o.(base := DecObject(d, ReadVersion(d, c).3, o.base).0)
  {
  }

  /** A failing property map ends the MetaData decode there, before the frame check: the
      cursor is the map's, and the comment and everything before it keep what was read. */
  lemma MetaDataAbortsOnProps(d: bytes, c: Cursor, o: MetaData, c2: Cursor, c7: Cursor)
    requires c.pos <= |d| && c.err.None?
    requires c2 == DecObject(d, ReadVersion(d, c).3, o.base).1 && c2.err.None?
    requires c7 == ReadString(d, ReadString(d, ReadU32(d, ReadString(d, ReadString(d, c2).1).1).1).1).1
    requires DecMap(d, c7).1.err.Some?
    ensures DecMetaData(d, c, o).1 == DecMap(d, c7).1
    ensures DecMetaData(d, c, o).0.props == DecMap(d, c7).0
  {
  }

  /** A failing store base ends the AliMUON2DMap decode there: the exmap slot and the flag are not read. */
  lemma MUON2DMapAbortsOnBase(d: bytes, c: Cursor, o: AliMUON2DMap, c2: Cursor)
    requires c.pos <= |d| && c.err.None?
    requires c2 == DecVStore(d, ReadVersion(d, c).3, o.base).1 && c2.err.Some?
    ensures DecMUON2DMap(d, c, o).1 == c2
    ensures DecMUON2DMap(d, c, o).0 == o.(base := DecVStore(d, ReadVersion(d, c).3, o.base).0)
  {
  }

  /** A failing base object ends the AliMUONVStore decode there, before the frame check. */
  lemma VStoreAbortsOnBase(d: bytes, c: Cursor, o: AliMUONVStore, c2: Cursor)
    requires c.pos <= |d| && c.err.None?
    requires c2 == DecObject(d, ReadVersion(d, c).3, o.base).1 && c2.err.Some?
    ensures DecVStore(d, c, o).1 == c2
    ensures DecVStore(d, c, o).0 == o.(base := DecObject(d, ReadVersion(d, c).3, o.base).0)
  {
  }

  /** A failing base object ends the AliMpExMap decode there: the objects and keys are not read. */
  lemma ExMapAbortsOnBase(d: bytes, c: Cursor, o: AliMpExMap, c2: Cursor)
    requires c.pos <= |d| && c.err.None?
    requires c2 == DecObject(d, ReadVersion(d, c).3, o.base).1 && c2.err.Some?
    ensures DecExMap(d, c, o).1 == c2
    ensures DecExMap(d, c, o).0 == o.(base := DecObject(d, ReadVersion(d, c).3, o.base).0)
  {
  }

  /** A failing key array ends the AliMpExMap decode there, before the frame check. */
  lemma ExMapAbortsOnKeys(d: bytes, c: Cursor, o: AliMpExMap, c2: Cursor, c4: Cursor)
    requires c.pos <= |d| && c.err.None?
    requires c2 == DecObject(d, ReadVersion(d, c).3, o.base).1 && c2.err.None?
    requires c4 == DecObjArray(d, c2).1 && c4.err.None?
    requires DecArrayL64(d, c4).1.err.Some?
    ensures DecExMap(d, c, o).1 == DecArrayL64(d, c4).1
    ensures DecExMap(d, c, o).0.objs == DecObjArray(d, c2).0
    ensures DecExMap(d, c, o).0.keys == DecArrayL64(d, c4).0
  {
  }

  /** A failing parameter base ends the AliMUONCalibParamND decode there: the sizes and values are not read. */
  lemma CalibParamNDAbortsOnBase(d: bytes, c: Cursor, o: AliMUONCalibParamND, c2: Cursor)
    requires c.pos <= |d| && c.err.None?
    requires c2 == DecVCalibParam(d, ReadVersion(d, c).3, o.base).1 && c2.err.Some?
    ensures DecCalibParamND(d, c, o).1 == c2
    ensures DecCalibParamND(d, c, o).0 == o.(base := DecVCalibParam(d, ReadVersion(d, c).3, o.base).0)
  {
  }

  /** A failing base object ends the AliMUONVCalibParam decode there, before the frame check. */
  lemma VCalibParamAbortsOnBase(d: bytes, c: Cursor, o: AliMUONVCalibParam, c2: Cursor)
    requires c.pos <= |d| && c.err.None?
    requires c2 == DecObject(d, ReadVersion(d, c).3, o.base).1 && c2.err.Some?
    ensures DecVCalibParam(d, c, o).1 == c2
    ensures DecVCalibParam(d, c, o).0 == o.(base := DecObject(d, ReadVersion(d, c).3, o.base).0)
  {
  }

  // ================================================================ the registry and the decoder

  /** Every registered name resolves to a blank that decodes any record of its class. */
  lemma RegisteredDecodes(name: string, d: bytes, q: nat, o: Obj)
    requires name in Table() && Class(KindOf(o)) == name
    requires At(d, q, ObjBytes(o)) && |d| < TWO32 && WfObj(o)
    ensures Lookup(name).Some? && KindOf(Lookup(name).value) == KindOf(o)
    ensures DecObj(d, Cursor(q, None), Lookup(name).value).0 == o
    ensures DecObj(d, Cursor(q, None), Lookup(name).value).1 == Cursor(q + |ObjBytes(o)|, None)
  {
    ResolveClass(KindOf(o));
    ObjRoundTrip(d, q, o, Blank(KindOf(o)));
  }
}
