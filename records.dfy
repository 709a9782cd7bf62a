/** The ten OCDB record types as values, and their class identity.
    Every record embeds a base object; polymorphic slots hold an `Obj`,
    the closed union of the ten registered classes. */
module Records {
  import opened Wire

  /** The embedded base object (`rbase.Object`): a unique id and status bits. */
  datatype Object = Object(uid: u32, bits: u32)

  /** A provenance path. */
  datatype Path = Path(base: Object, path: bytes, lvl0: bytes, lvl1: bytes, lvl2: bytes,
                       valid: bool, wildcard: bool)

  /** A [first, last] range of run numbers. */
  datatype RunRange = RunRange(base: Object, first: i32, last: i32)

  /** The identifier of an entry. */
  datatype ID = ID(base: Object, path: Path, runs: RunRange, vers: i32, subvers: i32, last: bytes)

  /** One key/value association of a `rcont.Map`; both sides are polymorphic slots. */
  datatype Pair = Pair(key: Option<Obj>, val: Option<Obj>)

  /** Optional metadata of an entry. */
  datatype MetaData = MetaData(base: Object, cls: bytes, resp: bytes, beam: u32, vers: bytes,
                               comment: bytes, props: seq<Pair>)

  /** One entry of an OCDB file. */
  datatype Entry = Entry(base: Object, obj: Option<Obj>, id: ID, meta: Option<MetaData>, owner: bool)

  datatype AliMUONVStore = AliMUONVStore(base: Object)

  /** An object array and an array of 64-bit keys. */
  datatype AliMpExMap = AliMpExMap(base: Object, objs: seq<Option<Obj>>, keys: seq<i64>)

  datatype AliMUON2DMap = AliMUON2DMap(base: AliMUONVStore, exmap: Option<AliMpExMap>, opt: bool)

  datatype AliMUONVCalibParam = AliMUONVCalibParam(base: Object)

  /** Calibration values; `vs` are opaque 64-bit words (floating point in the source). */
  datatype AliMUONCalibParamND = AliMUONCalibParamND(base: AliMUONVCalibParam, dim: i32, size: i32,
                                                     n: i32, vs: seq<u64>)

  /** Any record that a polymorphic slot can hold. */
  datatype Obj =
    | OEntry(entry: Entry)
    | OID(id: ID)
    | OPath(path: Path)
    | ORunRange(runs: RunRange)
    | OMetaData(meta: MetaData)
    | O2DMap(map2d: AliMUON2DMap)
    | OVStore(store: AliMUONVStore)
    | OExMap(exmap: AliMpExMap)
    | OCalibParamND(param: AliMUONCalibParamND)
    | OVCalibParam(vparam: AliMUONVCalibParam)

  datatype Kind =
    | EntryKind | IDKind | PathKind | RunRangeKind | MetaDataKind
    | MUON2DMapKind | MUONVStoreKind | MpExMapKind | MUONCalibParamNDKind | MUONVCalibParamKind

  function KindOf(o: Obj): Kind {
    match o
    case OEntry(_) => EntryKind
    case OID(_) => IDKind
    case OPath(_) => PathKind
    case ORunRange(_) => RunRangeKind
    case OMetaData(_) => MetaDataKind
    case O2DMap(_) => MUON2DMapKind
    case OVStore(_) => MUONVStoreKind
    case OExMap(_) => MpExMapKind
    case OCalibParamND(_) => MUONCalibParamNDKind
    case OVCalibParam(_) => MUONVCalibParamKind
  }

  /** The `Class()` name of each record type. */
  function Class(k: Kind): (name: string)
    ensures |name| > 0 && IsLatin1(name)
  {
    match k
    case EntryKind => "AliCDBEntry"
    case IDKind => "AliCDBId"
    case PathKind => "AliCDBPath"
    case RunRangeKind => "AliCDBRunRange"
    case MetaDataKind => "AliCDBMetaData"
    case MUON2DMapKind => "AliMUON2DMap"
    case MUONVStoreKind => "AliMUONVStore"
    case MpExMapKind => "AliMpExMap"
    case MUONCalibParamNDKind => "AliMUONCalibParamND"
    case MUONVCalibParamKind => "AliMUONVCalibParam"
  }

  /** The `RVersion()` of each record type: version 1 throughout. */
  function RVersion(k: Kind): (v: nat)
    ensures v < TWO16
  {
    1
  }

  /** Distinct record types have distinct class names, so a name identifies its type. */
  lemma ClassInjective(a: Kind, b: Kind)
    ensures Class(a) == Class(b) ==> a == b
  {
    if Class(a) == Class(b) {
      assert |Class(a)| == |Class(b)|;
      match a
      case EntryKind =>
      case IDKind =>
      case PathKind => assert Class(b)[6] == 'P';
      case RunRangeKind =>
      case MetaDataKind =>
      case MUON2DMapKind => assert Class(b)[7] == '2';
      case MUONVStoreKind => assert Class(b)[7] == 'V';
      case MpExMapKind =>
      case MUONCalibParamNDKind =>
      case MUONVCalibParamKind =>
    }
  }
}
