/** The class registry: class name -> factory of a blank (zero-valued) instance.
    The ten registrations run once at start-up; afterwards the table is only read,
    so the decoder consults the fixed table `Table()`. */
module Registry {
  import opened Wire
  import opened Records

  const ZeroObject: Object := Object(0, 0)
  const ZeroPath: Path := Path(ZeroObject, [], [], [], [], false, false)
  const ZeroRunRange: RunRange := RunRange(ZeroObject, 0, 0)
  const ZeroID: ID := ID(ZeroObject, ZeroPath, ZeroRunRange, 0, 0, [])

  /** The zero value of each record type (`var o T`): nil slots, empty containers. */
  function Blank(k: Kind): (o: Obj)
    ensures KindOf(o) == k
  {
    match k
    case EntryKind => OEntry(Entry(ZeroObject, None, ZeroID, None, false))
    case IDKind => OID(ZeroID)
    case PathKind => OPath(ZeroPath)
    case RunRangeKind => ORunRange(ZeroRunRange)
    case MetaDataKind => OMetaData(MetaData(ZeroObject, [], [], 0, [], [], []))
    case MUON2DMapKind => O2DMap(AliMUON2DMap(AliMUONVStore(ZeroObject), None, false))
    case MUONVStoreKind => OVStore(AliMUONVStore(ZeroObject))
    case MpExMapKind => OExMap(AliMpExMap(ZeroObject, [], []))
    case MUONCalibParamNDKind => OCalibParamND(AliMUONCalibParamND(AliMUONVCalibParam(ZeroObject), 0, 0, 0, []))
    case MUONVCalibParamKind => OVCalibParam(AliMUONVCalibParam(ZeroObject))
  }

  /** The factory closure registered for a record type. */
  function Factory(k: Kind): () -> Obj {
    () => Blank(k)
  }

  /** The ten registrations applied, in order, to the table `m`. */
  function Register(m: map<string, () -> Obj>): map<string, () -> Obj> {
    m[Class(EntryKind) := Factory(EntryKind)]
     [Class(IDKind) := Factory(IDKind)]
     [Class(PathKind) := Factory(PathKind)]
     [Class(RunRangeKind) := Factory(RunRangeKind)]
     [Class(MetaDataKind) := Factory(MetaDataKind)]
     [Class(MUON2DMapKind) := Factory(MUON2DMapKind)]
     [Class(MUONVStoreKind) := Factory(MUONVStoreKind)]
     [Class(MpExMapKind) := Factory(MpExMapKind)]
     [Class(MUONCalibParamNDKind) := Factory(MUONCalibParamNDKind)]
     [Class(MUONVCalibParamKind) := Factory(MUONVCalibParamKind)]
  }

  /** The registry once all ten registrations have run on the empty table. */
  function Table(): map<string, () -> Obj> {
    Register(map[])
  }

  /** Resolves a class name to a fresh blank instance, or None when it is not registered. */
  function Lookup(name: string): (r: Option<Obj>)
    ensures r.Some? <==> name in Table()
    ensures r.Some? ==> Class(KindOf(r.value)) == name && r.value == Blank(KindOf(r.value))
  {
    if name in Table() then Some(Table()[name]()) else None
  }

  /** Every class name of the model is registered and resolves to a blank of that very class. */
  lemma ResolveClass(k: Kind)
    ensures Class(k) in Table()
    ensures Lookup(Class(k)) == Some(Blank(k))
  {
    var r := Lookup(Class(k));
    assert Class(k) in Table() by { match k case _ => }
    ClassInjective(KindOf(r.value), k);
  }

  /** The table holds the ten class names and nothing else. */
  lemma TableNames(name: string)
    ensures name in Table() <==> exists k: Kind :: Class(k) == name
  {
    if name in Table() {
      var k := KindOf(Lookup(name).value);
      assert Class(k) == name;
    }
    if exists k: Kind :: Class(k) == name {
      var k: Kind :| Class(k) == name;
      ResolveClass(k);
    }
  }

  /** The process-wide factory table (`rtypes.Factory`). */
  class FactoryTable {
    var table: map<string, () -> Obj>

    constructor ()
      ensures table == map[]
    {
      table := map[];
    }

    /** Registers `f` under `name`, replacing any earlier registration. */
    method Add(name: string, f: () -> Obj)
      modifies this
      ensures table == old(table)[name := f]
    {
      table := table[name := f];
    }

    method Get(name: string) returns (f: Option<() -> Obj>)
      ensures f == if name in table then Some(table[name]) else None
    {
      f := if name in table then Some(table[name]) else None;
    }
  }

  /** The ten `init` blocks, one registration each. */
  method Init(t: FactoryTable)
    modifies t
    ensures t.table == Register(old(t.table))
  {
    t.Add(Class(EntryKind), Factory(EntryKind));
    t.Add(Class(IDKind), Factory(IDKind));
    t.Add(Class(PathKind), Factory(PathKind));
    t.Add(Class(RunRangeKind), Factory(RunRangeKind));
    t.Add(Class(MetaDataKind), Factory(MetaDataKind));
    t.Add(Class(MUON2DMapKind), Factory(MUON2DMapKind));
    t.Add(Class(MUONVStoreKind), Factory(MUONVStoreKind));
    t.Add(Class(MpExMapKind), Factory(MpExMapKind));
    t.Add(Class(MUONCalibParamNDKind), Factory(MUONCalibParamNDKind));
    t.Add(Class(MUONVCalibParamKind), Factory(MUONVCalibParamKind));
  }

  /** After start-up, resolving through the table behaves as `Lookup`. */
  method Resolve(t: FactoryTable, name: string) returns (o: Option<Obj>)
    requires t.table == Table()
    ensures o == Lookup(name)
  {
    var f := t.Get(name);
    o := if f.Some? then Some(f.value()) else None;
  }
}
