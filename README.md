# OCDB record codec

This project models the part of the OCDB reader that turns calibration records into bytes
and back. An OCDB file stores ten record types:

- `AliCDBEntry`
- `AliCDBId`
- `AliCDBPath`
- `AliCDBRunRange`
- `AliCDBMetaData`
- `AliMUON2DMap`
- `AliMUONVStore`
- `AliMpExMap`
- `AliMUONCalibParamND`
- `AliMUONVCalibParam`

Each record type has the following members:

- `Class()` gives its class name.
- `RVersion()` gives its streamer version, which is 1 for every type.
- `MarshalROOT` opens a versioned frame on a write buffer, writes the fields in declaration
  order and patches the frame's byte count. It returns the frame's size.
- `UnmarshalROOT` reads the frame header and the same fields in the same order. It then
  checks that the bytes consumed match the declared count.

Both buffers carry a sticky error. Once it is set:

- writes append nothing;
- reads consume nothing;
- every marshal or unmarshal call returns at once.

A polymorphic slot (`WriteObjectAny` / `ReadObjectAny`) works like this:

- It holds either nil or a class-name tag followed by the object.
- The tag is resolved through a process-wide factory. This package's ten `init` blocks add
  closures that build a zero-valued instance of its ten types; the model's table holds these
  ten and nothing else.
- The instance then decodes itself.

The model has seven modules:

- `Wire`: the byte primitives, and the reader functions over a `Cursor(pos, err)`.
  - A reader never moves the cursor once an error is set.
  - A reader that runs off the end sets `Truncated`.
  - `CheckByteCount` sets `FrameMismatch` exactly when the consumed size differs from the
    declared one.
- `Records`: the ten record types as datatypes, and `Obj`, their union, which is what a
  polymorphic slot holds. It also defines `Class`, `RVersion`, and the fact that class names
  identify the type.
- `Registry`:
  - the zero value of each type;
  - the factory closures;
  - the ten registrations;
  - the `FactoryTable` class, which holds the process-wide table.
- `Codec`: the encoding of each record (`XBytes`) and a decoder function for each record
  (`DecX`). Each decoder follows the corresponding `UnmarshalROOT` branch for branch.
- `Buffers`: the `WBuffer` and `RBuffer` classes. Their read methods are proved to behave as
  the `Wire` reader functions.
- `Ocdb`: `MarshalROOT` and `UnmarshalROOT` of every record as methods over the buffers.
  - Each marshal method appends exactly the record's encoding, or nothing when the buffer
    holds an error.
  - Each unmarshal method leaves the receiver and the read buffer exactly as the decoder
    function of the same record does.
- `Properties`: the lemmas about the codec.
  - Round trips: decoding an encoded record gives it back and consumes exactly its bytes.
  - Framing: every frame is version 1, and its count is the size of its payload.
  - Truncated input is detected.
  - An unknown class name is an error, and so is a slot holding the wrong type.
  - A failed nested decode aborts the enclosing one.
  - Every registered class decodes.

Two behaviours are modelled as errors where the Go code does not return one:

- The Go type assertion on a non-nil slot (`obj.(*MetaData)`, `obj.(*AliMpExMap)`). It
  panics when the object has another type; the model reports this as a sticky
  `WrongType(expected, actual)` error.
- A negative count handed to `ReadFastArrayF64`, or a negative collection length. What groot
  does then is not shown in this package; the model chooses to report `NegativeCount`.

The factory registers the Go type names `AliCDBEntry`, `AliCDBId` and so on. These names are
not the Go types that `ocdb.go` declares (`Entry`, `ID`, ...). The model links each
registration to its record through the class string that the record's `Class()` returns.
That string is the only thing the decoder looks up.

## Model

| member | source | states |
|---|---|---|
| Records.Class | ocdb.go:28 | every record type has a non-empty, single-byte-per-character class name (`Class()` of the ten types, ocdb.go:28, 102, 173, 227, 280, 345, 395, 448, 500, 549) |
| Records.RVersion | ocdb.go:29 | every record type is at streamer version 1, which fits the 16-bit version field |
| Records.ClassInjective | ocdb_factory.go:21-165 | the ten registered class names are pairwise distinct, so a name identifies its record type |
| Registry.Blank | ocdb_factory.go:17-20 | each factory closure builds a zero value of its own record type (nil slots, empty containers, zero numbers) |
| Registry.Lookup | ocdb_factory.go:15-167 | a name resolves exactly when it is registered, and then to the zero value of the type whose `Class()` is that name |
| Registry.ResolveClass | ocdb_factory.go:15-167 | every record type's class name is registered and resolves to a zero value of that type, so `Class()` of the resolved instance gives the name back |
| Registry.TableNames | ocdb_factory.go:15-167 | the table holds exactly the ten class names |
| Registry.FactoryTable.constructor | ocdb_factory.go:15-167 | the factory starts empty |
| Registry.FactoryTable.Add | ocdb_factory.go:21 | a registration binds the name to the closure and changes no other binding |
| Registry.FactoryTable.Get | ocdb_factory.go:15-167 | a lookup yields the registered closure, or none for an unknown name |
| Registry.Init | ocdb_factory.go:15-167 | the ten `init` blocks leave the table as the ten registrations applied in order |
| Registry.Resolve | ocdb_factory.go:15-167 | after start-up, resolving a name through the table gives `Lookup` of the name |
| Wire.Take | ocdb.go:72 | a read of `n` bytes succeeds exactly when no error is pending and `n` bytes remain, and then returns those bytes and advances by `n`; after an error it does nothing; the position never moves back |
| Wire.ReadVersion | ocdb.go:72 | reading the header succeeds exactly when no error is pending and the 6 header bytes remain; it then moves past the header, returns that position, and returns the 32-bit count field as the declared count; after an error it does nothing |
| Wire.CheckByteCount | ocdb.go:88 | the position never moves; an error is set exactly when no earlier error exists and the consumed size differs from the declared count; the error names the class, the declared count and the consumed count |
| Wire.ReadFastU64 | ocdb.go:539 | reads exactly `n` words; a negative `n`, with no error pending, sets `NegativeCount(n)` and reads nothing |
| Wire.ReadCount | ocdb.go:331 | a collection length is the signed 32-bit word at the cursor; a negative one, with no error pending, sets `NegativeCount` after the word; after an error it does nothing |
| Wire.ReadFastU64At | ocdb.go:516-539 | words written one after the other are read back exactly |
| Buffers.WBuffer.Write | ocdb.go:300-305 | a write appends its bytes unless the error is set, in which case the data are unchanged |
| Buffers.WBuffer.WriteString | ocdb.go:301 | a string is appended as its length and its bytes unless the error is set |
| Buffers.WBuffer.WriteFastArrayU64 | ocdb.go:516 | the words are appended one after another, without a count, unless the error is set |
| Buffers.WBuffer.WriteVersion | ocdb.go:298 | the version and a zero count are appended; the returned position is where the count sits |
| Buffers.WBuffer.SetByteCount | ocdb.go:308 | the count is patched with the size of the payload written after it, and the frame's full size is returned; with an error set, nothing changes and 0 is returned |
| Buffers.RBuffer.ReadString | ocdb.go:325 | the method behaves as the `ReadString` reader function on the buffer's cursor |
| Buffers.RBuffer.ReadFastArrayU64 | ocdb.go:539 | the loop reads `n` words, rejects a negative `n`, and behaves as the `ReadFastU64` reader function |
| Buffers.RBuffer.ReadVersion | ocdb.go:319 | the method behaves as the `ReadVersion` reader function |
| Buffers.RBuffer.CheckByteCount | ocdb.go:335 | the method behaves as the `CheckByteCount` reader function |
| Codec.DecObj | ocdb.go:66-90 | decoding never moves back; with an error pending, the receiver and the cursor are unchanged; a successful decode ends exactly where the frame header's count says the frame ends |
| Codec.DecAny | ocdb.go:78 | decoding a slot never moves back; an error already pending is left as is and gives nil, and a decode that ends in an error gives nil |
| Codec.DecMetaSlot | ocdb.go:82-85 | decoding the slot never moves back and leaves a pending error as is; a decode that ends in an error leaves the slot nil |
| Codec.DecExMapSlot | ocdb.go:381-384 | decoding the slot never moves back and leaves a pending error as is; a decode that ends in an error leaves the slot nil |
| Ocdb.MarshalPath | ocdb.go:177-193 | appends exactly the Path's frame and returns its size; with an error set, nothing is written and 0 is returned |
| Ocdb.MarshalRunRange | ocdb.go:235-247 | appends exactly the RunRange's frame and returns its size; sticky error as above |
| Ocdb.MarshalID | ocdb.go:112-127 | appends exactly the ID's frame (base, path, run range, versions, last storage) and returns its size; sticky error |
| Ocdb.MarshalVStore | ocdb.go:399-409 | appends exactly the VStore's frame and returns its size; sticky error |
| Ocdb.MarshalVCalibParam | ocdb.go:553-563 | appends exactly the VCalibParam's frame and returns its size; sticky error |
| Ocdb.MarshalCalibParamND | ocdb.go:504-519 | appends exactly the CalibParamND's frame, including the reserved byte 1, and returns its size; sticky error |
| Ocdb.WriteObjectAny | ocdb.go:56 | appends the nil tag, or the class-name tag and the object's frame |
| Ocdb.WriteMetaSlot | ocdb.go:58 | appends the nil tag, or the MetaData class tag and the MetaData's frame, unless the error is set |
| Ocdb.WriteExMapSlot | ocdb.go:361 | appends the nil tag, or the AliMpExMap class tag and its frame, unless the error is set |
| Ocdb.WritePair | ocdb.go:306 | appends one association: the key slot, then the value slot |
| Ocdb.MarshalObj | ocdb.go:48-62 | dispatches to the `MarshalROOT` of the object's dynamic class and appends exactly its frame |
| Ocdb.MarshalEntry | ocdb.go:48-62 | appends exactly the Entry's frame (base, object slot, ID, meta slot, owner flag) and returns its size; sticky error |
| Ocdb.MarshalMetaData | ocdb.go:293-309 | appends exactly the MetaData's frame, with its property map, and returns its size; sticky error |
| Ocdb.MarshalMap | ocdb.go:306 | appends the association count, then each key slot and value slot |
| Ocdb.MarshalMUON2DMap | ocdb.go:353-365 | appends exactly the AliMUON2DMap's frame and returns its size; sticky error |
| Ocdb.MarshalExMap | ocdb.go:452-464 | appends exactly the AliMpExMap's frame (base, object array, keys) and returns its size; sticky error |
| Ocdb.MarshalObjArray | ocdb.go:460 | appends the element count, then each element's slot |
| Ocdb.MarshalArrayL64 | ocdb.go:461 | appends the key count, then the keys as 64-bit words |
| Ocdb.UnmarshalObject | ocdb.go:74 | the receiver and the reader end as `DecObject` prescribes |
| Ocdb.UnmarshalPath | ocdb.go:197-218 | the receiver and the reader end as `DecPath` prescribes |
| Ocdb.UnmarshalRunRange | ocdb.go:251-267 | the receiver and the reader end as `DecRunRange` prescribes |
| Ocdb.UnmarshalID | ocdb.go:131-154 | the receiver and the reader end as `DecID` prescribes |
| Ocdb.UnmarshalVStore | ocdb.go:413-427 | the receiver and the reader end as `DecVStore` prescribes |
| Ocdb.UnmarshalVCalibParam | ocdb.go:567-581 | the receiver and the reader end as `DecVCalibParam` prescribes |
| Ocdb.UnmarshalCalibParamND | ocdb.go:523-543 | the receiver and the reader end as `DecCalibParamND` prescribes: the reserved byte is read and dropped, and `n` words are read |
| Ocdb.ReadObjectAny | ocdb.go:78 | the slot read ends as `DecAny` prescribes, resolving the class through the factory table |
| Ocdb.UnmarshalObj | ocdb.go:66-90 | dispatches to the `UnmarshalROOT` of the dynamic class, as `DecObj` prescribes |
| Ocdb.UnmarshalEntry | ocdb.go:66-90 | the receiver and the reader end as `DecEntry` prescribes |
| Ocdb.ReadMetaSlot | ocdb.go:82-85 | the slot is reset to nil, then a non-nil object must be a MetaData, as `DecMetaSlot` prescribes |
| Ocdb.UnmarshalMetaData | ocdb.go:313-337 | the receiver and the reader end as `DecMetaData` prescribes |
| Ocdb.UnmarshalMap | ocdb.go:331 | the returned map and the reader end as `DecMap` prescribes |
| Ocdb.UnmarshalMUON2DMap | ocdb.go:369-389 | the receiver and the reader end as `DecMUON2DMap` prescribes |
| Ocdb.ReadExMapSlot | ocdb.go:381-384 | the slot is reset to nil, then a non-nil object must be an AliMpExMap, as `DecExMapSlot` prescribes |
| Ocdb.UnmarshalExMap | ocdb.go:468-490 | the receiver and the reader end as `DecExMap` prescribes |
| Ocdb.UnmarshalObjArray | ocdb.go:480 | the returned array and the reader end as `DecObjArray` prescribes |
| Ocdb.UnmarshalArrayL64 | ocdb.go:484 | the returned keys and the reader end as `DecArrayL64` prescribes |
| Properties.ObjectRoundTrip | ocdb.go:74 | the base object decodes back from its 8 bytes |
| Properties.PathLayout | ocdb.go:177-193 | a Path frame holds version 1, the payload size, and the fields in declaration order at the stated offsets |
| Properties.PathRoundTrip | ocdb.go:177-218 | decoding an encoded Path gives it back and consumes exactly its frame |
| Properties.RunRangeRoundTrip | ocdb.go:235-267 | decoding an encoded RunRange gives it back and consumes exactly its frame |
| Properties.IDLayout | ocdb.go:112-127 | an ID frame holds version 1, the payload size, and base, path, run range, versions and last storage in that order |
| Properties.IDRoundTrip | ocdb.go:112-154 | decoding an encoded ID gives it back and consumes exactly its frame |
| Properties.VStoreRoundTrip | ocdb.go:399-427 | decoding an encoded AliMUONVStore gives it back and consumes exactly its frame |
| Properties.VCalibParamRoundTrip | ocdb.go:553-581 | decoding an encoded AliMUONVCalibParam gives it back and consumes exactly its frame |
| Properties.CalibParamNDLayout | ocdb.go:504-519 | a CalibParamND frame holds the base, `dim`, `size`, `n`, the reserved byte 1, and the values, in that order |
| Properties.CalibParamNDRoundTrip | ocdb.go:504-543 | when `n == \|vs\|`, decoding an encoded CalibParamND gives it back, since the reserved byte is dropped; it consumes exactly its frame |
| Properties.CalibParamNDCountMismatch | ocdb.go:537-541 | when `n != \|vs\|`, decoding the encoded CalibParamND is an error, so `n == \|vs\|` is exactly the round-trip condition |
| Properties.AsInt64sAsWords | ocdb.go:461 | the 64-bit keys survive their conversion to words and back |
| Properties.KeysRoundTrip | ocdb.go:461-484 | decoding the encoded keys gives them back and consumes exactly their bytes |
| Properties.TagRoundTrip | ocdb.go:56-78 | a class-name tag reads back as the name, and the name resolves to a zero value of its class |
| Properties.NilRoundTrip | ocdb.go:56-78 | the nil tag reads back as nil and consumes 4 bytes |
| Properties.AnyRoundTrip | ocdb.go:56-78 | decoding an encoded polymorphic slot gives the slot back and consumes exactly its bytes |
| Properties.ObjRoundTrip | ocdb.go:48-90 | decoding an encoded, well-formed record of any of the ten types into any receiver of its class gives the record back and consumes exactly its frame |
| Properties.EntryLayout | ocdb.go:48-62 | an Entry frame holds the base, the object slot, the ID, the meta slot and the owner flag, in that order |
| Properties.EntryRoundTrip | ocdb.go:48-90 | decoding an encoded Entry gives it back and consumes exactly its frame |
| Properties.MetaSlotRoundTrip | ocdb.go:82-85 | the `*MetaData` slot, nil or not, decodes back |
| Properties.MetaDataLayout | ocdb.go:293-309 | a MetaData frame holds the base, four strings around the 32-bit beam period, then the property map, in declaration order |
| Properties.MetaDataRoundTrip | ocdb.go:293-337 | decoding an encoded MetaData gives it back and consumes exactly its frame |
| Properties.MapRoundTrip | ocdb.go:306-331 | decoding an encoded map gives back its associations in order |
| Properties.PairsRoundTrip | ocdb.go:306-331 | decoding `k` encoded associations gives them back in order |
| Properties.MUON2DMapLayout | ocdb.go:353-365 | an AliMUON2DMap frame holds the store base, the exmap slot and the flag, in that order |
| Properties.MUON2DMapRoundTrip | ocdb.go:353-389 | decoding an encoded AliMUON2DMap gives it back and consumes exactly its frame |
| Properties.ExMapSlotRoundTrip | ocdb.go:381-384 | the `*AliMpExMap` slot, nil or not, decodes back |
| Properties.ExMapLayout | ocdb.go:452-464 | an AliMpExMap frame holds the base, the object array and the keys, in that order |
| Properties.ExMapRoundTrip | ocdb.go:452-490 | decoding an encoded AliMpExMap gives it back and consumes exactly its frame |
| Properties.ObjArrayRoundTrip | ocdb.go:460-480 | decoding an encoded object array gives back its slots in order |
| Properties.ObjsRoundTrip | ocdb.go:460-480 | decoding `k` encoded slots gives them back in order |
| Properties.FrameIsFrame | ocdb.go:53-61 | a frame starts with version 1, followed by the exact size of the rest |
| Properties.ObjFraming | ocdb.go:53-61 | every encoded record of every type is such a frame |
| Properties.DeclaredCount | ocdb.go:72 | the count read from a frame header is the size of the frame's payload |
| Properties.TruncationDetected | ocdb.go:72-88 | any record cut short, at any length, fails to decode |
| Properties.UnknownClassRejected | ocdb.go:78 | a name that no record type carries yields nil and an `UnknownClass` error at the end of the name |
| Properties.MetaSlotWrongType | ocdb.go:83-84 | a `*MetaData` slot holding another record type yields nil and a `WrongType(AliCDBMetaData, actual class)` error |
| Properties.ExMapSlotWrongType | ocdb.go:382-383 | an `*AliMpExMap` slot holding another record type yields nil and a `WrongType(AliMpExMap, actual class)` error |
| Properties.EntryAbortsOnBase | ocdb.go:74-76 | a failing base object ends the Entry decode with that error; the object slot, ID, meta slot and flag keep their values |
| Properties.EntryAbortsOnID | ocdb.go:79-81 | a failing ID ends the Entry decode with that error; the meta slot and the owner flag keep their values |
| Properties.IDAbortsOnPath | ocdb.go:142-144 | a failing path ends the ID decode with that error; the run range, versions and last storage keep their values |
| Properties.IDAbortsOnRuns | ocdb.go:145-147 | a failing run range ends the ID decode with that error; the versions and last storage keep their values |
| Properties.ExMapAbortsOnObjs | ocdb.go:480-482 | a failing object array ends the AliMpExMap decode with that error; the keys keep their value |
| Properties.IDAbortsOnBase | ocdb.go:139-141 | a failing base object ends the ID decode with that error; path, run range, versions and last storage keep their values |
| Properties.PathAbortsOnBase | ocdb.go:205-207 | a failing base object ends the Path decode with that error; the strings and flags keep their values |
| Properties.RunRangeAbortsOnBase | ocdb.go:259-261 | a failing base object ends the RunRange decode with that error; the bounds keep their values |
| Properties.MetaDataAbortsOnBase | ocdb.go:321-323 | a failing base object ends the MetaData decode with that error; the strings, beam period and map keep their values |
| Properties.MetaDataAbortsOnProps | ocdb.go:331-333 | a failing property map ends the MetaData decode with the map's error, before the frame check |
| Properties.MUON2DMapAbortsOnBase | ocdb.go:377-379 | a failing store base ends the AliMUON2DMap decode with that error; the exmap slot and the flag keep their values |
| Properties.VStoreAbortsOnBase | ocdb.go:421-423 | a failing base object ends the AliMUONVStore decode with that error, before the frame check |
| Properties.ExMapAbortsOnBase | ocdb.go:476-478 | a failing base object ends the AliMpExMap decode with that error; the objects and keys keep their values |
| Properties.ExMapAbortsOnKeys | ocdb.go:484-486 | a failing key array ends the AliMpExMap decode with the array's error, before the frame check |
| Properties.CalibParamNDAbortsOnBase | ocdb.go:531-533 | a failing parameter base ends the AliMUONCalibParamND decode with that error; sizes and values keep their values |
| Properties.VCalibParamAbortsOnBase | ocdb.go:575-577 | a failing base object ends the AliMUONVCalibParam decode with that error, before the frame check |
| Properties.RegisteredDecodes | ocdb_factory.go:15-167 | every registered name resolves to a zero value of the named class, which decodes any well-formed record of that class |

## Left out

- `cmd/read-ocdb/main.go` (the command-line reader) and the `Display`/`String` printers are not part of this model.
- The byte layout inside the groot buffers (`rbytes`) lives in go-hep groot, outside this package, so the model uses a simple layout of its own:
  - a frame is a 16-bit version and a 32-bit count, both big-endian, followed by the payload;
  - the base object is two 32-bit words;
  - a string is a 32-bit length followed by its bytes;
  - a polymorphic slot is an empty name for nil, or else the class name followed by the object;
  - a container is a 32-bit count followed by its elements.
  - The model does not include ROOT's byte-count mask, its class-tag references, or the one-byte length of short strings.
- The `float64` values of AliMUONCalibParamND are modelled as opaque 64-bit words; floating-point meaning (NaN payloads, rounding) is not modelled.
- Ocdb.UnmarshalCalibParamND: the reserved byte is read and dropped whatever its value, as in the source; the model states no separate property for a byte other than 1.
- The registry is built once, in `init`, before any decode. Go's init order and concurrent access to the factory are not modelled. Decoders consult the finished table.
- A failed type assertion on a slot panics in Go; the model reports a sticky `WrongType` error instead. What groot does with a negative array or collection length is not shown in this package; the model chooses to report a sticky `NegativeCount` error.
- `reflect.Value` results of the factory closures are modelled as the zero value itself.
- Eight records embed an `rbase.Object` as their `base`. Its streamer lives in groot and is not part of this model; the model writes it as the two words above, without a frame. The other two records embed another record of this package instead: AliMUON2DMap's base is an AliMUONVStore (ocdb.go:340) and AliMUONCalibParamND's base is an AliMUONVCalibParam (ocdb.go:493). Their base is written as that record's own frame, nested inside the outer one.
- The round-trip lemmas assume the buffer is shorter than 2^32 bytes, so that every count fits the 32-bit field.
- Registry.Table: in the program, `rtypes.Factory` is groot's process-wide table and also holds the classes registered by other packages (the reader imports `groot/ztypes` for that). The model's table, and the `Obj` union a slot may hold, cover only this package's ten classes. So a slot holding any other class (`Entry.obj`, map keys and values, object-array elements) decodes in Go but is an `UnknownClass` error in the model. `Properties.UnknownClassRejected` and the empty table of `Registry.FactoryTable.constructor` describe the model's table only.
- Properties.TruncationDetected: it states only that a record cut short fails with some error. It does not state which error, although a well-formed record cut short can only fail with `Truncated` or `FrameMismatch`. Proving that would need a prefix-agreement lemma for every decoder, and the model does not give one.
- Ocdb: every `UnmarshalROOT` updates its receiver in place through a pointer. The model passes the receiver as a value, old value in and new value out. No aliasing is lost, because each slot decodes into a fresh instance from the factory.
