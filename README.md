# COL collision file decoder — a verified model

Col Workshop reads the collision (COL) files of the GTA games. This project
models the decoding core of that tool in Dafny and proves properties of the
model. A COL file is a sequence of models. Each model starts with a four-byte
signature that selects one of four format versions. Then come:

- a 32-byte identity: tag, size, a 22-byte NUL-terminated name and an id;
- a 40-byte bounding volume, whose field order depends on the version;
- the body, which holds spheres, boxes, a vertex and face mesh, and in the
  later versions face groups and a shadow mesh.

The modelled pieces are:

- **`COLParser` of `apps/methods/col_parser.py`.** Modules `ColRecords`,
  `ColDecoder` and `ColParser`.
  - ColDecoder holds the specification functions.
  - ColParser holds the class `Parser`. Its methods mirror the Python
    methods, carry the shared `errors` list as a field, and are proved equal
    to those functions.
  - Version 1 bodies are read sequentially.
  - Version 2/3 bodies are reached through six offsets taken from `start + 4`.
    The vertex count is derived as one more than the largest face index. The
    face-group table is read backwards from the faces. Version 3 can carry a
    shadow mesh.
  - The file loop is `parse_col_file` without the `open`.
- **The workshop parser of `apps/methods/col_workshop_parser.py`.** Module
  `ColWorkshopParser`. It checks lengths before reading, and every check
  that fails becomes that function's `ValueError`.
- **`load_col_with_progress` and `_load_archive_with_dialogs` of
  `apps/methods/col_workshop_loader.py`.** Module `ColWorkshopLoader`.
  - The archive is scanned byte by byte for signatures.
  - Each signature is decoded, and failures are handled by
    skip/skip-all/ignore/ignore-all/abort.
  - The dialogs are parameters: `answer(i)` is the button pressed for
    model `i`, and `cancelled(i)` says whether the progress window was
    closed before it.
- **`COLFile` of `apps/methods/col_file.py`.** Module `ColFileManager`, a
  class with the same five fields.
- **The stream analyser of `apps/methods/gta_rw.py`.** Module `GtaRw`. The file
  handle is a class over the bytes with a cursor `pos`.
- **The data classes of `apps/methods/col_data_structures.py`.** Module
  `ColDataStructures`, as datatypes. The defaults of a freshly constructed
  object are the functions `DefaultBoundingBox`, `NewFace` and `NewModel`.

### Shared modules

- **`Bytes`.** Python's slice rules, including negative indices. Also
  `struct.unpack`, here always an error of type `struct.error` when the slice
  is short; little-endian integers with encoders; and the NUL-terminated
  ASCII names.
- **`RecordSections`.** The generic "read `count` records of `width`
  bytes" loop.
- **`Text`.** `str(n)`, `"; ".join` and the `repr` of a bytes value, for the error messages.

### How Python is represented

- Exceptions become `Result` values whose `Fault` names the Python exception
  raised.
- Error messages are built as the f-strings build them. A `bytes` value
  appears as its `repr` (`b'COL\x02'`, module `Text`). A `COLVersion` is
  assumed to appear as its number: the workshop parser's `COLVersion` comes
  from `col_workshop_structures.py`, which is not part of this model, and it
  is taken to be the `IntEnum` of `col_data_structures.py`.
- Floats read from the file are kept as their 32-bit words (`Num.F32`).
  Fixed-point vertices are exact rationals `raw / 128`.

### Where the sources disagree

These are recorded as lemmas rather than resolved:

- **`TagsDisagree`.** col_parser.py expects the version byte of
  `COL\x02`–`COL\x04` as a number. The workshop parser expects the ASCII
  digits `COL2`–`COL4`. The two agree only on `COLL`.
- **`Col1LayoutsDisagree`.** The two decoders lay out a version 1 body
  differently:
  - col_parser.py interleaves each count with its array and takes
    32-byte boxes;
  - the workshop parser reads all five counts first and takes 28-byte boxes.
- **Consumed bytes of a version 2/3 model.** A comment in
  `_parse_col23_model` promises "consumed bytes from file_size", but the code
  returns the header cursor (108 bytes, or 120 in version 3). Both rules are
  modelled, selected by `ConsumedRule`:
  - `HeaderCursor` is the code as written;
  - `SizeField` (`8 + file_size`) is the documented rule.

  `Col23Consumed` states both.
- **The safety limit.** `parse_col_file` checks `model_index > 200` after
  incrementing the index. It therefore keeps 201 models before it appends
  "Safety limit: 200 models parsed". The model follows the code.

### Loader and file container

- The loader calls `parser.parse_model` and `col_file.is_multi_model_archive`,
  which the shown classes do not define. They are modelled as intended:
  - `parse_model` as `parse_col_model` (as written the call would raise
    `AttributeError` for every signature, were the `COLFile(debug=False)` call fixed);
  - `is_multi_model_archive` as a boolean parameter.
- `COLFile(debug=False)` is a call the constructor does not accept; see
  Findings.
- `load_from_file` decodes with `parse_col_file`. The file read is a parameter
  `FileRead`: either the contents, or the reason the file cannot be read.

## Model

| member | source | states |
|---|---|---|
| ColDataStructures.Version.Value | apps/methods/col_data_structures.py:38-43 | each version's integer value lies in 1..4 |
| ColDataStructures.VersionOf | apps/methods/col_data_structures.py:38-43 | `COLVersion(n)` exists exactly for n in 1..4 and has value n |
| ColDataStructures.VersionValueRoundTrip | apps/methods/col_data_structures.py:38-43 | value and version convert back and forth without loss, so exactly four versions exist |
| ColDataStructures.RangeSize | apps/methods/col_data_structures.py:139-141 | the inclusive range lo..hi has exactly hi-lo+1 members, namely the integers between the ends |
| ColDataStructures.FaceGroupCountIsRangeSize | apps/methods/col_data_structures.py:128-141 | a face group's count `end_face - start_face + 1` is the number of faces its inclusive range covers, both end faces included; an empty group (end one below start) counts zero |
| ColDataStructures.MaxIndexBounds | apps/methods/col_parser.py:389-391 | every index of every face is at most the `max_idx` the loop computes, and a non-empty face list names that index |
| ColDataStructures.DerivedVertexCountIsLeast | apps/methods/col_parser.py:389-393 | `max_idx + 1` is the least vertex count that covers every face index |
| Bytes.SliceIndex | apps/methods/col_parser.py:646-647 | Python's normalisation of a slice end: negative ends count from the back, and every end is clamped to the buffer |
| Bytes.Slice | apps/methods/col_parser.py:646-647 | `data[lo:hi]` equals the Dafny slice when in range, and is shorter than asked (or empty) otherwise |
| Bytes.Unpack | apps/methods/col_parser.py:209 | `struct.unpack` of `width` bytes succeeds iff the slice holds `width` bytes, and raises `struct.error` otherwise |
| Bytes.UnpackIsSlice | apps/methods/col_parser.py:646-647 | an unpack succeeds exactly when Python's slice, negative offsets included, is `width` bytes long, and then reads those bytes |
| Bytes.UnpackAcrossZeroFails | apps/methods/col_parser.py:646-647 | a read that starts before offset 0 and ends at or after it always raises |
| Bytes.RecordAt | apps/methods/col_parser.py:486-513 | a fixed record succeeds iff its bytes fit, and its position is then the offset |
| Bytes.RecordAtIsSequential | apps/methods/col_parser.py:486-513 | reading a record in one piece equals doing its `struct.unpack` calls one after another: same success, same bytes, and the fault of the first failed read |
| Bytes.AscendingEnds | apps/methods/col_parser.py:486-513 | in an ascending field table, later reads end no earlier |
| Bytes.FirstShortRead | apps/methods/col_parser.py:486-513 | when the earlier reads fit, a read that runs past the end is where the record's fault comes from |
| Bytes.ContiguousEnds | apps/methods/col_parser.py:652-672 | a gap-free record at a negative offset whose reads all succeed lies wholly before offset 0 |
| Bytes.FirstFailureIsFirst | apps/methods/col_parser.py:486-513 | the reported fault is that of the first read that fails |
| Bytes.LE | apps/methods/col_parser.py:209 | a `width`-byte little-endian unsigned value is below 256^width |
| Bytes.LEOfSuffix | apps/methods/col_parser.py:209 | the value of the bytes does not depend on where the buffer starts |
| Bytes.LEOfSlice | apps/methods/col_parser.py:209 | the value depends only on the `width` bytes read |
| Bytes.EncodeLE | apps/methods/col_parser.py:209 | the encoding of a value has exactly `width` bytes |
| Bytes.DecodeEncodeLE | apps/methods/col_parser.py:209 | decoding an encoded value gives the value back |
| Bytes.EncodeDecodeLE | apps/methods/col_parser.py:209 | encoding a decoded field gives the field's bytes back |
| Bytes.U8 | apps/methods/col_parser.py:262 | `'<B'` succeeds iff one byte remains, and yields that byte |
| Bytes.U16 | apps/methods/col_parser.py:218 | `'<H'` succeeds iff two bytes remain, and yields their value, below 2^16 |
| Bytes.U32 | apps/methods/col_parser.py:209 | `'<I'` succeeds iff four bytes remain, and yields their value, below 2^32 |
| Bytes.Signed16 | apps/methods/col_parser.py:568 | `'<h'`: the two's-complement value lies in -32768..32767 and has the unsigned reading modulo 2^16 |
| Bytes.EncodeI16 | apps/methods/col_parser.py:568 | a signed 16-bit value is encoded in two bytes |
| Bytes.SignedEncodeI16 | apps/methods/col_parser.py:568 | decoding the two bytes of a signed value as `'<h'` gives the value back |
| Bytes.UntilNul | apps/methods/col_parser.py:214 | `split(b'\x00')[0]` is the longest prefix without a zero byte, stopped by a zero byte or by the end |
| Bytes.AsciiIgnore | apps/methods/col_parser.py:214 | `decode('ascii', errors='ignore')` drops bytes and keeps only ASCII characters |
| Bytes.AsciiBytes | apps/methods/col_parser.py:214 | an ASCII string has one byte per character |
| Bytes.AsciiIgnoreOfAscii | apps/methods/col_parser.py:214 | decoding the bytes of an ASCII string gives the string back |
| Bytes.CStringOfPadded | apps/methods/col_parser.py:213-214 | a NUL-free ASCII name padded with zero bytes decodes to the name |
| Bytes.CStringOfField | apps/methods/col_parser.py:213-214 | a field holding a NUL-free ASCII name and then only zeros decodes to that name |
| Bytes.AsciiBytesAt | apps/methods/col_parser.py:214 | byte k of an ASCII string's encoding is character k's code |
| Bytes.UntilNulOfPadded | apps/methods/col_parser.py:214 | cutting a zero-padded name at the first zero leaves the name's bytes |
| RecordSections.Records | apps/methods/col_parser.py:481-636 | a decoded section of `count` records of `width` bytes holds `count` records and ends at `off + count·width` |
| RecordSections.RecordsStep | apps/methods/col_parser.py:485-513 | one more loop iteration appends the record at the cursor and advances by `width`, or raises that record's fault |
| RecordSections.RecordsSlots | apps/methods/col_parser.py:481-636 | record i of a decoded section is the record at `off + i·width` |
| RecordSections.RecordsOkIff | apps/methods/col_parser.py:481-636 | a section decodes iff every one of its slots does |
| RecordSections.RecordsFailsAt | apps/methods/col_parser.py:481-636 | one slot that fails makes the section fail |
| RecordSections.RecordsErrPersists | apps/methods/col_parser.py:481-636 | once a prefix fails, the whole section fails with the same fault |
| RecordSections.RecordsPrefix | apps/methods/col_parser.py:481-636 | the first i records of a section form a section of their own |
| RecordSections.RecordsFitIff | apps/methods/col_parser.py:481-636 | when a record decodes iff its bytes fit, a section decodes iff it is empty or all of its bytes fit |
| RecordSections.RecordsReadFitIff | apps/methods/col_parser.py:517-609 | when a record reads only the first `read` bytes of its `width`-byte slot, a section decodes iff it is empty or the read of its last slot fits |
| RecordSections.MulStep | apps/methods/col_parser.py:481-636 | the slot arithmetic `(count-1)·width + width = count·width` |
| RecordSections.RecordsFault | apps/methods/col_parser.py:481-636 | when every record fails with the same fault, a failing section fails with it |
| Text.Decimal | apps/methods/col_parser.py:89 | `str(n)` is a non-empty string of decimal digits without leading zeros |
| Text.DecimalRoundTrip | apps/methods/col_parser.py:89 | the digits of `str(n)` denote n |
| Text.DecimalInjective | apps/methods/col_parser.py:89 | different offsets print differently |
| Text.JoinSnoc | apps/methods/col_file.py:59 | joining one more part adds one separator and the part at the end |
| Text.HexDigit | apps/methods/col_workshop_parser.py:370 | the lowercase hexadecimal digit of a value below 16, as `repr` writes it in `\xhh`; no contract of its own |
| Text.ReprByte | apps/methods/col_workshop_parser.py:370 | one byte of a bytes `repr` takes one to four characters, and a printable byte other than the quote and the backslash stands for itself |
| Text.ReprBody | apps/methods/col_workshop_parser.py:370 | the characters between the quotes number at least one and at most four per byte |
| Text.ReprQuote | apps/methods/col_workshop_parser.py:370 | the quote `repr` picks: `"` when the bytes hold `'` and no `"`, else `'`; no contract of its own |
| Text.BytesRepr | apps/methods/col_workshop_parser.py:370 | the `repr` of a bytes value is `b`, the chosen quote, the body and the same quote, 3 to 3 + 4·n characters long |
| Text.ReprBodyPrintable | apps/methods/col_workshop_parser.py:370 | bytes that are all printable and neither the quote nor the backslash appear as their own characters |
| Text.BytesReprPrintable | apps/methods/col_workshop_parser.py:370 | the `repr` of such bytes is `b'` + the characters + `'` |
| ColRecords.BoundsCol1At | apps/methods/col_parser.py:427-452 | the version 1 bounding volume (radius, center, min, max) decodes iff 40 bytes remain |
| ColRecords.BoundsCol23At | apps/methods/col_parser.py:454-479 | the version 2/3 bounding volume (min, max, center, radius) decodes iff 40 bytes remain |
| ColRecords.SphereAt | apps/methods/col_parser.py:486-513 | a sphere decodes iff its 20 bytes fit; version 1 has the radius before the center, later versions after it |
| ColRecords.BoxAt | apps/methods/col_parser.py:522-545 | a box decodes iff the bytes it reads fit: 32 in version 1, which reads the trailing flag word, and 25 otherwise |
| ColRecords.VertexCol1At | apps/methods/col_parser.py:554-557 | a float vertex decodes iff 12 bytes remain |
| ColRecords.VertexCol23At | apps/methods/col_parser.py:568-577 | a fixed-point vertex decodes iff 6 bytes remain |
| ColRecords.FaceCol1At | apps/methods/col_parser.py:590-607 | a version 1 face decodes iff the 14 bytes it reads fit |
| ColRecords.FaceCol23At | apps/methods/col_parser.py:616-634 | a version 2/3 face decodes iff 8 bytes remain, and its indices are 16-bit |
| ColRecords.FaceGroupAt | apps/methods/col_parser.py:653-672 | a face-group record decodes iff its 28 bytes fit |
| ColRecords.BoundsLayouts | apps/methods/col_parser.py:427-479 | the reads of both bounding layouts tile 40 bytes without gaps, in order |
| ColRecords.SphereLayout | apps/methods/col_parser.py:486-513 | the sphere's reads tile 20 bytes in order, in both versions |
| ColRecords.BoxLayout | apps/methods/col_parser.py:522-545 | the box's reads lie inside the box in ascending order, and leave no gap in versions 2/3 |
| ColRecords.FaceLayouts | apps/methods/col_parser.py:590-634 | the reads of both face layouts are gap-free and in order |
| ColRecords.FaceGroupLayout | apps/methods/col_parser.py:653-672 | a face group's reads tile 28 bytes in order |
| ColRecords.FaceGroupAcrossZeroFails | apps/methods/col_parser.py:654-670 | a face-group record that starts before offset 0 and ends at or after it never decodes |
| ColRecords.VertexPadding | apps/methods/col_parser.py:579-581 | the padding after the version 2/3 vertices is 0 or 2 bytes and makes the section a multiple of 4 bytes |
| ColRecords.ParseSpheres | apps/methods/col_parser.py:481-515 | the `for` loop returns exactly the section specification `Spheres` |
| ColRecords.ParseBoxes | apps/methods/col_parser.py:517-547 | the loop returns exactly `Boxes` |
| ColRecords.ParseVerticesCol1 | apps/methods/col_parser.py:549-559 | the loop returns exactly `VerticesCol1` |
| ColRecords.ParseVerticesCol23 | apps/methods/col_parser.py:561-583 | the loop and the padding step return exactly `VerticesCol23` |
| ColRecords.ParseFacesCol1 | apps/methods/col_parser.py:585-609 | the loop returns exactly `FacesCol1` |
| ColRecords.ParseFacesCol23 | apps/methods/col_parser.py:611-636 | the loop returns exactly `FacesCol23` |
| ColRecords.ParseBoundingBoxCol1 | apps/methods/col_parser.py:427-452 | the four cursor reads succeed iff `BoundsCol1At` does, give its volume and end 40 bytes on, or raise its fault |
| ColRecords.ParseBoundingBoxCol23 | apps/methods/col_parser.py:454-479 | likewise for the version 2/3 order |
| ColRecords.Spheres | apps/methods/col_parser.py:481-515 | the sphere section: `count` 20-byte records; its properties are `ColModelProperties.SpheresSection` |
| ColRecords.Boxes | apps/methods/col_parser.py:517-547 | the box section: `count` records of 32 (version 1) or 28 bytes; its properties are `ColModelProperties.BoxesSection` |
| ColRecords.VerticesCol1 | apps/methods/col_parser.py:549-559 | the version 1 vertex section: `count` 12-byte records; its properties are `ColModelProperties.VerticesCol1Section` |
| ColRecords.VerticesCol23 | apps/methods/col_parser.py:561-583 | the version 2/3 vertex section: `count` 6-byte records, then the alignment padding; its properties are `ColModelProperties.VerticesCol23Section` |
| ColRecords.FacesCol1 | apps/methods/col_parser.py:585-609 | the version 1 face section: `count` 16-byte slots; its properties are `ColModelProperties.FacesCol1Section` |
| ColRecords.FacesCol23 | apps/methods/col_parser.py:611-636 | the version 2/3 face section: `count` 8-byte records; its properties are `ColModelProperties.FacesCol23Section` |
| ColRecords.MaxVertexIndex | apps/methods/col_parser.py:389-391 | the `max_idx` loop computes `MaxIndex` of the faces |
| ColModelProperties.SpheresSection | apps/methods/col_parser.py:481-515 | the spheres decode iff there are none or all 20·count bytes fit, and then there are `count` of them ending 20·count bytes on |
| ColModelProperties.BoxesSection | apps/methods/col_parser.py:517-547 | the boxes decode iff there are none or the read of the last box fits (32 bytes at `off + 32·(count−1)` in version 1, 25 at `off + 28·(count−1)` otherwise); decoded boxes number `count` and end 32·count bytes on in version 1 and 28·count otherwise |
| ColModelProperties.VerticesCol1Section | apps/methods/col_parser.py:549-559 | float vertices decode iff all 12·count bytes fit: `count` of them ending 12·count bytes on |
| ColModelProperties.VerticesCol23Section | apps/methods/col_parser.py:561-583 | fixed-point vertices decode iff all 6·count bytes fit; they end 6·count bytes on, plus 2 exactly when 6·count is not a multiple of 4 |
| ColModelProperties.FacesCol1Section | apps/methods/col_parser.py:585-609 | the faces decode iff there are none or the 14-byte read of the last 16-byte slot fits; decoded version 1 faces number `count` and end 16·count bytes on |
| ColModelProperties.FacesCol23Section | apps/methods/col_parser.py:611-636 | version 2/3 faces decode iff all 8·count bytes fit: `count` of them ending 8·count bytes on |
| ColModelProperties.FixedPointVertex | apps/methods/col_parser.py:568-575 | the raw components 128, 256, -128 decode to the vertex (1, 2, -1) |
| ColDecoder.Signature | apps/methods/col_parser.py:133-139 | every version's tag is four bytes beginning `COL` |
| ColDecoder.SignatureVersion | apps/methods/col_parser.py:130-142 | a four-byte signature selects a version exactly when it is that version's tag, and none otherwise |
| ColDecoder.SignatureDispatch | apps/methods/col_parser.py:133-139 | `COLL` selects version 1, and `COL` plus byte 2, 3 or 4 selects that version |
| ColDecoder.Col1Header | apps/methods/col_parser.py:201-228 | the version 1 header decodes iff 72 bytes remain and ends 72 bytes on; it keeps the tag read and changes nothing of a fresh version 1 model but the identity and the volume |
| ColDecoder.Col23Header | apps/methods/col_parser.py:230-322 | the version 2/3 header decodes iff its 108 (version 3: 120) bytes remain; its base is `start + 4`; a shadow mesh is only marked in version 3; outside version 3 the shadow fields are zero |
| ColDecoder.Col23HeaderTail | apps/methods/col_parser.py:255-318 | the counts, flags and offsets after the volume decode iff the whole header fits |
| ColDecoder.Col23HeaderModel | apps/methods/col_parser.py:236-272 | the header sets only the identity, the volume, the flags and the two flag bits of a fresh model, and marks a shadow mesh only in version 3 |
| ColDecoder.Col23HeaderLayout | apps/methods/col_parser.py:274-316 | section offsets are relative to `start + 4`, and the shadow counts are zero outside version 3 |
| ColDecoder.IdentityLayout | apps/methods/col_parser.py:204-219 | the identity reads lie inside its 32 bytes in order |
| ColDecoder.CountLayout | apps/methods/col_parser.py:255-265 | the count reads tile 8 bytes in order |
| ColDecoder.OffsetLayout | apps/methods/col_parser.py:277-288 | the six offset reads tile 24 bytes in order, the suspension and planes offsets included |
| ColDecoder.ShadowLayout | apps/methods/col_parser.py:295-301 | version 3's three extra reads tile 12 bytes |
| ColDecoder.Col1Body | apps/methods/col_parser.py:324-363 | the version 1 body changes only the four arrays, raises at most one `COL1 body parse error`, and without error ends 20 count bytes plus 20 per sphere, 32 per box, 12 per vertex and 16 per face after its start |
| ColDecoder.Col23Spheres | apps/methods/col_parser.py:371-374 | the sphere step changes only the spheres |
| ColDecoder.Col23Boxes | apps/methods/col_parser.py:376-379 | the box step changes only the boxes |
| ColDecoder.Col23Mesh | apps/methods/col_parser.py:381-400 | the mesh step changes only the vertices, faces and face groups, and adds at most one face-group error |
| ColDecoder.DerivedMesh | apps/methods/col_parser.py:382-395 | faces first, then `1 + max index` version 2/3 vertices; its properties are `ColModelProperties.DerivedMeshFacts` |
| ColDecoder.Col23Shadow | apps/methods/col_parser.py:402-416 | the shadow step changes only the shadow vertices and faces |
| ColDecoder.Col23Body | apps/methods/col_parser.py:365-425 | the body changes only the geometry and adds at most two errors, each a face-group or body error |
| ColDecoder.FaceGroups | apps/methods/col_parser.py:638-678 | the face groups are the table, or no groups and exactly one `Face group parse error`, the latter exactly when the table does not decode |
| ColDecoder.FaceGroupTable | apps/methods/col_parser.py:645-672 | the count word 4 bytes before the faces and the 28-byte groups before it; its properties are `ColModelProperties.FaceGroupTableIsRecords` and `FaceGroupTableLayout` |
| ColDecoder.DecodeCol1 | apps/methods/col_parser.py:160-178 | a version 1 model is missing exactly when nothing is consumed, which is exactly when its 72-byte header does not fit; the model keeps the tag |
| ColDecoder.DecodeCol23 | apps/methods/col_parser.py:180-199 | a version 2/3 model is missing exactly when its header does not fit, and then there is one error |
| ColDecoder.DecodeModel | apps/methods/col_parser.py:113-158 | fewer than 4 bytes or an unknown signature give `(None, 0)` with no error; a model is missing iff nothing is consumed; the version follows the signature |
| ColDecoder.ModelDecoder | apps/methods/col_parser.py:113-158 | `parse_col_model` on the buffer as a function of the offset, the decoder both loops use; no contract of its own |
| ColDecoder.FileLoop | apps/methods/col_parser.py:76-102 | the `while` loop of `parse_col_file` from offset 0; its properties are `ColProperties.FileLoopChained`, `FileLoopLimit`, `FileLoopStops` and `FileLoopProbes` |
| ColDecoder.FileLoopAt | apps/methods/col_parser.py:76-102 | the same loop from a given offset, model count and model list; its properties are `ColProperties.FileLoopStep` |
| ColDecoder.ParseFile | apps/methods/col_parser.py:55-111 | `parse_col_file` on the file's bytes: the models and the errors of `FileLoop`; its properties are `ColProperties.ParseFileOrder` |
| ColModelProperties.Col1Consumed | apps/methods/col_parser.py:150-152 | a version 1 model decodes iff its header fits; without a body error it consumes 92 + 20·S + 32·B + 12·V + 16·F bytes; a failing body still returns the model, with one error |
| ColModelProperties.Col1NameField | apps/methods/col_parser.py:212-214 | the name is the 22-byte field up to its first zero byte |
| ColModelProperties.Col23Consumed | apps/methods/col_parser.py:192-195 | a version 2/3 model decodes iff its header fits; as written it consumes 108 (version 3: 120) bytes whatever the sections hold, and under the documented rule `8 + file_size` |
| ColModelProperties.DerivedMeshFacts | apps/methods/col_parser.py:382-395 | the mesh reads the faces first, then exactly `1 + max index` vertices, so every face index names a vertex that was read |
| ColModelProperties.Col23MeshFacts | apps/methods/col_parser.py:381-400 | with no faces nothing is read; otherwise the faces and derived vertices are read at `base + offset`, and the face groups only when `flags & 8` |
| ColModelProperties.Col23ShadowFacts | apps/methods/col_parser.py:271-272 | the shadow mesh is read only for version 3 with `flags & 16` and a positive shadow count, by the same derived-count rule |
| ColModelProperties.FaceGroupTableIsRecords | apps/methods/col_parser.py:645-650 | the group count is the 32-bit word 4 bytes before the faces, and the groups are that many 28-byte records just below it |
| ColModelProperties.FaceGroupTableLayout | apps/methods/col_parser.py:650-672 | group i is the record at `face_offset - 4 - 28·n + 28·i` |
| ColModelProperties.NegativeFaceGroupTable | apps/methods/col_parser.py:646-678 | a table that would start before offset 0 never decodes, giving no groups and one error |
| ColParser.ReadIdentity | apps/methods/col_parser.py:204-219 | the four identity reads succeed iff 32 bytes remain, and give the tag, size, name and id |
| ColParser.ReadCol1Header | apps/methods/col_parser.py:203-224 | the `try` block of the version 1 header computes `Col1Header` |
| ColParser.ReadCounts | apps/methods/col_parser.py:255-265 | the five count reads succeed iff 8 bytes remain, and give the three counts |
| ColParser.ReadOffsets | apps/methods/col_parser.py:277-288 | the six offset reads succeed iff 24 bytes remain, and give the four offsets that are used |
| ColParser.ReadShadowFields | apps/methods/col_parser.py:295-301 | the three version 3 reads succeed iff 12 bytes remain |
| ColParser.ReadCol23Header | apps/methods/col_parser.py:232-318 | the `try` block of the version 2/3 header computes `Col23Header` |
| ColParser.ReadCol23HeaderTail | apps/methods/col_parser.py:255-318 | the reads after the volume compute `Col23HeaderTail` |
| ColParser.ReadCol23Spheres | apps/methods/col_parser.py:371-374 | computes `Col23Spheres` |
| ColParser.ReadCol23Boxes | apps/methods/col_parser.py:376-379 | computes `Col23Boxes` |
| ColParser.ReadDerivedMesh | apps/methods/col_parser.py:382-395 | the faces, the `max_idx` loop and the vertices compute `DerivedMesh` |
| ColParser.ReadCol23Shadow | apps/methods/col_parser.py:403-416 | computes `Col23Shadow` |
| ColParser.ReadFaceGroupTable | apps/methods/col_parser.py:644-674 | the reads inside the `try` compute `FaceGroupTable` |
| ColParser.DecoderOf | apps/methods/col_parser.py:76-102 | the loop's decoder is `parse_col_model` at every offset, and the loop from 0 is `ParseFile` |
| ColParser.Parser.constructor | apps/methods/col_parser.py:51-53 | a new parser has an empty `errors` list |
| ColParser.Parser.ParseCol1Header | apps/methods/col_parser.py:201-228 | returns `Col1Header` and appends `COL1 header parse error` exactly when it fails |
| ColParser.Parser.ParseCol23Header | apps/methods/col_parser.py:230-322 | returns `Col23Header` and appends `COL2/3 header parse error` exactly when it fails |
| ColParser.Parser.ParseCol1Body | apps/methods/col_parser.py:324-363 | returns the model and cursor of `Col1Body`, partial on failure, and appends its error |
| ColParser.Parser.ParseFaceGroups | apps/methods/col_parser.py:638-678 | returns the groups of `FaceGroups` and appends its error |
| ColParser.Parser.ParseCol23Body | apps/methods/col_parser.py:365-425 | returns the model of `Col23Body` and appends its errors |
| ColParser.Parser.ParseCol23Mesh | apps/methods/col_parser.py:381-400 | the mesh and face-group part of the body, as `Col23Mesh` |
| ColParser.Parser.ParseCol1Model | apps/methods/col_parser.py:160-178 | returns what `DecodeCol1` gives and appends its errors |
| ColParser.Parser.ParseCol23Model | apps/methods/col_parser.py:180-199 | returns what `DecodeCol23` gives under either consumed rule |
| ColParser.Parser.ParseColModel | apps/methods/col_parser.py:113-158 | returns the model and consumed count of `DecodeModel` and appends its errors |
| ColParser.Parser.ParseModelAt | apps/methods/col_parser.py:86 | one call of `parse_col_model` inside the file loop, as the loop's decoder describes |
| ColParser.Parser.ParseColFile | apps/methods/col_parser.py:71-107 | the `while` loop returns the models and errors of `ParseFile` |
| ColProperties.ChainedExtend | apps/methods/col_parser.py:92-93 | appending the model decoded at the next offset keeps the chain, and the next offset moves on by `consumed` |
| ColProperties.NoLoopErrors | apps/methods/col_parser.py:101 | decoding never appends the safety-limit error, which only the loop does |
| ColProperties.FileLoopStep | apps/methods/col_parser.py:76-102 | one loop iteration, case by case: stop; fail with "Failed to parse model at offset N"; or keep the model and advance |
| ColProperties.FileLoopChained | apps/methods/col_parser.py:76-102 | the loop keeps the chain and ends with at most 201 models |
| ColProperties.FileLoopLimit | apps/methods/col_parser.py:99-102 | the safety-limit error is appended exactly when 201 models were kept |
| ColProperties.FileLoopStops | apps/methods/col_parser.py:76-90 | below the limit, the loop stops right after the last model and for one of three reasons: under 8 bytes left, an unknown signature, or a failed model with its error |
| ColProperties.FileLoopProbes | apps/methods/col_parser.py:76-84 | every model found starts at a recognised signature with at least 8 bytes left |
| ColProperties.ParseFileOrder | apps/methods/col_parser.py:71-107 | `parse_col_file`'s models are chained from offset 0 in ascending order; there are at most 201; the safety error appears iff 201; otherwise the loop stopped for one of the three reasons |
| ColProperties.ChainedAscending | apps/methods/col_parser.py:93 | the offsets of the models found strictly increase |
| ColWorkshopParser.WorkshopTag | apps/methods/col_workshop_parser.py:361-368 | each version's tag is four bytes beginning `COL` |
| ColWorkshopParser.FourccToVersion | apps/methods/col_workshop_parser.py:359-370 | a tag maps to a version exactly when it is that version's ASCII tag; anything else raises `UnknownFourcc(tag)`, the `ValueError` `Unknown COL FourCC: ` followed by the tag's bytes `repr` |
| ColWorkshopParser.UnknownFourcc | apps/methods/col_workshop_parser.py:370 | the `ValueError` for an unknown tag: `Unknown COL FourCC: ` followed by the tag's bytes `repr`, at least three characters longer than the tag |
| ColWorkshopParser.Header | apps/methods/col_workshop_parser.py:26-66 | the header decodes iff 32 bytes remain and the tag is known; fewer than 32 bytes raise the short-header error; it ends at `offset + 32` |
| ColWorkshopParser.Bounds | apps/methods/col_workshop_parser.py:68-111 | the bounds decode iff 40 bytes remain, else raise `Data too short for bounds`; they end at `offset + 40` |
| ColWorkshopParser.FourccVersion | apps/methods/col_workshop_parser.py:359-370 | the if/elif chain computes `FourccToVersion` |
| ColWorkshopParser.ParseHeader | apps/methods/col_workshop_parser.py:26-66 | the cursor method computes `Header` |
| ColWorkshopParser.ParseBounds | apps/methods/col_workshop_parser.py:68-111 | the cursor method computes `Bounds` |
| ColWorkshopParser.ParseSpheres | apps/methods/col_workshop_parser.py:117-127 | the intended sphere loop computes `Spheres` |
| ColWorkshopParser.ParseBoxes | apps/methods/col_workshop_parser.py:171-204 | the box loop computes `Boxes` |
| ColWorkshopParser.ParseVertices | apps/methods/col_workshop_parser.py:206-240 | the two vertex loops compute `Vertices` |
| ColWorkshopParser.ParseFaces | apps/methods/col_workshop_parser.py:242-299 | the two face loops compute `Faces` |
| ColWorkshopParser.ParseCol1Model | apps/methods/col_workshop_parser.py:301-357 | the method computes `Col1Model`, error messages included: another version raises `Expected COL1, got ` and its number |
| ColWorkshopParser.SpheresAsWritten | apps/methods/col_workshop_parser.py:113-169 | `parse_spheres` as written returns nothing read for count 0 and raises for every positive count |
| ColWorkshopParser.Spheres | apps/methods/col_workshop_parser.py:117-127 | the intended sphere section of `count` 20-byte records; its properties are `ColWorkshopProperties.SpheresShape` |
| ColWorkshopParser.Boxes | apps/methods/col_workshop_parser.py:171-204 | the box section of `count` 28-byte records; its properties are `ColWorkshopProperties.BoxesShape` |
| ColWorkshopParser.Vertices | apps/methods/col_workshop_parser.py:206-240 | the vertex section, 12-byte floats in version 1 and 6-byte fixed point otherwise; its properties are `ColWorkshopProperties.VerticesShape` |
| ColWorkshopParser.Faces | apps/methods/col_workshop_parser.py:242-299 | the face section, 16-byte faces in version 1 and 8-byte ones otherwise; its properties are `ColWorkshopProperties.FacesShape` |
| ColWorkshopParser.NotCol1 | apps/methods/col_workshop_parser.py:308-309 | the `ValueError` for another version: `Expected COL1, got ` followed by the decimal digits of the version's number, assuming `COLVersion` prints as an `IntEnum` (see Left out) |
| ColWorkshopParser.CountsAt | apps/methods/col_workshop_parser.py:318-331 | the five 32-bit counts in order: spheres, the unused count, boxes, vertices, faces; no contract of its own |
| ColWorkshopParser.Col1Body | apps/methods/col_workshop_parser.py:311-357 | the bounds, the counts (or `Data too short for COL1 counts`) and the four arrays; its properties are `ColWorkshopProperties.Col1ModelShape` |
| ColWorkshopParser.Col1Model | apps/methods/col_workshop_parser.py:301-357 | `parse_col1_model`: the header, `NotCol1` unless it is version 1, then `Col1Body`; its properties are `ColWorkshopProperties.Col1ModelShape` |
| ColWorkshopProperties.FourccDispatch | apps/methods/col_workshop_parser.py:359-370 | each version's ASCII tag selects that version |
| ColWorkshopProperties.TagsDisagree | apps/methods/col_workshop_parser.py:363-368 | the two decoders accept each other's tags only for version 1 |
| ColWorkshopProperties.Col2TagRepr | apps/methods/col_workshop_parser.py:370 | the `repr` of the bytes `COL\x02` is `b'COL\x02'`, the last byte in hexadecimal |
| ColWorkshopProperties.UnknownFourccMessage | apps/methods/col_workshop_parser.py:370 | the tag `COL\x02` is rejected with the message `Unknown COL FourCC: b'COL\x02'` |
| ColWorkshopProperties.UnknownPrintableMessage | apps/methods/col_workshop_parser.py:370 | the tag `COL5` is rejected with the message `Unknown COL FourCC: b'COL5'` |
| ColWorkshopProperties.NotCol1Message | apps/methods/col_workshop_parser.py:309 | a version 2 header is rejected with the message `Expected COL1, got 2`, the version printed as its number under the assumption stated for `NotCol1` |
| ColWorkshopProperties.EncodeHeader | apps/methods/col_workshop_parser.py:26-50 | an encoded header is 32 bytes |
| ColWorkshopProperties.HeaderRoundTrip | apps/methods/col_workshop_parser.py:26-66 | `parse_header` reads back the tag, size, name, id and version written, ending at 32, whatever follows |
| ColWorkshopProperties.HeaderFields | apps/methods/col_workshop_parser.py:36-50 | each encoded header field decodes to the value written there |
| ColWorkshopProperties.RecordsFit | apps/methods/col_workshop_parser.py:118-119 | every record reader raises exactly when its bytes (20, 28, 12, 6, 16 or 8) do not fit |
| ColWorkshopProperties.BoxesShape | apps/methods/col_workshop_parser.py:171-204 | boxes decode iff there are none or all 28·count bytes fit, else raise `Data too short for box`; then there are `count` of them, each the record at its slot, ending 28·count bytes on |
| ColWorkshopProperties.SpheresShape | apps/methods/col_workshop_parser.py:117-127 | the intended spheres: likewise with 20 bytes |
| ColWorkshopProperties.VerticesShape | apps/methods/col_workshop_parser.py:206-240 | vertices: likewise with 12 bytes in version 1 and 6 otherwise, with no padding |
| ColWorkshopProperties.FacesShape | apps/methods/col_workshop_parser.py:242-299 | faces: likewise with 16 bytes in version 1 and 8 otherwise |
| ColWorkshopProperties.FixedVertexExample | apps/methods/col_workshop_parser.py:230-236 | the raw components 128, 256, -128 decode to (1, 2, -1) |
| ColWorkshopProperties.Col1ModelShape | apps/methods/col_workshop_parser.py:301-357 | `parse_col1_model` raises for a short header, an unknown tag (`UnknownFourcc` of the tag read), another version (`NotCol1` of that version), short bounds and short counts, each with its own error; past them it decodes iff the whole model fits, and then returns every array at its count, ending at 92 + 20·S + 28·B + 12·V + 16·F |
| ColWorkshopProperties.SpheresAsWrittenFails | apps/methods/col_workshop_parser.py:113-169 | whenever the spheres fit, the intended loop returns all of them while the code as written raises |
| ColWorkshopProperties.Col1LayoutsDisagree | apps/methods/col_workshop_parser.py:318-346 | a 120-byte version 1 model with one box decodes fully here, while col_parser.py's interleaved layout makes its body fail |
| ColWorkshopLoader.ScanEnd | apps/methods/col_workshop_loader.py:113 | the scan bound `len(data) - 4` (or 0) leaves room for a four-byte tag |
| ColWorkshopLoader.Scan | apps/methods/col_workshop_loader.py:110-117 | every offset recorded is below the bound and holds a tag, and the offsets strictly increase |
| ColWorkshopLoader.ScanMembers | apps/methods/col_workshop_loader.py:113-117 | an offset is recorded iff it is below the bound and its four bytes are a version's tag, overlapping tags included |
| ColWorkshopLoader.SignaturesMembers | apps/methods/col_workshop_loader.py:110-117 | the signatures are exactly the offsets `0 <= o < len - 4` that start a tag |
| ColWorkshopLoader.Signatures | apps/methods/col_workshop_loader.py:110-117 | the offsets the scan records from 0; its members are stated by `SignaturesMembers` |
| ColWorkshopLoader.ScanSignatures | apps/methods/col_workshop_loader.py:110-117 | the byte-by-byte `while` loop computes `Signatures` |
| ColWorkshopLoader.DisplayName | apps/methods/col_workshop_loader.py:145-154 | the name is never empty: the 22-byte field up to its first zero byte when the header fits and that is non-empty, else `Model_i` or the offset |
| ColWorkshopLoader.Names | apps/methods/col_workshop_loader.py:145-154 | one display name per signature |
| ColWorkshopLoader.Kept | apps/methods/col_workshop_loader.py:159-160 | a decode keeps at most one model |
| ColWorkshopLoader.DecodedAt | apps/methods/col_workshop_loader.py:132-163 | the decoded models are no more than the offsets tried |
| ColWorkshopLoader.ArchiveStep | apps/methods/col_workshop_loader.py:157-193 | one model's handling: keep it, or on failure warn and skip, skip all, ignore, ignore all, or abort (None); its properties are `StepKeepsDecoded` |
| ColWorkshopLoader.ArchiveLoop | apps/methods/col_workshop_loader.py:132-224 | the `for` loop: `Cancelled` or `Aborted` at the model where it stopped, or `Finished`, each with the models and warnings so far; its properties are `FinishedKeepsDecoded`, `StoppedKeepsDecoded`, `AbortedAtFailure` and `IgnoreAllIsSilent` |
| ColWorkshopLoader.ArchiveRun | apps/methods/col_workshop_loader.py:110-224 | the loop over the buffer's signatures from the start; no contract of its own |
| ColWorkshopLoader.LoadArchive | apps/methods/col_workshop_loader.py:93-246 | `_load_archive_with_dialogs`' result: None without signatures, after a cancel or an abort, or when no model decodes, else the models; its properties are `LoadedAtMostFound` |
| ColWorkshopLoader.LoadWithProgress | apps/methods/col_workshop_loader.py:17-90 | the intended `load_col_with_progress`: None under 8 bytes, else the archive loop or one `parse_col_model`; it is what `LoadColWithProgress` computes |
| ColWorkshopLoader.FinishedKeepsDecoded | apps/methods/col_workshop_loader.py:132-163 | a loop that runs to the end keeps exactly the models that decode, in signature order, whatever the user answered |
| ColWorkshopLoader.StoppedKeepsDecoded | apps/methods/col_workshop_loader.py:140-180 | a loop cut short by Cancel or Abort stops at a signature and has kept exactly the models that decode before it |
| ColWorkshopLoader.StepKeepsDecoded | apps/methods/col_workshop_loader.py:157-193 | a step that does not abort adds exactly the model it decoded, if any |
| ColWorkshopLoader.AbortedAtFailure | apps/methods/col_workshop_loader.py:165-180 | the loop aborts only at a model that failed while the user pressed Abort |
| ColWorkshopLoader.IgnoreAllIsSilent | apps/methods/col_workshop_loader.py:185-193 | once "ignore all" is chosen the loop runs to its end with no further warning |
| ColWorkshopLoader.LoadedAtMostFound | apps/methods/col_workshop_loader.py:227-242 | a loaded archive holds the models that decode at the signatures, at least one and at most one per signature, so `skipped` is never negative |
| ColWorkshopLoader.AsWrittenNeverLoads | apps/methods/col_workshop_loader.py:49 | as written no buffer ever loads, although the intended loader returns a single well-formed model |
| ColWorkshopLoader.NewColFileWithDebug | apps/methods/col_workshop_loader.py:49 | `COLFile(debug=False)`, a `TypeError` since the constructor takes no `debug`; no contract of its own |
| ColWorkshopLoader.LoadWithProgressAsWritten | apps/methods/col_workshop_loader.py:17-90 | `load_col_with_progress` as written: the call above always raises and is caught; its properties are `AsWrittenNeverLoads` |
| ColWorkshopLoader.LoaderDecoder | apps/methods/col_workshop_loader.py:157 | the archive loop's decoder is `parse_col_model` |
| ColWorkshopLoader.LoadArchiveWithDialogs | apps/methods/col_workshop_loader.py:93-246 | on every path the file's models and the returned warnings are those of the loop's final state, models kept before a cancel or an abort included; no signatures return false with no warnings; a loop that finishes sets `is_loaded` to whether any model decoded, a cut-short one leaves it; returns true iff `LoadArchive` gives models, which the file then holds, marked loaded; the path, `load_error` and `parse_errors` are unchanged |
| ColWorkshopLoader.LoadColWithProgress | apps/methods/col_workshop_loader.py:17-90 | buffers under 8 bytes give None; otherwise a new loaded `COLFile` for the path holding the models of `LoadWithProgress`, with no `load_error` and no `parse_errors`, or None when it gives none |
| ColFileManager.Messages | apps/methods/col_parser.py:89-110 | one message per error |
| ColFileManager.MessagesAt | apps/methods/col_parser.py:89-110 | message k is the text of error k |
| ColFileManager.FaultText | apps/methods/col_parser.py:89-110 | the `str(e)` text of each exception the decoders raise; no contract of its own |
| ColFileManager.Message | apps/methods/col_parser.py:89-110 | the message `COLParser` appends for each error, prefix and exception text; its properties are `FailedAtInjective` and `MessagesAt` |
| ColFileManager.Parsed | apps/methods/col_parser.py:55-111 | `parse_col_file`'s models and messages, with `File read error: …` alone for an unreadable file; its properties are `UnreadableFails` and `NoSignatureLoadsEmpty` |
| ColFileManager.LoadFails | apps/methods/col_file.py:57-60 | `load_from_file` fails when there are no models and some errors; `ColFile.LoadFromFile` states it |
| ColFileManager.ColFile.constructor | apps/methods/col_file.py:26-36 | a new file has the given path, no models, is not loaded, and has no errors |
| ColFileManager.ColFile.LoadFromFile | apps/methods/col_file.py:38-76 | fails iff there are no models and some errors, keeping the old models and recording the errors joined by "; "; otherwise takes over the models and errors and marks the file loaded |
| ColFileManager.ColFile.SaveToFile | apps/methods/col_file.py:78-89 | always fails with "COL writer not yet implemented" and changes nothing else |
| ColFileManager.ColFile.AddModel | apps/methods/col_file.py:91-97 | appends the model at the end and changes nothing else |
| ColFileManager.ColFile.RemoveModel | apps/methods/col_file.py:99-114 | succeeds iff the index is in range; then deletes exactly that model, shifting the later ones down; otherwise the list is unchanged |
| ColFileManager.ColFile.GetModel | apps/methods/col_file.py:116-130 | gives `models[index]` iff the index is in range, else None |
| ColFileManager.ColFile.GetModelCount | apps/methods/col_file.py:132-138 | the number of models |
| ColFileManager.ParseColFile | apps/methods/col_parser.py:55-111 | a fresh parser's models and error messages for the file, with "File read error: …" for an unreadable one |
| ColFileManager.MessagesOf | apps/methods/col_parser.py:89-110 | computes the message list |
| ColFileManager.UnreadableFails | apps/methods/col_parser.py:109-111 | an unreadable file always fails to load, with the read error alone as `load_error` |
| ColFileManager.NoSignatureLoadsEmpty | apps/methods/col_parser.py:76-84 | a buffer that does not start with a known signature, or has fewer than 8 bytes, loads with no models and no errors |
| ColFileManager.LoadErrorStartsWithFirst | apps/methods/col_file.py:58-59 | the joined `load_error` starts with the first error |
| ColFileManager.FailedAtInjective | apps/methods/col_parser.py:89 | the failed-model message names its offset unambiguously |
| GtaRw.FieldsAt | apps/methods/gta_rw.py:28 | `struct.unpack` of a format gives one value per field |
| GtaRw.FieldsAtIndex | apps/methods/gta_rw.py:28 | field k is the little-endian value at `p + k·width` |
| GtaRw.FieldsOfChunk | apps/methods/gta_rw.py:25-28 | unpacking the chunk read from the file reads the file's own bytes |
| GtaRw.CalcSize | apps/methods/gta_rw.py:24 | `struct.calcsize` of a little-endian format: the field count times the field width; no contract of its own |
| GtaRw.FormatAt | apps/methods/gta_rw.py:23-28 | `read(fmt, fh)`: EOFError unless `calcsize(fmt)` bytes remain, else the unpacked fields and the advanced position; `FileHandle.Read` computes it |
| GtaRw.Chunk | apps/methods/gta_rw.py:25 | `fh.read(n)` returns `n` bytes, or what is left when fewer remain |
| GtaRw.HeaderAt | apps/methods/gta_rw.py:69-95 | a header decodes only with the `COLL` magic and then consumes exactly 48 bytes |
| GtaRw.SphereAt | apps/methods/gta_rw.py:104-108 | one sphere, needing 18 bytes; its properties are `SpherePadded` |
| GtaRw.BoxAt | apps/methods/gta_rw.py:115-119 | one box, needing 26 bytes; its properties are `BoxPadded` |
| GtaRw.FaceAt | apps/methods/gta_rw.py:126-128 | one face of 8 bytes; its properties are `FacePadded` |
| GtaRw.Repeat | apps/methods/gta_rw.py:103-108 | `count` records, each read where the last left the handle; its properties are `RepeatStep`, `RepeatFits` and `RepeatItem` |
| GtaRw.Analyse | apps/methods/gta_rw.py:135-148 | `analyse_col`: the header, then the spheres, boxes and faces it counts; its properties are `AnalyseShape` |
| GtaRw.RepeatStep | apps/methods/gta_rw.py:103-108 | one more iteration appends the record read at the cursor, or raises its fault |
| GtaRw.RepeatErrPersists | apps/methods/gta_rw.py:103-108 | an iteration that raises ends the section with that fault |
| GtaRw.SlotIsProduct | apps/methods/gta_rw.py:103-108 | record k of a section starts `k·width` bytes on |
| GtaRw.RepeatFits | apps/methods/gta_rw.py:103-108 | a section decodes iff every record but the last fits entirely and the last fits up to its read-tolerant padding |
| GtaRw.RepeatItem | apps/methods/gta_rw.py:103-108 | item k of a decoded section is the record at slot k |
| GtaRw.SpherePadded | apps/methods/gta_rw.py:104-107 | a sphere needs 18 bytes and spans 20 |
| GtaRw.BoxPadded | apps/methods/gta_rw.py:115-118 | a box needs 26 bytes and spans 28 |
| GtaRw.FacePadded | apps/methods/gta_rw.py:126-127 | a face needs and spans 8 bytes |
| GtaRw.SpheresShape | apps/methods/gta_rw.py:101-109 | `parse_spheres` returns exactly `count` spheres of 20 bytes, each the record at its slot; it raises EOF iff they do not fit, the last padding aside |
| GtaRw.BoxesShape | apps/methods/gta_rw.py:112-120 | `parse_boxes` returns exactly `count` boxes of 28 bytes, likewise |
| GtaRw.FacesShape | apps/methods/gta_rw.py:123-129 | `parse_faces` returns exactly `count` faces of 8 bytes iff they fit, else raises EOF |
| GtaRw.AnalyseShape | apps/methods/gta_rw.py:135-148 | each list has its header count, and the file holds the header and all records; a file that holds them is analysed; a header error is the result |
| GtaRw.MagicIsColl | apps/methods/gta_rw.py:70-72 | the decoded magic equals `COLL` iff the four bytes read are `COLL` |
| GtaRw.AsciiIgnoreFull | apps/methods/gta_rw.py:70 | decoding keeps every byte iff every byte is ASCII, and then keeps them as they are |
| GtaRw.FileHandle.constructor | apps/methods/gta_rw.py:136 | a new handle is at position 0 |
| GtaRw.FileHandle.ReadBytes | apps/methods/gta_rw.py:70 | `fh.read(n)` returns `Chunk` and advances by its length |
| GtaRw.FileHandle.Read | apps/methods/gta_rw.py:23-28 | `read(fmt)` succeeds iff `calcsize(fmt)` bytes remain, then advances by exactly that much; otherwise raises EOF |
| GtaRw.FileHandle.ParseHeader | apps/methods/gta_rw.py:69-95 | computes `HeaderAt` and leaves the handle where it says |
| GtaRw.FileHandle.ParseSphere | apps/methods/gta_rw.py:104-108 | one sphere, as `SphereAt` |
| GtaRw.FileHandle.ParseBox | apps/methods/gta_rw.py:115-119 | one box, as `BoxAt` |
| GtaRw.FileHandle.ParseFace | apps/methods/gta_rw.py:126-128 | one face, as `FaceAt` |
| GtaRw.FileHandle.ParseSpheres | apps/methods/gta_rw.py:101-109 | the loop computes `Spheres` |
| GtaRw.FileHandle.ParseBoxes | apps/methods/gta_rw.py:112-120 | the loop computes `Boxes` |
| GtaRw.FileHandle.ParseFaces | apps/methods/gta_rw.py:123-129 | the loop computes `Faces` |
| GtaRw.AnalyseCol | apps/methods/gta_rw.py:135-148 | `analyse_col` on the file's bytes computes `Analyse` |

## Left out

- Reading files from disk is not modelled. This covers `open`, `f.read()` and path handling. The bytes, or the reason a file cannot be read, are parameters.
- Floating point is not interpreted. 32-bit floats stay uninterpreted words, so nothing about their values is stated.
- The Qt progress and error dialogs, `QApplication.processEvents`, progress percentages, the remaining-model count and the model list texts of `add_model` are left out. The user's button and the window's visibility are parameters.
- Debug `print`s and `img_debugger` logging are not modelled. They compute nothing the rest uses.
- The `__repr__` texts of the data classes are not modelled. The face count that `COLFaceGroup.__repr__` shows is modelled, as `FaceGroup.FaceCount`.
- The version 4 layout is not modelled. Version 4 is recognised and routed through the version 2/3 decoder, as the code does, and no layout of its own is documented.
- The catch-all messages of `parse_col_model`, `_parse_col1_model` and `_parse_col23_model` are not modelled. These are "Model parse error at offset", "COL1 parse error" and "COL2/3 parse error". Every failure inside reaches a narrower handler first, so those `except` blocks never run.
- The exception text inside a message is modelled only for the faults the decoders raise, through `FaultText`.
- ColWorkshopParser.NotCol1: `col_workshop_structures.py`, where the workshop parser's `COLVersion` is defined, is not part of this model. Its `COLVersion` is taken to be the `IntEnum` of `col_data_structures.py`, whose f-string is the number (`Expected COL1, got 2`). Were it a plain `Enum`, the message would end in the member's name (`COLVersion.COL_2`) instead. `NotCol1Message` rests on the same assumption.
- ColFileManager.ColFile.LoadFromFile: the outer `except` ("Load failed: …") is not modelled. The decoding path it guards never raises once the read error is caught inside `parse_col_file`.
- ColWorkshopLoader.LoadArchiveWithDialogs: requires a `COLFile` with no models yet. `load_col_with_progress` always passes a fresh one.
- The loader's exception branch is not modelled. This is the dialog that shows `str(e)[:50]` when `parse_model` raises. The intended `parse_col_model` never raises, and as written the call never happens (see Findings).
- The loader's `is_multi_model_archive` is a boolean parameter, because `COLFile` does not define it.
- In the recursion of `parse_spheres` as written, Python's recursion limit is not modelled. Every positive count already raises within the model.
- `_fixed_to_float` and `_validate_signature` are not modelled. They are listed but never defined.
- Two other files are left out:
  - `STUBS_TO_ADD.py`, which holds placeholders;
  - `svg_icon_factory.py`, which is UI.
- `debug_col.py` is not part of this model.
- The defaults of a new `BoundingBox`, `COLFace` and `COLModel` are stated as the values `DefaultBoundingBox`, `NewFace` and `NewModel`. No lemma repeats them.

## Findings

| source | as written | input that shows it | evidently intended | confidence | as-written member | corrected member |
|---|---|---|---|---|---|---|
| apps/methods/col_workshop_parser.py:113-169 | the sphere loop reads a radius and a center, then a count, calls itself on it, reads boxes, and uses the undefined name `header` | any buffer with one sphere whose 20 bytes fit, e.g. count 1 and 20 zero bytes | read 20 bytes per sphere: radius, center, four surface bytes | not executed | ColWorkshopProperties.SpheresAsWrittenFails | ColWorkshopProperties.SpheresShape |
| apps/methods/col_workshop_loader.py:49 | `COLFile(debug=False)` passes a keyword that `COLFile.__init__` does not take, so a TypeError reaches the outer `except` and every input returns None | any buffer of 8 bytes or more, e.g. one well-formed version 1 model | create `COLFile()` and load as the rest of the function describes | not executed | ColWorkshopLoader.AsWrittenNeverLoads | ColWorkshopLoader.LoadColWithProgress |
