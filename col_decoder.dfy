/** What `COLParser` (apps/methods/col_parser.py) computes, as functions of
    the input buffer: the signature dispatch, the two header layouts, the
    sequential version 1 body, the offset-addressed version 2/3 body with
    derived vertex counts, the backward face-group table, one model, and the
    loop over a whole file. The class in `ColParser` runs the same steps
    imperatively and is proved to compute these functions. */
module ColDecoder {
  import opened Bytes
  import opened RecordSections
  import opened ColDataStructures
  import opened ColRecords

  /** One entry of the parser's `errors` list. */
  datatype ParseError =
    | ModelFailedAt(offset: nat)       // "Failed to parse model at offset ..."
    | SafetyLimitReached               // "Safety limit: 200 models parsed"
    | Col1HeaderError(fault: Fault)    // "COL1 header parse error: ..."
    | Col23HeaderError(fault: Fault)   // "COL2/3 header parse error: ..."
    | Col1BodyError(fault: Fault)      // "COL1 body parse error: ..."
    | Col23BodyError(fault: Fault)     // "COL2/3 body parse error: ..."
    | FaceGroupError(fault: Fault)     // "Face group parse error: ..."
  {
    /** Raised while decoding one model, as opposed to by the file loop. */
    predicate FromModel()
    {
      !ModelFailedAt? && !SafetyLimitReached?
    }
  }

  /** The four-byte tag of each version: `COLL`, then `COL` followed by the
      byte 2, 3 or 4 (not the ASCII digit). */
  function Signature(v: Version): (s: seq<byte>)
    ensures |s| == 4 && s[..3] == [0x43, 0x4F, 0x4C]
  {
    match v
    case Col1 => TagColl
    case Col2 => [0x43, 0x4F, 0x4C, 2]
    case Col3 => [0x43, 0x4F, 0x4C, 3]
    case Col4 => [0x43, 0x4F, 0x4C, 4]
  }

  /** The version a four-byte signature selects, if any. */
  function SignatureVersion(sig: seq<byte>): (r: Option<Version>)
    ensures r.Some? ==> sig == Signature(r.value)
    ensures r.None? ==> forall v :: sig != Signature(v)
  {
    if |sig| == 4 && sig[0] == 0x43 && sig[1] == 0x4F && sig[2] == 0x4C then
      if sig[3] == 0x4C then Some(Col1)
      else if sig[3] == 2 then Some(Col2)
      else if sig[3] == 3 then Some(Col3)
      else if sig[3] == 4 then Some(Col4)
      else None
    else None
  }

  /** Every version's tag selects that version, so distinct versions have
      distinct tags. */
  lemma SignatureDispatch(v: Version)
    ensures SignatureVersion(Signature(v)) == Some(v)
    ensures Signature(v)[3] == v.Value() || (v == Col1 && Signature(v)[3] == 0x4C)
  {
  }

  /** `flags & mask` is non-zero, for a single-bit mask. */
  predicate FlagSet(flags: nat, mask: nat)
    requires mask == 8 || mask == 16
  {
    (flags / mask) % 2 == 1
  }

  /** Header length: 108 bytes, and 12 more for version 3's shadow fields. */
  function HeaderSize(version: Version): nat
  {
    if version == Col3 then 120 else 108
  }

  /** The counts and section offsets `_parse_col23_header` keeps for the body
      (`_parse_data`): the base address and the offsets actually used. */
  datatype Layout = Layout(
    base: nat,
    numSpheres: nat, numBoxes: nat, numFaces: nat, numShadowFaces: nat,
    offSpheres: nat, offBoxes: nat, offVertices: nat, offFaces: nat,
    offShadowVertices: nat, offShadowFaces: nat)

  datatype Col23Head = Col23Head(model: Model, layout: Layout, next: nat)

  /** The `struct.unpack` calls of the 32 bytes both header layouts start
      with: the size at +4 and the id at +30. The tag and the 22-byte name
      are slices, which never fail. */
  const IdentityFields: seq<Read> := [Read(4, 4), Read(30, 2)]

  /** `_parse_col1_header`: tag, size, name, id, then the version 1 bounding
      volume; the cursor ends 72 bytes after the start. */
  function Col1Header(data: seq<byte>, off: nat): (r: Result<(Model, nat)>)
    ensures r.Ok? <==> off + 72 <= |data|
    ensures r.Ok? ==> r.value.1 == off + 72
    ensures r.Ok? ==> r.value.0.signature == data[off..off + 4] && r.value.0.version == Col1
    ensures r.Ok? ==>
              r.value.0.(signature := TagColl, fileSize := 0, name := "", modelId := 0,
                         boundingBox := DefaultBoundingBox())
              == NewModel()
  {
    var p :- RecordAt(data, off, 32, IdentityFields);
    var bounds :- BoundsCol1At(data, off + 32);
    Ok((NewModel().(signature := data[off..off + 4], fileSize := LE(data, off + 4, 4),
                    name := CString(data[off + 8..off + 30]), modelId := LE(data, off + 30, 2),
                    boundingBox := bounds),
        off + 72))
  }

  /** The `struct.unpack` calls of the counts at +72 of a version 2/3
      header: spheres, boxes and faces, then the wheel count and a padding
      byte, which are read, so they must be in the buffer, but not kept. */
  const CountFields: seq<Read> := [Read(0, 2), Read(2, 2), Read(4, 2), Read(6, 1), Read(7, 1)]

  /** The six section offsets at +84: spheres, boxes, suspension, vertices,
      faces and planes; the suspension and planes offsets are not kept. */
  const OffsetFields: seq<Read> := [Read(0, 4), Read(4, 4), Read(8, 4), Read(12, 4), Read(16, 4), Read(20, 4)]

  /** Version 3's shadow face count and shadow vertex and face offsets, at +108. */
  const ShadowFields: seq<Read> := [Read(0, 4), Read(4, 4), Read(8, 4)]

  /** `_parse_col23_header`: the shared 32 bytes, the version 2/3 bounding
      volume, the section fields and, in version 3, the shadow fields; the
      cursor ends after the header. */
  function Col23Header(data: seq<byte>, off: nat, version: Version): (r: Result<Col23Head>)
    ensures r.Ok? <==> off + HeaderSize(version) <= |data|
    ensures r.Ok? ==> r.value.next == off + HeaderSize(version) && r.value.layout.base == off + 4
    ensures r.Ok? ==> r.value.model.signature == data[off..off + 4] && r.value.model.version == version
    ensures r.Ok? ==> r.value.model.hasShadowMesh ==> version == Col3
    ensures r.Ok? && version != Col3 ==>
              r.value.layout.numShadowFaces == 0 && r.value.layout.offShadowVertices == 0
              && r.value.layout.offShadowFaces == 0
    ensures r.Ok? ==>
              r.value.model.(signature := TagColl, version := Col1, fileSize := 0, name := "", modelId := 0,
                             boundingBox := DefaultBoundingBox(), flags := 0, hasFaceGroups := false,
                             hasShadowMesh := false)
              == NewModel()
  {
    var p :- RecordAt(data, off, 32, IdentityFields);
    var bounds :- BoundsCol23At(data, off + 32);
    Col23HeaderTail(data, off, bounds, version)
  }

  /** The part of a version 2/3 header after the bounding volume. */
  function Col23HeaderTail(data: seq<byte>, off: nat, bounds: BoundingBox, version: Version): (r: Result<Col23Head>)
    ensures r.Ok? <==> off + HeaderSize(version) <= |data|
  {
    var counts :- RecordAt(data, off + 72, 8, CountFields);
    var flags :- U32(data, off + 80);
    var offsets :- RecordAt(data, off + 84, 24, OffsetFields);
    var s :- if version == Col3 then RecordAt(data, off + 108, 12, ShadowFields) else Ok(0);
    Ok(Col23Head(Col23HeaderModel(data, off, bounds, version), Col23HeaderLayout(data, off, version),
                 off + HeaderSize(version)))
  }

  /** The model fields of a version 2/3 header at `off`. */
  function Col23HeaderModel(data: seq<byte>, off: nat, bounds: BoundingBox, version: Version): (m: Model)
    requires off + HeaderSize(version) <= |data|
    ensures m.signature == data[off..off + 4] && m.version == version
    ensures m.hasShadowMesh ==> version == Col3
    ensures m.(signature := TagColl, version := Col1, fileSize := 0, name := "", modelId := 0,
               boundingBox := DefaultBoundingBox(), flags := 0, hasFaceGroups := false, hasShadowMesh := false)
            == NewModel()
  {
    var flags := LE(data, off + 80, 4);
    NewModel().(signature := data[off..off + 4], version := version, fileSize := LE(data, off + 4, 4),
                name := CString(data[off + 8..off + 30]), modelId := LE(data, off + 30, 2),
                boundingBox := bounds, flags := flags,
                hasFaceGroups := FlagSet(flags, 8),
                hasShadowMesh := FlagSet(flags, 16) && version == Col3)
  }

  /** The counts and section offsets of a version 2/3 header at `off`; the
      offsets are relative to `base`, the byte after the tag, and the shadow
      fields are zero unless version 3. */
  function Col23HeaderLayout(data: seq<byte>, off: nat, version: Version): (l: Layout)
    requires off + HeaderSize(version) <= |data|
    ensures l.base == off + 4
    ensures version != Col3 ==> l.numShadowFaces == 0 && l.offShadowVertices == 0 && l.offShadowFaces == 0
  {
    var shadow := version == Col3;
    Layout(off + 4, LE(data, off + 72, 2), LE(data, off + 74, 2), LE(data, off + 76, 2),
           if shadow then LE(data, off + 108, 4) else 0,
           LE(data, off + 84, 4), LE(data, off + 88, 4), LE(data, off + 96, 4), LE(data, off + 100, 4),
           if shadow then LE(data, off + 112, 4) else 0,
           if shadow then LE(data, off + 116, 4) else 0)
  }

  /** The header field tables cover their blocks and end in ascending order,
      so `RecordAtIsSequential` and `FirstShortRead` apply to them. */
  lemma IdentityLayout()
    ensures Covers(IdentityFields, 32) && Ascending(IdentityFields)
  {
  }

  lemma CountLayout()
    ensures Covers(CountFields, 8) && Contiguous(CountFields) && Ascending(CountFields)
  {
  }

  lemma OffsetLayout()
    ensures Covers(OffsetFields, 24) && Contiguous(OffsetFields) && Ascending(OffsetFields)
  {
  }

  lemma ShadowLayout()
    ensures Covers(ShadowFields, 12) && Contiguous(ShadowFields) && Ascending(ShadowFields)
  {
  }

  /** Where a body parse stopped: the model as far as it got, the cursor, and
      the error that stopped it, if any. */
  datatype Stage = Stage(model: Model, offset: int, errors: seq<ParseError>)

  /** `_parse_col1_body`: sphere count, spheres, the unused count, box count,
      boxes, vertex count, vertices, face count, faces. The first read that
      fails ends the body with one error; the sections assigned before it are
      kept and the cursor stays where the failing read began. */
  function Col1Body(data: seq<byte>, off: nat, model: Model): (s: Stage)
    ensures off <= s.offset
    ensures s.errors == [] || (|s.errors| == 1 && s.errors[0].Col1BodyError?)
    ensures s.model.(spheres := model.spheres, boxes := model.boxes, vertices := model.vertices,
                     faces := model.faces) == model
    ensures s.errors == [] ==>
              s.offset == off + 20 + 20 * |s.model.spheres| + 32 * |s.model.boxes|
                          + 12 * |s.model.vertices| + 16 * |s.model.faces|
  {
    match U32(data, off)
    case Err(f) => Stage(model, off, [Col1BodyError(f)])
    case Ok(numSpheres) =>
      match Spheres(data, off + 4, numSpheres, Col1)
      case Err(f) => Stage(model, off + 4, [Col1BodyError(f)])
      case Ok((spheres, o1)) =>
        var m1 := model.(spheres := spheres);
        match U32(data, o1)
        case Err(f) => Stage(m1, o1, [Col1BodyError(f)])
        case Ok(_) =>
          match U32(data, o1 + 4)
          case Err(f) => Stage(m1, o1 + 4, [Col1BodyError(f)])
          case Ok(numBoxes) =>
            match Boxes(data, o1 + 8, numBoxes, Col1)
            case Err(f) => Stage(m1, o1 + 8, [Col1BodyError(f)])
            case Ok((boxes, o2)) =>
              var m2 := m1.(boxes := boxes);
              match U32(data, o2)
              case Err(f) => Stage(m2, o2, [Col1BodyError(f)])
              case Ok(numVertices) =>
                match VerticesCol1(data, o2 + 4, numVertices)
                case Err(f) => Stage(m2, o2 + 4, [Col1BodyError(f)])
                case Ok((vertices, o3)) =>
                  var m3 := m2.(vertices := vertices);
                  match U32(data, o3)
                  case Err(f) => Stage(m3, o3, [Col1BodyError(f)])
                  case Ok(numFaces) =>
                    match FacesCol1(data, o3 + 4, numFaces)
                    case Err(f) => Stage(m3, o3 + 4, [Col1BodyError(f)])
                    case Ok((faces, o4)) => Stage(m3.(faces := faces), o4, [])
  }

  /** The spheres of a version 2/3 body, read at `base + offSpheres` when
      there are any. */
  function Col23Spheres(data: seq<byte>, m: Model, l: Layout): (r: Result<Model>)
    ensures r.Ok? ==> r.value == m.(spheres := r.value.spheres)
  {
    if l.numSpheres > 0 then
      var spheres :- Spheres(data, l.base + l.offSpheres, l.numSpheres, m.version);
      Ok(m.(spheres := spheres.0))
    else Ok(m)
  }

  /** The boxes of a version 2/3 body, read at `base + offBoxes` when there are any. */
  function Col23Boxes(data: seq<byte>, m: Model, l: Layout): (r: Result<Model>)
    ensures r.Ok? ==> r.value == m.(boxes := r.value.boxes)
  {
    if l.numBoxes > 0 then
      var boxes :- Boxes(data, l.base + l.offBoxes, l.numBoxes, m.version);
      Ok(m.(boxes := boxes.0))
    else Ok(m)
  }

  /** How both meshes of a version 2/3 body are read: `count` faces at
      `facesAt`, then the `1 + MaxIndex` vertices they name at `verticesAt`.
      Gives the vertices and the faces. */
  function DerivedMesh(data: seq<byte>, facesAt: nat, verticesAt: nat, count: nat): Result<(seq<Vertex>, seq<Face>)>
  {
    var faces :- FacesCol23(data, facesAt, count);
    var vertices :- VerticesCol23(data, verticesAt, MaxIndex(faces.0) + 1);
    Ok((vertices.0, faces.0))
  }

  /** The main mesh when there are faces, then the face-group table when
      flag bit 3 is set. The faces are assigned only once the vertices have
      been read too. */
  function Col23Mesh(data: seq<byte>, m: Model, l: Layout): (r: Result<(Model, seq<ParseError>)>)
    ensures r.Ok? ==> r.value.0 == m.(vertices := r.value.0.vertices, faces := r.value.0.faces,
                                      faceGroups := r.value.0.faceGroups)
    ensures r.Ok? ==> r.value.1 == [] || (|r.value.1| == 1 && r.value.1[0].FaceGroupError?)
  {
    if l.numFaces > 0 then
      var faceOffset := l.base + l.offFaces;
      var mesh :- DerivedMesh(data, faceOffset, l.base + l.offVertices, l.numFaces);
      var withMesh := m.(vertices := mesh.0, faces := mesh.1);
      if m.hasFaceGroups then
        var groups := FaceGroups(data, faceOffset);
        Ok((withMesh.(faceGroups := groups.0), groups.1))
      else Ok((withMesh, []))
    else Ok((m, []))
  }

  /** The shadow mesh, read in the same way as the main mesh, when the header
      marked it present and gave a non-zero shadow face count. */
  function Col23Shadow(data: seq<byte>, m: Model, l: Layout): (r: Result<Model>)
    ensures r.Ok? ==> r.value == m.(shadowVertices := r.value.shadowVertices, shadowFaces := r.value.shadowFaces)
  {
    if m.hasShadowMesh && l.numShadowFaces > 0 then
      var mesh :- DerivedMesh(data, l.base + l.offShadowFaces, l.base + l.offShadowVertices, l.numShadowFaces);
      Ok(m.(shadowVertices := mesh.0, shadowFaces := mesh.1))
    else Ok(m)
  }

  /** `_parse_col23_body`: spheres, boxes, mesh and face groups, shadow mesh.
      A failing read abandons the rest of the body with one error; a failing
      face-group table only empties the groups, with its own error. */
  function Col23Body(data: seq<byte>, model: Model, l: Layout): (r: (Model, seq<ParseError>))
    ensures r.0.(spheres := model.spheres, boxes := model.boxes, vertices := model.vertices, faces := model.faces,
                 faceGroups := model.faceGroups, shadowVertices := model.shadowVertices,
                 shadowFaces := model.shadowFaces) == model
    ensures |r.1| <= 2
    ensures forall k :: 0 <= k < |r.1| ==> r.1[k].FaceGroupError? || r.1[k].Col23BodyError?
  {
    match Col23Spheres(data, model, l)
    case Err(f) => (model, [Col23BodyError(f)])
    case Ok(m1) =>
      match Col23Boxes(data, m1, l)
      case Err(f) => (m1, [Col23BodyError(f)])
      case Ok(m2) =>
        match Col23Mesh(data, m2, l)
        case Err(f) => (m2, [Col23BodyError(f)])
        case Ok((m3, groupErrors)) =>
          match Col23Shadow(data, m3, l)
          case Err(f) => (m3, groupErrors + [Col23BodyError(f)])
          case Ok(m4) => (m4, groupErrors)
  }

  /** The face-group table of `_parse_face_groups`: a 32-bit count just
      before the face array, and that many 28-byte records before the count. */
  function FaceGroupTable(data: seq<byte>, faceOffset: int): Result<seq<FaceGroup>>
  {
    var countOffset := faceOffset - 4;
    var count :- U32(data, countOffset);
    var groups :- Records(data, countOffset - 28 * count, count, 28, FaceGroupAt);
    Ok(groups.0)
  }

  /** `_parse_face_groups`: the table, or no groups and one error. */
  function FaceGroups(data: seq<byte>, faceOffset: int): (r: (seq<FaceGroup>, seq<ParseError>))
    ensures r.1 == [] || (r.0 == [] && |r.1| == 1 && r.1[0].FaceGroupError?)
    ensures r.1 == [] <==> FaceGroupTable(data, faceOffset).Ok?
  {
    match FaceGroupTable(data, faceOffset)
    case Ok(groups) => (groups, [])
    case Err(f) => ([], [FaceGroupError(f)])
  }

  /** How many bytes a version 2/3 model is taken to occupy: the header
      cursor, as `_parse_col23_model` returns it, or `8 + size`, as the comment
      above that return describes. */
  datatype ConsumedRule = HeaderCursor | SizeField

  /** The result of `parse_col_model`: the model or nothing, the bytes
      consumed (0 when there is no model), and the errors it appended. */
  datatype Decoded = Decoded(model: Option<Model>, consumed: nat, errors: seq<ParseError>)

  /** `_parse_col1_model` as `parse_col_model` sees it: no model when the
      header fails, otherwise the (possibly partial) model and the cursor. */
  function DecodeCol1(data: seq<byte>, off: nat): (d: Decoded)
    ensures d.model.None? <==> d.consumed == 0
    ensures d.model.None? <==> off + 72 > |data|
    ensures |d.errors| <= 1
    ensures forall k :: 0 <= k < |d.errors| ==> d.errors[k].FromModel()
    ensures d.model.Some? ==> d.model.value.signature == data[off..off + 4] && d.model.value.version == Col1
  {
    match Col1Header(data, off)
    case Err(f) => Decoded(None, 0, [Col1HeaderError(f)])
    case Ok((m, next)) =>
      var s := Col1Body(data, next, m);
      Decoded(Some(s.model), s.offset - off, s.errors)
  }

  /** `_parse_col23_model` as `parse_col_model` sees it. */
  function DecodeCol23(data: seq<byte>, off: nat, version: Version, rule: ConsumedRule): (d: Decoded)
    ensures d.model.None? <==> d.consumed == 0
    ensures d.model.None? <==> off + HeaderSize(version) > |data|
    ensures d.model.None? ==> |d.errors| == 1
    ensures forall k :: 0 <= k < |d.errors| ==> d.errors[k].FromModel()
    ensures d.model.Some? ==> d.model.value.signature == data[off..off + 4] && d.model.value.version == version
  {
    match Col23Header(data, off, version)
    case Err(f) => Decoded(None, 0, [Col23HeaderError(f)])
    case Ok(h) =>
      var body := Col23Body(data, h.model, h.layout);
      var consumed := if rule == HeaderCursor then h.next - off else 8 + h.model.fileSize;
      Decoded(Some(body.0), consumed, body.1)
  }

  /** `parse_col_model`. */
  function DecodeModel(data: seq<byte>, off: nat, rule: ConsumedRule): (d: Decoded)
    ensures d.model.None? <==> d.consumed == 0
    ensures d.model.None? ==> |d.errors| <= 1
    ensures forall k :: 0 <= k < |d.errors| ==> d.errors[k].FromModel()
    ensures off + 4 > |data| ==> d == Decoded(None, 0, [])
    ensures off + 4 <= |data| && SignatureVersion(data[off..off + 4]).None? ==> d == Decoded(None, 0, [])
    ensures d.model.Some? ==>
              off + 4 <= |data| && d.model.value.signature == data[off..off + 4]
              && SignatureVersion(data[off..off + 4]) == Some(d.model.value.version)
  {
    if off + 4 > |data| then Decoded(None, 0, [])
    else
      match SignatureVersion(data[off..off + 4])
      case None => Decoded(None, 0, [])
      case Some(version) =>
        if version == Col1 then DecodeCol1(data, off) else DecodeCol23(data, off, version, rule)
  }

  /** `parse_col_file` stops once the model index exceeds this. */
  const ModelLimit: nat := 200

  /** What the file loop has gathered: models, errors, and the offset each
      model was found at. */
  datatype FileScan = FileScan(models: seq<Model>, errors: seq<ParseError>, starts: seq<nat>)

  /** Whether the file loop tries a model at `offset`: it stops when fewer
      than 8 bytes remain or the four bytes there are not a known signature. */
  predicate Probes(data: seq<byte>, offset: nat)
  {
    offset < |data| && offset + 8 <= |data| && SignatureVersion(data[offset..offset + 4]).Some?
  }

  /** `parse_col_model` applied to one buffer, as a function of the offset. */
  function ModelDecoder(data: seq<byte>, rule: ConsumedRule): nat -> Decoded
  {
    (off: nat) => DecodeModel(data, off, rule)
  }

  /** The `while` loop of `parse_col_file` from `offset`, with `index`
      models already parsed, using `decode` to read one model. */
  function FileLoop(data: seq<byte>, decode: nat -> Decoded, offset: nat, index: nat, acc: FileScan): FileScan
    decreases |data| - offset, 1
  {
    if !Probes(data, offset) then acc
    else FileLoopAt(data, decode, offset, index, acc)
  }

  /** One iteration of that loop, at an offset where it tries a model. */
  function FileLoopAt(data: seq<byte>, decode: nat -> Decoded, offset: nat, index: nat, acc: FileScan): FileScan
    requires Probes(data, offset)
    decreases |data| - offset, 0
  {
      var d := decode(offset);
      var scanned := acc.(errors := acc.errors + d.errors);
      if d.model.None? || d.consumed == 0 then scanned.(errors := scanned.errors + [ModelFailedAt(offset)])
      else
        var found := scanned.(models := scanned.models + [d.model.value], starts := scanned.starts + [offset]);
        if index + 1 > ModelLimit then found.(errors := found.errors + [SafetyLimitReached])
        else FileLoop(data, decode, offset + d.consumed, index + 1, found)
  }

  /** `parse_col_file` on a buffer already read from disk. */
  function ParseFile(data: seq<byte>, rule: ConsumedRule): FileScan
  {
    FileLoop(data, ModelDecoder(data, rule), 0, 0, FileScan([], [], []))
  }
}
