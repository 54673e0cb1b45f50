/** The second, bounds-checked version 1 decoder of the workshop
    (apps/methods/col_workshop_parser.py). Unlike `COLParser` of
    col_parser.py it checks that each record fits before reading it and
    raises `ValueError` otherwise, uses ASCII digits in its version tags, and
    reads all five version 1 counts before the arrays. The record types are
    the shapes this parser builds; the module that declares them
    (col_workshop_structures.py) is not part of this model. */
module ColWorkshopParser {
  import opened Bytes
  import opened RecordSections
  import opened ColDataStructures
  import opened Text
  import ColRecords

  /** `COLHeader`: the tag, the size field, the name, the id and the version. */
  datatype ColHeader = ColHeader(fourcc: seq<byte>, size: nat, name: string, modelId: nat, version: Version)

  /** `COLBounds`. */
  datatype ColBounds = ColBounds(radius: Num, center: Vector3, min: Vector3, max: Vector3)

  /** The four surface bytes that end spheres, boxes and version 1 faces. */
  datatype Surface = Surface(material: nat, flag: nat, brightness: nat, light: nat)

  datatype ColSphere = ColSphere(radius: Num, center: Vector3, surface: Surface)

  datatype ColBox = ColBox(min: Vector3, max: Vector3, surface: Surface)

  datatype ColVertex = ColVertex(x: Num, y: Num, z: Num)

  datatype ColFace = ColFace(a: nat, b: nat, c: nat, surface: Surface)

  datatype ColModel = ColModel(header: ColHeader, bounds: ColBounds, spheres: seq<ColSphere>,
                               boxes: seq<ColBox>, vertices: seq<ColVertex>, faces: seq<ColFace>)

  // Version tags.

  /** The tag this parser expects for each version: `COLL`, then `COL`
      followed by the ASCII digit `2`, `3` or `4`. */
  function WorkshopTag(v: Version): (s: seq<byte>)
    ensures |s| == 4 && s[..3] == [0x43, 0x4F, 0x4C]
  {
    match v
    case Col1 => TagColl
    case Col2 => [0x43, 0x4F, 0x4C, 0x32]
    case Col3 => [0x43, 0x4F, 0x4C, 0x33]
    case Col4 => [0x43, 0x4F, 0x4C, 0x34]
  }

  /** The `ValueError` for a tag that names no version; the message shows
      the tag as `repr` of its bytes, e.g. `Unknown COL FourCC: b'COL\x02'`. */
  function UnknownFourcc(fourcc: seq<byte>): (f: Fault)
    ensures f.ValueError? && |f.msg| >= 20 + 3 + |fourcc| && f.msg[..20] == "Unknown COL FourCC: "
  {
    ValueError("Unknown COL FourCC: " + BytesRepr(fourcc))
  }

  /** `_fourcc_to_version`. */
  function FourccToVersion(fourcc: seq<byte>): (r: Result<Version>)
    ensures r.Ok? ==> fourcc == WorkshopTag(r.value)
    ensures r.Err? ==> r.fault == UnknownFourcc(fourcc) && forall v :: fourcc != WorkshopTag(v)
  {
    if |fourcc| == 4 && fourcc[0] == 0x43 && fourcc[1] == 0x4F && fourcc[2] == 0x4C then
      if fourcc[3] == 0x4C then Ok(Col1)
      else if fourcc[3] == 0x32 then Ok(Col2)
      else if fourcc[3] == 0x33 then Ok(Col3)
      else if fourcc[3] == 0x34 then Ok(Col4)
      else Err(UnknownFourcc(fourcc))
    else Err(UnknownFourcc(fourcc))
  }

  // Header and bounds.

  const ShortHeader := ValueError("Data too short for COL header")

  /** `parse_header`: 32 bytes or `ValueError`; then the tag, the size, the
      22-byte name up to its first zero byte, the id, and the version the tag
      names, or `ValueError` for an unknown tag. */
  function Header(data: seq<byte>, off: nat): (r: Result<(ColHeader, nat)>)
    ensures r.Ok? <==> off + 32 <= |data| && FourccToVersion(data[off..off + 4]).Ok?
    ensures off + 32 > |data| ==> r == Err(ShortHeader)
    ensures r.Ok? ==> r.value.1 == off + 32 && r.value.0.fourcc == WorkshopTag(r.value.0.version)
  {
    if |data| < off + 32 then Err(ShortHeader)
    else
      var version :- FourccToVersion(data[off..off + 4]);
      Ok((ColHeader(data[off..off + 4], LE(data, off + 4, 4), CString(data[off + 8..off + 30]),
                    LE(data, off + 30, 2), version), off + 32))
  }

  const ShortBounds := ValueError("Data too short for bounds")

  /** `parse_bounds`: 40 bytes or `ValueError`. */
  function Bounds(data: seq<byte>, off: nat, version: Version): (r: Result<(ColBounds, nat)>)
    ensures r.Ok? <==> off + 40 <= |data|
    ensures r.Err? ==> r.fault == ShortBounds
    ensures r.Ok? ==> r.value.1 == off + 40
  {
    if |data| < off + 40 then Err(ShortBounds)
    else if version == Col1 then
      Ok((ColBounds(F32(LE(data, off, 4)), ColRecords.Vec3(data, off + 4), ColRecords.Vec3(data, off + 16), ColRecords.Vec3(data, off + 28)), off + 40))
    else
      Ok((ColBounds(F32(LE(data, off + 36, 4)), ColRecords.Vec3(data, off + 24), ColRecords.Vec3(data, off), ColRecords.Vec3(data, off + 12)), off + 40))
  }

  // Records. Each checks that its bytes fit before reading; the cursors
  // here start at natural offsets and only grow, so they are never negative.

  function SurfaceAt(data: seq<byte>, p: nat): Surface
    requires p + 4 <= |data|
  {
    Surface(data[p], data[p + 1], data[p + 2], data[p + 3])
  }

  const ShortSphere := ValueError("Data too short for sphere")
  const ShortBox := ValueError("Data too short for box")
  const ShortVertex := ValueError("Data too short for vertex")
  const ShortFace := ValueError("Data too short for face")

  /** A 20-byte sphere: radius, center, surface. */
  function SphereAt(data: seq<byte>, off: int): (r: Result<ColSphere>)
  {
    if off < 0 || |data| < off + 20 then Err(ShortSphere)
    else Ok(ColSphere(F32(LE(data, off, 4)), ColRecords.Vec3(data, off + 4), SurfaceAt(data, off + 16)))
  }

  /** A 28-byte box: min, max, surface. */
  function BoxAt(data: seq<byte>, off: int): (r: Result<ColBox>)
  {
    if off < 0 || |data| < off + 28 then Err(ShortBox)
    else Ok(ColBox(ColRecords.Vec3(data, off), ColRecords.Vec3(data, off + 12), SurfaceAt(data, off + 24)))
  }

  /** A version 1 vertex: three floats in 12 bytes. */
  function VertexFloatAt(data: seq<byte>, off: int): (r: Result<ColVertex>)
  {
    if off < 0 || |data| < off + 12 then Err(ShortVertex)
    else Ok(ColVertex(F32(LE(data, off, 4)), F32(LE(data, off + 4, 4)), F32(LE(data, off + 8, 4))))
  }

  /** A later vertex: three signed 16-bit integers in 6 bytes, each divided by 128. */
  function VertexFixedAt(data: seq<byte>, off: int): (r: Result<ColVertex>)
  {
    if off < 0 || |data| < off + 6 then Err(ShortVertex)
    else Ok(ColVertex(Exact(ColRecords.FixedToReal(Signed16(LE(data, off, 2)))),
                      Exact(ColRecords.FixedToReal(Signed16(LE(data, off + 2, 2)))),
                      Exact(ColRecords.FixedToReal(Signed16(LE(data, off + 4, 2))))))
  }

  /** A version 1 face: three 32-bit indices and the surface, 16 bytes. */
  function FaceWideAt(data: seq<byte>, off: int): (r: Result<ColFace>)
  {
    if off < 0 || |data| < off + 16 then Err(ShortFace)
    else Ok(ColFace(LE(data, off, 4), LE(data, off + 4, 4), LE(data, off + 8, 4), SurfaceAt(data, off + 12)))
  }

  /** A later face: three 16-bit indices, a material and a light byte, 8
      bytes; flag and brightness are 0. */
  function FaceNarrowAt(data: seq<byte>, off: int): (r: Result<ColFace>)
  {
    if off < 0 || |data| < off + 8 then Err(ShortFace)
    else Ok(ColFace(LE(data, off, 2), LE(data, off + 2, 2), LE(data, off + 4, 2),
                    Surface(data[off + 6], 0, 0, data[off + 7])))
  }

  // Sections.

  /** The 20-byte sphere loop that `parse_spheres` evidently intends (see
      `SpheresAsWritten` for the code as it stands). */
  function Spheres(data: seq<byte>, off: nat, count: nat): Result<(seq<ColSphere>, int)>
  {
    Records(data, off, count, 20, SphereAt)
  }

  /** `parse_boxes`. */
  function Boxes(data: seq<byte>, off: nat, count: nat): Result<(seq<ColBox>, int)>
  {
    Records(data, off, count, 28, BoxAt)
  }

  /** The vertex size of `parse_vertices`: 12 bytes in version 1, else 6. */
  function VertexSize(version: Version): nat
  {
    if version == Col1 then 12 else 6
  }

  function VertexRecord(version: Version): (seq<byte>, int) -> Result<ColVertex>
  {
    if version == Col1 then VertexFloatAt else VertexFixedAt
  }

  /** `parse_vertices`: no alignment padding is skipped after the fixed-point vertices. */
  function Vertices(data: seq<byte>, off: nat, count: nat, version: Version): Result<(seq<ColVertex>, int)>
  {
    Records(data, off, count, VertexSize(version), VertexRecord(version))
  }

  /** The face size of `parse_faces`: 16 bytes in version 1, else 8. */
  function FaceSize(version: Version): nat
  {
    if version == Col1 then 16 else 8
  }

  function FaceRecord(version: Version): (seq<byte>, int) -> Result<ColFace>
  {
    if version == Col1 then FaceWideAt else FaceNarrowAt
  }

  /** `parse_faces`. */
  function Faces(data: seq<byte>, off: nat, count: nat, version: Version): Result<(seq<ColFace>, int)>
  {
    Records(data, off, count, FaceSize(version), FaceRecord(version))
  }

  // The whole model.

  /** The `ValueError` for a header of another version. The version is
      assumed to print as its number, as an f-string prints an `IntEnum`
      member: the `COLVersion` this parser imports is taken to be the one of
      col_data_structures.py. */
  function NotCol1(v: Version): (f: Fault)
    ensures f.ValueError? && |f.msg| > 19 && f.msg[..19] == "Expected COL1, got "
    ensures forall k :: 19 <= k < |f.msg| ==> IsDigit(f.msg[k])
    ensures DecimalValue(f.msg[19..]) == v.Value()
  {
    var text := Decimal(v.Value());
    DecimalRoundTrip(v.Value());
    assert ("Expected COL1, got " + text)[19..] == text;
    ValueError("Expected COL1, got " + text)
  }
  const ShortCounts := ValueError("Data too short for COL1 counts")

  /** The five 32-bit counts at `p`: spheres, an unused count, boxes, vertices, faces. */
  datatype Counts = Counts(spheres: nat, unknown: nat, boxes: nat, vertices: nat, faces: nat)

  function CountsAt(data: seq<byte>, p: nat): Counts
    requires p + 20 <= |data|
  {
    Counts(LE(data, p, 4), LE(data, p + 4, 4), LE(data, p + 8, 4), LE(data, p + 12, 4), LE(data, p + 16, 4))
  }

  /** What follows the header of a version 1 model: the bounds, the 20 bytes
      of counts (or `ValueError`), then the four arrays. */
  function Col1Body(data: seq<byte>, header: ColHeader, off: nat): (r: Result<(ColModel, nat)>)
  {
    var (bounds, p) :- Bounds(data, off, Col1);
    if |data| < p + 20 then Err(ShortCounts)
    else
      var n := CountsAt(data, p);
      var (spheres, o1) :- Spheres(data, p + 20, n.spheres);
      var (boxes, o2) :- Boxes(data, o1, n.boxes);
      var (vertices, o3) :- Vertices(data, o2, n.vertices, Col1);
      var (faces, o4) :- Faces(data, o3, n.faces, Col1);
      Ok((ColModel(header, bounds, spheres, boxes, vertices, faces), o4))
  }

  /** `parse_col1_model`: the header, `ValueError` unless it is version 1,
      then the body. */
  function Col1Model(data: seq<byte>, off: nat): (r: Result<(ColModel, nat)>)
  {
    var (header, p) :- Header(data, off);
    if header.version != Col1 then Err(NotCol1(header.version))
    else Col1Body(data, header, p)
  }

  // The code as written.

  /** `parse_spheres` as the source has it: inside the loop it reads a radius
      and a center, then a "sphere count" from the next 4 bytes and calls
      itself on it, then a skipped word, a box count and the boxes, a vertex
      count, and then evaluates the undefined name `header` (line 145). No
      call with a positive count returns. */
  function SpheresAsWritten(data: seq<byte>, off: nat, count: nat): (r: Result<(seq<ColSphere>, int)>)
    ensures count == 0 ==> r == Ok(([], off))
    ensures count > 0 ==> r.Err?
    decreases |data| - off
  {
    if count == 0 then Ok(([], off))
    else if |data| < off + 20 then Err(ShortSphere)
    else
      var (_, p) :- SpheresAsWritten(data, off + 20, LE(data, off + 16, 4));
      var numBoxes :- U32(data, p + 4);
      var (_, o2) :- Boxes(data, p + 8, numBoxes);
      var _ :- U32(data, o2);
      Err(NameError("header"))
  }

  // The source's methods.

  /** `_fourcc_to_version`: the if/elif chain over the four tags. */
  method FourccVersion(fourcc: seq<byte>) returns (r: Result<Version>)
    ensures r == FourccToVersion(fourcc)
  {
    if fourcc == TagColl {
      return Ok(Col1);
    } else if fourcc == [0x43, 0x4F, 0x4C, 0x32] {
      return Ok(Col2);
    } else if fourcc == [0x43, 0x4F, 0x4C, 0x33] {
      return Ok(Col3);
    } else if fourcc == [0x43, 0x4F, 0x4C, 0x34] {
      return Ok(Col4);
    }
    return Err(UnknownFourcc(fourcc));
  }

  /** `parse_header`. */
  method ParseHeader(data: seq<byte>, offset: nat) returns (r: Result<(ColHeader, nat)>)
    ensures r == Header(data, offset)
  {
    if |data| < offset + 32 {
      return Err(ShortHeader);
    }
    var cur := offset;
    var fourcc := data[cur..cur + 4];
    cur := cur + 4;
    var size := LE(data, cur, 4);
    cur := cur + 4;
    var name := CString(data[cur..cur + 22]);
    cur := cur + 22;
    var modelId := LE(data, cur, 2);
    cur := cur + 2;
    var version :- FourccVersion(fourcc);
    return Ok((ColHeader(fourcc, size, name, modelId, version), cur));
  }

  /** `parse_bounds`. */
  method ParseBounds(data: seq<byte>, offset: nat, version: Version) returns (r: Result<(ColBounds, nat)>)
    ensures r == Bounds(data, offset, version)
  {
    if |data| < offset + 40 {
      return Err(ShortBounds);
    }
    var cur := offset;
    var radius, center, min, max;
    if version == Col1 {
      radius := F32(LE(data, cur, 4));
      cur := cur + 4;
      center := ColRecords.Vec3(data, cur);
      cur := cur + 12;
      min := ColRecords.Vec3(data, cur);
      cur := cur + 12;
      max := ColRecords.Vec3(data, cur);
      cur := cur + 12;
    } else {
      min := ColRecords.Vec3(data, cur);
      cur := cur + 12;
      max := ColRecords.Vec3(data, cur);
      cur := cur + 12;
      center := ColRecords.Vec3(data, cur);
      cur := cur + 12;
      radius := F32(LE(data, cur, 4));
      cur := cur + 4;
    }
    return Ok((ColBounds(radius, center, min, max), cur));
  }

  /** The intended `parse_spheres` loop: 20 bytes checked, then radius,
      center and the surface bytes. */
  method ParseSpheres(data: seq<byte>, offset: nat, count: nat) returns (r: Result<(seq<ColSphere>, int)>)
    ensures r == Spheres(data, offset, count)
  {
    var spheres: seq<ColSphere> := [];
    var cur: nat := offset;
    for i := 0 to count
      invariant Records(data, offset, i, 20, SphereAt) == Ok((spheres, cur))
    {
      RecordsStep(data, offset, i, 20, SphereAt, spheres, cur);
      if |data| < cur + 20 {
        RecordsErrPersists(data, offset, i + 1, count, 20, SphereAt);
        return Err(ShortSphere);
      }
      var radius := F32(LE(data, cur, 4));
      var center := ColRecords.Vec3(data, cur + 4);
      var surface := SurfaceAt(data, cur + 16);
      spheres := spheres + [ColSphere(radius, center, surface)];
      cur := cur + 20;
    }
    return Ok((spheres, cur));
  }

  /** `parse_boxes`. */
  method ParseBoxes(data: seq<byte>, offset: nat, count: nat) returns (r: Result<(seq<ColBox>, int)>)
    ensures r == Boxes(data, offset, count)
  {
    var boxes: seq<ColBox> := [];
    var cur: nat := offset;
    for i := 0 to count
      invariant Records(data, offset, i, 28, BoxAt) == Ok((boxes, cur))
    {
      RecordsStep(data, offset, i, 28, BoxAt, boxes, cur);
      if |data| < cur + 28 {
        RecordsErrPersists(data, offset, i + 1, count, 28, BoxAt);
        return Err(ShortBox);
      }
      var min := ColRecords.Vec3(data, cur);
      var max := ColRecords.Vec3(data, cur + 12);
      var surface := SurfaceAt(data, cur + 24);
      boxes := boxes + [ColBox(min, max, surface)];
      cur := cur + 28;
    }
    return Ok((boxes, cur));
  }

  /** `parse_vertices`: one loop per encoding. */
  method ParseVertices(data: seq<byte>, offset: nat, count: nat, version: Version)
    returns (r: Result<(seq<ColVertex>, int)>)
    ensures r == Vertices(data, offset, count, version)
  {
    var vertices: seq<ColVertex> := [];
    var cur: nat := offset;
    if version == Col1 {
      for i := 0 to count
        invariant Records(data, offset, i, 12, VertexFloatAt) == Ok((vertices, cur))
      {
        RecordsStep(data, offset, i, 12, VertexFloatAt, vertices, cur);
        if |data| < cur + 12 {
          RecordsErrPersists(data, offset, i + 1, count, 12, VertexFloatAt);
          return Err(ShortVertex);
        }
        vertices := vertices + [ColVertex(F32(LE(data, cur, 4)), F32(LE(data, cur + 4, 4)), F32(LE(data, cur + 8, 4)))];
        cur := cur + 12;
      }
    } else {
      for i := 0 to count
        invariant Records(data, offset, i, 6, VertexFixedAt) == Ok((vertices, cur))
      {
        RecordsStep(data, offset, i, 6, VertexFixedAt, vertices, cur);
        if |data| < cur + 6 {
          RecordsErrPersists(data, offset, i + 1, count, 6, VertexFixedAt);
          return Err(ShortVertex);
        }
        var ix := Signed16(LE(data, cur, 2));
        var iy := Signed16(LE(data, cur + 2, 2));
        var iz := Signed16(LE(data, cur + 4, 2));
        vertices := vertices + [ColVertex(Exact(ColRecords.FixedToReal(ix)), Exact(ColRecords.FixedToReal(iy)),
                                          Exact(ColRecords.FixedToReal(iz)))];
        cur := cur + 6;
      }
    }
    return Ok((vertices, cur));
  }

  /** `parse_faces`: one loop per layout. */
  method ParseFaces(data: seq<byte>, offset: nat, count: nat, version: Version)
    returns (r: Result<(seq<ColFace>, int)>)
    ensures r == Faces(data, offset, count, version)
  {
    var faces: seq<ColFace> := [];
    var cur: nat := offset;
    if version == Col1 {
      for i := 0 to count
        invariant Records(data, offset, i, 16, FaceWideAt) == Ok((faces, cur))
      {
        RecordsStep(data, offset, i, 16, FaceWideAt, faces, cur);
        if |data| < cur + 16 {
          RecordsErrPersists(data, offset, i + 1, count, 16, FaceWideAt);
          return Err(ShortFace);
        }
        var a, b, c := LE(data, cur, 4), LE(data, cur + 4, 4), LE(data, cur + 8, 4);
        faces := faces + [ColFace(a, b, c, SurfaceAt(data, cur + 12))];
        cur := cur + 16;
      }
    } else {
      for i := 0 to count
        invariant Records(data, offset, i, 8, FaceNarrowAt) == Ok((faces, cur))
      {
        RecordsStep(data, offset, i, 8, FaceNarrowAt, faces, cur);
        if |data| < cur + 8 {
          RecordsErrPersists(data, offset, i + 1, count, 8, FaceNarrowAt);
          return Err(ShortFace);
        }
        var a, b, c := LE(data, cur, 2), LE(data, cur + 2, 2), LE(data, cur + 4, 2);
        faces := faces + [ColFace(a, b, c, Surface(data[cur + 6], 0, 0, data[cur + 7]))];
        cur := cur + 8;
      }
    }
    return Ok((faces, cur));
  }

  /** `parse_col1_model`: header, version check, bounds, the five counts,
      then the four arrays. */
  method ParseCol1Model(data: seq<byte>, offset: nat) returns (r: Result<(ColModel, nat)>)
    ensures r == Col1Model(data, offset)
  {
    var h :- ParseHeader(data, offset);
    var (header, afterHeader) := h;
    if header.version != Col1 {
      return Err(NotCol1(header.version));
    }
    var b :- ParseBounds(data, afterHeader, Col1);
    var (bounds, cur) := b;
    if |data| < cur + 20 {
      return Err(ShortCounts);
    }
    var numSpheres := LE(data, cur, 4);
    var numUnknown := LE(data, cur + 4, 4);
    var numBoxes := LE(data, cur + 8, 4);
    var numVertices := LE(data, cur + 12, 4);
    var numFaces := LE(data, cur + 16, 4);
    assert CountsAt(data, cur) == Counts(numSpheres, numUnknown, numBoxes, numVertices, numFaces);
    var s :- ParseSpheres(data, cur + 20, numSpheres);
    var bx :- ParseBoxes(data, s.1, numBoxes);
    var v :- ParseVertices(data, bx.1, numVertices, Col1);
    var f :- ParseFaces(data, v.1, numFaces, Col1);
    return Ok((ColModel(header, bounds, s.0, bx.0, v.0, f.0), f.1));
  }
}
