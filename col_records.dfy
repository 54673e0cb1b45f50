/** The record decoders of `COLParser` (apps/methods/col_parser.py): bounding
    volumes, spheres, boxes, the two vertex encodings and the two face
    layouts. The per-record functions describe one record; the section
    functions apply them `count` times with `Records.Records`; the methods
    run the source's `for` loops and are proved to compute the section
    functions. None of these catch exceptions: a short buffer is an `Err`
    that the caller handles. */
module ColRecords {
  import opened Bytes
  import opened RecordSections
  import opened ColDataStructures

  /** Three floats from the 12 bytes at `p`: what `struct.unpack('<fff', ...)` gives. */
  function Vec3(data: seq<byte>, p: nat): Vector3
    requires p + 12 <= |data|
  {
    Vector3(F32(LE(data, p, 4)), F32(LE(data, p + 4, 4)), F32(LE(data, p + 8, 4)))
  }

  /** `_parse_bounding_box_col1`: radius (4 bytes), then center, min and max
      (12 bytes each); 40 bytes, like the later layout. */
  const BoundsCol1Fields: seq<Read> := [Read(0, 4), Read(4, 12), Read(16, 12), Read(28, 12)]

  function BoundsCol1(data: seq<byte>, p: nat): BoundingBox
    requires p + 40 <= |data|
  {
    BoundingBox(Vec3(data, p + 16), Vec3(data, p + 28), Vec3(data, p + 4), F32(LE(data, p, 4)))
  }

  function BoundsCol1At(data: seq<byte>, off: nat): (r: Result<BoundingBox>)
    ensures r.Ok? <==> off + 40 <= |data|
  {
    var p :- RecordAt(data, off, 40, BoundsCol1Fields);
    Ok(BoundsCol1(data, p))
  }

  /** `_parse_bounding_box_col23`: min, max, center, then the radius. */
  const BoundsCol23Fields: seq<Read> := [Read(0, 12), Read(12, 12), Read(24, 12), Read(36, 4)]

  function BoundsCol23(data: seq<byte>, p: nat): BoundingBox
    requires p + 40 <= |data|
  {
    BoundingBox(Vec3(data, p), Vec3(data, p + 12), Vec3(data, p + 24), F32(LE(data, p + 36, 4)))
  }

  function BoundsCol23At(data: seq<byte>, off: nat): (r: Result<BoundingBox>)
    ensures r.Ok? <==> off + 40 <= |data|
  {
    var p :- RecordAt(data, off, 40, BoundsCol23Fields);
    Ok(BoundsCol23(data, p))
  }

  /** The reads of one 20-byte sphere of `_parse_spheres`: version 1 stores
      the radius before the center, later versions after it; then a material
      byte, a flag byte that is read and dropped, and a 16-bit flag word. */
  function SphereFields(version: Version): seq<Read>
  {
    if version == Col1 then [Read(0, 4), Read(4, 12), Read(16, 1), Read(17, 1), Read(18, 2)]
    else [Read(0, 12), Read(12, 4), Read(16, 1), Read(17, 1), Read(18, 2)]
  }

  function SphereAt(data: seq<byte>, off: int, version: Version): (r: Result<Sphere>)
    ensures 0 <= off ==> (r.Ok? <==> off + 20 <= |data|)
  {
    var p :- RecordAt(data, off, 20, SphereFields(version));
    if version == Col1 then Ok(Sphere(Vec3(data, p + 4), F32(LE(data, p, 4)), data[p + 16], LE(data, p + 18, 2)))
    else Ok(Sphere(Vec3(data, p), F32(LE(data, p + 12, 4)), data[p + 16], LE(data, p + 18, 2)))
  }

  /** Boxes take 32 bytes in version 1 (a trailing 32-bit flag word) and 28
      bytes otherwise. */
  function BoxSize(version: Version): nat
  {
    if version == Col1 then 32 else 28
  }

  /** The reads of one box of `_parse_boxes`: min, max and a material byte;
      the flag byte and the padding are skipped without being read, so a box
      needs only the bytes up to its material (25) unless version 1 reads its
      flag word. */
  function BoxFields(version: Version): seq<Read>
  {
    if version == Col1 then [Read(0, 12), Read(12, 12), Read(24, 1), Read(28, 4)]
    else [Read(0, 12), Read(12, 12), Read(24, 1)]
  }

  function BoxReadSize(version: Version): nat
  {
    if version == Col1 then 32 else 25
  }

  function BoxAt(data: seq<byte>, off: int, version: Version): (r: Result<Box>)
    ensures 0 <= off ==> (r.Ok? <==> off + BoxReadSize(version) <= |data|)
  {
    var p :- RecordAt(data, off, BoxReadSize(version), BoxFields(version));
    Ok(Box(Vec3(data, p), Vec3(data, p + 12), data[p + 24], if version == Col1 then LE(data, p + 28, 4) else 0))
  }

  /** One version 1 vertex: three floats in one 12-byte read. */
  function VertexCol1At(data: seq<byte>, off: int): (r: Result<Vertex>)
    ensures 0 <= off ==> (r.Ok? <==> off + 12 <= |data|)
  {
    var p :- RecordAt(data, off, 12, [Read(0, 12)]);
    Ok(Vertex(Vec3(data, p)))
  }

  /** A fixed-point coordinate: the signed 16-bit integer divided by 128. */
  function FixedToReal(raw: int): real
  {
    raw as real / 128.0
  }

  /** One version 2/3 vertex: three signed 16-bit integers in one 6-byte
      read, each divided by 128. */
  function VertexCol23At(data: seq<byte>, off: int): (r: Result<Vertex>)
    ensures 0 <= off ==> (r.Ok? <==> off + 6 <= |data|)
  {
    var p :- RecordAt(data, off, 6, [Read(0, 6)]);
    Ok(Vertex(Vector3(Exact(FixedToReal(Signed16(LE(data, p, 2)))),
                      Exact(FixedToReal(Signed16(LE(data, p + 2, 2)))),
                      Exact(FixedToReal(Signed16(LE(data, p + 4, 2)))))))
  }

  /** One version 1 face: three 32-bit indices and a 16-bit material; the two
      light bytes are skipped without being read. */
  const FaceCol1Fields: seq<Read> := [Read(0, 4), Read(4, 4), Read(8, 4), Read(12, 2)]

  function FaceCol1At(data: seq<byte>, off: int): (r: Result<Face>)
    ensures 0 <= off ==> (r.Ok? <==> off + 14 <= |data|)
  {
    var p :- RecordAt(data, off, 14, FaceCol1Fields);
    Ok(NewFace().(a := LE(data, p, 4), b := LE(data, p + 4, 4), c := LE(data, p + 8, 4),
                  material := LE(data, p + 12, 2)))
  }

  /** One version 2/3 face: three 16-bit indices, a material byte, a light byte. */
  const FaceCol23Fields: seq<Read> := [Read(0, 2), Read(2, 2), Read(4, 2), Read(6, 1), Read(7, 1)]

  function FaceCol23At(data: seq<byte>, off: int): (r: Result<Face>)
    ensures 0 <= off ==> (r.Ok? <==> off + 8 <= |data|)
    ensures r.Ok? ==> r.value.a < 0x1_0000 && r.value.b < 0x1_0000 && r.value.c < 0x1_0000
  {
    var p :- RecordAt(data, off, 8, FaceCol23Fields);
    Ok(NewFace().(a := LE(data, p, 2), b := LE(data, p + 2, 2), c := LE(data, p + 4, 2),
                  material := data[p + 6], light := data[p + 7]))
  }

  /** One 28-byte record of `_parse_face_groups`: min, max, and the inclusive
      16-bit start and end face indices. The table lies before the face
      array, so `off` may be negative; the reads then follow Python's slice
      rules. */
  const FaceGroupFields: seq<Read> := [Read(0, 12), Read(12, 12), Read(24, 2), Read(26, 2)]

  function FaceGroupAt(data: seq<byte>, off: int): (r: Result<FaceGroup>)
    ensures 0 <= off ==> (r.Ok? <==> off + 28 <= |data|)
  {
    var p :- RecordAt(data, off, 28, FaceGroupFields);
    Ok(FaceGroup(Vec3(data, p), Vec3(data, p + 12), LE(data, p + 24, 2), LE(data, p + 26, 2)))
  }

  // Every record layout above covers its record, and all but the version 1
  // box leave no gap, so `RecordAtIsSequential` applies to each of them at
  // offsets of at least 0, and to the face groups at any offset.

  lemma BoundsLayouts()
    ensures Covers(BoundsCol1Fields, 40) && Contiguous(BoundsCol1Fields) && Ascending(BoundsCol1Fields)
    ensures Covers(BoundsCol23Fields, 40) && Contiguous(BoundsCol23Fields) && Ascending(BoundsCol23Fields)
  {
  }

  lemma SphereLayout(version: Version)
    ensures Covers(SphereFields(version), 20) && Contiguous(SphereFields(version)) && Ascending(SphereFields(version))
  {
  }

  lemma BoxLayout(version: Version)
    ensures Covers(BoxFields(version), BoxReadSize(version)) && Ascending(BoxFields(version))
    ensures version != Col1 ==> Contiguous(BoxFields(version))
  {
  }

  lemma FaceLayouts()
    ensures Covers(FaceCol1Fields, 14) && Contiguous(FaceCol1Fields) && Ascending(FaceCol1Fields)
    ensures Covers(FaceCol23Fields, 8) && Contiguous(FaceCol23Fields) && Ascending(FaceCol23Fields)
  {
  }

  lemma FaceGroupLayout()
    ensures Covers(FaceGroupFields, 28) && Contiguous(FaceGroupFields) && Ascending(FaceGroupFields)
  {
  }

  /** A face-group record that starts before offset 0 but does not end
      before it cannot be read: one of its reads straddles offset 0 or ends
      exactly there, and Python's slice then comes back short. */
  lemma FaceGroupAcrossZeroFails(data: seq<byte>, off: int)
    requires off < 0 <= off + 28
    ensures FaceGroupAt(data, off).Err?
  {
  }

  // The per-record decoders of each version, as values for `Records`.

  function SphereCol1At(data: seq<byte>, off: int): Result<Sphere>
  {
    SphereAt(data, off, Col1)
  }

  function SphereCol23At(data: seq<byte>, off: int): Result<Sphere>
  {
    SphereAt(data, off, Col2)
  }

  function BoxCol1At(data: seq<byte>, off: int): Result<Box>
  {
    BoxAt(data, off, Col1)
  }

  function BoxCol23At(data: seq<byte>, off: int): Result<Box>
  {
    BoxAt(data, off, Col2)
  }

  function SphereRecord(version: Version): (seq<byte>, int) -> Result<Sphere>
  {
    if version == Col1 then SphereCol1At else SphereCol23At
  }

  function BoxRecord(version: Version): (seq<byte>, int) -> Result<Box>
  {
    if version == Col1 then BoxCol1At else BoxCol23At
  }

  /** `_parse_spheres`. */
  function Spheres(data: seq<byte>, off: int, count: nat, version: Version): Result<(seq<Sphere>, int)>
  {
    Records(data, off, count, 20, SphereRecord(version))
  }

  /** `_parse_boxes`. */
  function Boxes(data: seq<byte>, off: int, count: nat, version: Version): Result<(seq<Box>, int)>
  {
    Records(data, off, count, BoxSize(version), BoxRecord(version))
  }

  /** `_parse_vertices_col1`. */
  function VerticesCol1(data: seq<byte>, off: int, count: nat): Result<(seq<Vertex>, int)>
  {
    Records(data, off, count, 12, VertexCol1At)
  }

  /** The two alignment bytes that follow a version 2/3 vertex array whose
      length is not a multiple of 4. */
  function VertexPadding(count: nat): (pad: nat)
    ensures (count * 6 + pad) % 4 == 0
    ensures pad == 0 || pad == 2
  {
    if (count * 6) % 4 != 0 then 2 else 0
  }

  /** `_parse_vertices_col23`: the vertices, then the padding is skipped
      without being read. */
  function VerticesCol23(data: seq<byte>, off: int, count: nat): Result<(seq<Vertex>, int)>
  {
    var p :- Records(data, off, count, 6, VertexCol23At);
    Ok((p.0, p.1 + VertexPadding(count)))
  }

  /** `_parse_faces_col1`. */
  function FacesCol1(data: seq<byte>, off: int, count: nat): Result<(seq<Face>, int)>
  {
    Records(data, off, count, 16, FaceCol1At)
  }

  /** `_parse_faces_col23`. */
  function FacesCol23(data: seq<byte>, off: int, count: nat): Result<(seq<Face>, int)>
  {
    Records(data, off, count, 8, FaceCol23At)
  }

  // The source's loops.

  method ParseSpheres(data: seq<byte>, offset: int, count: nat, version: Version)
    returns (r: Result<(seq<Sphere>, int)>)
    ensures r == Spheres(data, offset, count, version)
  {
    var spheres: seq<Sphere> := [];
    var cur := offset;
    var rec := SphereRecord(version);
    for i := 0 to count
      invariant Records(data, offset, i, 20, rec) == Ok((spheres, cur))
    {
      var sphere := rec(data, cur);
      RecordsStep(data, offset, i, 20, rec, spheres, cur);
      if sphere.Err? {
        RecordsErrPersists(data, offset, i + 1, count, 20, rec);
        return Err(sphere.fault);
      }
      spheres := spheres + [sphere.value];
      cur := cur + 20;
    }
    return Ok((spheres, cur));
  }

  method ParseBoxes(data: seq<byte>, offset: int, count: nat, version: Version)
    returns (r: Result<(seq<Box>, int)>)
    ensures r == Boxes(data, offset, count, version)
  {
    var boxes: seq<Box> := [];
    var cur := offset;
    var rec := BoxRecord(version);
    var width := BoxSize(version);
    for i := 0 to count
      invariant Records(data, offset, i, width, rec) == Ok((boxes, cur))
    {
      var box := rec(data, cur);
      RecordsStep(data, offset, i, width, rec, boxes, cur);
      if box.Err? {
        RecordsErrPersists(data, offset, i + 1, count, width, rec);
        return Err(box.fault);
      }
      boxes := boxes + [box.value];
      cur := cur + width;
    }
    return Ok((boxes, cur));
  }

  method ParseVerticesCol1(data: seq<byte>, offset: int, count: nat)
    returns (r: Result<(seq<Vertex>, int)>)
    ensures r == VerticesCol1(data, offset, count)
  {
    var vertices: seq<Vertex> := [];
    var cur := offset;
    for i := 0 to count
      invariant Records(data, offset, i, 12, VertexCol1At) == Ok((vertices, cur))
    {
      var vertex := VertexCol1At(data, cur);
      RecordsStep(data, offset, i, 12, VertexCol1At, vertices, cur);
      if vertex.Err? {
        RecordsErrPersists(data, offset, i + 1, count, 12, VertexCol1At);
        return Err(vertex.fault);
      }
      vertices := vertices + [vertex.value];
      cur := cur + 12;
    }
    return Ok((vertices, cur));
  }

  method ParseVerticesCol23(data: seq<byte>, offset: int, count: nat)
    returns (r: Result<(seq<Vertex>, int)>)
    ensures r == VerticesCol23(data, offset, count)
  {
    var vertices: seq<Vertex> := [];
    var cur := offset;
    for i := 0 to count
      invariant Records(data, offset, i, 6, VertexCol23At) == Ok((vertices, cur))
    {
      var vertex := VertexCol23At(data, cur);
      RecordsStep(data, offset, i, 6, VertexCol23At, vertices, cur);
      if vertex.Err? {
        RecordsErrPersists(data, offset, i + 1, count, 6, VertexCol23At);
        return Err(vertex.fault);
      }
      vertices := vertices + [vertex.value];
      cur := cur + 6;
    }
    if (count * 6) % 4 != 0 {
      cur := cur + 2;
    }
    return Ok((vertices, cur));
  }

  method ParseFacesCol1(data: seq<byte>, offset: int, count: nat)
    returns (r: Result<(seq<Face>, int)>)
    ensures r == FacesCol1(data, offset, count)
  {
    var faces: seq<Face> := [];
    var cur := offset;
    for i := 0 to count
      invariant Records(data, offset, i, 16, FaceCol1At) == Ok((faces, cur))
    {
      var face := FaceCol1At(data, cur);
      RecordsStep(data, offset, i, 16, FaceCol1At, faces, cur);
      if face.Err? {
        RecordsErrPersists(data, offset, i + 1, count, 16, FaceCol1At);
        return Err(face.fault);
      }
      faces := faces + [face.value];
      cur := cur + 16;
    }
    return Ok((faces, cur));
  }

  method ParseFacesCol23(data: seq<byte>, offset: int, count: nat)
    returns (r: Result<(seq<Face>, int)>)
    ensures r == FacesCol23(data, offset, count)
  {
    var faces: seq<Face> := [];
    var cur := offset;
    for i := 0 to count
      invariant Records(data, offset, i, 8, FaceCol23At) == Ok((faces, cur))
    {
      var face := FaceCol23At(data, cur);
      RecordsStep(data, offset, i, 8, FaceCol23At, faces, cur);
      if face.Err? {
        RecordsErrPersists(data, offset, i + 1, count, 8, FaceCol23At);
        return Err(face.fault);
      }
      faces := faces + [face.value];
      cur := cur + 8;
    }
    return Ok((faces, cur));
  }

  /** `_parse_bounding_box_col1`: four reads at a cursor that ends 40 bytes
      on; a short buffer raises at the first read that does not fit. */
  method ParseBoundingBoxCol1(data: seq<byte>, offset: nat) returns (r: Result<(BoundingBox, nat)>)
    ensures r.Ok? <==> BoundsCol1At(data, offset).Ok?
    ensures r.Ok? ==> r.value == (BoundsCol1At(data, offset).value, offset + 40)
    ensures r.Err? ==> r.fault == BoundsCol1At(data, offset).fault
  {
    BoundsLayouts();
    var cur := offset;
    FirstShortRead(data, offset, 40, BoundsCol1Fields, 0);
    var p :- Unpack(data, cur, 4);
    var radius := F32(LE(data, p, 4));
    cur := cur + 4;
    FirstShortRead(data, offset, 40, BoundsCol1Fields, 1);
    p :- Unpack(data, cur, 12);
    var center := Vec3(data, p);
    cur := cur + 12;
    FirstShortRead(data, offset, 40, BoundsCol1Fields, 2);
    p :- Unpack(data, cur, 12);
    var min := Vec3(data, p);
    cur := cur + 12;
    FirstShortRead(data, offset, 40, BoundsCol1Fields, 3);
    p :- Unpack(data, cur, 12);
    var max := Vec3(data, p);
    cur := cur + 12;
    return Ok((BoundingBox(min, max, center, radius), cur));
  }

  /** `_parse_bounding_box_col23`: the same four reads in the later order. */
  method ParseBoundingBoxCol23(data: seq<byte>, offset: nat) returns (r: Result<(BoundingBox, nat)>)
    ensures r.Ok? <==> BoundsCol23At(data, offset).Ok?
    ensures r.Ok? ==> r.value == (BoundsCol23At(data, offset).value, offset + 40)
    ensures r.Err? ==> r.fault == BoundsCol23At(data, offset).fault
  {
    BoundsLayouts();
    var cur := offset;
    FirstShortRead(data, offset, 40, BoundsCol23Fields, 0);
    var p :- Unpack(data, cur, 12);
    var min := Vec3(data, p);
    cur := cur + 12;
    FirstShortRead(data, offset, 40, BoundsCol23Fields, 1);
    p :- Unpack(data, cur, 12);
    var max := Vec3(data, p);
    cur := cur + 12;
    FirstShortRead(data, offset, 40, BoundsCol23Fields, 2);
    p :- Unpack(data, cur, 12);
    var center := Vec3(data, p);
    cur := cur + 12;
    FirstShortRead(data, offset, 40, BoundsCol23Fields, 3);
    p :- Unpack(data, cur, 4);
    var radius := F32(LE(data, p, 4));
    cur := cur + 4;
    return Ok((BoundingBox(min, max, center, radius), cur));
  }

  /** The `max_idx` loop of `_parse_col23_body`. */
  method MaxVertexIndex(faces: seq<Face>) returns (m: nat)
    ensures m == MaxIndex(faces)
  {
    m := 0;
    for i := 0 to |faces|
      invariant m == MaxIndex(faces[..i])
    {
      assert faces[..i + 1][..i] == faces[..i];
      m := Max(Max(m, faces[i].a), Max(faces[i].b, faces[i].c));
    }
    assert faces[..|faces|] == faces;
  }
}
