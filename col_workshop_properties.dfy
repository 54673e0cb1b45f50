/** Properties of the workshop decoder (`ColWorkshopParser`): its tags, a
    header round trip, the shape of every section, the bytes a version 1
    model occupies, the `parse_spheres` defect, and where it parts from the
    decoder of col_parser.py (`ColDecoder`). */
module ColWorkshopProperties {
  import opened Bytes
  import opened RecordSections
  import opened ColDataStructures
  import opened ColWorkshopParser
  import ColRecords
  import ColDecoder
  import opened Text

  // ------------------------------------------------------------------ tags

  /** Each version's tag selects that version, so with the contract of
      `FourccToVersion` exactly the four tags are accepted. */
  lemma FourccDispatch(v: Version)
    ensures FourccToVersion(WorkshopTag(v)) == Ok(v)
  {
  }

  /** The two decoders agree on `COLL` only: the tag byte that col_parser.py
      expects for versions 2 to 4 is the number, this parser expects the
      ASCII digit, so each rejects the other's later tags. */
  lemma TagsDisagree(v: Version)
    ensures FourccToVersion(ColDecoder.Signature(v)).Ok? <==> v == Col1
    ensures ColDecoder.SignatureVersion(WorkshopTag(v)).Some? <==> v == Col1
  {
    if v != Col1 {
      assert ColDecoder.Signature(v)[3] != WorkshopTag(v)[3];
    }
  }
  /** The `repr` of col_parser.py's version 2 tag `COL\x02` shows its last
      byte in hexadecimal. */
  lemma {:induction false} Col2TagRepr()
    ensures BytesRepr([0x43, 0x4F, 0x4C, 0x02]) == "b'COL\\x02'"
  {
    var s: seq<byte> := [0x43, 0x4F, 0x4C, 0x02];
    assert ReprQuote(s) == '\'';
    assert ReprByte(0x02, '\'') == "\\x02";
    assert ReprBody(s[3..], '\'') == "\\x02";
    assert ReprBody(s[2..], '\'') == "L\\x02";
    assert ReprBody(s[1..], '\'') == "OL\\x02";
    assert ReprBody(s, '\'') == "COL\\x02";
  }

  /** The error names the rejected tag: col_parser.py's version 2 tag is
      refused with its `repr`. */
  lemma UnknownFourccMessage()
    ensures FourccToVersion(ColDecoder.Signature(Col2)) == Err(ValueError("Unknown COL FourCC: b'COL\\x02'"))
  {
    assert "Unknown COL FourCC: " + "b'COL\\x02'" == "Unknown COL FourCC: b'COL\\x02'";
    var s: seq<byte> := [0x43, 0x4F, 0x4C, 0x02];
    assert ColDecoder.Signature(Col2) == s;
    assert FourccToVersion(s) == Err(UnknownFourcc(s));
    var m := BytesRepr(s);
    Col2TagRepr();
    assert UnknownFourcc(s) == ValueError("Unknown COL FourCC: " + m);
  }

  /** A printable tag that names no version appears as itself. */
  lemma UnknownPrintableMessage()
    ensures FourccToVersion([0x43, 0x4F, 0x4C, 0x35]) == Err(ValueError("Unknown COL FourCC: b'COL5'"))
  {
    var s: seq<byte> := [0x43, 0x4F, 0x4C, 0x35];
    BytesReprPrintable(s);
    assert BytesRepr(s) == "b'COL5'";
  }

  /** A version 2 header reaching `parse_col1_model` is refused with the
      message `Expected COL1, got 2` (with the version printed as its
      number, as `NotCol1` assumes). */
  lemma NotCol1Message()
    ensures NotCol1(Col2) == ValueError("Expected COL1, got 2")
  {
  }


  // ---------------------------------------------------------------- header

  /** A name the header can carry: at most 22 ASCII characters, none of them NUL. */
  predicate HeaderName(name: string)
  {
    |name| <= 22 && forall k :: 0 <= k < |name| ==> 0 as char < name[k] < 128 as char
  }

  /** The 32 bytes of a header: tag, size, zero-padded name, id. */
  function EncodeHeader(v: Version, size: nat, name: string, id: nat): (r: seq<byte>)
    requires size < 0x1_0000_0000 && id < 0x1_0000 && HeaderName(name)
    ensures |r| == 32
  {
    assert Pow256(4) == 0x1_0000_0000 && Pow256(2) == 0x1_0000;
    WorkshopTag(v) + EncodeLE(size, 4) + AsciiBytes(name) + seq(22 - |name|, _ => 0) + EncodeLE(id, 2)
  }

  /** `parse_header` reads back what `EncodeHeader` wrote, whatever follows it. */
  lemma {:induction false} HeaderRoundTrip(v: Version, size: nat, name: string, id: nat, rest: seq<byte>)
    requires size < 0x1_0000_0000 && id < 0x1_0000 && HeaderName(name)
    ensures Header(EncodeHeader(v, size, name, id) + rest, 0) == Ok((ColHeader(WorkshopTag(v), size, name, id, v), 32))
  {
    HeaderFields(v, size, name, id, rest);
    FourccDispatch(v);
  }

  /** Each field of an encoded header decodes to the value written there. */
  lemma {:induction false} HeaderFields(v: Version, size: nat, name: string, id: nat, rest: seq<byte>)
    requires size < 0x1_0000_0000 && id < 0x1_0000 && HeaderName(name)
    ensures var d := EncodeHeader(v, size, name, id) + rest;
            |d| >= 32 && d[0..4] == WorkshopTag(v) && LE(d, 4, 4) == size &&
            CString(d[8..30]) == name && LE(d, 30, 2) == id
  {
    assert Pow256(4) == 0x1_0000_0000 && Pow256(2) == 0x1_0000;
    var d := EncodeHeader(v, size, name, id) + rest;
    var tag, sz, field, ib := WorkshopTag(v), EncodeLE(size, 4), AsciiBytes(name) + seq(22 - |name|, _ => 0), EncodeLE(id, 2);
    assert d == tag + sz + field + ib + rest;
    SliceOfConcat(tag, sz + field + ib + rest, sz + field + ib + rest);
    SliceOfConcat(tag, sz, field + ib + rest);
    SliceOfConcat(tag + sz, field, ib + rest);
    SliceOfConcat(tag + sz + field, ib, rest);
    assert d[0..4] == tag && d[4..8] == sz && d[8..30] == field && d[30..32] == ib;
    LEOfSlice(d, 4, 4);
    DecodeEncodeLE(size, 4);
    CStringOfPadded(name, 22 - |name|);
    LEOfSlice(d, 30, 2);
    DecodeEncodeLE(id, 2);
  }

  /** The middle part of a concatenation is the slice it occupies. */
  lemma SliceOfConcat(a: seq<byte>, b: seq<byte>, c: seq<byte>)
    ensures (a + b + c)[|a|..|a| + |b|] == b
    ensures (a + b + c)[..|a|] == a
  {
  }

  // -------------------------------------------------------------- sections

  /** Every record reader raises exactly when its bytes do not fit. */
  lemma RecordsFit(data: seq<byte>)
    ensures forall o: int :: 0 <= o ==> (SphereAt(data, o).Ok? <==> o + 20 <= |data|)
    ensures forall o: int :: 0 <= o ==> (BoxAt(data, o).Ok? <==> o + 28 <= |data|)
    ensures forall o: int :: 0 <= o ==> (VertexFloatAt(data, o).Ok? <==> o + 12 <= |data|)
    ensures forall o: int :: 0 <= o ==> (VertexFixedAt(data, o).Ok? <==> o + 6 <= |data|)
    ensures forall o: int :: 0 <= o ==> (FaceWideAt(data, o).Ok? <==> o + 16 <= |data|)
    ensures forall o: int :: 0 <= o ==> (FaceNarrowAt(data, o).Ok? <==> o + 8 <= |data|)
  {
  }

  /** `parse_boxes` returns `count` boxes and `offset + 28·count` when all
      of them fit, and otherwise raises the box `ValueError`; box `i` is the
      one decoded at `offset + 28·i`. */
  lemma BoxesShape(data: seq<byte>, off: nat, count: nat)
    ensures Boxes(data, off, count).Ok? <==> count == 0 || off + 28 * count <= |data|
    ensures Boxes(data, off, count).Err? ==> Boxes(data, off, count).fault == ShortBox
    ensures Boxes(data, off, count).Ok? ==>
              var (boxes, next) := Boxes(data, off, count).value;
              |boxes| == count && next == off + 28 * count &&
              forall i :: 0 <= i < count ==> BoxAt(data, off + i * 28) == Ok(boxes[i])
  {
    RecordsFit(data);
    RecordsFitIff(data, off, count, 28, BoxAt);
    RecordsFault(data, off, count, 28, BoxAt, ShortBox);
    if Boxes(data, off, count).Ok? {
      RecordsSlots(data, off, count, 28, BoxAt);
    }
  }

  /** The intended `parse_spheres`: 20 bytes per sphere. */
  lemma SpheresShape(data: seq<byte>, off: nat, count: nat)
    ensures Spheres(data, off, count).Ok? <==> count == 0 || off + 20 * count <= |data|
    ensures Spheres(data, off, count).Err? ==> Spheres(data, off, count).fault == ShortSphere
    ensures Spheres(data, off, count).Ok? ==>
              var (spheres, next) := Spheres(data, off, count).value;
              |spheres| == count && next == off + 20 * count &&
              forall i :: 0 <= i < count ==> SphereAt(data, off + i * 20) == Ok(spheres[i])
  {
    RecordsFit(data);
    RecordsFitIff(data, off, count, 20, SphereAt);
    RecordsFault(data, off, count, 20, SphereAt, ShortSphere);
    if Spheres(data, off, count).Ok? {
      RecordsSlots(data, off, count, 20, SphereAt);
    }
  }

  /** `parse_vertices`: 12 bytes per float vertex in version 1, 6 bytes per
      fixed-point vertex otherwise, with no padding after them. */
  lemma VerticesShape(data: seq<byte>, off: nat, count: nat, version: Version)
    ensures var size := if version == Col1 then 12 else 6;
            Vertices(data, off, count, version).Ok? <==> count == 0 || off + size * count <= |data|
    ensures Vertices(data, off, count, version).Err? ==> Vertices(data, off, count, version).fault == ShortVertex
    ensures Vertices(data, off, count, version).Ok? ==>
              var size := if version == Col1 then 12 else 6;
              var (vertices, next) := Vertices(data, off, count, version).value;
              |vertices| == count && next == off + size * count &&
              forall i :: 0 <= i < count ==> VertexRecord(version)(data, off + i * size) == Ok(vertices[i])
  {
    RecordsFit(data);
    var size := VertexSize(version);
    RecordsFitIff(data, off, count, size, VertexRecord(version));
    RecordsFault(data, off, count, size, VertexRecord(version), ShortVertex);
    if Vertices(data, off, count, version).Ok? {
      RecordsSlots(data, off, count, size, VertexRecord(version));
    }
  }

  /** `parse_faces`: 16 bytes per face in version 1, 8 otherwise. */
  lemma FacesShape(data: seq<byte>, off: nat, count: nat, version: Version)
    ensures var size := if version == Col1 then 16 else 8;
            Faces(data, off, count, version).Ok? <==> count == 0 || off + size * count <= |data|
    ensures Faces(data, off, count, version).Err? ==> Faces(data, off, count, version).fault == ShortFace
    ensures Faces(data, off, count, version).Ok? ==>
              var size := if version == Col1 then 16 else 8;
              var (faces, next) := Faces(data, off, count, version).value;
              |faces| == count && next == off + size * count &&
              forall i :: 0 <= i < count ==> FaceRecord(version)(data, off + i * size) == Ok(faces[i])
  {
    RecordsFit(data);
    var size := FaceSize(version);
    RecordsFitIff(data, off, count, size, FaceRecord(version));
    RecordsFault(data, off, count, size, FaceRecord(version), ShortFace);
    if Faces(data, off, count, version).Ok? {
      RecordsSlots(data, off, count, size, FaceRecord(version));
    }
  }

  /** Fixed-point vertices decode as `raw / 128`: the bytes of 128, 256 and
      -128 give the vertex (1, 2, -1). */
  lemma FixedVertexExample()
    ensures var data := EncodeI16(128) + EncodeI16(256) + EncodeI16(-128);
            VertexFixedAt(data, 0) == Ok(ColVertex(Exact(1.0), Exact(2.0), Exact(-1.0)))
  {
    var data := EncodeI16(128) + EncodeI16(256) + EncodeI16(-128);
    SignedEncodeI16(128);
    SignedEncodeI16(256);
    SignedEncodeI16(-128);
    LEOfSlice(data, 0, 2);
    LEOfSlice(data, 2, 2);
    LEOfSlice(data, 4, 2);
    assert data[0..2] == EncodeI16(128) && data[2..4] == EncodeI16(256) && data[4..6] == EncodeI16(-128);
  }

  // ---------------------------------------------------------- whole model

  /** Where the version 1 body ends: 32 + 40 + 20 bytes of header, bounds
      and counts, then 20 bytes per sphere, 28 per box, 12 per vertex and 16
      per face. */
  function Col1End(off: nat, n: Counts): nat
  {
    off + 92 + 20 * n.spheres + 28 * n.boxes + 12 * n.vertices + 16 * n.faces
  }

  /** `parse_col1_model` raises for a short header, an unknown tag, a tag of
      another version, short bounds or short counts, each with its own
      message; past those checks it decodes exactly when the whole model
      fits, and then returns every array with its count and the offset
      `Col1End`. */
  lemma Col1ModelShape(data: seq<byte>, off: nat)
    ensures off + 32 > |data| ==> Col1Model(data, off) == Err(ShortHeader)
    ensures off + 32 <= |data| && FourccToVersion(data[off..off + 4]).Err? ==>
              Col1Model(data, off) == Err(UnknownFourcc(data[off..off + 4]))
    ensures off + 32 <= |data| && FourccToVersion(data[off..off + 4]).Ok? && data[off..off + 4] != TagColl ==>
              Col1Model(data, off) == Err(NotCol1(FourccToVersion(data[off..off + 4]).value))
    ensures off + 32 <= |data| < off + 72 && data[off..off + 4] == TagColl ==> Col1Model(data, off) == Err(ShortBounds)
    ensures off + 72 <= |data| < off + 92 && data[off..off + 4] == TagColl ==> Col1Model(data, off) == Err(ShortCounts)
    ensures off + 92 <= |data| && data[off..off + 4] == TagColl ==>
              var n := CountsAt(data, off + 72);
              var r := Col1Model(data, off);
              (r.Ok? <==> Col1End(off, n) <= |data|) &&
              (r.Ok? ==> r.value.1 == Col1End(off, n) &&
                         |r.value.0.spheres| == n.spheres && |r.value.0.boxes| == n.boxes &&
                         |r.value.0.vertices| == n.vertices && |r.value.0.faces| == n.faces)
  {
    if off + 92 <= |data| && data[off..off + 4] == TagColl {
      FourccDispatch(Col1);
      var n := CountsAt(data, off + 72);
      var p := off + 92;
      var o1 := p + 20 * n.spheres;
      var o2 := o1 + 28 * n.boxes;
      var o3 := o2 + 12 * n.vertices;
      SpheresShape(data, p, n.spheres);
      BoxesShape(data, o1, n.boxes);
      VerticesShape(data, o2, n.vertices, Col1);
      FacesShape(data, o3, n.faces, Col1);
    }
  }

  // ------------------------------------------------------ parse_spheres

  /** Whenever there is at least one sphere and the spheres fit, the loop
      `parse_spheres` evidently intends decodes them all, while the code as
      written raises. */
  lemma SpheresAsWrittenFails(data: seq<byte>, off: nat, count: nat)
    requires count > 0 && off + 20 * count <= |data|
    ensures Spheres(data, off, count).Ok? && |Spheres(data, off, count).value.0| == count
    ensures SpheresAsWritten(data, off, count).Err?
  {
    SpheresShape(data, off, count);
  }

  // ------------------------------------------- the two version 1 layouts

  /** The two decoders read the same version 1 bytes differently. Take a
      120-byte `COLL` model whose counts, read all at once as this parser
      does, say no spheres, one box, no vertices and no faces, and whose last
      word is zero: this parser decodes it completely (one 28-byte box).
      col_parser.py interleaves each count with its array and takes 32 bytes
      per box, so it reads its vertex count from the last word, looks for its
      face count past the end, and its body fails. */
  lemma Col1LayoutsDisagree(data: seq<byte>, off: nat)
    requires |data| == off + 120 && data[off..off + 4] == TagColl
    requires var n := CountsAt(data, off + 72);
             n.spheres == 0 && n.boxes == 1 && n.vertices == 0 && n.faces == 0
    requires LE(data, off + 116, 4) == 0
    ensures Col1Model(data, off).Ok? && |Col1Model(data, off).value.0.boxes| == 1
    ensures Col1Model(data, off).value.1 == |data|
    ensures var d := ColDecoder.DecodeCol1(data, off);
            d.model.Some? && d.errors != []
  {
    Col1ModelShape(data, off);
    var m := ColDecoder.Col1Header(data, off).value.0;
    assert U32(data, off + 72) == Ok(0) && U32(data, off + 80) == Ok(1);
    assert ColRecords.Boxes(data, off + 84, 1, Col1).Ok? by {
      assert ColRecords.BoxAt(data, off + 84, Col1).Ok?;
    }
    assert U32(data, off + 116) == Ok(0);
    assert U32(data, off + 120).Err?;
    assert ColDecoder.Col1Body(data, off + 72, m).errors != [];
  }
}
