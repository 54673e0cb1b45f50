/** The stand-alone analyser apps/methods/gta_rw.py: a version 1 reader
    that works on an open file handle, reading one `struct` format after
    another. The handle is modelled as the file's bytes and a position;
    `fh.read(n)` returns fewer than `n` bytes at the end of the file without
    complaint, while the `read` helper raises EOFError when it gets fewer
    bytes than its format needs. */
module GtaRw {
  import opened Bytes
  import opened RecordSections
  import opened ColDataStructures

  function Min(a: nat, b: nat): nat
  {
    if a <= b then a else b
  }

  /** A little-endian `struct` format of `count` fields of `width` bytes
      each, as `calcsize` sees it. */
  datatype Format = Format(count: nat, width: nat)

  const UInt32 := Format(1, 4)    // '<I'
  const Float32 := Format(1, 4)   // '<f'
  const UInt16 := Format(1, 2)    // '<H'
  const Floats3 := Format(3, 4)   // '<3f'
  const UInt16s3 := Format(3, 2)  // '<3H'

  function CalcSize(f: Format): nat
  {
    f.count * f.width
  }

  /** `struct.unpack`: the `count` fields of `width` bytes from `p` on. */
  function FieldsAt(data: seq<byte>, p: nat, count: nat, width: nat): (r: seq<nat>)
    requires p + count * width <= |data|
    ensures |r| == count
    decreases count
  {
    if count == 0 then [] else [LE(data, p, width)] + FieldsAt(data, p + width, count - 1, width)
  }

  /** Field `k` is the little-endian value of bytes `p + k·width` onwards. */
  lemma {:induction false} FieldsAtIndex(data: seq<byte>, p: nat, count: nat, width: nat, k: nat)
    requires p + count * width <= |data|
    requires k < count
    ensures p + k * width + width <= |data|
    ensures FieldsAt(data, p, count, width)[k] == LE(data, p + k * width, width)
    decreases count
  {
    MulStep(count, width);
    var fields := FieldsAt(data, p, count, width);
    if k == 0 {
      assert k * width == 0 && fields[0] == LE(data, p, width);
    } else {
      FieldsAtIndex(data, p + width, count - 1, width, k - 1);
      MulStep(k, width);
      assert p + width + (k - 1) * width == p + k * width;
      assert fields[k] == FieldsAt(data, p + width, count - 1, width)[k - 1];
    }
  }

  /** Unpacking a chunk cut out of the file reads the file's own bytes. */
  lemma {:induction false} FieldsOfChunk(data: seq<byte>, a: nat, b: nat, q: nat, count: nat, width: nat)
    requires a <= b <= |data| && q + count * width <= b - a
    ensures a + q + count * width <= |data|
    ensures FieldsAt(data[a..b], q, count, width) == FieldsAt(data, a + q, count, width)
    decreases count
  {
    if count > 0 {
      MulStep(count, width);
      var s := data[a..b];
      LEOfSlice(s, q, width);
      LEOfSlice(data, a + q, width);
      assert q + width <= b - a;
      var inChunk, inFile := s[q..q + width], data[a + q..a + q + width];
      assert forall i :: 0 <= i < width ==> inChunk[i] == inFile[i];
      assert inChunk == inFile;
      FieldsOfChunk(data, a, b, q + width, count - 1, width);
    }
  }

  /** What `fh.read(n)` returns at `pos`. */
  function Chunk(data: seq<byte>, pos: nat, n: nat): (r: seq<byte>)
    requires pos <= |data|
    ensures |r| == Min(n, |data| - pos)
  {
    data[pos..Min(pos + n, |data|)]
  }

  /** `read(fmt, fh)` at `pos`: the unpacked fields and the new position,
      or EOFError when fewer than `calcsize(fmt)` bytes remain. */
  function FormatAt(data: seq<byte>, pos: nat, f: Format): Result<(seq<nat>, nat)>
  {
    if pos + CalcSize(f) > |data| then Err(EofError)
    else Ok((FieldsAt(data, pos, f.count, f.width), pos + CalcSize(f)))
  }

  /** A result together with the position the handle was left at. */
  function Positioned<T>(r: Result<T>, pos: nat): Result<(T, nat)>
  {
    match r
    case Ok(v) => Ok((v, pos))
    case Err(f) => Err(f)
  }

  /** The `ColHeader` dataclass. */
  datatype RwHeader = RwHeader(magic: string, version: nat, modelName: string, fileSize: nat,
                               sphereCount: nat, boxCount: nat, faceCount: nat, lineCount: nat, flags: nat)

  /** The `ColSphere`, `ColBox` and `ColFace` dataclasses. */
  datatype RwSphere = RwSphere(radius: Num, center: Vector3, surface: nat)
  datatype RwBox = RwBox(min: Vector3, max: Vector3, surface: nat)
  datatype RwFace = RwFace(a: nat, b: nat, c: nat, surface: nat)

  /** The dictionary `analyse_col` returns. */
  datatype Analysis = Analysis(header: RwHeader, spheres: seq<RwSphere>, boxes: seq<RwBox>, faces: seq<RwFace>)

  function Floats(data: seq<byte>, p: nat): Vector3
    requires p + 12 <= |data|
  {
    Vector3(F32(LE(data, p, 4)), F32(LE(data, p + 4, 4)), F32(LE(data, p + 8, 4)))
  }

  /** `parse_header` at `pos`, as one 48-byte layout: the magic at 0, the
      version at 4, the 22-byte name at 8, two bytes of padding, the file
      size at 32, four 16-bit counts from 36 and the flags at 44. */
  function HeaderAt(data: seq<byte>, pos: nat): (r: Result<(RwHeader, nat)>)
    ensures r.Ok? ==> r.value.1 == pos + 48 <= |data| && r.value.0.magic == "COLL"
  {
    if pos + 4 > |data| || data[pos..pos + 4] != TagColl then Err(ValueError("Not a COL file"))
    else if pos + 48 > |data| then Err(EofError)
    else
      Ok((RwHeader("COLL", LE(data, pos + 4, 4), CString(data[pos + 8..pos + 30]), LE(data, pos + 32, 4),
                   LE(data, pos + 36, 2), LE(data, pos + 38, 2), LE(data, pos + 40, 2), LE(data, pos + 42, 2),
                   LE(data, pos + 44, 4)), pos + 48))
  }

  /** One sphere at `pos`: 18 bytes must be there; the last two bytes of
      padding are read with `fh.read`, which does not insist on them. */
  function SphereAt(data: seq<byte>, pos: nat): Result<(RwSphere, nat)>
  {
    if pos + 18 > |data| then Err(EofError)
    else Ok((RwSphere(F32(LE(data, pos, 4)), Floats(data, pos + 4), LE(data, pos + 16, 2)), Min(pos + 20, |data|)))
  }

  /** One box at `pos`: 26 bytes, then two bytes of padding as above. */
  function BoxAt(data: seq<byte>, pos: nat): Result<(RwBox, nat)>
  {
    if pos + 26 > |data| then Err(EofError)
    else Ok((RwBox(Floats(data, pos), Floats(data, pos + 12), LE(data, pos + 24, 2)), Min(pos + 28, |data|)))
  }

  /** One face at `pos`: three 16-bit indices and the surface, 8 bytes. */
  function FaceAt(data: seq<byte>, pos: nat): Result<(RwFace, nat)>
  {
    if pos + 8 > |data| then Err(EofError)
    else Ok((RwFace(LE(data, pos, 2), LE(data, pos + 2, 2), LE(data, pos + 4, 2), LE(data, pos + 6, 2)), pos + 8))
  }

  /** `count` records read one after another, each from where the last
      one left the handle. */
  function Repeat<T>(data: seq<byte>, pos: nat, count: nat, rec: (seq<byte>, nat) -> Result<(T, nat)>): Result<(seq<T>, nat)>
    decreases count
  {
    if count == 0 then Ok(([], pos))
    else
      match Repeat(data, pos, count - 1, rec)
      case Err(f) => Err(f)
      case Ok((items, p)) =>
        match rec(data, p)
        case Err(f) => Err(f)
        case Ok((x, q)) => Ok((items + [x], q))
  }

  function Spheres(data: seq<byte>, pos: nat, count: nat): Result<(seq<RwSphere>, nat)>
  {
    Repeat(data, pos, count, SphereAt)
  }

  function Boxes(data: seq<byte>, pos: nat, count: nat): Result<(seq<RwBox>, nat)>
  {
    Repeat(data, pos, count, BoxAt)
  }

  function Faces(data: seq<byte>, pos: nat, count: nat): Result<(seq<RwFace>, nat)>
  {
    Repeat(data, pos, count, FaceAt)
  }

  /** `analyse_col` on the file's bytes. */
  function Analyse(data: seq<byte>): Result<Analysis>
  {
    var (header, p1) :- HeaderAt(data, 0);
    var (spheres, p2) :- Spheres(data, p1, header.sphereCount);
    var (boxes, p3) :- Boxes(data, p2, header.boxCount);
    var (faces, _) :- Faces(data, p3, header.faceCount);
    Ok(Analysis(header, spheres, boxes, faces))
  }

  lemma RepeatStep<T>(data: seq<byte>, pos: nat, i: nat, rec: (seq<byte>, nat) -> Result<(T, nat)>, items: seq<T>, p: nat)
    requires Repeat(data, pos, i, rec) == Ok((items, p))
    ensures rec(data, p).Ok? ==> Repeat(data, pos, i + 1, rec) == Ok((items + [rec(data, p).value.0], rec(data, p).value.1))
    ensures rec(data, p).Err? ==> Repeat(data, pos, i + 1, rec) == Err(rec(data, p).fault)
  {
  }

  lemma {:induction false} RepeatErrPersists<T>(data: seq<byte>, pos: nat, i: nat, count: nat,
                                               rec: (seq<byte>, nat) -> Result<(T, nat)>)
    requires i <= count
    requires Repeat(data, pos, i, rec).Err?
    ensures Repeat(data, pos, count, rec) == Repeat(data, pos, i, rec)
    decreases count
  {
    if i < count {
      RepeatErrPersists(data, pos, i, count - 1, rec);
    }
  }

  /** A record reader for records of `width` bytes of which the first
      `need` must be present, the rest being padding that the end of the
      file may cut short; a short record raises EOFError. */
  ghost predicate Padded<T>(data: seq<byte>, need: nat, width: nat, rec: (seq<byte>, nat) -> Result<(T, nat)>)
  {
    0 < need <= width &&
    (forall o: nat {:trigger rec(data, o)} :: rec(data, o).Ok? <==> o + need <= |data|) &&
    (forall o: nat {:trigger rec(data, o)} :: rec(data, o).Ok? ==> rec(data, o).value.1 == Min(o + width, |data|)) &&
    (forall o: nat {:trigger rec(data, o)} :: rec(data, o).Err? ==> rec(data, o).fault == EofError)
  }

  /** Where record `k` of a section at `pos` starts when every earlier
      record was whole: `pos + k·width`, written without a product. */
  function Slot(pos: nat, k: nat, width: nat): nat
  {
    if k == 0 then pos else Slot(pos, k - 1, width) + width
  }

  lemma {:induction false} SlotIsProduct(pos: nat, k: nat, width: nat)
    ensures Slot(pos, k, width) == pos + k * width
  {
    if k > 0 {
      SlotIsProduct(pos, k - 1, width);
      MulStep(k, width);
    }
  }

  /** `count` such records read successfully exactly when the last one's
      `need` bytes fit; the handle then ends where a next record would
      start, or at the end of the file, with `count` items read. */
  lemma {:induction false} RepeatFits<T>(data: seq<byte>, pos: nat, count: nat, need: nat, width: nat,
                                         rec: (seq<byte>, nat) -> Result<(T, nat)>)
    requires Padded(data, need, width, rec) && pos <= |data|
    ensures var r := Repeat(data, pos, count, rec);
            (r.Ok? <==> count == 0 || Slot(pos, count - 1, width) + need <= |data|) &&
            (r.Err? ==> r.fault == EofError) &&
            (r.Ok? ==> |r.value.0| == count && r.value.1 == Min(Slot(pos, count, width), |data|))
    decreases count
  {
    if count > 0 {
      RepeatFits(data, pos, count - 1, need, width, rec);
      var prev := Repeat(data, pos, count - 1, rec);
      if prev.Ok? {
        var p := prev.value.1;
        assert rec(data, p).Ok? <==> p + need <= |data|;
      }
    }
  }

  /** Item `k` of such a section is the record at slot `k`. */
  lemma {:induction false} RepeatItem<T>(data: seq<byte>, pos: nat, count: nat, need: nat, width: nat,
                                         rec: (seq<byte>, nat) -> Result<(T, nat)>, k: nat)
    requires Padded(data, need, width, rec) && pos <= |data|
    requires Repeat(data, pos, count, rec).Ok? && k < count
    ensures k < |Repeat(data, pos, count, rec).value.0|
    ensures rec(data, Slot(pos, k, width))
            == Ok((Repeat(data, pos, count, rec).value.0[k], Min(Slot(pos, k + 1, width), |data|)))
    decreases count
  {
    RepeatFits(data, pos, count - 1, need, width, rec);
    var (items, p) := Repeat(data, pos, count - 1, rec).value;
    var (x, q) := rec(data, p).value;
    var all := Repeat(data, pos, count, rec).value.0;
    assert all == items + [x];
    if k < count - 1 {
      RepeatItem(data, pos, count - 1, need, width, rec, k);
      assert all[k] == items[k];
    } else {
      assert p == Slot(pos, k, width);
      assert all[k] == x;
    }
  }

  lemma SpherePadded(data: seq<byte>)
    ensures Padded(data, 18, 20, SphereAt)
  {
  }

  lemma BoxPadded(data: seq<byte>)
    ensures Padded(data, 26, 28, BoxAt)
  {
  }

  lemma FacePadded(data: seq<byte>)
    ensures Padded(data, 8, 8, FaceAt)
  {
  }

  /** `parse_spheres`: `count` spheres of 20 bytes, the padding of the last
      one possibly cut short by the end of the file. */
  lemma SpheresShape(data: seq<byte>, pos: nat, count: nat)
    requires pos <= |data|
    ensures var r := Spheres(data, pos, count);
            (r.Ok? <==> count == 0 || pos + 20 * count <= |data| + 2) &&
            (r.Err? ==> r.fault == EofError) &&
            (r.Ok? ==> |r.value.0| == count && r.value.1 == Min(pos + 20 * count, |data|) &&
                       forall k :: 0 <= k < count ==> SphereAt(data, pos + k * 20).Ok? && SphereAt(data, pos + k * 20).value.0 == r.value.0[k])
  {
    SpherePadded(data);
    RepeatFits(data, pos, count, 18, 20, SphereAt);
    SlotIsProduct(pos, count, 20);
    if count > 0 {
      SlotIsProduct(pos, count - 1, 20);
    }
    if Spheres(data, pos, count).Ok? {
      forall k | 0 <= k < count
        ensures SphereAt(data, pos + k * 20).Ok? && SphereAt(data, pos + k * 20).value.0 == Spheres(data, pos, count).value.0[k]
      {
        RepeatItem(data, pos, count, 18, 20, SphereAt, k);
        SlotIsProduct(pos, k, 20);
      }
    }
  }

  /** `parse_boxes`: `count` boxes of 28 bytes, likewise. */
  lemma BoxesShape(data: seq<byte>, pos: nat, count: nat)
    requires pos <= |data|
    ensures var r := Boxes(data, pos, count);
            (r.Ok? <==> count == 0 || pos + 28 * count <= |data| + 2) &&
            (r.Err? ==> r.fault == EofError) &&
            (r.Ok? ==> |r.value.0| == count && r.value.1 == Min(pos + 28 * count, |data|) &&
                       forall k :: 0 <= k < count ==> BoxAt(data, pos + k * 28).Ok? && BoxAt(data, pos + k * 28).value.0 == r.value.0[k])
  {
    BoxPadded(data);
    RepeatFits(data, pos, count, 26, 28, BoxAt);
    SlotIsProduct(pos, count, 28);
    if count > 0 {
      SlotIsProduct(pos, count - 1, 28);
    }
    if Boxes(data, pos, count).Ok? {
      forall k | 0 <= k < count
        ensures BoxAt(data, pos + k * 28).Ok? && BoxAt(data, pos + k * 28).value.0 == Boxes(data, pos, count).value.0[k]
      {
        RepeatItem(data, pos, count, 26, 28, BoxAt, k);
        SlotIsProduct(pos, k, 28);
      }
    }
  }

  /** `parse_faces`: `count` faces of 8 bytes, with no padding. */
  lemma FacesShape(data: seq<byte>, pos: nat, count: nat)
    requires pos <= |data|
    ensures var r := Faces(data, pos, count);
            (r.Ok? <==> pos + 8 * count <= |data|) &&
            (r.Err? ==> r.fault == EofError) &&
            (r.Ok? ==> |r.value.0| == count && r.value.1 == pos + 8 * count &&
                       forall k :: 0 <= k < count ==> FaceAt(data, pos + k * 8).Ok? && FaceAt(data, pos + k * 8).value.0 == r.value.0[k])
  {
    FacePadded(data);
    RepeatFits(data, pos, count, 8, 8, FaceAt);
    SlotIsProduct(pos, count, 8);
    if count > 0 {
      SlotIsProduct(pos, count - 1, 8);
    }
    if Faces(data, pos, count).Ok? {
      forall k | 0 <= k < count
        ensures FaceAt(data, pos + k * 8).Ok? && FaceAt(data, pos + k * 8).value.0 == Faces(data, pos, count).value.0[k]
      {
        RepeatItem(data, pos, count, 8, 8, FaceAt, k);
        SlotIsProduct(pos, k, 8);
      }
    }
  }

  /** `analyse_col`: each list holds exactly as many records as the header
      announces; the file must hold the header and the records, two bytes of
      final padding aside; and a file that holds them all is analysed. */
  lemma AnalyseShape(data: seq<byte>)
    ensures var r := Analyse(data);
            r.Ok? ==> |r.value.spheres| == r.value.header.sphereCount && |r.value.boxes| == r.value.header.boxCount
                      && |r.value.faces| == r.value.header.faceCount
                      && 48 + 20 * r.value.header.sphereCount + 28 * r.value.header.boxCount
                         + 8 * r.value.header.faceCount <= |data| + 2
    ensures (HeaderAt(data, 0).Ok? &&
             48 + 20 * HeaderAt(data, 0).value.0.sphereCount + 28 * HeaderAt(data, 0).value.0.boxCount
             + 8 * HeaderAt(data, 0).value.0.faceCount <= |data|) ==> Analyse(data).Ok?
    ensures HeaderAt(data, 0).Err? ==> Analyse(data) == Err(HeaderAt(data, 0).fault)
  {
    if HeaderAt(data, 0).Ok? {
      var (h, p1) := HeaderAt(data, 0).value;
      SpheresShape(data, p1, h.sphereCount);
      if Spheres(data, p1, h.sphereCount).Ok? {
        var p2 := Spheres(data, p1, h.sphereCount).value.1;
        BoxesShape(data, p2, h.boxCount);
        if Boxes(data, p2, h.boxCount).Ok? {
          var p3 := Boxes(data, p2, h.boxCount).value.1;
          FacesShape(data, p3, h.faceCount);
        }
      }
    }
  }

  /** `magic != 'COLL'` after decoding at most four bytes with errors
      ignored: only the four bytes of the tag pass. */
  lemma {:induction false} MagicIsColl(s: seq<byte>)
    requires |s| <= 4
    ensures AsciiIgnore(s) == "COLL" <==> s == TagColl
  {
    var magic := AsciiIgnore(s);
    AsciiIgnoreFull(s);
    if magic == "COLL" {
      assert |s| == 4 && forall k :: 0 <= k < 4 ==> s[k] == TagColl[k];
    }
    if s == TagColl {
      assert forall k :: 0 <= k < 4 ==> s[k] < 128;
      assert |magic| == 4 && forall k :: 0 <= k < 4 ==> magic[k] == "COLL"[k];
    }
  }

  /** Decoding keeps every byte exactly when every byte is ASCII, and then
      each character is its byte. */
  lemma {:induction false} AsciiIgnoreFull(s: seq<byte>)
    ensures |AsciiIgnore(s)| == |s| <==> forall k :: 0 <= k < |s| ==> s[k] < 128
    ensures |AsciiIgnore(s)| == |s| ==> forall k :: 0 <= k < |s| ==> AsciiIgnore(s)[k] == s[k] as char
  {
    if |s| > 0 {
      AsciiIgnoreFull(s[1..]);
      assert forall k :: 1 <= k < |s| ==> s[k] == s[1..][k - 1];
      if s[0] < 128 {
        assert AsciiIgnore(s) == [s[0] as char] + AsciiIgnore(s[1..]);
      } else {
        assert AsciiIgnore(s) == AsciiIgnore(s[1..]);
      }
    }
  }

  /** The open file handle. */
  class FileHandle {
    const data: seq<byte>
    var pos: nat

    ghost predicate Valid()
      reads this
    {
      pos <= |data|
    }

    constructor(data: seq<byte>)
      ensures this.data == data && pos == 0 && Valid()
    {
      this.data := data;
      pos := 0;
    }

    /** `fh.read(n)`. */
    method ReadBytes(n: nat) returns (chunk: seq<byte>)
      requires Valid()
      modifies this
      ensures Valid() && chunk == Chunk(data, old(pos), n) && pos == old(pos) + |chunk|
    {
      var end := if pos + n <= |data| then pos + n else |data|;
      chunk := data[pos..end];
      pos := end;
    }

    /** `read(fmt, fh)`: the handle moves on by the bytes it got, even when
        they are too few. */
    method Read(f: Format) returns (r: Result<seq<nat>>)
      requires Valid()
      modifies this
      ensures Valid() && pos == Min(old(pos) + CalcSize(f), |data|)
      ensures FormatAt(data, old(pos), f) == Positioned(r, pos)
      ensures r.Ok? <==> old(pos) + CalcSize(f) <= |data|
      ensures r.Ok? ==> pos == old(pos) + CalcSize(f)
    {
      var size := f.count * f.width;
      ghost var start := pos;
      var chunk := ReadBytes(size);
      if |chunk| != size {
        return Err(EofError);
      }
      FieldsOfChunk(data, start, start + size, 0, f.count, f.width);
      return Ok(FieldsAt(chunk, 0, f.count, f.width));
    }

    method ParseHeader() returns (r: Result<RwHeader>)
      requires Valid()
      modifies this
      ensures Valid() && HeaderAt(data, old(pos)) == Positioned(r, pos)
    {
      ghost var start := pos;
      assert CalcSize(UInt32) == 4 && CalcSize(UInt16) == 2;
      var magicBytes := ReadBytes(4);
      MagicIsColl(magicBytes);
      var magic := AsciiIgnore(magicBytes);
      if magic != "COLL" {
        return Err(ValueError("Not a COL file"));
      }
      assert |magicBytes| == 4;
      var version :- Read(UInt32);
      assert pos == start + 8;
      var nameField := ReadBytes(22);
      ghost var afterName := pos;
      var modelName := CString(nameField);
      var _ := ReadBytes(2);
      ghost var afterPad := pos;
      var fileSize :- Read(UInt32);
      assert afterPad + 4 <= |data|;
      assert afterName < |data|;
      assert |nameField| == 22 && nameField == data[start + 8..start + 30];
      assert afterName == start + 30 && afterPad == start + 32 && pos == start + 36;
      var sphereCount :- Read(UInt16);
      assert pos == start + 38;
      var boxCount :- Read(UInt16);
      assert pos == start + 40;
      var faceCount :- Read(UInt16);
      assert pos == start + 42;
      var lineCount :- Read(UInt16);
      assert pos == start + 44;
      var flags :- Read(UInt32);
      return Ok(RwHeader(magic, version[0], modelName, fileSize[0], sphereCount[0], boxCount[0],
                         faceCount[0], lineCount[0], flags[0]));
    }

    /** What one loop iteration of `parse_spheres` reads. */
    method ParseSphere() returns (r: Result<RwSphere>)
      requires Valid()
      modifies this
      ensures Valid() && SphereAt(data, old(pos)) == Positioned(r, pos)
    {
      var radius :- Read(Float32);
      var center :- Read(Floats3);
      var surface :- Read(UInt16);
      var _ := ReadBytes(2);
      return Ok(RwSphere(F32(radius[0]), Vector3(F32(center[0]), F32(center[1]), F32(center[2])), surface[0]));
    }

    method ParseBox() returns (r: Result<RwBox>)
      requires Valid()
      modifies this
      ensures Valid() && BoxAt(data, old(pos)) == Positioned(r, pos)
    {
      var lo :- Read(Floats3);
      var hi :- Read(Floats3);
      var surface :- Read(UInt16);
      var _ := ReadBytes(2);
      return Ok(RwBox(Vector3(F32(lo[0]), F32(lo[1]), F32(lo[2])), Vector3(F32(hi[0]), F32(hi[1]), F32(hi[2])), surface[0]));
    }

    method ParseFace() returns (r: Result<RwFace>)
      requires Valid()
      modifies this
      ensures Valid() && FaceAt(data, old(pos)) == Positioned(r, pos)
    {
      var abc :- Read(UInt16s3);
      var surface :- Read(UInt16);
      return Ok(RwFace(abc[0], abc[1], abc[2], surface[0]));
    }

    /** `parse_spheres(fh, count)`. */
    method ParseSpheres(count: nat) returns (r: Result<seq<RwSphere>>)
      requires Valid()
      modifies this
      ensures Valid() && Spheres(data, old(pos), count) == Positioned(r, pos)
    {
      ghost var start := pos;
      var spheres: seq<RwSphere> := [];
      for i := 0 to count
        invariant Valid()
        invariant Repeat(data, start, i, SphereAt) == Ok((spheres, pos))
      {
        ghost var at := pos;
        RepeatStep(data, start, i, SphereAt, spheres, at);
        var s := ParseSphere();
        if s.Err? {
          RepeatErrPersists(data, start, i + 1, count, SphereAt);
          return Err(s.fault);
        }
        spheres := spheres + [s.value];
      }
      return Ok(spheres);
    }

    /** `parse_boxes(fh, count)`. */
    method ParseBoxes(count: nat) returns (r: Result<seq<RwBox>>)
      requires Valid()
      modifies this
      ensures Valid() && Boxes(data, old(pos), count) == Positioned(r, pos)
    {
      ghost var start := pos;
      var boxes: seq<RwBox> := [];
      for i := 0 to count
        invariant Valid()
        invariant Repeat(data, start, i, BoxAt) == Ok((boxes, pos))
      {
        ghost var at := pos;
        RepeatStep(data, start, i, BoxAt, boxes, at);
        var b := ParseBox();
        if b.Err? {
          RepeatErrPersists(data, start, i + 1, count, BoxAt);
          return Err(b.fault);
        }
        boxes := boxes + [b.value];
      }
      return Ok(boxes);
    }

    /** `parse_faces(fh, count)`. */
    method ParseFaces(count: nat) returns (r: Result<seq<RwFace>>)
      requires Valid()
      modifies this
      ensures Valid() && Faces(data, old(pos), count) == Positioned(r, pos)
    {
      ghost var start := pos;
      var faces: seq<RwFace> := [];
      for i := 0 to count
        invariant Valid()
        invariant Repeat(data, start, i, FaceAt) == Ok((faces, pos))
      {
        ghost var at := pos;
        RepeatStep(data, start, i, FaceAt, faces, at);
        var f := ParseFace();
        if f.Err? {
          RepeatErrPersists(data, start, i + 1, count, FaceAt);
          return Err(f.fault);
        }
        faces := faces + [f.value];
      }
      return Ok(faces);
    }
  }

  /** `analyse_col(path)` on the bytes of the file at `path`. */
  method AnalyseCol(data: seq<byte>) returns (r: Result<Analysis>)
    ensures r == Analyse(data)
  {
    var fh := new FileHandle(data);
    var header :- fh.ParseHeader();
    var spheres :- fh.ParseSpheres(header.sphereCount);
    var boxes :- fh.ParseBoxes(header.boxCount);
    var faces :- fh.ParseFaces(header.faceCount);
    return Ok(Analysis(header, spheres, boxes, faces));
  }
}
