/** Byte-level reading as the decoders do it: Python slices of an immutable
    buffer, `struct.unpack` of little-endian fields, and the exceptions both
    raise when the buffer is too short. */
module Bytes {

  /** One byte of the input buffer. */
  type byte = b: int | 0 <= b < 256

  /** The Python exception a failed read raises. */
  datatype Fault =
    | StructError(width: nat)   // struct.error: unpack requires a buffer of `width` bytes
    | ValueError(msg: string)   // ValueError raised by an explicit length or tag check
    | EofError                  // EOFError("Unexpected EOF") from a file-handle read
    | NameError(name: string)   // NameError: a variable that is not defined

  /** A value, or the exception that replaced it. */
  datatype Result<+T> = Ok(value: T) | Err(fault: Fault) {
    predicate IsFailure() { Err? }
    function PropagateFailure<U>(): Result<U> requires Err? { Err(fault) }
    function Extract(): T requires Ok? { value }
  }

  datatype Option<+T> = None | Some(value: T)

  /** Python's normalisation of one end of a slice over a sequence of length `n`:
      a negative index counts from the end, and the result is clamped to `0..n`. */
  function SliceIndex(i: int, n: nat): (r: nat)
    ensures r <= n
    ensures 0 <= i <= n ==> r == i
    ensures n < i ==> r == n
    ensures i < 0 ==> r == if i + n < 0 then 0 else i + n
  {
    if i < 0 then (if i + n < 0 then 0 else i + n)
    else if i > n then n
    else i
  }

  /** `data[lo:hi]` with Python's rules; an empty or inverted range is empty. */
  function Slice(data: seq<byte>, lo: int, hi: int): (r: seq<byte>)
    ensures 0 <= lo <= hi <= |data| ==> r == data[lo..hi]
    ensures 0 <= lo && 0 <= hi ==> |r| <= hi - lo || r == []
  {
    var l := SliceIndex(lo, |data|);
    var h := SliceIndex(hi, |data|);
    if l < h then data[l..h] else []
  }

  /** Where the `width` bytes that `struct.unpack` receives from
      `data[off:off+width]` start; it raises unless that slice is exactly
      `width` bytes long. A negative offset counts from the end of the buffer,
      so such a read succeeds only when it also ends before offset 0
      (`UnpackIsSlice` relates this to Python's slice rules). */
  function Unpack(data: seq<byte>, off: int, width: nat): (r: Result<nat>)
    requires 0 < width
    ensures r.Ok? ==> r.value + width <= |data|
    ensures r.Err? ==> r.fault == StructError(width)
    ensures 0 <= off ==> (r.Ok? <==> off + width <= |data|)
    ensures 0 <= off && r.Ok? ==> r.value == off
  {
    if 0 <= off then
      if off + width <= |data| then Ok(off) else Err(StructError(width))
    else if off + width < 0 && 0 <= off + |data| then Ok(off + |data|)
    else Err(StructError(width))
  }

  /** `Unpack` succeeds exactly when Python's slice is `width` bytes long,
      and then points at the bytes of that slice. */
  lemma UnpackIsSlice(data: seq<byte>, off: int, width: nat)
    requires 0 < width
    ensures Unpack(data, off, width).Ok? <==> |Slice(data, off, off + width)| == width
    ensures Unpack(data, off, width).Ok? ==>
              var p := Unpack(data, off, width).value;
              Slice(data, off, off + width) == data[p..p + width]
  {
    var n := |data|;
    var l := SliceIndex(off, n);
    var h := SliceIndex(off + width, n);
    if off < 0 && 0 <= off + width {
      if off + n < 0 {
        assert l == 0 && h <= off + width;
      } else {
        assert l == off + n && h <= n;
      }
    }
  }

  /** A read that starts before offset 0 and ends at or after it fails. */
  lemma UnpackAcrossZeroFails(data: seq<byte>, off: int, width: nat)
    requires 0 < width
    requires off < 0 <= off + width
    ensures Unpack(data, off, width).Err?
  {
  }

  /** One `struct.unpack` of a fixed record layout: `width` bytes that start
      `at` bytes into the record. */
  datatype Read = Read(at: nat, width: nat)

  /** The fields of a record of `size` bytes: each is non-empty and inside
      the record, and the last one ends at its end. */
  predicate Covers(fields: seq<Read>, size: nat)
  {
    |fields| > 0
    && (forall k :: 0 <= k < |fields| ==> 0 < fields[k].width && fields[k].at + fields[k].width <= size)
    && fields[|fields| - 1].at + fields[|fields| - 1].width == size
  }

  /** The fields follow one another from the start of the record, leaving no
      byte out. */
  predicate Contiguous(fields: seq<Read>)
  {
    |fields| > 0 && fields[0].at == 0
    && forall k :: 0 <= k < |fields| - 1 ==> fields[k + 1].at == fields[k].at + fields[k].width
  }

  /** The read at slot `k` of a record that starts at `off`. */
  function ReadAt(data: seq<byte>, off: int, r: Read): Result<nat>
  {
    if r.width == 0 then Err(StructError(0)) else Unpack(data, off + r.at, r.width)
  }

  /** The fault of the first of `fields` that fails. */
  function FirstFailure(data: seq<byte>, off: int, fields: seq<Read>): Fault
  {
    if |fields| == 0 then StructError(0)
    else if ReadAt(data, off, fields[0]).Err? then StructError(fields[0].width)
    else FirstFailure(data, off, fields[1..])
  }

  /** A fixed record of `size` bytes read by `fields` at `off`: where its
      bytes start when they are all in the buffer, otherwise the fault the
      first failing read raises (`RecordAtIsSequential`). */
  function RecordAt(data: seq<byte>, off: int, size: nat, fields: seq<Read>): (r: Result<nat>)
    requires 0 < size
    ensures r.Ok? ==> r.value + size <= |data|
    ensures 0 <= off ==> (r.Ok? <==> off + size <= |data|)
    ensures 0 <= off && r.Ok? ==> r.value == off
  {
    var p := Unpack(data, off, size);
    if p.Ok? then p else Err(FirstFailure(data, off, fields))
  }

  /** Reading a record in one piece is the same as making its fields one after
      the other: it succeeds exactly when every read does, each read then
      sees the bytes at its own place in the record, and otherwise the fault
      is that of the first read that fails. This holds at every offset of at
      least 0, and at negative offsets too when the fields leave no gap. */
  lemma {:induction false} RecordAtIsSequential(data: seq<byte>, off: int, size: nat, fields: seq<Read>)
    requires 0 < size && Covers(fields, size)
    requires 0 <= off || Contiguous(fields)
    ensures RecordAt(data, off, size, fields).Ok? <==>
            forall k :: 0 <= k < |fields| ==> ReadAt(data, off, fields[k]).Ok?
    ensures RecordAt(data, off, size, fields).Ok? ==>
              forall k :: 0 <= k < |fields| ==>
                ReadAt(data, off, fields[k]).value == RecordAt(data, off, size, fields).value + fields[k].at
    ensures RecordAt(data, off, size, fields).Err? ==>
              exists k :: 0 <= k < |fields| && ReadAt(data, off, fields[k]).Err?
                          && (forall j :: 0 <= j < k ==> ReadAt(data, off, fields[j]).Ok?)
                          && RecordAt(data, off, size, fields).fault == StructError(fields[k].width)
  {
    var n := |data|;
    var last := |fields| - 1;
    if Unpack(data, off, size).Ok? {
      forall k | 0 <= k < |fields|
        ensures ReadAt(data, off, fields[k]).Ok?
        ensures ReadAt(data, off, fields[k]).value == Unpack(data, off, size).value + fields[k].at
      {
      }
    } else {
      if 0 <= off {
        assert ReadAt(data, off, fields[last]).Err?;
      } else {
        ContiguousEnds(data, off, fields);
      }
      FirstFailureIsFirst(data, off, fields);
    }
  }

  /** Each read ends no earlier than the one before it. */
  predicate Ascending(fields: seq<Read>)
  {
    forall k :: 0 <= k < |fields| - 1 ==> fields[k].at + fields[k].width <= fields[k + 1].at + fields[k + 1].width
  }

  lemma {:induction false} AscendingEnds(fields: seq<Read>, i: nat, j: nat)
    requires Ascending(fields) && i <= j < |fields|
    ensures fields[i].at + fields[i].width <= fields[j].at + fields[j].width
    decreases j - i
  {
    if i < j {
      AscendingEnds(fields, i + 1, j);
    }
  }

  /** The record method view: when the reads before slot `k` have succeeded
      and read `k` runs past the end of the buffer, the record fails with
      read `k`'s fault. */
  lemma FirstShortRead(data: seq<byte>, off: nat, size: nat, fields: seq<Read>, k: nat)
    requires 0 < size && Covers(fields, size) && Ascending(fields) && k < |fields|
    requires k == 0 || off + fields[k - 1].at + fields[k - 1].width <= |data|
    ensures off + fields[k].at + fields[k].width > |data| ==>
              RecordAt(data, off, size, fields) == Err(StructError(fields[k].width))
  {
    if off + fields[k].at + fields[k].width > |data| {
      RecordAtIsSequential(data, off, size, fields);
      forall j | 0 <= j < k
        ensures ReadAt(data, off, fields[j]).Ok?
      {
        AscendingEnds(fields, j, k - 1);
      }
      assert ReadAt(data, off, fields[k]).Err?;
    }
  }

  /** When every read of a gap-free record at a negative offset succeeds, the
      whole record lies before offset 0 and after the buffer's start. */
  lemma {:induction false} ContiguousEnds(data: seq<byte>, off: int, fields: seq<Read>)
    requires off < 0 && Contiguous(fields)
    requires forall k :: 0 <= k < |fields| ==> 0 < fields[k].width
    ensures (forall k :: 0 <= k < |fields| ==> ReadAt(data, off, fields[k]).Ok?) ==>
              off + fields[|fields| - 1].at + fields[|fields| - 1].width < 0 && 0 <= off + |data|
  {
    if forall k :: 0 <= k < |fields| ==> ReadAt(data, off, fields[k]).Ok? {
      assert ReadAt(data, off, fields[0]).Ok?;
      var i := 0;
      while i < |fields| - 1
        invariant 0 <= i < |fields|
        invariant off + fields[i].at + fields[i].width < 0
      {
        assert ReadAt(data, off, fields[i + 1]).Ok?;
        i := i + 1;
      }
    }
  }

  /** `FirstFailure` names the first read that fails, when one does. */
  lemma {:induction false} FirstFailureIsFirst(data: seq<byte>, off: int, fields: seq<Read>)
    requires exists k :: 0 <= k < |fields| && ReadAt(data, off, fields[k]).Err?
    ensures exists k :: 0 <= k < |fields| && ReadAt(data, off, fields[k]).Err?
                        && (forall j :: 0 <= j < k ==> ReadAt(data, off, fields[j]).Ok?)
                        && FirstFailure(data, off, fields) == StructError(fields[k].width)
  {
    if ReadAt(data, off, fields[0]).Ok? {
      var k :| 0 <= k < |fields| && ReadAt(data, off, fields[k]).Err?;
      assert ReadAt(data, off, fields[1..][k - 1]).Err?;
      FirstFailureIsFirst(data, off, fields[1..]);
      var k' :| 0 <= k' < |fields| - 1 && ReadAt(data, off, fields[1..][k']).Err?
                && (forall j :: 0 <= j < k' ==> ReadAt(data, off, fields[1..][j]).Ok?)
                && FirstFailure(data, off, fields[1..]) == StructError(fields[1..][k'].width);
      assert forall j :: 0 <= j < k' + 1 ==> ReadAt(data, off, fields[j]).Ok? by {
        forall j | 0 <= j < k' + 1 ensures ReadAt(data, off, fields[j]).Ok? {
          if j > 0 { assert fields[j] == fields[1..][j - 1]; }
        }
      }
      assert fields[k' + 1] == fields[1..][k'];
    }
  }

  /** 256 to the power `n`: one more than the largest `n`-byte unsigned value. */
  function Pow256(n: nat): (r: nat)
    ensures 0 < r
  {
    if n == 0 then 1 else 256 * Pow256(n - 1)
  }

  /** The unsigned little-endian value of the bytes from `p` up to `q`. */
  function LESpan(data: seq<byte>, p: nat, q: nat): (r: nat)
    requires p <= q <= |data|
    ensures r < Pow256(q - p)
    decreases q - p
  {
    if p == q then 0 else data[p] + 256 * LESpan(data, p + 1, q)
  }

  /** The unsigned little-endian value of the `width` bytes at `p`. */
  function LE(data: seq<byte>, p: nat, width: nat): (r: nat)
    requires p + width <= |data|
    ensures r < Pow256(width)
  {
    LESpan(data, p, p + width)
  }

  /** The value does not depend on where the bytes sit. */
  lemma {:induction false} LEOfSuffix(data: seq<byte>, k: nat, p: nat, width: nat)
    requires k <= p && p + width <= |data|
    ensures LE(data, p, width) == LE(data[k..], p - k, width)
    decreases width
  {
    if width > 0 {
      LEOfSuffix(data, k, p + 1, width - 1);
    }
  }

  /** The value depends only on the `width` bytes read. */
  lemma {:induction false} LEOfSlice(data: seq<byte>, p: nat, width: nat)
    requires p + width <= |data|
    ensures LE(data, p, width) == LE(data[p..p + width], 0, width)
    decreases width
  {
    if width > 0 {
      LEOfSlice(data, p + 1, width - 1);
      var s := data[p..p + width];
      LEOfSuffix(s, 1, 1, width - 1);
      assert s[1..] == data[p + 1..p + width];
    }
  }

  /** The `width`-byte little-endian encoding of `x`. */
  function EncodeLE(x: nat, width: nat): (r: seq<byte>)
    requires x < Pow256(width)
    ensures |r| == width
  {
    if width == 0 then [] else [x % 256] + EncodeLE(x / 256, width - 1)
  }

  lemma {:induction false} DecodeEncodeLE(x: nat, width: nat)
    requires x < Pow256(width)
    ensures LE(EncodeLE(x, width), 0, width) == x
  {
    if width > 0 {
      var e := EncodeLE(x, width);
      DecodeEncodeLE(x / 256, width - 1);
      assert e[1..] == EncodeLE(x / 256, width - 1);
      LEOfSuffix(e, 1, 1, width - 1);
    }
  }

  lemma {:induction false} EncodeDecodeLE(data: seq<byte>, p: nat, width: nat)
    requires p + width <= |data|
    ensures EncodeLE(LE(data, p, width), width) == data[p..p + width]
    decreases width
  {
    if width > 0 {
      EncodeDecodeLE(data, p + 1, width - 1);
      var rest := LE(data, p + 1, width - 1);
      assert (data[p] + 256 * rest) / 256 == rest;
      assert [data[p]] + data[p + 1..p + width] == data[p..p + width];
    }
  }

  /** `struct.unpack('<B')`, `'<H'` and `'<I'` of the bytes at `off`. */
  function U8(data: seq<byte>, off: int): (r: Result<nat>)
    ensures 0 <= off ==> (r.Ok? <==> off + 1 <= |data|)
    ensures 0 <= off && r.Ok? ==> r.value == data[off]
  {
    var p :- Unpack(data, off, 1);
    Ok(LE(data, p, 1))
  }

  function U16(data: seq<byte>, off: int): (r: Result<nat>)
    ensures 0 <= off ==> (r.Ok? <==> off + 2 <= |data|)
    ensures 0 <= off && r.Ok? ==> r.value == LE(data, off, 2)
    ensures r.Ok? ==> r.value < 0x1_0000
  {
    var p :- Unpack(data, off, 2);
    Ok(LE(data, p, 2))
  }

  function U32(data: seq<byte>, off: int): (r: Result<nat>)
    ensures 0 <= off ==> (r.Ok? <==> off + 4 <= |data|)
    ensures 0 <= off && r.Ok? ==> r.value == LE(data, off, 4)
    ensures r.Ok? ==> r.value < 0x1_0000_0000
  {
    var p :- Unpack(data, off, 4);
    Ok(LE(data, p, 4))
  }

  /** A two's-complement 16-bit value (`struct` format `h`) from its unsigned reading. */
  function Signed16(u: nat): (v: int)
    requires u < 0x1_0000
    ensures -0x8000 <= v < 0x8000
    ensures v % 0x1_0000 == u
  {
    if u >= 0x8000 then u - 0x1_0000 else u
  }

  /** The two bytes that hold the signed 16-bit value `v`. */
  function EncodeI16(v: int): (r: seq<byte>)
    requires -0x8000 <= v < 0x8000
    ensures |r| == 2
  {
    EncodeLE(if v < 0 then v + 0x1_0000 else v, 2)
  }

  lemma SignedEncodeI16(v: int)
    requires -0x8000 <= v < 0x8000
    ensures Signed16(LE(EncodeI16(v), 0, 2)) == v
  {
    DecodeEncodeLE(if v < 0 then v + 0x1_0000 else v, 2);
  }

  /** The bytes before the first zero byte, as `bytes.split(b'\x00')[0]` gives them. */
  function UntilNul(s: seq<byte>): (r: seq<byte>)
    ensures |r| <= |s| && r == s[..|r|]
    ensures forall k :: 0 <= k < |r| ==> r[k] != 0
    ensures |r| < |s| ==> s[|r|] == 0
  {
    if |s| == 0 || s[0] == 0 then [] else [s[0]] + UntilNul(s[1..])
  }

  /** `bytes.decode('ascii', errors='ignore')`: every byte above 127 is dropped. */
  function AsciiIgnore(s: seq<byte>): (r: string)
    ensures |r| <= |s|
    ensures forall k :: 0 <= k < |r| ==> r[k] < 128 as char
  {
    if |s| == 0 then ""
    else (if s[0] < 128 then [s[0] as char] else []) + AsciiIgnore(s[1..])
  }

  /** A NUL-terminated name field decoded as the source does. */
  function CString(s: seq<byte>): string
  {
    AsciiIgnore(UntilNul(s))
  }

  /** The bytes of an ASCII string. */
  function AsciiBytes(name: string): (r: seq<byte>)
    requires forall k :: 0 <= k < |name| ==> name[k] < 128 as char
    ensures |r| == |name|
  {
    if |name| == 0 then [] else [name[0] as int] + AsciiBytes(name[1..])
  }

  lemma {:induction false} AsciiIgnoreOfAscii(name: string)
    requires forall k :: 0 <= k < |name| ==> name[k] < 128 as char
    ensures AsciiIgnore(AsciiBytes(name)) == name
  {
    if |name| > 0 {
      AsciiIgnoreOfAscii(name[1..]);
      assert AsciiBytes(name)[1..] == AsciiBytes(name[1..]);
    }
  }

  /** A name without NUL characters, padded with zero bytes to the field width,
      decodes back to itself. */
  lemma {:induction false} CStringOfPadded(name: string, pad: nat)
    requires forall k :: 0 <= k < |name| ==> 0 as char < name[k] < 128 as char
    ensures CString(AsciiBytes(name) + seq(pad, _ => 0)) == name
  {
    var b := AsciiBytes(name);
    UntilNulOfPadded(name, pad);
    AsciiIgnoreOfAscii(name);
  }

  /** A name field that holds the bytes of an ASCII name without NUL and
      zeros after it decodes to that name. */
  lemma CStringOfField(field: seq<byte>, name: string)
    requires |name| <= |field|
    requires forall k :: 0 <= k < |name| ==> 0 as char < name[k] < 128 as char && field[k] == name[k] as int
    requires forall k :: |name| <= k < |field| ==> field[k] == 0
    ensures CString(field) == name
  {
    AsciiBytesAt(name);
    assert field == AsciiBytes(name) + seq(|field| - |name|, _ => 0);
    CStringOfPadded(name, |field| - |name|);
  }

  lemma {:induction false} AsciiBytesAt(name: string)
    requires forall k :: 0 <= k < |name| ==> name[k] < 128 as char
    ensures forall k :: 0 <= k < |name| ==> AsciiBytes(name)[k] == name[k] as int
  {
    if |name| > 0 {
      AsciiBytesAt(name[1..]);
    }
  }

  lemma {:induction false} UntilNulOfPadded(name: string, pad: nat)
    requires forall k :: 0 <= k < |name| ==> 0 as char < name[k] < 128 as char
    ensures UntilNul(AsciiBytes(name) + seq(pad, _ => 0)) == AsciiBytes(name)
  {
    var s := AsciiBytes(name) + seq(pad, _ => 0);
    if |name| == 0 {
      assert s == seq(pad, _ => 0);
    } else {
      UntilNulOfPadded(name[1..], pad);
      assert s[0] == name[0] as int != 0;
      assert s[1..] == AsciiBytes(name[1..]) + seq(pad, _ => 0);
    }
  }
}
