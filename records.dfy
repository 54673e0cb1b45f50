/** Arrays of fixed-width records, read the way every section parser of the
    source reads them: `for i in range(count)` decodes one record at the
    cursor, appends it and advances the cursor by the record width; the first
    record that fails aborts the whole section. */
module RecordSections {
  import opened Bytes

  /** Decodes `count` records of `width` bytes starting at `off`; on success
      gives the records and the cursor after the last one. */
  function Records<T>(data: seq<byte>, off: int, count: nat, width: nat,
                      rec: (seq<byte>, int) -> Result<T>): (r: Result<(seq<T>, int)>)
    ensures r.Ok? ==> |r.value.0| == count && r.value.1 == off + count * width
    decreases count, 1
  {
    if count == 0 then Ok(([], off))
    else RecordsAppend(data, off, count, width, rec)
  }

  /** The last iteration of `Records`: the first `count - 1` records, then
      one more at the cursor they leave. */
  function RecordsAppend<T>(data: seq<byte>, off: int, count: nat, width: nat,
                      rec: (seq<byte>, int) -> Result<T>): (r: Result<(seq<T>, int)>)
    requires count > 0
    decreases count, 0
  {
      var prev :- Records(data, off, count - 1, width, rec);
      var item :- rec(data, prev.1);
      Ok((prev.0 + [item], prev.1 + width))
  }

  /** One more iteration of the loop: the next record is read at the cursor. */
  lemma RecordsStep<T>(data: seq<byte>, off: int, i: nat, width: nat,
                       rec: (seq<byte>, int) -> Result<T>, done: seq<T>, cur: int)
    requires Records(data, off, i, width, rec) == Ok((done, cur))
    ensures rec(data, cur).Ok? ==> Records(data, off, i + 1, width, rec) == Ok((done + [rec(data, cur).value], cur + width))
    ensures rec(data, cur).Err? ==> Records(data, off, i + 1, width, rec) == Err(rec(data, cur).fault)
  {
  }

  /** The record in slot `i` of a section starting at `off`. */
  function Slot<T>(data: seq<byte>, off: int, width: nat,
                   rec: (seq<byte>, int) -> Result<T>, i: nat): Result<T>
  {
    rec(data, off + i * width)
  }

  /** Every record of a decoded section is the one its own slot holds. */
  lemma {:induction false} RecordsSlots<T>(data: seq<byte>, off: int, count: nat, width: nat,
                                           rec: (seq<byte>, int) -> Result<T>)
    requires Records(data, off, count, width, rec).Ok?
    ensures forall i :: 0 <= i < count ==>
              Slot(data, off, width, rec, i) == Ok(Records(data, off, count, width, rec).value.0[i])
  {
    if count > 0 {
      RecordsSlots(data, off, count - 1, width, rec);
      var prev := Records(data, off, count - 1, width, rec).value;
      assert Slot(data, off, width, rec, count - 1) == rec(data, prev.1);
    }
  }

  /** A section decodes exactly when every one of its slots does. */
  lemma {:induction false} RecordsOkIff<T>(data: seq<byte>, off: int, count: nat, width: nat,
                                           rec: (seq<byte>, int) -> Result<T>)
    ensures Records(data, off, count, width, rec).Ok? <==>
            forall i :: 0 <= i < count ==> Slot(data, off, width, rec, i).Ok?
  {
    if count > 0 {
      RecordsOkIff(data, off, count - 1, width, rec);
      var p := Records(data, off, count - 1, width, rec);
      if p.Ok? {
        assert Slot(data, off, width, rec, count - 1) == rec(data, p.value.1);
      }
    }
  }

  /** A section with a slot that fails fails as a whole. */
  lemma RecordsFailsAt<T>(data: seq<byte>, off: int, count: nat, width: nat,
                          rec: (seq<byte>, int) -> Result<T>, i: nat)
    requires i < count && rec(data, off + i * width).Err?
    ensures Records(data, off, count, width, rec).Err?
  {
    RecordsOkIff(data, off, count, width, rec);
    assert !Slot(data, off, width, rec, i).Ok?;
  }

  /** Once a prefix of the section fails, the whole section fails with the same fault. */
  lemma {:induction false} RecordsErrPersists<T>(data: seq<byte>, off: int, i: nat, count: nat, width: nat,
                                                 rec: (seq<byte>, int) -> Result<T>)
    requires i <= count
    requires Records(data, off, i, width, rec).Err?
    ensures Records(data, off, count, width, rec) == Records(data, off, i, width, rec)
    decreases count
  {
    if count > i {
      RecordsErrPersists(data, off, i, count - 1, width, rec);
    }
  }

  /** The first `i` records of a section are a section of their own. */
  lemma {:induction false} RecordsPrefix<T>(data: seq<byte>, off: int, i: nat, count: nat, width: nat,
                                            rec: (seq<byte>, int) -> Result<T>)
    requires i <= count
    requires Records(data, off, count, width, rec).Ok?
    ensures Records(data, off, i, width, rec).Ok?
    ensures Records(data, off, i, width, rec).value.0 == Records(data, off, count, width, rec).value.0[..i]
    decreases count
  {
    if count > i {
      RecordsPrefix(data, off, i, count - 1, width, rec);
      var all := Records(data, off, count, width, rec).value.0;
      assert all[..count - 1][..i] == all[..i];
    } else {
      var all := Records(data, off, count, width, rec).value.0;
      assert all[..i] == all;
    }
  }

  /** When a record decodes exactly if its bytes fit, a non-empty section
      decodes exactly if all of its bytes fit (an empty one always does). */
  lemma {:induction false} RecordsFitIff<T>(data: seq<byte>, off: int, count: nat, width: nat,
                                            rec: (seq<byte>, int) -> Result<T>)
    requires 0 <= off
    requires forall o: int {:trigger rec(data, o)} :: 0 <= o ==> (rec(data, o).Ok? <==> o + width <= |data|)
    ensures Records(data, off, count, width, rec).Ok? <==> count == 0 || off + count * width <= |data|
  {
    if count > 0 {
      RecordsFitIff(data, off, count - 1, width, rec);
      var before := (count - 1) * width;
      MulStep(count, width);
      var prev := Records(data, off, count - 1, width, rec);
      if prev.Ok? {
        assert rec(data, off + before).Ok? <==> off + before + width <= |data|;
      }
    }
  }

  /** When a record reads only its first `read` bytes of a `width`-byte slot,
      a non-empty section decodes exactly if the read of its last slot fits. */
  lemma {:induction false} RecordsReadFitIff<T>(data: seq<byte>, off: int, count: nat, width: nat, read: nat,
                                                rec: (seq<byte>, int) -> Result<T>)
    requires 0 <= off && read <= width
    requires forall o: int {:trigger rec(data, o)} :: 0 <= o ==> (rec(data, o).Ok? <==> o + read <= |data|)
    ensures Records(data, off, count, width, rec).Ok? <==> count == 0 || off + (count - 1) * width + read <= |data|
  {
    if count > 0 {
      RecordsReadFitIff(data, off, count - 1, width, read, rec);
      var before := (count - 1) * width;
      MulStep(count, width);
      if count > 1 {
        MulStep(count - 1, width);
        assert (count - 2) * width + read <= before;
      }
      var prev := Records(data, off, count - 1, width, rec);
      if prev.Ok? {
        assert rec(data, off + before).Ok? <==> off + before + read <= |data|;
      }
    }
  }

  lemma MulStep(count: nat, width: nat)
    requires count > 0
    ensures 0 <= (count - 1) * width && (count - 1) * width + width == count * width
  {
  }

  /** When every failing record fails with the same fault, so does a failing section. */
  lemma {:induction false} RecordsFault<T>(data: seq<byte>, off: int, count: nat, width: nat,
                                           rec: (seq<byte>, int) -> Result<T>, f: Fault)
    requires forall o: int {:trigger rec(data, o)} :: rec(data, o).Err? ==> rec(data, o).fault == f
    ensures Records(data, off, count, width, rec).Err? ==> Records(data, off, count, width, rec).fault == f
  {
    if count > 0 {
      RecordsFault(data, off, count - 1, width, rec, f);
    }
  }
}
