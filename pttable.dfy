/**
 * A pt-table file and the random-access read of one record from it.
 *
 * The file has no header: it is a flat run of records of POINTS_PER_RECORD
 * float32 samples each. Record `r` is addressed 1-based: it starts at byte
 * (r - 1) * RECORD_SIZE. The file is modelled by its samples, decoded in
 * file order, so its size in bytes is four times their number.
 */
module PtTable {
  import opened Wrappers
  import opened Constants

  datatype Table = Table(samples: seq<real>)

  /** `os.path.getsize` of the table file. */
  function SizeBytes(t: Table): nat {
    4 * |t.samples|
  }

  /** The files the core opens, by path: binary tables and text files (read as lines). */
  datatype Disk = Disk(tables: map<string, Table>, texts: map<string, seq<string>>)

  /** Why reading one record failed; each names the record. */
  datatype ReadError =
    | RecordPastEnd(record: int)  // the record's offset is at or past the file size
    | NegativeSeek(record: int)   // record 0 or below: seeking to a negative offset raises
    | ShortRecord(record: int)    // the file ends inside the record

  /** Byte offset of record `r`. */
  function RecordOffset(r: int): int {
    (r - 1) * RECORD_SIZE
  }

  /**
   * `f.seek(RecordOffset(r))` then `f.read(RECORD_SIZE)`, decoded: up to
   * POINTS_PER_RECORD samples, fewer when the file ends first. Seeking to
   * a negative offset fails.
   */
  function SeekRead(t: Table, r: int): (res: Result<seq<real>, ReadError>)
    ensures res.Err? <==> r < 1
    ensures res.Err? ==> res.error == NegativeSeek(r)
    ensures res.Ok? ==> |res.value| <= POINTS_PER_RECORD
    ensures res.Ok? ==> (|res.value| == POINTS_PER_RECORD <==> r * POINTS_PER_RECORD <= |t.samples|)
    ensures res.Ok? ==>
              var avail := |t.samples| - (r - 1) * POINTS_PER_RECORD;
              |res.value| == if avail >= POINTS_PER_RECORD then POINTS_PER_RECORD
                             else if avail > 0 then avail else 0
    ensures res.Ok? ==> forall i :: 0 <= i < |res.value| ==>
                          (r - 1) * POINTS_PER_RECORD + i < |t.samples|
                          && res.value[i] == t.samples[(r - 1) * POINTS_PER_RECORD + i]
  {
    if RecordOffset(r) < 0 then Err(NegativeSeek(r))
    else
      var n := |t.samples|;
      var first := if (r - 1) * POINTS_PER_RECORD <= n then (r - 1) * POINTS_PER_RECORD else n;
      var last := if r * POINTS_PER_RECORD <= n then r * POINTS_PER_RECORD else n;
      Ok(t.samples[first..last])
  }

  /**
   * One record as both parsers read it: the offset is checked against the
   * file size first, then the record is read, and a read shorter than a
   * record is an error.
   */
  function ReadRecord(t: Table, r: int): (res: Result<seq<real>, ReadError>)
    ensures res.Ok? <==> 1 <= r && r * POINTS_PER_RECORD <= |t.samples|
    ensures res.Ok? ==> |res.value| == POINTS_PER_RECORD
    ensures res.Err? ==> res.error.record == r
  {
    if RecordOffset(r) >= SizeBytes(t) then Err(RecordPastEnd(r))
    else match SeekRead(t, r)
      case Err(e) => Err(e)
      case Ok(data) => if |data| < POINTS_PER_RECORD then Err(ShortRecord(r)) else Ok(data)
  }

  /**
   * What a record read yields: record r is samples (r - 1) P to r P - 1 of
   * the table; an offset at or past the end of the file is reported as
   * such, and a record before the first as a negative seek.
   */
  lemma ReadRecordOutcome(t: Table, r: int)
    ensures ReadRecord(t, r).Ok? ==>
              ReadRecord(t, r).value == t.samples[(r - 1) * POINTS_PER_RECORD..r * POINTS_PER_RECORD]
    ensures ReadRecord(t, r) == Err(RecordPastEnd(r)) <==> RecordOffset(r) >= SizeBytes(t)
    ensures ReadRecord(t, r) == Err(NegativeSeek(r)) <==> r < 1
  {
  }

  /** A table whose size is a whole number of records never yields a short record. */
  lemma WholeRecordsNeverShort(t: Table, r: int)
    requires |t.samples| % POINTS_PER_RECORD == 0
    ensures ReadRecord(t, r) != Err(ShortRecord(r))
  {
    if 1 <= r && RecordOffset(r) < SizeBytes(t) {
      var q := |t.samples| / POINTS_PER_RECORD;
      assert |t.samples| == q * POINTS_PER_RECORD;
      assert r - 1 < q;
    }
  }
}
