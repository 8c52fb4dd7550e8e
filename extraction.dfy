/**
 * `base_parser`: a wavenumber interval [v1, v2] is turned into a run of
 * whole records, each record is read and every one of its samples is
 * paired with a reconstructed wavenumber.
 */
module Extraction {
  import opened Wrappers
  import opened Builtins
  import opened Constants
  import opened PtTable

  /** The two lists `base_parser` returns, in emission order. */
  datatype Series = Series(wavenumbers: seq<real>, absorption: seq<real>)

  datatype ParseError =
    | TableNotFound       // opening the table failed (the source exits)
    | Read(e: ReadError)  // a record could not be read (the source raises)

  // ---------------------------------------------------------------------
  // Record addressing
  // ---------------------------------------------------------------------

  /** `int(v1 / 10.0)`: for v1 >= 0 the record whose 10 cm-1 span holds v1. */
  function StartRecord(v1: real): (r: int)
    ensures v1 >= 0.0 ==> 0 <= r && 10.0 * r as real <= v1 < 10.0 * (r + 1) as real
    ensures v1 < 0.0 ==> r <= 0 && 10.0 * (r - 1) as real < v1 <= 10.0 * r as real
  {
    Trunc(v1 / 10.0)
  }

  /** `int((v2 - 1) / 10.0)`: for v2 >= 1 the record whose span holds v2 - 1. */
  function EndRecord(v2: real): (r: int)
    ensures v2 >= 1.0 ==> 0 <= r && 10.0 * r as real <= v2 - 1.0 < 10.0 * (r + 1) as real
    ensures v2 < 1.0 ==> r <= 0 && 10.0 * (r - 1) as real < v2 - 1.0 <= 10.0 * r as real
  {
    Trunc((v2 - 1.0) / 10.0)
  }

  /** Truncation, not floor: any v2 strictly between 0 and 1 still ends at record 0. */
  lemma EndRecordBelowOne(v2: real)
    requires 0.0 < v2 < 1.0
    ensures EndRecord(v2) == 0
    ensures ((v2 - 1.0) / 10.0).Floor == -1
  {
  }

  /** `end_record_number - start_record_number + 1`; zero or negative means nothing is read. */
  function RecordCount(v1: real, v2: real): int {
    EndRecord(v2) - StartRecord(v1) + 1
  }

  // ---------------------------------------------------------------------
  // Wavenumber reconstruction
  // ---------------------------------------------------------------------

  /** `RECORD_WV_SPAN * r + i * step`: the wavenumber of sample `i` of record `r`. */
  function Wavenumber(r: int, i: int): real {
    (RECORD_WV_SPAN * r) as real + i as real * STEP
  }

  /**
   * The grid of one record: it starts exactly at 10 r, climbs by STEP per
   * sample, and its last sample lands exactly on the first of record r + 1.
   */
  lemma WavenumberGrid(r: int, i: int)
    ensures Wavenumber(r, 0) == 10.0 * r as real
    ensures Wavenumber(r, i + 1) == Wavenumber(r, i) + STEP
    ensures Wavenumber(r, POINTS_PER_RECORD - 1) == Wavenumber(r + 1, 0)
    ensures 0.0 < STEP
  {
  }

  /** The wavenumbers of one record's samples, in order. */
  function RecordRow(r: int): (row: seq<real>)
    ensures |row| == POINTS_PER_RECORD
    ensures forall i :: 0 <= i < POINTS_PER_RECORD ==> row[i] == Wavenumber(r, i)
  {
    seq(POINTS_PER_RECORD, i => Wavenumber(r, i))
  }

  // ---------------------------------------------------------------------
  // The extraction, as a specification
  // ---------------------------------------------------------------------

  /**
   * Reading `n` records from record `s` on, in increasing order: the series
   * of the first n - 1 records followed by record s + n - 1, or the error of
   * the first record that fails.
   */
  function ExtractRecords(t: Table, s: int, n: int): Result<Series, ReadError>
    decreases n
  {
    if n <= 0 then Ok(Series([], []))
    else match ExtractRecords(t, s, n - 1)
      case Err(e) => Err(e)
      case Ok(prev) =>
        match ReadRecord(t, s + n - 1)
        case Err(e) => Err(e)
        case Ok(data) => Ok(Series(prev.wavenumbers + RecordRow(s + n - 1), prev.absorption + data))
  }

  /** `base_parser(pttable_file, v1, v2)` as a value. */
  function BaseParse(disk: Disk, path: string, v1: real, v2: real): Result<Series, ParseError> {
    if path !in disk.tables then Err(TableNotFound)
    else match ExtractRecords(disk.tables[path], StartRecord(v1), RecordCount(v1, v2))
      case Ok(series) => Ok(series)
      case Err(e) => Err(Read(e))
  }

  /** Once a record has failed, reading further records does not change the outcome. */
  lemma {:induction false} ExtractErrorPersists(t: Table, s: int, m: int, n: int)
    requires m <= n
    requires ExtractRecords(t, s, m).Err?
    ensures ExtractRecords(t, s, n) == ExtractRecords(t, s, m)
    decreases n - m
  {
    if m < n {
      ExtractErrorPersists(t, s, m, n - 1);
    }
  }

  /** Reading one more record extends the series, or ends it with that record's error. */
  lemma ExtractOneMore(t: Table, s: int, j: nat, n: int, sofar: Series)
    requires 1 <= j <= n
    requires ExtractRecords(t, s, j - 1) == Ok(sofar)
    ensures ReadRecord(t, s + j - 1).Ok? ==>
              ExtractRecords(t, s, j) == Ok(Series(sofar.wavenumbers + RecordRow(s + j - 1),
                                                   sofar.absorption + ReadRecord(t, s + j - 1).value))
    ensures ReadRecord(t, s + j - 1).Err? ==> ExtractRecords(t, s, n) == Err(ReadRecord(t, s + j - 1).error)
  {
    if ReadRecord(t, s + j - 1).Err? {
      ExtractErrorPersists(t, s, j, n);
    }
  }

  // ---------------------------------------------------------------------
  // What an extraction yields
  // ---------------------------------------------------------------------

  /** Where flat index `k` of the series falls: record `k / P`, sample `k % P`. */
  lemma RecordOfIndex(k: int, q: int)
    requires q * POINTS_PER_RECORD <= k < (q + 1) * POINTS_PER_RECORD
    ensures k / POINTS_PER_RECORD == q && k % POINTS_PER_RECORD == k - q * POINTS_PER_RECORD
  {
  }

  /**
   * A successful extraction of n records: both lists hold n * P values; the
   * absorption list is the table's samples from record s through record
   * s + n - 1, unchanged and in file order; the wavenumber at flat index k
   * is that of sample k % P of record s + k / P.
   */
  lemma {:induction false} ExtractShape(t: Table, s: int, n: int)
    requires ExtractRecords(t, s, n).Ok?
    ensures var out := ExtractRecords(t, s, n).value;
      var m := if n <= 0 then 0 else n;
      |out.wavenumbers| == m * POINTS_PER_RECORD && |out.absorption| == m * POINTS_PER_RECORD
      && (n > 0 ==> 1 <= s && (s - 1 + n) * POINTS_PER_RECORD <= |t.samples|
                    && out.absorption == t.samples[(s - 1) * POINTS_PER_RECORD..(s - 1 + n) * POINTS_PER_RECORD])
      && forall k :: 0 <= k < |out.wavenumbers| ==>
           out.wavenumbers[k] == Wavenumber(s + k / POINTS_PER_RECORD, k % POINTS_PER_RECORD)
    decreases n
  {
    if n > 0 {
      var prev := ExtractRecords(t, s, n - 1).value;
      var data := ReadRecord(t, s + n - 1).value;
      var out := ExtractRecords(t, s, n).value;
      ExtractShape(t, s, n - 1);
      var lo := (s - 1) * POINTS_PER_RECORD;
      var mid := (s - 2 + n) * POINTS_PER_RECORD;
      var hi := (s - 1 + n) * POINTS_PER_RECORD;
      if n == 1 {
        assert out.absorption == data;
      } else {
        assert out.absorption == t.samples[lo..mid] + t.samples[mid..hi];
        assert t.samples[lo..mid] + t.samples[mid..hi] == t.samples[lo..hi];
      }
      forall k | 0 <= k < |out.wavenumbers|
        ensures out.wavenumbers[k] == Wavenumber(s + k / POINTS_PER_RECORD, k % POINTS_PER_RECORD)
      {
        if k < |prev.wavenumbers| {
          assert out.wavenumbers[k] == prev.wavenumbers[k];
        } else {
          RecordOfIndex(k, n - 1);
          assert out.wavenumbers[k] == RecordRow(s + n - 1)[k - (n - 1) * POINTS_PER_RECORD];
        }
      }
    }
  }

  /** ExtractShape at one index: the point's wavenumber and its table sample. */
  lemma ExtractPoint(t: Table, s: int, n: int, j: int)
    requires ExtractRecords(t, s, n).Ok?
    requires 0 <= j < |ExtractRecords(t, s, n).value.wavenumbers|
    ensures var out := ExtractRecords(t, s, n).value;
      j < |out.absorption| && 0 <= (s - 1) * POINTS_PER_RECORD + j < |t.samples|
      && out.wavenumbers[j] == Wavenumber(s + j / POINTS_PER_RECORD, j % POINTS_PER_RECORD)
      && out.absorption[j] == t.samples[(s - 1) * POINTS_PER_RECORD + j]
  {
    ExtractShape(t, s, n);
  }

  /**
   * An extraction succeeds exactly when it reads nothing, or when its first
   * record is at least 1 and its last record ends within the table.
   */
  lemma {:induction false} ExtractSucceedsIff(t: Table, s: int, n: int)
    ensures ExtractRecords(t, s, n).Ok? <==>
              (n <= 0 || (1 <= s && (s - 1 + n) * POINTS_PER_RECORD <= |t.samples|))
    decreases n
  {
    if n > 0 {
      ExtractSucceedsIff(t, s, n - 1);
    }
  }

  /**
   * A failed extraction reports the first record, in reading order, that
   * could not be read, and every record before it was read successfully.
   */
  lemma {:induction false} ExtractFirstFailure(t: Table, s: int, n: int)
    requires ExtractRecords(t, s, n).Err?
    ensures var e := ExtractRecords(t, s, n).error;
      s <= e.record < s + n && ReadRecord(t, e.record) == Err(e)
      && forall r :: s <= r < e.record ==> ReadRecord(t, r).Ok?
    decreases n
  {
    if ExtractRecords(t, s, n - 1).Err? {
      ExtractFirstFailure(t, s, n - 1);
    } else {
      ExtractSucceedsIff(t, s, n - 1);
    }
  }

  /**
   * Neighbouring wavenumbers in a successful extraction: inside a record
   * they climb by exactly STEP; across a record boundary the value repeats
   * (the last sample of record r and the first of record r + 1 are both 10 (r + 1)).
   */
  lemma NeighbourWavenumbers(t: Table, s: int, n: int, k: nat)
    requires ExtractRecords(t, s, n).Ok?
    requires k + 1 < |ExtractRecords(t, s, n).value.wavenumbers|
    ensures var w := ExtractRecords(t, s, n).value.wavenumbers;
      ((k + 1) % POINTS_PER_RECORD != 0 ==> w[k + 1] == w[k] + STEP)
      && ((k + 1) % POINTS_PER_RECORD == 0 ==> w[k + 1] == w[k])
  {
    ExtractShape(t, s, n);
    var w := ExtractRecords(t, s, n).value.wavenumbers;
    var q := k / POINTS_PER_RECORD;
    var m := k - q * POINTS_PER_RECORD;
    RecordOfIndex(k, q);
    assert w[k] == Wavenumber(s + q, m);
    if m == POINTS_PER_RECORD - 1 {
      RecordOfIndex(k + 1, q + 1);
      WavenumberGrid(s + q, m);
    } else {
      RecordOfIndex(k + 1, q);
      WavenumberGrid(s + q, m);
    }
  }

  /** The wavenumbers of a successful extraction never decrease. */
  lemma {:induction false} WavenumbersNondecreasing(t: Table, s: int, n: int, a: nat, b: nat)
    requires ExtractRecords(t, s, n).Ok?
    requires a <= b < |ExtractRecords(t, s, n).value.wavenumbers|
    ensures ExtractRecords(t, s, n).value.wavenumbers[a] <= ExtractRecords(t, s, n).value.wavenumbers[b]
    decreases b - a
  {
    if a < b {
      WavenumbersNondecreasing(t, s, n, a, b - 1);
      NeighbourWavenumbers(t, s, n, b - 1);
    }
  }

  /**
   * The extracted wavenumbers run from exactly 10 s (the base of the first
   * record) to exactly 10 (s + n) (the base of the record after the last).
   */
  lemma ExtractEnds(t: Table, s: int, n: int)
    requires n > 0 && ExtractRecords(t, s, n).Ok?
    ensures var w := ExtractRecords(t, s, n).value.wavenumbers;
      |w| > 0 && w[0] == 10.0 * s as real && w[|w| - 1] == 10.0 * (s + n) as real
  {
    ExtractShape(t, s, n);
    var w := ExtractRecords(t, s, n).value.wavenumbers;
    RecordOfIndex(0, 0);
    RecordOfIndex(|w| - 1, n - 1);
  }

  /**
   * `base_parser` in terms of its inputs: it fails to open only a missing
   * table, and otherwise succeeds exactly when the request reads no record,
   * or its first record is at least 1 and its last ends within the table.
   * On success both lists have one entry per sample of every record read,
   * and the first wavenumber is 10 * int(v1 / 10).
   */
  lemma BaseParseOutcome(disk: Disk, path: string, v1: real, v2: real)
    ensures BaseParse(disk, path, v1, v2) == Err(TableNotFound) <==> path !in disk.tables
    ensures path in disk.tables ==>
      var n := RecordCount(v1, v2);
      (BaseParse(disk, path, v1, v2).Ok? <==>
         (n <= 0 || (1 <= StartRecord(v1) && EndRecord(v2) * POINTS_PER_RECORD <= |disk.tables[path].samples|)))
    ensures BaseParse(disk, path, v1, v2).Ok? ==>
      var out := BaseParse(disk, path, v1, v2).value;
      var n := RecordCount(v1, v2);
      |out.wavenumbers| == |out.absorption| == (if n <= 0 then 0 else n) * POINTS_PER_RECORD
      && (n > 0 ==> out.wavenumbers[0] == 10.0 * StartRecord(v1) as real)
  {
    if path in disk.tables {
      var t, s, n := disk.tables[path], StartRecord(v1), RecordCount(v1, v2);
      ExtractSucceedsIff(t, s, n);
      if ExtractRecords(t, s, n).Ok? {
        ExtractShape(t, s, n);
        if n > 0 {
          ExtractEnds(t, s, n);
        }
      }
    }
  }

  /**
   * A successful non-empty extraction with v1 >= 0 starts at or below v1
   * and ends above v2 - 1: whole records are read, so the series is not
   * clipped to the request; but it may end below v2 itself (see
   * EndsBelowRequest).
   */
  lemma BaseParseSpan(disk: Disk, path: string, v1: real, v2: real)
    requires v1 >= 0.0 && RecordCount(v1, v2) > 0
    requires BaseParse(disk, path, v1, v2).Ok?
    ensures var w := BaseParse(disk, path, v1, v2).value.wavenumbers;
      |w| > 0 && w[0] <= v1 && v2 - 1.0 < w[|w| - 1]
  {
    var t, s, n := disk.tables[path], StartRecord(v1), RecordCount(v1, v2);
    ExtractEnds(t, s, n);
    ExtractSucceedsIff(t, s, n);
  }

  /**
   * The end record drops the fraction of v2 - 1: asking for [100, 120.5]
   * reads records 10 and 11 only, whose samples end at 120.
   */
  lemma EndsBelowRequest()
    ensures StartRecord(100.0) == 10 && EndRecord(120.5) == 11 && RecordCount(100.0, 120.5) == 2
    ensures 10.0 * (EndRecord(120.5) + 1) as real < 120.5
  {
  }

  // ---------------------------------------------------------------------
  // base_parser itself
  // ---------------------------------------------------------------------

  /**
   * `base_parser`: opens the table, then for each record in turn checks its
   * offset against the file size, reads it and appends one wavenumber and
   * one absorption value per sample to the two lists.
   */
  method BaseParser(disk: Disk, pttableFile: string, v1: real, v2: real)
    returns (res: Result<Series, ParseError>)
    ensures res == BaseParse(disk, pttableFile, v1, v2)
  {
    var startRecordNumber := Trunc(v1 / 10.0);
    var endRecordNumber := Trunc((v2 - 1.0) / 10.0);
    var numRecords := endRecordNumber - startRecordNumber + 1;

    if pttableFile !in disk.tables {
      return Err(TableNotFound);
    }
    var f := disk.tables[pttableFile];
    var vwData: seq<real> := [];
    var absorptionData: seq<real> := [];
    var recordNumber := startRecordNumber;
    var j := 1;
    while j <= numRecords
      invariant 1 <= j <= if numRecords >= 0 then numRecords + 1 else 1
      invariant recordNumber == startRecordNumber + j - 1
      invariant ExtractRecords(f, startRecordNumber, j - 1) == Ok(Series(vwData, absorptionData))
    {
      ExtractOneMore(f, startRecordNumber, j, numRecords, Series(vwData, absorptionData));
      var seekPosition := (recordNumber - 1) * RECORD_SIZE;
      if seekPosition >= SizeBytes(f) {
        return Err(Read(RecordPastEnd(recordNumber)));
      }
      var read := SeekRead(f, recordNumber);
      if read.Err? {
        return Err(Read(read.error));
      }
      var complete, vwNext, absNext := AppendRecordRows(recordNumber, read.value, vwData, absorptionData);
      if !complete {
        // abs_data[i] raises IndexError: the file ended inside this record
        return Err(Read(ShortRecord(recordNumber)));
      }
      assert read.value[..POINTS_PER_RECORD] == read.value;
      vwData, absorptionData := vwNext, absNext;
      recordNumber := startRecordNumber + j;
      j := j + 1;
    }
    assert numRecords <= 0 ==> ExtractRecords(f, startRecordNumber, numRecords) == Ok(Series([], []));
    return Ok(Series(vwData, absorptionData));
  }

  /**
   * The inner loop of `base_parser`: for each sample index of record
   * `recordNumber`, one wavenumber and the sample itself are appended; an
   * index past the end of the data read stops it (IndexError).
   */
  method AppendRecordRows(recordNumber: int, absData: seq<real>, vw0: seq<real>, abs0: seq<real>)
    returns (complete: bool, vwData: seq<real>, absorptionData: seq<real>)
    ensures complete <==> |absData| >= POINTS_PER_RECORD
    ensures complete ==> vwData == vw0 + RecordRow(recordNumber)
                         && absorptionData == abs0 + absData[..POINTS_PER_RECORD]
  {
    var step := RECORD_WV_SPAN as real / (POINTS_PER_RECORD - 1) as real;
    var inRecordStartWv := (RECORD_WV_SPAN * recordNumber) as real;
    vwData, absorptionData := vw0, abs0;
    var i := 0;
    while i < POINTS_PER_RECORD
      invariant 0 <= i <= POINTS_PER_RECORD && i <= |absData|
      invariant vwData == vw0 + RecordRow(recordNumber)[..i]
      invariant absorptionData == abs0 + absData[..i]
    {
      var vw := inRecordStartWv + i as real * step;
      assert vw == RecordRow(recordNumber)[i];
      assert RecordRow(recordNumber)[..i + 1] == RecordRow(recordNumber)[..i] + [vw];
      vwData := vwData + [vw];
      if i >= |absData| {
        return false, vwData, absorptionData;
      }
      absorptionData := absorptionData + [absData[i]];
      i := i + 1;
    }
    assert RecordRow(recordNumber)[..i] == RecordRow(recordNumber);
    return true, vwData, absorptionData;
  }
}
