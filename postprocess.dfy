/**
 * `process_data` and the input checks of `main` in the post-processing
 * script: reads the records covering [V1, V2] from a level's table, keeps
 * every 1st, 10th or 100th sample by resolution, and pairs each kept
 * sample's position with log10 of its value (or -inf for a value <= 0).
 */
module Postprocess {
  import opened Wrappers
  import opened Builtins
  import opened Constants
  import opened PtTable
  import opened Extraction

  /** Samples per record, as the script spells it. */
  const NT: nat := 20481
  const MET: string := "CO2"
  const OUTPUT_DIR: string := "./output/PT_CALC/"
  /** Wavenumber width of one record. */
  const DELTA_WV: nat := 10

  datatype PostError =
    | BoundsNotIncreasing                   // V1 >= V2
    | NegativeBound                         // V1 < 0 or V2 < 0
    | LevelNotPositive                      // level <= 0
    | InvalidResolution(resolution: string) // not 'high', 'medium' or 'coarse'
    | FileMissing(filename: string)         // the level's table does not exist
    | RecordFailed(readError: ReadError)    // offset past the end, negative seek or short read

  /**
   * `os.path.join(OUTPUT_DIR, f"{DIR_NAME}{MET}")`: the directory already
   * ends with '/', so the join is plain concatenation; DIR_NAME is padded
   * exactly like the `get_pt_name` stem.
   */
  function TableFilename(level: int): (name: string)
    ensures |name| == |OUTPUT_DIR| + |PaddedName(level)| + |MET|
    ensures name[..|OUTPUT_DIR|] == OUTPUT_DIR
    ensures name[|OUTPUT_DIR|..|OUTPUT_DIR| + |PaddedName(level)|] == PaddedName(level)
    ensures name[|name| - |MET|..] == MET
  {
    OUTPUT_DIR + PaddedName(level) + MET
  }

  /** Different levels read different files. */
  lemma TableFilenameInjective(a: int, b: int)
    requires TableFilename(a) == TableFilename(b)
    ensures a == b
  {
    var na, nb := PaddedName(a), PaddedName(b);
    assert |na| == |nb|;
    assert na == TableFilename(a)[|OUTPUT_DIR|..|OUTPUT_DIR| + |na|];
    assert nb == TableFilename(b)[|OUTPUT_DIR|..|OUTPUT_DIR| + |nb|];
    PaddedNameInjective(a, b);
  }

  /** The resolution names and the stride each one keeps. */
  function Granularity(resolution: string): (g: Option<nat>)
    ensures g.Some? <==> resolution == "high" || resolution == "medium" || resolution == "coarse"
    ensures resolution == "high" ==> g == Some(1)
    ensures resolution == "medium" ==> g == Some(10)
    ensures resolution == "coarse" ==> g == Some(100)
  {
    if resolution == "high" then Some(1)
    else if resolution == "medium" then Some(10)
    else if resolution == "coarse" then Some(100)
    else None
  }

  predicate IsStride(g: nat) {
    g == 1 || g == 10 || g == 100
  }

  /**
   * Samples kept per record: `range(1, int((NT + 1) / g))` has
   * int((NT + 1) / g) - 1 members, so 20481, 2047 and 203 for the three
   * strides. The last kept index, (count - 1) * g, is always below NT.
   */
  function SamplesPerRecord(g: nat): (count: nat)
    requires IsStride(g)
    ensures g == 1 ==> count == 20481
    ensures g == 10 ==> count == 2047
    ensures g == 100 ==> count == 203
    ensures (count - 1) * g < NT
  {
    Trunc((NT + 1) as real / g as real) - 1
  }

  /** Wavenumber distance between kept samples: `granularity * deltaWV / (NT - 1)`. */
  function Step(g: nat): real {
    (g * DELTA_WV) as real / (NT - 1) as real
  }

  /**
   * `VV = V11 + (I - 1) * step` with `V11 = V1 + deltaWV * (II - 1)`: the
   * position of kept sample k (= I - 1) of the II-th record read.
   */
  function Position(v1: real, ii: int, k: int, g: nat): real {
    v1 + (DELTA_WV * (ii - 1)) as real + k as real * Step(g)
  }

  /** log10 of a float32 sample, left symbolic; -inf stands for every value <= 0. */
  datatype LogValue = NegInfinity | Log10(arg: real)

  /** `np.log10(v)` for v > 0, otherwise `float('-inf')`; never an error. */
  function LogTransform(v: real): (r: LogValue)
    ensures r == NegInfinity <==> v <= 0.0
    ensures r.Log10? ==> r.arg == v && 0.0 < r.arg
  {
    if v > 0.0 then Log10(v) else NegInfinity
  }

  datatype Sample = Sample(wavenumber: real, logValue: LogValue)

  /**
   * The samples the II-th record (counted from 1) contributes: the k-th
   * kept one, for k from 0, sits at V1 + 10 * (II - 1) + k * step and
   * carries the log of the record's sample k * g.
   */
  function DecimatedRecord(v1: real, ii: int, g: nat, rk: seq<real>): (samples: seq<Sample>)
    requires IsStride(g) && |rk| == NT
    ensures |samples| == SamplesPerRecord(g)
  {
    var n := SamplesPerRecord(g);
    seq(n, k requires 0 <= k < n =>
          Sample(Position(v1, ii, k, g), LogTransform(rk[k * g])))
  }

  /**
   * Processing `n` records from record `s` on: the samples of the first
   * n - 1 records and then those of record s + n - 1, or the error of the
   * first record that fails.
   */
  function ProcessRecords(t: Table, v1: real, s: int, n: int, g: nat): Result<seq<Sample>, ReadError>
    requires IsStride(g)
    decreases n
  {
    if n <= 0 then Ok([])
    else match ProcessRecords(t, v1, s, n - 1, g)
      case Err(e) => Err(e)
      case Ok(prev) =>
        match ReadRecord(t, s + n - 1)
        case Err(e) => Err(e)
        case Ok(rk) => Ok(prev + DecimatedRecord(v1, n, g, rk))
  }

  /** What `process_data` writes: the header `M` (always 1), the point count, and the points. */
  datatype SpectrumFile = SpectrumFile(m: int, totalPoints: int, points: seq<Sample>)

  /** `process_data(V1, V2, level, resolution)` as a value. */
  function ProcessedSpectrum(disk: Disk, v1: real, v2: real, level: int, resolution: string)
    : Result<SpectrumFile, PostError>
  {
    match Granularity(resolution)
    case None => Err(InvalidResolution(resolution))
    case Some(g) =>
      var filename := TableFilename(level);
      if filename !in disk.tables then Err(FileMissing(filename))
      else match ProcessRecords(disk.tables[filename], v1, StartRecord(v1), RecordCount(v1, v2), g)
        case Err(e) => Err(RecordFailed(e))
        case Ok(data) => Ok(SpectrumFile(1, |data|, data))
  }

  /** The checks `main` makes, in order, before it calls `process_data`. */
  function CheckArguments(v1: real, v2: real, level: int): (r: Option<PostError>)
    ensures r.None? <==> 0.0 <= v1 < v2 && 0 < level
  {
    if v1 >= v2 then Some(BoundsNotIncreasing)
    else if v1 < 0.0 || v2 < 0.0 then Some(NegativeBound)
    else if level <= 0 then Some(LevelNotPositive)
    else None
  }

  /**
   * `main` without argument parsing and plotting: a rejected argument
   * stops it before any file is looked at, so only a non-negative,
   * increasing range and a positive level reach `process_data`.
   */
  function Postprocess(disk: Disk, v1: real, v2: real, level: int, resolution: string)
    : (r: Result<SpectrumFile, PostError>)
    ensures CheckArguments(v1, v2, level).Some? ==> r == Err(CheckArguments(v1, v2, level).value)
    ensures r.Ok? ==> 0.0 <= v1 < v2 && 0 < level
  {
    match CheckArguments(v1, v2, level)
    case Some(e) => Err(e)
    case None => ProcessedSpectrum(disk, v1, v2, level, resolution)
  }

  // ---------------------------------------------------------------------
  // The imperative code
  // ---------------------------------------------------------------------

  /** The inner loop over I: appends the kept samples of one record. */
  method AppendDecimated(data: seq<Sample>, v1: real, ii: int, g: nat, rk: seq<real>)
    returns (out: seq<Sample>)
    requires IsStride(g) && |rk| == NT
    ensures out == data + DecimatedRecord(v1, ii, g, rk)
  {
    var step := (g * DELTA_WV) as real / (NT - 1) as real;
    var v11 := v1 + (DELTA_WV * (ii - 1)) as real;
    var upper := Trunc((NT + 1) as real / g as real);
    ghost var row := DecimatedRecord(v1, ii, g, rk);
    out := data;
    var i := 1;
    while i < upper
      invariant 1 <= i <= upper
      invariant out == data + row[..i - 1]
    {
      var vv := v11 + (i - 1) as real * step;
      var rkIndex := (i - 1) * g;
      if rkIndex >= NT {
        break;
      }
      var rkValue := rk[rkIndex];
      var logRk := if rkValue > 0.0 then Log10(rkValue) else NegInfinity;
      assert Sample(vv, logRk) == row[i - 1];
      assert row[..i] == row[..i - 1] + [Sample(vv, logRk)];
      out := out + [Sample(vv, logRk)];
      i := i + 1;
    }
    assert row[..i - 1] == row;
  }

  /** Once a record has failed, processing further records does not change the outcome. */
  lemma {:induction false} ProcessErrorPersists(t: Table, v1: real, s: int, m: int, n: int, g: nat)
    requires IsStride(g) && m <= n
    requires ProcessRecords(t, v1, s, m, g).Err?
    ensures ProcessRecords(t, v1, s, n, g) == ProcessRecords(t, v1, s, m, g)
    decreases n - m
  {
    if m < n {
      ProcessErrorPersists(t, v1, s, m, n - 1, g);
    }
  }

  /** Processing one more record extends the samples, or ends them with that record's error. */
  lemma ProcessOneMore(t: Table, v1: real, s: int, j: nat, n: int, g: nat, sofar: seq<Sample>)
    requires IsStride(g) && 1 <= j <= n
    requires ProcessRecords(t, v1, s, j - 1, g) == Ok(sofar)
    ensures ReadRecord(t, s + j - 1).Ok? ==>
              ProcessRecords(t, v1, s, j, g) == Ok(sofar + DecimatedRecord(v1, j, g, ReadRecord(t, s + j - 1).value))
    ensures ReadRecord(t, s + j - 1).Err? ==>
              ProcessRecords(t, v1, s, n, g) == Err(ReadRecord(t, s + j - 1).error)
  {
    if ReadRecord(t, s + j - 1).Err? {
      ProcessErrorPersists(t, v1, s, j, n, g);
    }
  }

  /** `process_data`: the resolution check, the file check, then one pass per record. */
  method ProcessData(disk: Disk, v1: real, v2: real, level: int, resolution: string)
    returns (res: Result<SpectrumFile, PostError>)
    ensures res == ProcessedSpectrum(disk, v1, v2, level, resolution)
  {
    var dirName := PaddedName(level);
    var granularity: nat;
    if resolution == "high" {
      granularity := 1;
    } else if resolution == "medium" {
      granularity := 10;
    } else if resolution == "coarse" {
      granularity := 100;
    } else {
      assert Granularity(resolution).None?;
      return Err(InvalidResolution(resolution));
    }
    var nz1 := Trunc(v1 / 10.0);
    var nz2 := Trunc((v2 - 1.0) / 10.0);
    var count := nz2 - nz1 + 1;
    var filename := OUTPUT_DIR + dirName + MET;
    assert Granularity(resolution) == Some(granularity) && filename == TableFilename(level);
    assert nz1 == StartRecord(v1) && count == RecordCount(v1, v2);
    if filename !in disk.tables {
      return Err(FileMissing(filename));
    }
    var f := disk.tables[filename];
    var records := DecimateRecords(f, v1, nz1, count, granularity);
    if records.Err? {
      return Err(RecordFailed(records.error));
    }
    return Ok(SpectrumFile(1, |records.value|, records.value));
  }

  /**
   * The record loop of `process_data` (`for II in range(1, count + 1)`):
   * per record the offset is checked against the file size, the record is
   * read and checked for length, and its decimated points are appended.
   */
  method DecimateRecords(f: Table, v1: real, nz1: int, count: int, granularity: nat)
    returns (res: Result<seq<Sample>, ReadError>)
    requires IsStride(granularity)
    ensures res == ProcessRecords(f, v1, nz1, count, granularity)
  {
    var recordLength := NT * 4;
    var data: seq<Sample> := [];
    var recordNumber := nz1;
    var ii := 1;
    while ii <= count
      invariant 1 <= ii <= if count >= 0 then count + 1 else 1
      invariant recordNumber == nz1 + ii - 1
      invariant ProcessRecords(f, v1, nz1, ii - 1, granularity) == Ok(data)
    {
      ProcessOneMore(f, v1, nz1, ii, count, granularity, data);
      var seekPosition := (recordNumber - 1) * recordLength;
      if seekPosition >= SizeBytes(f) {
        return Err(RecordPastEnd(recordNumber));
      }
      var recordBytes := SeekRead(f, recordNumber);
      if recordBytes.Err? {
        return Err(recordBytes.error);
      }
      if 4 * |recordBytes.value| < recordLength {
        return Err(ShortRecord(recordNumber));
      }
      data := AppendDecimated(data, v1, ii, granularity, recordBytes.value);
      recordNumber := nz1 + ii;
      ii := ii + 1;
    }
    assert count <= 0 ==> ProcessRecords(f, v1, nz1, count, granularity) == Ok([]);
    return Ok(data);
  }

  /** `main`'s checks, then `process_data`. */
  method PostprocessMain(disk: Disk, v1: real, v2: real, level: int, resolution: string)
    returns (res: Result<SpectrumFile, PostError>)
    ensures res == Postprocess(disk, v1, v2, level, resolution)
  {
    if v1 >= v2 {
      return Err(BoundsNotIncreasing);
    }
    if v1 < 0.0 || v2 < 0.0 {
      return Err(NegativeBound);
    }
    if level <= 0 {
      return Err(LevelNotPositive);
    }
    res := ProcessData(disk, v1, v2, level, resolution);
  }

  // ---------------------------------------------------------------------
  // Properties
  // ---------------------------------------------------------------------

  /** Every kept sample k reads record index k * g, inside the record. */
  lemma KeptIndexInRecord(g: nat, k: int)
    requires IsStride(g) && 0 <= k < SamplesPerRecord(g)
    ensures 0 <= k * g < NT
  {
    if g == 1 {
    } else if g == 10 {
      assert k <= 2046;
    } else {
      assert k <= 202;
    }
  }

  /** The guard `RK_index >= NT` never holds for any I the loop visits. */
  lemma BreakNeverFires(g: nat, i: int)
    requires IsStride(g) && 1 <= i < Trunc((NT + 1) as real / g as real)
    ensures 0 <= (i - 1) * g < NT
  {
    KeptIndexInRecord(g, i - 1);
  }

  /** A kept sample's offset k * step is the full-resolution grid position of sample k * g. */
  lemma StepIsStrideOfGrid(g: nat, k: int)
    requires IsStride(g)
    ensures k as real * Step(g) == (k * g) as real * STEP
  {
  }

  /** Where flat index `j` of the output falls: record `j / c`, kept sample `j % c`. */
  lemma DivOfRange(j: int, q: int, g: nat)
    requires IsStride(g) && q * SamplesPerRecord(g) <= j < q * SamplesPerRecord(g) + SamplesPerRecord(g)
    ensures j / SamplesPerRecord(g) == q && j % SamplesPerRecord(g) == j - q * SamplesPerRecord(g)
  {
    if g == 1 {
      assert SamplesPerRecord(g) == 20481;
    } else if g == 10 {
      assert SamplesPerRecord(g) == 2047;
    } else {
      assert SamplesPerRecord(g) == 203;
    }
  }

  /**
   * Output point j of a run from record s at stride g: it belongs to the
   * (j / c + 1)-th record read, which is record s + j / c; it sits at
   * V1 + 10 * (j / c) + (j % c) * step and carries the log of that record's
   * sample (j % c) * g.
   */
  predicate IsPointOf(t: Table, v1: real, s: int, g: nat, j: int, p: Sample)
    requires IsStride(g)
  {
    var c := SamplesPerRecord(g);
    var flat := (s - 1 + j / c) * NT + (j % c) * g;
    p.wavenumber == Position(v1, j / c + 1, j % c, g)
    && 0 <= flat < |t.samples| && p.logValue == LogTransform(t.samples[flat])
  }

  /** A successful run over n records keeps SamplesPerRecord(g) samples of each, as IsPointOf says. */
  lemma ProcessShape(t: Table, v1: real, s: int, n: int, g: nat)
    requires IsStride(g) && ProcessRecords(t, v1, s, n, g).Ok?
    ensures var data := ProcessRecords(t, v1, s, n, g).value;
      |data| == (if n <= 0 then 0 else n) * SamplesPerRecord(g)
      && forall j :: 0 <= j < |data| ==> IsPointOf(t, v1, s, g, j, data[j])
  {
    ProcessLength(t, v1, s, n, g);
    forall j | 0 <= j < |ProcessRecords(t, v1, s, n, g).value| {
      ProcessPoint(t, v1, s, n, g, j);
    }
  }

  /** One output point: the record it came from, its position and its value. */
  lemma {:induction false} ProcessPoint(t: Table, v1: real, s: int, n: int, g: nat, j: int)
    requires IsStride(g) && ProcessRecords(t, v1, s, n, g).Ok?
    requires 0 <= j < |ProcessRecords(t, v1, s, n, g).value|
    ensures IsPointOf(t, v1, s, g, j, ProcessRecords(t, v1, s, n, g).value[j])
    decreases n
  {
    if n <= 0 {
      assert false;
    }
    ProcessRecordsSplit(t, v1, s, n, g);
    ProcessLength(t, v1, s, n, g);
    var prev := ProcessRecords(t, v1, s, n - 1, g).value;
    var row := DecimatedRecord(v1, n, g, ReadRecord(t, s + n - 1).value);
    if j < |prev| {
      assert ProcessRecords(t, v1, s, n, g).value[j] == prev[j] by {
        assert (prev + row)[j] == prev[j];
      }
      ProcessPoint(t, v1, s, n - 1, g, j);
    } else {
      OneMoreRecord(n, SamplesPerRecord(g));
      ProcessLastRecord(t, v1, s, n, g, j);
    }
  }

  /** The samples the last record read contributes, at their flat output indices. */
  lemma ProcessLastRecord(t: Table, v1: real, s: int, n: int, g: nat, j: int)
    requires IsStride(g) && n > 0 && ProcessRecords(t, v1, s, n, g).Ok?
    requires (n - 1) * SamplesPerRecord(g) <= j < (n - 1) * SamplesPerRecord(g) + SamplesPerRecord(g)
    ensures var data := ProcessRecords(t, v1, s, n, g).value;
      0 <= j < |data| && IsPointOf(t, v1, s, g, j, data[j])
  {
    var c := SamplesPerRecord(g);
    var k := j - (n - 1) * c;
    var data := ProcessRecords(t, v1, s, n, g).value;
    LastRecordRow(t, v1, s, n, g, j, k);
    var i := k * g;
    assert j < |data| && 0 <= i < NT;
    RecordSample(t, s + n - 1, i);
    PointOfRecord(t, v1, s, g, n, k, j, data[j]);
  }

  /** Kept sample k of the n-th record read is output point (n - 1) * c + k. */
  lemma PointOfRecord(t: Table, v1: real, s: int, g: nat, n: int, k: int, j: int, p: Sample)
    requires IsStride(g) && 0 <= k < SamplesPerRecord(g) && j == (n - 1) * SamplesPerRecord(g) + k
    requires 0 <= ((s + n - 1) - 1) * NT + k * g < |t.samples|
    requires p == Sample(Position(v1, n, k, g), LogTransform(t.samples[((s + n - 1) - 1) * NT + k * g]))
    ensures IsPointOf(t, v1, s, g, j, p)
  {
    var c := SamplesPerRecord(g);
    DivOfRange(j, n - 1, g);
    FlatIndex(s, n, j / c, j % c, k, g);
  }

  /** The points from index (n - 1) * c on are the decimated last record. */
  lemma LastRecordRow(t: Table, v1: real, s: int, n: int, g: nat, j: int, k: int)
    requires IsStride(g) && n > 0 && ProcessRecords(t, v1, s, n, g).Ok?
    requires 0 <= k < SamplesPerRecord(g) && j == (n - 1) * SamplesPerRecord(g) + k
    ensures ReadRecord(t, s + n - 1).Ok?
    ensures var data := ProcessRecords(t, v1, s, n, g).value;
      j < |data| && 0 <= k * g < NT
      && data[j] == Sample(Position(v1, n, k, g), LogTransform(ReadRecord(t, s + n - 1).value[k * g]))
  {
    ProcessRecordsSplit(t, v1, s, n, g);
    var prev := ProcessRecords(t, v1, s, n - 1, g).value;
    var rk := ReadRecord(t, s + n - 1).value;
    var row := DecimatedRecord(v1, n, g, rk);
    var data := ProcessRecords(t, v1, s, n, g).value;
    assert data[j] == row[k] by {
      assert j == |prev| + k && data == prev + row;
      assert (prev + row)[|prev| + k] == row[k];
    }
    KeptIndexInRecord(g, k);
  }

  /** A successful run over n > 0 records is the run over n - 1 records, then the last record decimated. */
  lemma ProcessRecordsSplit(t: Table, v1: real, s: int, n: int, g: nat)
    requires IsStride(g) && n > 0 && ProcessRecords(t, v1, s, n, g).Ok?
    ensures ProcessRecords(t, v1, s, n - 1, g).Ok? && ReadRecord(t, s + n - 1).Ok?
    ensures |ReadRecord(t, s + n - 1).value| == NT
    ensures |ProcessRecords(t, v1, s, n - 1, g).value| == (n - 1) * SamplesPerRecord(g)
    ensures ProcessRecords(t, v1, s, n, g).value
            == ProcessRecords(t, v1, s, n - 1, g).value
               + DecimatedRecord(v1, n, g, ReadRecord(t, s + n - 1).value)
  {
    ProcessLength(t, v1, s, n - 1, g);
    RecordsBefore(n, SamplesPerRecord(g));
  }

  /** The records before the n-th, n > 0, hold (n - 1) c samples. */
  lemma RecordsBefore(n: int, c: int)
    requires n > 0
    ensures (if n - 1 <= 0 then 0 else n - 1) * c == (n - 1) * c
  {
  }

  /** Kept sample k of record s + n - 1 sits at flat table index (s + n - 2) NT + k g. */
  lemma FlatIndex(s: int, n: int, q: int, r: int, k: int, g: int)
    requires q == n - 1 && r == k
    ensures (s - 1 + q) * NT + r * g == ((s + n - 1) - 1) * NT + k * g
  {
  }

  /** Sample i of a record read whole is the table's sample at its flat index. */
  lemma RecordSample(t: Table, r: int, i: int)
    requires ReadRecord(t, r).Ok? && 0 <= i < NT
    ensures 0 <= (r - 1) * NT + i < |t.samples|
    ensures ReadRecord(t, r).value[i] == t.samples[(r - 1) * NT + i]
  {
  }

  /** A successful run over n records keeps SamplesPerRecord(g) samples of each. */
  lemma {:induction false} ProcessLength(t: Table, v1: real, s: int, n: int, g: nat)
    requires IsStride(g) && ProcessRecords(t, v1, s, n, g).Ok?
    ensures |ProcessRecords(t, v1, s, n, g).value| == (if n <= 0 then 0 else n) * SamplesPerRecord(g)
    decreases n
  {
    if n > 0 {
      ProcessLength(t, v1, s, n - 1, g);
      var prev := ProcessRecords(t, v1, s, n - 1, g).value;
      var rk := ReadRecord(t, s + n - 1).value;
      assert ProcessRecords(t, v1, s, n, g).value == prev + DecimatedRecord(v1, n, g, rk);
      OneMoreRecord(n, SamplesPerRecord(g));
    }
  }

  /** n - 1 records of c samples and one more make n records of c samples. */
  lemma OneMoreRecord(n: int, c: int)
    requires n > 0
    ensures (if n - 1 <= 0 then 0 else n - 1) * c + c == n * c
  {
  }

  /**
   * `process_data` and `base_parser` fail on the same requests, with the
   * same error: both read the same records in the same order and stop at
   * the first that cannot be read.
   */
  lemma {:induction false} ProcessFailsLikeExtract(t: Table, v1: real, s: int, n: int, g: nat)
    requires IsStride(g)
    ensures ProcessRecords(t, v1, s, n, g).Ok? <==> ExtractRecords(t, s, n).Ok?
    ensures ProcessRecords(t, v1, s, n, g).Err? ==>
              ExtractRecords(t, s, n) == Err(ProcessRecords(t, v1, s, n, g).error)
    decreases n
  {
    if n > 0 {
      ProcessFailsLikeExtract(t, v1, s, n - 1, g);
    }
  }

  /**
   * At high resolution `process_data` keeps every sample base_parser
   * returns, but bases record II at V1 + 10 * (II - 1) rather than at
   * 10 * r: every position is shifted by V1 - 10 * int(V1 / 10).
   */
  lemma HighResolutionShiftsBase(t: Table, v1: real, s: int, n: int)
    requires ProcessRecords(t, v1, s, n, 1).Ok?
    ensures ExtractRecords(t, s, n).Ok?
    ensures var data, series := ProcessRecords(t, v1, s, n, 1).value, ExtractRecords(t, s, n).value;
      |data| == |series.wavenumbers| == |series.absorption|
      && forall j :: 0 <= j < |data| ==>
           data[j].wavenumber == series.wavenumbers[j] + (v1 - (DELTA_WV * s) as real)
           && data[j].logValue == LogTransform(series.absorption[j])
  {
    ProcessFailsLikeExtract(t, v1, s, n, 1);
    ProcessLength(t, v1, s, n, 1);
    ExtractShape(t, s, n);
    forall j | 0 <= j < |ProcessRecords(t, v1, s, n, 1).value| {
      HighResolutionPoint(t, v1, s, n, j);
    }
  }

  lemma HighResolutionPoint(t: Table, v1: real, s: int, n: int, j: int)
    requires ProcessRecords(t, v1, s, n, 1).Ok? && ExtractRecords(t, s, n).Ok?
    requires 0 <= j < |ProcessRecords(t, v1, s, n, 1).value|
    requires |ProcessRecords(t, v1, s, n, 1).value| == |ExtractRecords(t, s, n).value.wavenumbers|
                                                   == |ExtractRecords(t, s, n).value.absorption|
    ensures var data, series := ProcessRecords(t, v1, s, n, 1).value, ExtractRecords(t, s, n).value;
      data[j].wavenumber == series.wavenumbers[j] + (v1 - (DELTA_WV * s) as real)
      && data[j].logValue == LogTransform(series.absorption[j])
  {
    ProcessPoint(t, v1, s, n, 1, j);
    ExtractPoint(t, s, n, j);
    SamplesPerRecordOfOne();
    ShiftedPosition(v1, s, j / NT, j % NT);
  }

  /** At full resolution a record keeps all NT samples, one grid step apart. */
  lemma SamplesPerRecordOfOne()
    ensures SamplesPerRecord(1) == NT == POINTS_PER_RECORD && Step(1) == STEP
  {
  }

  /** Output position q + 1, sample r, is grid point (s + q, r) moved by V1 - 10 s. */
  lemma ShiftedPosition(v1: real, s: int, q: int, r: int)
    ensures Position(v1, q + 1, r, 1) == Wavenumber(s + q, r) + (v1 - (DELTA_WV * s) as real)
  {
    SamplesPerRecordOfOne();
  }

  /**
   * `process_data`'s outcome: a bad resolution is reported before the file
   * check; on success the header's point count is the number of points,
   * SamplesPerRecord(g) per record read, and a non-empty result needs
   * V1 >= 10 (record int(V1 / 10) must be at least 1) and starts exactly at V1.
   */
  lemma ProcessedSpectrumOutcome(disk: Disk, v1: real, v2: real, level: int, resolution: string)
    ensures ProcessedSpectrum(disk, v1, v2, level, resolution) == Err(InvalidResolution(resolution)) <==>
              Granularity(resolution).None?
    ensures Granularity(resolution).Some? && TableFilename(level) !in disk.tables ==>
              ProcessedSpectrum(disk, v1, v2, level, resolution) == Err(FileMissing(TableFilename(level)))
    ensures ProcessedSpectrum(disk, v1, v2, level, resolution).Ok? ==>
      var out, n := ProcessedSpectrum(disk, v1, v2, level, resolution).value, RecordCount(v1, v2);
      out.m == 1
      && out.totalPoints == |out.points| == (if n <= 0 then 0 else n) * SamplesPerRecord(Granularity(resolution).value)
      && (n > 0 ==> 10.0 <= v1 && out.points[0].wavenumber == v1)
  {
    if ProcessedSpectrum(disk, v1, v2, level, resolution).Ok? {
      var g := Granularity(resolution).value;
      var t, s, n := disk.tables[TableFilename(level)], StartRecord(v1), RecordCount(v1, v2);
      ProcessShape(t, v1, s, n, g);
      if n > 0 {
        ProcessFailsLikeExtract(t, v1, s, n, g);
        ExtractSucceedsIff(t, s, n);
        assert 0 / SamplesPerRecord(g) == 0 && 0 % SamplesPerRecord(g) == 0;
      }
    }
  }

  /**
   * `main` accepts a range that reads no record at all: [10, 10.5] has
   * int(10 / 10) = 1 and int(9.5 / 10) = 0, so the output is empty.
   */
  lemma EmptyRangeAccepted(disk: Disk, resolution: string)
    requires Granularity(resolution).Some? && TableFilename(1) in disk.tables
    ensures Postprocess(disk, 10.0, 10.5, 1, resolution) == Ok(SpectrumFile(1, 0, []))
  {
    assert RecordCount(10.0, 10.5) == 0;
  }
}
