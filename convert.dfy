/**
 * `convert_pttable`: turns a level's binary table into a human-readable
 * text file in the processed-data directory. The output file starts as a
 * copy of the run's info file; one formatted line per sample of the
 * declared range [v1, v2] is then appended.
 */
module Convert {
  import opened Wrappers
  import opened Builtins
  import opened Constants
  import opened PtTable
  import opened Extraction
  import opened InfoFile

  /** The info lines `convert_pttable` reads; the molecule is kept unstripped. */
  const CONVERT_FIELDS: seq<Field> := [
    Field(START_WAVENUMBER, AsFloat),
    Field(END_WAVENUMBER, AsFloat),
    Field(INPUT_MOLECULE, AsRaw)
  ]

  datatype ConvertError =
    | InfoNotFound                     // opening the info file raises
    | ScanFailed(scanError: ScanError) // a matching info line cannot be read
    | BoundsMissing                    // v1 or v2 still None: ValueError
    | MoleculeUnbound                  // no "Input Molecule" line: UnboundLocalError
    | Parse(parseError: ParseError)    // base_parser failed, after the info file was copied

  /** `f"{molecule.strip()}_{int(v1)}-{int(v2)}_{level}level.dat"`. */
  function OutputFilename(molecule: string, v1: real, v2: real, level: int): (name: string)
    ensures var m, tail := Strip(molecule), IntToString(level) + "level.dat";
      |name| == |m| + 1 + |IntToString(Trunc(v1))| + 1 + |IntToString(Trunc(v2))| + 1 + |tail|
      && name[..|m| + 1] == m + "_"
      && name[|m| + 1..|name| - |tail|] == IntToString(Trunc(v1)) + "-" + IntToString(Trunc(v2)) + "_"
      && name[|name| - |tail|..] == tail
  {
    var head, tail := Strip(molecule) + "_", IntToString(level) + "level.dat";
    var left, right := IntToString(Trunc(v1)), IntToString(Trunc(v2));
    var mid := left + "-" + right + "_";
    var name := head + mid + tail;
    assert |mid| == |left| + 1 + |right| + 1;
    assert name[..|head|] == head;
    assert name[|head|..|name| - |tail|] == mid;
    assert name[|name| - |tail|..] == tail;
    name
  }

  /** What the info file decides before anything is written: the range to read and the output name. */
  datatype Plan = Plan(v1: real, v2: real, outputName: string)

  /** Everything `convert_pttable` does before `shutil.copyfile`. */
  function ConvertPlan(p: NumberParsers, disk: Disk, directory: string, level: int): Result<Plan, ConvertError> {
    var info := JoinPath(directory, INFO_FILENAME);
    if info !in disk.texts then Err(InfoNotFound)
    else match Scan(p, CONVERT_FIELDS, disk.texts[info])
      case Err(e) => Err(ScanFailed(e))
      case Ok(vals) =>
        var v1, v2 := RealField(vals, START_WAVENUMBER), RealField(vals, END_WAVENUMBER);
        if v1.None? || v2.None? then Err(BoundsMissing)
        else match TextField(vals, INPUT_MOLECULE)
          case None => Err(MoleculeUnbound)
          case Some(molecule) => Ok(Plan(v1.value, v2.value, OutputFilename(molecule, v1.value, v2.value, level)))
  }

  function OutputPath(plan: Plan): string {
    JoinPath(HUMAN_READABLE_DIRECTORY, plan.outputName)
  }

  /** One formatted line per (wavenumber, absorption) pair, as `zip` pairs them. */
  function Rows(series: Series, formatRow: (real, real) -> string): seq<string> {
    var n := if |series.wavenumbers| <= |series.absorption| then |series.wavenumbers| else |series.absorption|;
    seq(n, k requires 0 <= k < n => formatRow(series.wavenumbers[k], series.absorption[k]))
  }

  /** What `convert_pttable` reports: the output path, or why it stopped. */
  function ConvertOutcome(p: NumberParsers, disk: Disk, directory: string, level: int): Result<string, ConvertError> {
    match ConvertPlan(p, disk, directory, level)
    case Err(e) => Err(e)
    case Ok(plan) =>
      match BaseParse(disk, GetPtName(directory, level), plan.v1, plan.v2)
      case Err(e) => Err(Parse(e))
      case Ok(_) => Ok(OutputPath(plan))
  }

  /** The output file's lines: the copied info lines, then the rows when the table read succeeded. */
  function OutputLines(p: NumberParsers, disk: Disk, directory: string, level: int, formatRow: (real, real) -> string)
    : seq<string>
    requires ConvertPlan(p, disk, directory, level).Ok?
  {
    var plan := ConvertPlan(p, disk, directory, level).value;
    var info := disk.texts[JoinPath(directory, INFO_FILENAME)];
    match BaseParse(disk, GetPtName(directory, level), plan.v1, plan.v2)
    case Err(_) => info
    case Ok(series) => info + Rows(series, formatRow)
  }

  /** The scan of the info file and the checks `convert_pttable` makes before it writes anything. */
  method PlanConversion(p: NumberParsers, disk: Disk, directory: string, level: int)
    returns (res: Result<Plan, ConvertError>)
    ensures res == ConvertPlan(p, disk, directory, level)
  {
    var infoFile := JoinPath(directory, INFO_FILENAME);
    if infoFile !in disk.texts {
      return Err(InfoNotFound);
    }
    var scanned := ScanInfo(p, CONVERT_FIELDS, disk.texts[infoFile]);
    if scanned.Err? {
      return Err(ScanFailed(scanned.error));
    }
    var v1 := RealField(scanned.value, START_WAVENUMBER);
    var v2 := RealField(scanned.value, END_WAVENUMBER);
    if v1.None? || v2.None? {
      return Err(BoundsMissing);
    }
    var molecule := TextField(scanned.value, INPUT_MOLECULE);
    if molecule.None? {
      return Err(MoleculeUnbound);
    }
    var outputFilename := OutputFilename(molecule.value, v1.value, v2.value, level);
    return Ok(Plan(v1.value, v2.value, outputFilename));
  }

  /** The processed-data directory that `convert_pttable` writes into, as file name to lines. */
  class OutputDirectory {
    var files: map<string, seq<string>>

    constructor ()
      ensures files == map[]
    {
      files := map[];
    }

    /** The write loop: one formatted line per (wavenumber, absorption) pair, appended in order. */
    method AppendRows(outputFile: string, info: seq<string>, series: Series, formatRow: (real, real) -> string)
      requires outputFile in files && files[outputFile] == info
      modifies this
      ensures files == old(files)[outputFile := info + Rows(series, formatRow)]
    {
      var vwData, absorptionData := series.wavenumbers, series.absorption;
      var rows := Rows(series, formatRow);
      var k := 0;
      assert info + rows[..0] == info;
      while k < |vwData| && k < |absorptionData|
        invariant 0 <= k <= |rows|
        invariant files == old(files)[outputFile := info + rows[..k]]
      {
        var row := formatRow(vwData[k], absorptionData[k]);
        assert info + rows[..k + 1] == (info + rows[..k]) + [row];
        files := files[outputFile := files[outputFile] + [row]];
        k := k + 1;
      }
      assert rows[..k] == rows;
    }

    /**
     * `convert_pttable(directory, level)`: nothing is written unless the
     * info file yields both bounds and a molecule; then the info file is
     * copied to the output path and, if the table read succeeds, the rows
     * are appended one by one. No other file changes.
     */
    method ConvertPttable(p: NumberParsers, disk: Disk, directory: string, level: int,
                          formatRow: (real, real) -> string)
      returns (res: Result<string, ConvertError>)
      modifies this
      ensures res == ConvertOutcome(p, disk, directory, level)
      ensures ConvertPlan(p, disk, directory, level).Err? ==> files == old(files)
      ensures ConvertPlan(p, disk, directory, level).Ok? ==>
        files == old(files)[OutputPath(ConvertPlan(p, disk, directory, level).value)
                            := OutputLines(p, disk, directory, level, formatRow)]
    {
      var pttableFile := GetPtName(directory, level);
      var infoFile := JoinPath(directory, INFO_FILENAME);
      var planned := PlanConversion(p, disk, directory, level);
      if planned.Err? {
        return Err(planned.error);
      }
      ghost var plan := ConvertPlan(p, disk, directory, level).value;
      assert planned.value == plan;
      var outputFile := OutputPath(planned.value);
      assert infoFile in disk.texts;
      var info := disk.texts[infoFile];
      files := files[outputFile := info];

      var parsed := BaseParser(disk, pttableFile, planned.value.v1, planned.value.v2);
      if parsed.Err? {
        assert OutputLines(p, disk, directory, level, formatRow) == info;
        return Err(Parse(parsed.error));
      }
      assert OutputLines(p, disk, directory, level, formatRow) == info + Rows(parsed.value, formatRow);
      AppendRows(outputFile, info, parsed.value, formatRow);
      return Ok(outputFile);
    }
  }

  // ---------------------------------------------------------------------
  // Properties
  // ---------------------------------------------------------------------

  lemma ConvertFieldsDistinct()
    ensures DistinctPrefixes(CONVERT_FIELDS)
  {
    forall a, b | 0 <= a < b < |CONVERT_FIELDS|
      ensures CONVERT_FIELDS[a].prefix != CONVERT_FIELDS[b].prefix
    {
      var pa, pb := CONVERT_FIELDS[a].prefix, CONVERT_FIELDS[b].prefix;
      assert pa[0] != pb[0];
    }
  }

  /**
   * The missing-bound error: after a clean scan, the conversion stops with
   * BoundsMissing (and so writes nothing) exactly when no line starts with
   * "Start Wavenumber" or none starts with "End Wavenumber".
   */
  lemma BoundsMissingIff(p: NumberParsers, disk: Disk, directory: string, level: int)
    requires JoinPath(directory, INFO_FILENAME) in disk.texts
    requires Scan(p, CONVERT_FIELDS, disk.texts[JoinPath(directory, INFO_FILENAME)]).Ok?
    ensures var lines := disk.texts[JoinPath(directory, INFO_FILENAME)];
      ConvertPlan(p, disk, directory, level) == Err(BoundsMissing)
      <==> LastMatch(lines, START_WAVENUMBER).None? || LastMatch(lines, END_WAVENUMBER).None?
  {
    var lines := disk.texts[JoinPath(directory, INFO_FILENAME)];
    ConvertFieldsDistinct();
    ScanValuesFit(p, CONVERT_FIELDS, lines, CONVERT_FIELDS[0]);
    ScanValuesFit(p, CONVERT_FIELDS, lines, CONVERT_FIELDS[1]);
    LastMatchWins(p, CONVERT_FIELDS, lines, CONVERT_FIELDS[0]);
    LastMatchWins(p, CONVERT_FIELDS, lines, CONVERT_FIELDS[1]);
  }

  /**
   * A plan comes from the info file's last matching lines: the bounds are
   * the parses of the last "Start Wavenumber" and "End Wavenumber" lines,
   * and the output name is built from the last "Input Molecule" line's
   * text, stripped, with the truncated bounds and the level.
   */
  lemma PlanFromLastLines(p: NumberParsers, disk: Disk, directory: string, level: int)
    requires ConvertPlan(p, disk, directory, level).Ok?
    ensures var lines := disk.texts[JoinPath(directory, INFO_FILENAME)];
      var plan := ConvertPlan(p, disk, directory, level).value;
      var k1, k2, km := LastMatch(lines, START_WAVENUMBER), LastMatch(lines, END_WAVENUMBER),
                        LastMatch(lines, INPUT_MOLECULE);
      k1.Some? && k2.Some? && km.Some?
      && ':' in lines[k1.value] && ':' in lines[k2.value] && ':' in lines[km.value]
      && p.parseFloat(ColonField(lines[k1.value]).value) == Some(plan.v1)
      && p.parseFloat(ColonField(lines[k2.value]).value) == Some(plan.v2)
      && plan.outputName == OutputFilename(ColonField(lines[km.value]).value, plan.v1, plan.v2, level)
  {
    var lines := disk.texts[JoinPath(directory, INFO_FILENAME)];
    ConvertFieldsDistinct();
    RealFromLastLine(p, CONVERT_FIELDS, lines, CONVERT_FIELDS[0]);
    RealFromLastLine(p, CONVERT_FIELDS, lines, CONVERT_FIELDS[1]);
    LastMatchWins(p, CONVERT_FIELDS, lines, CONVERT_FIELDS[2]);
  }

  /**
   * The whole declared range [v1, v2] is converted: on success the output
   * holds the info lines followed by exactly one row per sample that
   * base_parser extracts for that range, in order.
   */
  lemma OutputHoldsDeclaredRange(p: NumberParsers, disk: Disk, directory: string, level: int,
                                 formatRow: (real, real) -> string)
    requires ConvertOutcome(p, disk, directory, level).Ok?
    ensures var plan := ConvertPlan(p, disk, directory, level).value;
      var info := disk.texts[JoinPath(directory, INFO_FILENAME)];
      var out := OutputLines(p, disk, directory, level, formatRow);
      var series := BaseParse(disk, GetPtName(directory, level), plan.v1, plan.v2).value;
      |out| == |info| + |series.wavenumbers|
      && out[..|info|] == info
      && forall k :: 0 <= k < |series.wavenumbers| ==>
           out[|info| + k] == formatRow(series.wavenumbers[k], series.absorption[k])
  {
    var plan := ConvertPlan(p, disk, directory, level).value;
    BaseParseOutcome(disk, GetPtName(directory, level), plan.v1, plan.v2);
  }

  /**
   * A failed table read after a good plan leaves the output file holding
   * just the copied info lines.
   */
  lemma FailedReadLeavesInfoCopy(p: NumberParsers, disk: Disk, directory: string, level: int,
                                 formatRow: (real, real) -> string)
    requires ConvertPlan(p, disk, directory, level).Ok?
    requires ConvertOutcome(p, disk, directory, level).Err?
    ensures ConvertOutcome(p, disk, directory, level).error.Parse?
    ensures OutputLines(p, disk, directory, level, formatRow) == disk.texts[JoinPath(directory, INFO_FILENAME)]
  {
  }

  /** Different levels of the same run get different output files. */
  lemma OutputFilenameInjective(molecule: string, v1: real, v2: real, a: int, b: int)
    requires OutputFilename(molecule, v1, v2, a) == OutputFilename(molecule, v1, v2, b)
    ensures a == b
  {
    var na, nb := OutputFilename(molecule, v1, v2, a), OutputFilename(molecule, v1, v2, b);
    var ta, tb := IntToString(a) + "level.dat", IntToString(b) + "level.dat";
    assert |ta| == |tb|;
    assert ta == na[|na| - |ta|..] == nb[|nb| - |tb|..] == tb;
    assert IntToString(a) == ta[..|ta| - 9] && IntToString(b) == tb[..|tb| - 9];
    IntToStringInjective(a, b);
  }
}
