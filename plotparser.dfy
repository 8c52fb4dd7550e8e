/**
 * `plot_parser`: reads the run's info file, checks that the requested
 * plot window lies inside the computed range, extracts the window from
 * the level's table and names the plot.
 */
module PlotParser {
  import opened Wrappers
  import opened Builtins
  import opened Constants
  import opened PtTable
  import opened Extraction
  import opened InfoFile

  /** The info lines `plot_parser` reads, in the order it tests them. */
  const PLOT_FIELDS: seq<Field> := [
    Field(START_WAVENUMBER, AsFloat),
    Field(END_WAVENUMBER, AsFloat),
    Field(INPUT_MOLECULE, AsStripped),
    Field(CUT_OFF, AsInt),
    Field(TARGET_VALUE, AsStripped),
    Field(ATMOSPHERIC_PROFILE_FILE, AsStripped)
  ]

  /** The tuple (molecule, cutoff, y_title, atm_filename, level, plot_filename). */
  datatype PlotParameters = PlotParameters(
    molecule: string, cutoff: int, yTitle: string, atmFilename: string, level: int, plotFilename: string)

  datatype PlotData = PlotData(x: seq<real>, y: seq<real>, parameters: PlotParameters)

  datatype PlotError =
    | InfoNotFound             // opening the info file raises
    | ScanFailed(scanError: ScanError) // a matching info line cannot be read
    | Unbound(name: string)    // a field no info line set is used (UnboundLocalError)
    | OutOfRange               // not v1 <= vl < vr <= v2: ValueError
    | Parse(parseError: ParseError) // base_parser failed

  /** `f"{molecule}_{int(vl)}-{int(vr)}_{y_title}.svg"`. */
  function PlotFilename(molecule: string, vl: real, vr: real, yTitle: string): (name: string)
    ensures var left, right := IntToString(Trunc(vl)), IntToString(Trunc(vr));
      var mid := |molecule| + 1 + |left|;
      |name| == mid + 1 + |right| + 1 + |yTitle| + 4
      && name[..|molecule| + 1] == molecule + "_"
      && name[|molecule| + 1..mid] == left
      && name[mid] == '-'
      && name[mid + 1..mid + 1 + |right|] == right
      && name[|name| - |yTitle| - 5..] == "_" + yTitle + ".svg"
  {
    molecule + "_" + IntToString(Trunc(vl)) + "-" + IntToString(Trunc(vr)) + "_" + yTitle + ".svg"
  }

  /**
   * What `plot_parser` does once the info lines are scanned: the chained
   * comparison `v1 <= vl < vr <= v2` (which reads v2 only when the first
   * two comparisons hold), the table read, then the plot filename and the
   * parameter tuple, each reading the fields it needs in source order.
   */
  function PlotFromValues(disk: Disk, directory: string, level: int, vl: real, vr: real,
                          vals: map<string, Value>): Result<PlotData, PlotError>
  {
    var v1 := RealField(vals, START_WAVENUMBER);
    if v1.None? then Err(Unbound(START_WAVENUMBER))
    else if !(v1.value <= vl) || !(vl < vr) then Err(OutOfRange)
    else
      var v2 := RealField(vals, END_WAVENUMBER);
      if v2.None? then Err(Unbound(END_WAVENUMBER))
      else if !(vr <= v2.value) then Err(OutOfRange)
      else match BaseParse(disk, GetPtName(directory, level), vl, vr)
        case Err(e) => Err(Parse(e))
        case Ok(series) =>
          var molecule, yTitle := TextField(vals, INPUT_MOLECULE), TextField(vals, TARGET_VALUE);
          var cutoff, atm := IntField(vals, CUT_OFF), TextField(vals, ATMOSPHERIC_PROFILE_FILE);
          if molecule.None? then Err(Unbound(INPUT_MOLECULE))
          else if yTitle.None? then Err(Unbound(TARGET_VALUE))
          else if cutoff.None? then Err(Unbound(CUT_OFF))
          else if atm.None? then Err(Unbound(ATMOSPHERIC_PROFILE_FILE))
          else
            var name := PlotFilename(molecule.value, vl, vr, yTitle.value);
            Ok(PlotData(series.wavenumbers, series.absorption,
                        PlotParameters(molecule.value, cutoff.value, yTitle.value, atm.value, level, name)))
  }

  /** `plot_parser(directory, level, vl, vr)`, as a specification. */
  function PlotParse(p: NumberParsers, disk: Disk, directory: string, level: int, vl: real, vr: real)
    : Result<PlotData, PlotError>
  {
    var info := JoinPath(directory, INFO_FILENAME);
    if info !in disk.texts then Err(InfoNotFound)
    else match Scan(p, PLOT_FIELDS, disk.texts[info])
      case Err(e) => Err(ScanFailed(e))
      case Ok(vals) => PlotFromValues(disk, directory, level, vl, vr, vals)
  }

  method PlotParserMethod(p: NumberParsers, disk: Disk, directory: string, level: int, vl: real, vr: real)
    returns (res: Result<PlotData, PlotError>)
    ensures res == PlotParse(p, disk, directory, level, vl, vr)
  {
    var pttableFile := GetPtName(directory, level);
    var infoFile := JoinPath(directory, INFO_FILENAME);
    if infoFile !in disk.texts {
      return Err(InfoNotFound);
    }
    var scanned := ScanInfo(p, PLOT_FIELDS, disk.texts[infoFile]);
    if scanned.Err? {
      return Err(ScanFailed(scanned.error));
    }
    var vals := scanned.value;
    var v1 := RealField(vals, START_WAVENUMBER);
    if v1.None? {
      return Err(Unbound(START_WAVENUMBER));
    }
    if !(v1.value <= vl) || !(vl < vr) {
      return Err(OutOfRange);
    }
    var v2 := RealField(vals, END_WAVENUMBER);
    if v2.None? {
      return Err(Unbound(END_WAVENUMBER));
    }
    if !(vr <= v2.value) {
      return Err(OutOfRange);
    }
    var parsed := BaseParser(disk, pttableFile, vl, vr);
    if parsed.Err? {
      return Err(Parse(parsed.error));
    }
    var molecule := TextField(vals, INPUT_MOLECULE);
    if molecule.None? {
      return Err(Unbound(INPUT_MOLECULE));
    }
    var yTitle := TextField(vals, TARGET_VALUE);
    if yTitle.None? {
      return Err(Unbound(TARGET_VALUE));
    }
    var plotFilename := PlotFilename(molecule.value, vl, vr, yTitle.value);
    var cutoff := IntField(vals, CUT_OFF);
    if cutoff.None? {
      return Err(Unbound(CUT_OFF));
    }
    var atmFilename := TextField(vals, ATMOSPHERIC_PROFILE_FILE);
    if atmFilename.None? {
      return Err(Unbound(ATMOSPHERIC_PROFILE_FILE));
    }
    var parameters := PlotParameters(molecule.value, cutoff.value, yTitle.value, atmFilename.value, level, plotFilename);
    return Ok(PlotData(parsed.value.wavenumbers, parsed.value.absorption, parameters));
  }

  // ---------------------------------------------------------------------
  // Properties
  // ---------------------------------------------------------------------

  lemma PlotFieldsDistinct()
    ensures DistinctPrefixes(PLOT_FIELDS)
  {
    forall a, b | 0 <= a < b < |PLOT_FIELDS|
      ensures PLOT_FIELDS[a].prefix != PLOT_FIELDS[b].prefix
    {
      var pa, pb := PLOT_FIELDS[a].prefix, PLOT_FIELDS[b].prefix;
      assert pa[0] != pb[0] || pa[1] != pb[1] || |pa| != |pb|;
    }
  }

  /** The window [vl, vr] the scan's bounds accept. */
  predicate InRange(vals: map<string, Value>, vl: real, vr: real) {
    RealField(vals, START_WAVENUMBER).Some? && RealField(vals, END_WAVENUMBER).Some?
    && RealField(vals, START_WAVENUMBER).value <= vl < vr <= RealField(vals, END_WAVENUMBER).value
  }

  /**
   * The window is validated before any table is touched: a window outside
   * [v1, v2] (or with vl >= vr) is an error whatever tables exist, and a
   * success only ever comes from an accepted window, whose extraction is
   * exactly what base_parser gives for [vl, vr].
   */
  lemma RangeCheckedBeforeRead(p: NumberParsers, disk: Disk, directory: string, level: int, vl: real, vr: real)
    requires JoinPath(directory, INFO_FILENAME) in disk.texts
    requires Scan(p, PLOT_FIELDS, disk.texts[JoinPath(directory, INFO_FILENAME)]).Ok?
    ensures var vals := Scan(p, PLOT_FIELDS, disk.texts[JoinPath(directory, INFO_FILENAME)]).value;
      var r := PlotParse(p, disk, directory, level, vl, vr);
      (!InRange(vals, vl, vr) ==> r.Err? && r == PlotParse(p, Disk(map[], disk.texts), directory, level, vl, vr))
      && (r.Ok? ==> InRange(vals, vl, vr)
                    && BaseParse(disk, GetPtName(directory, level), vl, vr)
                       == Ok(Series(r.value.x, r.value.y)))
  {
  }

  /** What a successful PlotFromValues read from the scanned fields. */
  lemma PlotFromValuesOk(disk: Disk, directory: string, level: int, vl: real, vr: real, vals: map<string, Value>)
    requires PlotFromValues(disk, directory, level, vl, vr, vals).Ok?
    ensures var d := PlotFromValues(disk, directory, level, vl, vr, vals).value;
      InRange(vals, vl, vr)
      && BaseParse(disk, GetPtName(directory, level), vl, vr) == Ok(Series(d.x, d.y))
      && TextField(vals, INPUT_MOLECULE) == Some(d.parameters.molecule)
      && IntField(vals, CUT_OFF) == Some(d.parameters.cutoff)
      && TextField(vals, TARGET_VALUE) == Some(d.parameters.yTitle)
      && TextField(vals, ATMOSPHERIC_PROFILE_FILE) == Some(d.parameters.atmFilename)
      && d.parameters.level == level
      && d.parameters.plotFilename == PlotFilename(d.parameters.molecule, vl, vr, d.parameters.yTitle)
  {
  }

  /**
   * On success every parameter comes from the last info line with its
   * prefix (the text after its first ':', stripped, and for the cutoff
   * parsed as an int), the level is passed through, and the plot filename
   * is composed from the molecule, the truncated window and the y title.
   */
  lemma ParametersFromLastLines(p: NumberParsers, disk: Disk, directory: string, level: int, vl: real, vr: real)
    requires PlotParse(p, disk, directory, level, vl, vr).Ok?
    ensures var lines := disk.texts[JoinPath(directory, INFO_FILENAME)];
      var params := PlotParse(p, disk, directory, level, vl, vr).value.parameters;
      var km, kc := LastMatch(lines, INPUT_MOLECULE), LastMatch(lines, CUT_OFF);
      var kt, ka := LastMatch(lines, TARGET_VALUE), LastMatch(lines, ATMOSPHERIC_PROFILE_FILE);
      km.Some? && kc.Some? && kt.Some? && ka.Some?
      && ':' in lines[km.value] && ':' in lines[kc.value] && ':' in lines[kt.value] && ':' in lines[ka.value]
      && params.molecule == Strip(ColonField(lines[km.value]).value)
      && p.parseInt(Strip(ColonField(lines[kc.value]).value)) == Some(params.cutoff)
      && params.yTitle == Strip(ColonField(lines[kt.value]).value)
      && params.atmFilename == Strip(ColonField(lines[ka.value]).value)
      && params.level == level
      && params.plotFilename == PlotFilename(params.molecule, vl, vr, params.yTitle)
  {
    var lines := disk.texts[JoinPath(directory, INFO_FILENAME)];
    var vals := Scan(p, PLOT_FIELDS, lines).value;
    PlotFromValuesOk(disk, directory, level, vl, vr, vals);
    PlotFieldsDistinct();
    TextFromLastLine(p, PLOT_FIELDS, lines, PLOT_FIELDS[2]);
    IntFromLastLine(p, PLOT_FIELDS, lines, PLOT_FIELDS[3]);
    TextFromLastLine(p, PLOT_FIELDS, lines, PLOT_FIELDS[4]);
    TextFromLastLine(p, PLOT_FIELDS, lines, PLOT_FIELDS[5]);
  }

  /**
   * On success the window bounds come from the last "Start Wavenumber" and
   * "End Wavenumber" lines and enclose the window, and the series has
   * 20481 points for each record from int(vl/10) to int((vr-1)/10).
   */
  lemma BoundsFromLastLines(p: NumberParsers, disk: Disk, directory: string, level: int, vl: real, vr: real)
    requires PlotParse(p, disk, directory, level, vl, vr).Ok?
    ensures var lines := disk.texts[JoinPath(directory, INFO_FILENAME)];
      var d := PlotParse(p, disk, directory, level, vl, vr).value;
      var k1, k2 := LastMatch(lines, START_WAVENUMBER), LastMatch(lines, END_WAVENUMBER);
      k1.Some? && k2.Some? && ':' in lines[k1.value] && ':' in lines[k2.value]
      && (exists v1, v2 :: p.parseFloat(ColonField(lines[k1.value]).value) == Some(v1)
                          && p.parseFloat(ColonField(lines[k2.value]).value) == Some(v2)
                          && v1 <= vl < vr <= v2)
      && |d.x| == |d.y| == (if RecordCount(vl, vr) <= 0 then 0 else RecordCount(vl, vr)) * POINTS_PER_RECORD
  {
    var lines := disk.texts[JoinPath(directory, INFO_FILENAME)];
    var vals := Scan(p, PLOT_FIELDS, lines).value;
    PlotFromValuesOk(disk, directory, level, vl, vr, vals);
    PlotFieldsDistinct();
    RealFromLastLine(p, PLOT_FIELDS, lines, PLOT_FIELDS[0]);
    RealFromLastLine(p, PLOT_FIELDS, lines, PLOT_FIELDS[1]);
    BaseParseOutcome(disk, GetPtName(directory, level), vl, vr);
    var v1, v2 := RealField(vals, START_WAVENUMBER).value, RealField(vals, END_WAVENUMBER).value;
    assert p.parseFloat(ColonField(lines[LastMatch(lines, START_WAVENUMBER).value]).value) == Some(v1);
    assert p.parseFloat(ColonField(lines[LastMatch(lines, END_WAVENUMBER).value]).value) == Some(v2);
  }
}
