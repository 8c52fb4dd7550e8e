/**
 * The sidecar `info.txt` scan shared by `plot_parser` and
 * `convert_pttable`: every line is tested against each wanted prefix in
 * turn; a line that starts with a prefix (re)assigns that field from the
 * text after its first ':' (up to the next ':'), converted as the field
 * asks. So the last matching line wins, and a bad matching line aborts.
 */
module InfoFile {
  import opened Wrappers
  import opened Builtins

  /** The line prefixes of the info file that the parsers read. */
  const START_WAVENUMBER: string := "Start Wavenumber"
  const END_WAVENUMBER: string := "End Wavenumber"
  const INPUT_MOLECULE: string := "Input Molecule"
  const CUT_OFF: string := "Cut Off"
  const TARGET_VALUE: string := "Target Value"
  const ATMOSPHERIC_PROFILE_FILE: string := "Atmospheric Profile File"

  /** How a field's text becomes its value. */
  datatype Conversion =
    | AsFloat     // float(text)
    | AsInt       // int(text.strip())
    | AsStripped  // text.strip()
    | AsRaw       // text as it is

  datatype Value = RealValue(r: real) | IntValue(i: int) | TextValue(s: string)

  /** A field of the info file: the prefix that selects its lines, and its conversion. */
  datatype Field = Field(prefix: string, conversion: Conversion)

  /**
   * Python's `float(text)` and `int(text)`: text-to-number parsing is not
   * part of this model, so the caller supplies it (`None` is a ValueError).
   */
  datatype NumberParsers = NumberParsers(parseFloat: string -> Option<real>, parseInt: string -> Option<int>)

  datatype ScanError =
    | NoColon(line: nat)     // `split(':')[1]` on a line without ':' raises IndexError
    | NotANumber(line: nat)  // float()/int() on the field text raises ValueError

  predicate Fits(c: Conversion, v: Value) {
    match c
    case AsFloat => v.RealValue?
    case AsInt => v.IntValue?
    case AsStripped => v.TextValue?
    case AsRaw => v.TextValue?
  }

  /** The value that matching line number `index` gives field `f`. */
  function LineValue(p: NumberParsers, f: Field, line: string, index: nat): (r: Result<Value, ScanError>)
    ensures r == Err(NoColon(index)) <==> ':' !in line
    ensures ':' in line && r.Err? ==> r == Err(NotANumber(index))
    ensures ':' in line && f.conversion == AsFloat ==> (r.Ok? <==> p.parseFloat(ColonField(line).value).Some?)
    ensures ':' in line && f.conversion == AsInt ==> (r.Ok? <==> p.parseInt(Strip(ColonField(line).value)).Some?)
    ensures ':' in line && (f.conversion == AsStripped || f.conversion == AsRaw) ==> r.Ok?
    ensures r.Ok? ==> Fits(f.conversion, r.value)
    ensures r.Ok? && f.conversion == AsStripped ==> r.value == TextValue(Strip(ColonField(line).value))
    ensures r.Ok? && f.conversion == AsRaw ==> r.value == TextValue(ColonField(line).value)
    ensures r.Ok? && f.conversion == AsFloat ==> p.parseFloat(ColonField(line).value) == Some(r.value.r)
    ensures r.Ok? && f.conversion == AsInt ==> p.parseInt(Strip(ColonField(line).value)) == Some(r.value.i)
  {
    match ColonField(line)
    case None => Err(NoColon(index))
    case Some(text) =>
      match f.conversion
      case AsFloat =>
        (match p.parseFloat(text) case Some(x) => Ok(RealValue(x)) case None => Err(NotANumber(index)))
      case AsInt =>
        (match p.parseInt(Strip(text)) case Some(x) => Ok(IntValue(x)) case None => Err(NotANumber(index)))
      case AsStripped => Ok(TextValue(Strip(text)))
      case AsRaw => Ok(TextValue(text))
  }

  /** The chain of `if line.startswith(...)` tests for one line, in field order. */
  function ApplyLine(p: NumberParsers, fields: seq<Field>, line: string, index: nat, vals: map<string, Value>)
    : Result<map<string, Value>, ScanError>
    decreases |fields|
  {
    if fields == [] then Ok(vals)
    else if StartsWith(line, fields[0].prefix) then
      match LineValue(p, fields[0], line, index)
      case Err(e) => Err(e)
      case Ok(v) => ApplyLine(p, fields[1..], line, index, vals[fields[0].prefix := v])
    else ApplyLine(p, fields[1..], line, index, vals)
  }

  /** The scan of all lines, as a specification: the first n lines, then line n. */
  function Scan(p: NumberParsers, fields: seq<Field>, lines: seq<string>): Result<map<string, Value>, ScanError>
    decreases |lines|
  {
    if lines == [] then Ok(map[])
    else match Scan(p, fields, lines[..|lines| - 1])
      case Err(e) => Err(e)
      case Ok(vals) => ApplyLine(p, fields, lines[|lines| - 1], |lines| - 1, vals)
  }

  /** The loop `for line in info.readlines(): if ...: field = ...`. */
  method ScanInfo(p: NumberParsers, fields: seq<Field>, lines: seq<string>)
    returns (res: Result<map<string, Value>, ScanError>)
    ensures res == Scan(p, fields, lines)
  {
    var vals: map<string, Value> := map[];
    var i := 0;
    while i < |lines|
      invariant 0 <= i <= |lines|
      invariant Scan(p, fields, lines[..i]) == Ok(vals)
    {
      assert lines[..i + 1][..i] == lines[..i];
      var next := ApplyLine(p, fields, lines[i], i, vals);
      if next.Err? {
        ScanErrorPersists(p, fields, lines, i + 1);
        return Err(next.error);
      }
      vals := next.value;
      i := i + 1;
    }
    assert lines[..i] == lines;
    return Ok(vals);
  }

  /** A scan that fails on some line fails the same way on every longer input. */
  lemma {:induction false} ScanErrorPersists(p: NumberParsers, fields: seq<Field>, lines: seq<string>, m: nat)
    requires m <= |lines|
    requires Scan(p, fields, lines[..m]).Err?
    ensures Scan(p, fields, lines) == Scan(p, fields, lines[..m])
    decreases |lines| - m
  {
    if m < |lines| {
      var longer := lines[..m + 1];
      assert longer[..|longer| - 1] == lines[..m];
      ScanErrorPersists(p, fields, lines, m + 1);
    } else {
      assert lines[..m] == lines;
    }
  }

  // ---------------------------------------------------------------------
  // Which line a field's value comes from
  // ---------------------------------------------------------------------

  /** The index of the last line starting with `prefix`, if there is one. */
  function LastMatch(lines: seq<string>, prefix: string): (k: Option<nat>)
    ensures k.Some? ==> k.value < |lines| && StartsWith(lines[k.value], prefix)
                        && forall j :: k.value < j < |lines| ==> !StartsWith(lines[j], prefix)
    ensures k.None? ==> forall j :: 0 <= j < |lines| ==> !StartsWith(lines[j], prefix)
    decreases |lines|
  {
    if lines == [] then None
    else if StartsWith(lines[|lines| - 1], prefix) then Some(|lines| - 1)
    else LastMatch(lines[..|lines| - 1], prefix)
  }

  predicate DistinctPrefixes(fields: seq<Field>) {
    forall a, b :: 0 <= a < b < |fields| ==> fields[a].prefix != fields[b].prefix
  }

  /** A line leaves alone every key that is not the prefix of one of the fields. */
  lemma {:induction false} ApplyLineFrame(p: NumberParsers, fields: seq<Field>, line: string, index: nat,
                                          vals: map<string, Value>, key: string)
    requires forall j :: 0 <= j < |fields| ==> fields[j].prefix != key
    requires ApplyLine(p, fields, line, index, vals).Ok?
    ensures var out := ApplyLine(p, fields, line, index, vals).value;
      (key in out <==> key in vals) && (key in vals ==> out[key] == vals[key])
    decreases |fields|
  {
    if fields != [] {
      var next := if StartsWith(line, fields[0].prefix)
                  then vals[fields[0].prefix := LineValue(p, fields[0], line, index).value] else vals;
      ApplyLineFrame(p, fields[1..], line, index, next, key);
    }
  }

  /**
   * One line and one field: a matching line sets the field to that line's
   * value; any other line leaves it as it was.
   */
  lemma {:induction false} ApplyLineEffect(p: NumberParsers, fields: seq<Field>, line: string, index: nat,
                                           vals: map<string, Value>, f: Field)
    requires f in fields && DistinctPrefixes(fields)
    requires ApplyLine(p, fields, line, index, vals).Ok?
    ensures var out := ApplyLine(p, fields, line, index, vals).value;
      (StartsWith(line, f.prefix) ==> f.prefix in out && LineValue(p, f, line, index) == Ok(out[f.prefix]))
      && (!StartsWith(line, f.prefix) ==>
            (f.prefix in out <==> f.prefix in vals) && (f.prefix in vals ==> out[f.prefix] == vals[f.prefix]))
    decreases |fields|
  {
    var next := if StartsWith(line, fields[0].prefix)
                then vals[fields[0].prefix := LineValue(p, fields[0], line, index).value] else vals;
    if fields[0] == f {
      forall j | 0 <= j < |fields[1..]|
        ensures fields[1..][j].prefix != f.prefix
      {
        assert fields[1..][j] == fields[j + 1];
      }
      ApplyLineFrame(p, fields[1..], line, index, next, f.prefix);
    } else {
      var i :| 0 <= i < |fields| && fields[i] == f;
      assert fields[0].prefix != f.prefix;
      assert fields[1..][i - 1] == f;
      ApplyLineEffect(p, fields[1..], line, index, next, f);
    }
  }

  /**
   * The last matching line wins: after a successful scan a field has a
   * value exactly when some line starts with its prefix, and that value is
   * the one the last such line gives.
   */
  lemma {:induction false} LastMatchWins(p: NumberParsers, fields: seq<Field>, lines: seq<string>, f: Field)
    requires f in fields && DistinctPrefixes(fields)
    requires Scan(p, fields, lines).Ok?
    ensures var vals := Scan(p, fields, lines).value;
      (f.prefix in vals <==> LastMatch(lines, f.prefix).Some?)
      && (f.prefix in vals ==>
            var k := LastMatch(lines, f.prefix).value;
            LineValue(p, f, lines[k], k) == Ok(vals[f.prefix]))
    decreases |lines|
  {
    if lines != [] {
      var init := lines[..|lines| - 1];
      var last := |lines| - 1;
      LastMatchWins(p, fields, init, f);
      ApplyLineEffect(p, fields, lines[last], last, Scan(p, fields, init).value, f);
      if !StartsWith(lines[last], f.prefix) {
        assert LastMatch(lines, f.prefix) == LastMatch(init, f.prefix);
      }
    }
  }

  /** One line passes the tests of every field exactly when each field it matches reads cleanly. */
  lemma {:induction false} ApplyLineSucceedsIff(p: NumberParsers, fields: seq<Field>, line: string, index: nat,
                                                vals: map<string, Value>)
    ensures ApplyLine(p, fields, line, index, vals).Ok? <==>
              forall f :: f in fields && StartsWith(line, f.prefix) ==> LineValue(p, f, line, index).Ok?
    decreases |fields|
  {
    if fields != [] {
      var next := if StartsWith(line, fields[0].prefix) && LineValue(p, fields[0], line, index).Ok?
                  then vals[fields[0].prefix := LineValue(p, fields[0], line, index).value] else vals;
      ApplyLineSucceedsIff(p, fields[1..], line, index, next);
      assert forall f :: f in fields <==> f == fields[0] || f in fields[1..];
    }
  }

  /** The scan fails exactly when some line matching some field does not read cleanly. */
  lemma {:induction false} ScanSucceedsIff(p: NumberParsers, fields: seq<Field>, lines: seq<string>)
    ensures Scan(p, fields, lines).Ok? <==>
              forall j, f :: 0 <= j < |lines| && f in fields && StartsWith(lines[j], f.prefix) ==>
                LineValue(p, f, lines[j], j).Ok?
    decreases |lines|
  {
    if lines != [] {
      var init := lines[..|lines| - 1];
      ScanSucceedsIff(p, fields, init);
      if Scan(p, fields, init).Ok? {
        ApplyLineSucceedsIff(p, fields, lines[|lines| - 1], |lines| - 1, Scan(p, fields, init).value);
      }
      assert forall j :: 0 <= j < |init| ==> init[j] == lines[j];
    }
  }

  // ---------------------------------------------------------------------
  // Reading a field after the scan; a field no line set is unbound
  // ---------------------------------------------------------------------

  function RealField(vals: map<string, Value>, key: string): Option<real> {
    if key in vals && vals[key].RealValue? then Some(vals[key].r) else None
  }

  function IntField(vals: map<string, Value>, key: string): Option<int> {
    if key in vals && vals[key].IntValue? then Some(vals[key].i) else None
  }

  function TextField(vals: map<string, Value>, key: string): Option<string> {
    if key in vals && vals[key].TextValue? then Some(vals[key].s) else None
  }

  /** Every value a successful scan holds has the shape its field's conversion gives. */
  lemma ScanValuesFit(p: NumberParsers, fields: seq<Field>, lines: seq<string>, f: Field)
    requires f in fields && DistinctPrefixes(fields)
    requires Scan(p, fields, lines).Ok?
    ensures var vals := Scan(p, fields, lines).value;
      f.prefix in vals ==> Fits(f.conversion, vals[f.prefix])
  {
    LastMatchWins(p, fields, lines, f);
  }

  /** A stripped text field that a successful scan set comes from the last line with its prefix. */
  lemma TextFromLastLine(p: NumberParsers, fields: seq<Field>, lines: seq<string>, f: Field)
    requires f in fields && DistinctPrefixes(fields) && f.conversion == AsStripped
    requires Scan(p, fields, lines).Ok? && TextField(Scan(p, fields, lines).value, f.prefix).Some?
    ensures var k := LastMatch(lines, f.prefix);
      k.Some? && ':' in lines[k.value]
      && TextField(Scan(p, fields, lines).value, f.prefix).value == Strip(ColonField(lines[k.value]).value)
  {
    LastMatchWins(p, fields, lines, f);
  }

  /** An int field that a successful scan set is the parse of the last line with its prefix. */
  lemma IntFromLastLine(p: NumberParsers, fields: seq<Field>, lines: seq<string>, f: Field)
    requires f in fields && DistinctPrefixes(fields) && f.conversion == AsInt
    requires Scan(p, fields, lines).Ok? && IntField(Scan(p, fields, lines).value, f.prefix).Some?
    ensures var k := LastMatch(lines, f.prefix);
      k.Some? && ':' in lines[k.value]
      && p.parseInt(Strip(ColonField(lines[k.value]).value))
                 == IntField(Scan(p, fields, lines).value, f.prefix)
  {
    LastMatchWins(p, fields, lines, f);
  }

  /** A float field that a successful scan set is the parse of the last line with its prefix. */
  lemma RealFromLastLine(p: NumberParsers, fields: seq<Field>, lines: seq<string>, f: Field)
    requires f in fields && DistinctPrefixes(fields) && f.conversion == AsFloat
    requires Scan(p, fields, lines).Ok? && RealField(Scan(p, fields, lines).value, f.prefix).Some?
    ensures var k := LastMatch(lines, f.prefix);
      k.Some? && ':' in lines[k.value]
      && p.parseFloat(ColonField(lines[k.value]).value) == RealField(Scan(p, fields, lines).value, f.prefix)
  {
    LastMatchWins(p, fields, lines, f);
  }
}
