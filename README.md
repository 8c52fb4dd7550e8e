# MARFA pt-table extraction core, in Dafny

MARFA computes molecular absorption spectra. A run writes one binary
pt-table per atmospheric level, together with an `info.txt` file that
describes the run. A pt-table has no header. It is a flat run of records:
each record holds 20481 float32 absorption samples covering 10 cm-1, and
record `r` starts at byte `(r - 1) * RECORD_SIZE`. This project models the
code that reads such tables back:

- `get_pt_name` and the layout constants (`handlers/constants.py`);
- `base_parser`, which turns a wavenumber interval into whole records and
  pairs every sample with a reconstructed wavenumber, and `plot_parser`,
  which reads `info.txt`, checks that the requested window lies inside the
  run's range, and names the plot (`handlers/parsers.py`);
- `convert_pttable`, which copies `info.txt` to the processed-data
  directory and appends one formatted line per sample
  (`handlers/convert.py`);
- `process_data` and the argument checks of `main`, which keep every 1st,
  10th or 100th sample of each record and take log10 of each kept sample
  (`scripts/postprocess.py`);
- the QofT reformatting script (`scripts/QofT_formatting.py`). It cleans
  every line of the partition-function table, then glues together the
  lines that lie between each pair of consecutive blank lines.

Layout:

| file | module | models |
|---|---|---|
| `wrappers.dfy` | `Wrappers` | `Option`/`Result`, which stand for raised exceptions and `sys.exit` |
| `builtins.dfy` | `Builtins` | the Python built-ins the core relies on: `int()`, `str()`, `strip`, `startswith`, `split(':')[1]`, `replace`, `''.join` |
| `constants.dfy` | `Constants` | the constants and `get_pt_name` |
| `pttable.dfy` | `PtTable` | a table file as its decoded samples, and reading one record |
| `extraction.dfy` | `Extraction` | `base_parser` |
| `info.dfy` | `InfoFile` | the `info.txt` scan that `plot_parser` and `convert_pttable` share |
| `plotparser.dfy` | `PlotParser` | `plot_parser` |
| `convert.dfy` | `Convert` | `convert_pttable`; the output directory is a class whose map of files the method updates |
| `postprocess.dfy` | `Postprocess` | `process_data` and `main`'s checks |
| `qoft.dfy` | `QofT` | the QofT reformatting script |

Each looping routine has two forms. The loop itself is a method, proved
equal to a recursive specification function. The properties are then
proved as lemmas about that function.

Behaviours of the code that the model keeps as written:

- At stride 10, `range(1, int((NT + 1) / 10))` keeps 2047 samples per
  record. At stride 100 it keeps 203, and at stride 1 all 20481.
- A level below 10 gets a name such as `1__.`, with two underscores,
  because the stem is padded to three characters.
- A request whose first record is 0 or below seeks to a negative offset.
  Python raises at that seek, so the model returns an error
  (`NegativeSeek`) rather than excluding the case by a precondition.

## Model

| member | source | states |
|---|---|---|
| Builtins.Trunc | handlers/parsers.py:36 | `int(x)` truncates toward zero: the result is the integer between 0 and x that lies within 1 of x |
| Builtins.TruncIsNotFloor | handlers/parsers.py:37 | for a negative non-integer, truncation is one above floor, so `int((v2 - 1) / 10)` rounds up below 1 |
| Builtins.NatToString | handlers/constants.py:28-32 | `str(n)` is a non-empty string of decimal digits with no leading zero |
| Builtins.NatToStringRoundTrip | handlers/constants.py:28-32 | reading the digits of `str(n)` back gives n |
| Builtins.NatToStringInjective | handlers/constants.py:28-32 | different naturals have different decimal texts |
| Builtins.NatToStringLength | handlers/constants.py:27-32 | `str(n)` has 1, 2 or 3 digits exactly when n < 10, 10 <= n < 100 or 100 <= n < 1000 |
| Builtins.IntToString | handlers/constants.py:28-32 | `str(i)` is the digit text of i for i >= 0, and '-' followed by the digit text of -i for i < 0; it begins with '-' exactly for negative i |
| Builtins.IntToStringInjective | handlers/parsers.py:109 | different integers have different `str` texts |
| Builtins.StripLeft | handlers/parsers.py:97 | removes exactly the leading whitespace: a suffix whose first character is not whitespace |
| Builtins.StripRight | handlers/parsers.py:97 | removes exactly the trailing whitespace: a prefix whose last character is not whitespace |
| Builtins.Strip | handlers/parsers.py:97 | `strip()` adds no characters, and the result neither starts nor ends with whitespace |
| Builtins.StripIsSlice | handlers/parsers.py:97 | `strip()` keeps one contiguous slice of the text, starting where the leading whitespace ends; everything before and after it is whitespace |
| Builtins.StripEmpty | handlers/parsers.py:97 | `strip()` gives the empty string exactly when the text is all whitespace |
| Builtins.IndexOf | handlers/parsers.py:93 | the first position of a character, or none exactly when it does not occur |
| Builtins.ColonField | handlers/parsers.py:93 | `split(':')[1]` fails exactly when the line has no ':'; otherwise it is the ':'-free text right after the first ':', ending at the next ':' or at the end of the line |
| Builtins.RemoveChar | scripts/QofT_formatting.py:8 | `replace(c, '')` removes every c and keeps every other character with its multiplicity |
| Builtins.RemoveCharAppend | scripts/QofT_formatting.py:8 | removal works piece by piece, so the kept characters stay in their order |
| Builtins.RemoveCharAbsent | scripts/QofT_formatting.py:8 | a text without c is unchanged |
| Builtins.RemoveCharMembers | scripts/QofT_formatting.py:8 | a character remains exactly when it was in the text and is not c |
| Builtins.ReplaceAll | scripts/QofT_formatting.py:9 | `replace(pat, rep)` introduces no character found in neither the text nor the replacement |
| Builtins.ReplaceAllNoMatch | scripts/QofT_formatting.py:9 | with no occurrence of the pattern the text is unchanged |
| Builtins.ReplaceAllAtMatch | scripts/QofT_formatting.py:9 | an occurrence at the front is replaced, and scanning resumes after it |
| Builtins.ReplaceAllSkip | scripts/QofT_formatting.py:9 | a character that does not start an occurrence is copied, and scanning moves on by one |
| Builtins.ReplaceAllLeftToRight | scripts/QofT_formatting.py:9 | `"1, ,2"` becomes `"1,2"`, and `", , ,"` becomes `", ,"` (non-overlapping, left to right, not rescanned) |
| Builtins.ReplaceAllEmpty | scripts/QofT_formatting.py:9 | with a non-empty replacement, the result is empty exactly when the text is |
| Builtins.JoinAppend | scripts/QofT_formatting.py:32 | `''.join` of two concatenated lists is the concatenation of their joins |
| Constants.PaddedName | handlers/constants.py:26-32 | the name stem is the level's text, then underscores, then a final '.' |
| Constants.PaddedNameThreeWide | handlers/constants.py:26-32 | for every integer level, the stem is `str(level)` followed by `__.` below 10, by `_.` from 10 to 99, and by `.` from 100 on; for 0..999 that is always 4 characters |
| Constants.StemOfPaddedName | handlers/constants.py:26-32 | the level's text can be read back from the name stem |
| Constants.PaddedNameInjective | handlers/constants.py:26-32 | different levels never get the same stem, for any integers |
| Constants.GetPtName | handlers/constants.py:15-34 | the path is the directory, '/', the padded stem, then `ptbin` |
| Constants.GetPtNameInjective | handlers/constants.py:33-34 | within one directory, different levels map to different table files |
| PtTable.SeekRead | handlers/parsers.py:50-53 | seek then read: a negative offset fails; otherwise it returns the table's samples from the record's offset, as many as the table has, up to one record (none past the end), and a whole record exactly when the table holds it |
| PtTable.ReadRecord | handlers/parsers.py:47-53 | a record read succeeds exactly when 1 <= r and the table holds all of record r; every error names r |
| PtTable.ReadRecordOutcome | handlers/parsers.py:47-53 | record r is samples (r - 1) * P to r * P - 1; past-the-end is reported exactly when the offset is at or past the file size, and a negative seek exactly when r < 1 |
| PtTable.WholeRecordsNeverShort | scripts/postprocess.py:63-65 | a table whose size is a whole number of records never gives a short read |
| Extraction.StartRecord | handlers/parsers.py:36 | for v1 >= 0 the start record is the one whose 10 cm-1 span contains v1 (and the mirror statement for v1 < 0) |
| Extraction.EndRecord | handlers/parsers.py:37 | for v2 >= 1 the end record is the one whose span contains v2 - 1 |
| Extraction.EndRecordBelowOne | handlers/parsers.py:37 | for 0 < v2 < 1 the end record is 0, although floor would give -1 |
| Extraction.WavenumberGrid | handlers/parsers.py:55-57 | a record's grid starts at 10 r, rises by exactly STEP per sample, and its last sample equals the first of record r + 1 |
| Extraction.RecordRow | handlers/parsers.py:55-58 | a record contributes 20481 wavenumbers, the i-th being 10 r + i * step |
| Extraction.ExtractErrorPersists | handlers/parsers.py:46-61 | after a record has failed, reading more records does not change the result |
| Extraction.ExtractOneMore | handlers/parsers.py:46-61 | each further record either extends both lists by its row and its samples, or ends the run with that record's error |
| Extraction.RecordOfIndex | handlers/parsers.py:56-59 | output index k belongs to the record k / P, at position k % P |
| Extraction.ExtractShape | handlers/parsers.py:46-61 | on success both lists hold n * P values; the absorption list is the table's samples from record s through s + n - 1, unchanged and in order; wavenumber k is that of sample k % P of record s + k / P |
| Extraction.ExtractPoint | handlers/parsers.py:55-59 | one output point: its wavenumber and the table sample it copies |
| Extraction.ExtractSucceedsIff | handlers/parsers.py:46-59 | an extraction succeeds exactly when it reads no record, or when its first record is at least 1 and its last record lies within the table |
| Extraction.ExtractFirstFailure | handlers/parsers.py:46-49 | a failure reports the first failing record in reading order; every record before it was read successfully |
| Extraction.NeighbourWavenumbers | handlers/parsers.py:55-58 | within a record, neighbouring wavenumbers differ by STEP; across a record boundary the value repeats |
| Extraction.WavenumbersNondecreasing | handlers/parsers.py:55-58 | extracted wavenumbers never decrease |
| Extraction.ExtractEnds | handlers/parsers.py:55-57 | the wavenumbers run from exactly 10 s to exactly 10 (s + n) |
| Extraction.BaseParseOutcome | handlers/parsers.py:17-65 | `base_parser` fails to open only a missing table; it succeeds exactly when the request reads no record, or when its first record is at least 1 and its last lies within the table; on success both lists have one entry per sample read, starting at 10 * int(v1 / 10) |
| Extraction.BaseParseSpan | handlers/parsers.py:36-38 | whole records are read: the series starts at or below v1 and ends above v2 - 1 |
| Extraction.EndsBelowRequest | handlers/parsers.py:37 | the request [100, 120.5] reads records 10 and 11 only, which end at 120, below v2 |
| Extraction.BaseParser | handlers/parsers.py:17-65 | the record loop gives exactly the specification `BaseParse`, including every error |
| Extraction.AppendRecordRows | handlers/parsers.py:55-59 | the inner loop appends the record's 20481 wavenumbers and samples; it fails exactly when the data read is shorter than a record |
| InfoFile.LineValue | handlers/parsers.py:92-103 | a matching line fails with NoColon exactly when it has no ':'; on a line with ':' a text field always reads, and a number field reads exactly when its parser accepts the field text (otherwise NotANumber); the value is the field text after the first ':', converted (float, stripped int, stripped or raw text) |
| InfoFile.ScanInfo | handlers/parsers.py:90-103 | the line loop gives exactly the specification `Scan` |
| InfoFile.ScanErrorPersists | handlers/parsers.py:91-103 | once a line fails, later lines do not change the outcome |
| InfoFile.LastMatch | handlers/parsers.py:91-103 | the index of the last line with a given prefix, or none exactly when no line has it |
| InfoFile.ApplyLineFrame | handlers/parsers.py:92-103 | a line does not change any key that is not a field prefix |
| InfoFile.ApplyLineEffect | handlers/parsers.py:92-103 | a matching line sets its field to the line's value; any other line leaves the field as it was |
| InfoFile.LastMatchWins | handlers/parsers.py:91-103 | after a clean scan, a field is set exactly when some line starts with its prefix, and it holds the value of the last such line |
| InfoFile.ApplyLineSucceedsIff | handlers/parsers.py:92-103 | a line passes exactly when every field it matches reads cleanly |
| InfoFile.ScanSucceedsIff | handlers/parsers.py:91-103 | the scan fails exactly when some matching line does not read cleanly |
| InfoFile.ScanValuesFit | handlers/parsers.py:92-103 | every value the scan sets has the type its field's conversion gives |
| InfoFile.TextFromLastLine | handlers/parsers.py:96-97 | a stripped text field holds the stripped text after ':' on the last line with its prefix |
| InfoFile.IntFromLastLine | handlers/parsers.py:98-99 | an int field holds the parse of the stripped text on the last line with its prefix |
| InfoFile.RealFromLastLine | handlers/parsers.py:92-95 | a float field holds the parse of the text on the last line with its prefix |
| PlotParser.PlotFilename | handlers/parsers.py:109 | the plot file is named `{molecule}_{int(vl)}-{int(vr)}_{y_title}.svg`, field by field |
| PlotParser.PlotParserMethod | handlers/parsers.py:68-111 | `plot_parser` gives exactly the specification `PlotParse`, with the errors in source order |
| PlotParser.PlotFieldsDistinct | handlers/parsers.py:92-103 | the six prefixes that `plot_parser` tests are distinct |
| PlotParser.RangeCheckedBeforeRead | handlers/parsers.py:105-108 | a window outside [v1, v2], or with vl >= vr, is rejected whatever tables exist; a success always has an accepted window and returns exactly `base_parser`'s series for [vl, vr] |
| PlotParser.PlotFromValuesOk | handlers/parsers.py:105-111 | on success every parameter is the scanned field it comes from, the level is passed through, and the file name is built from them |
| PlotParser.ParametersFromLastLines | handlers/parsers.py:96-110 | on success the molecule, cutoff, y title and atmosphere file come from the last info lines with their prefixes; the plot name is built from them |
| PlotParser.BoundsFromLastLines | handlers/parsers.py:92-108 | on success v1 and v2, parsed from the last matching lines, enclose the window, and the series has 20481 points per record read |
| Convert.OutputFilename | handlers/convert.py:42 | the output name is, piece by piece, the stripped molecule and '_', then `str(int(v1))`, '-', `str(int(v2))` and '_', then the level and `level.dat` |
| Convert.PlanConversion | handlers/convert.py:25-42 | the scan and checks before anything is written give exactly the specification `ConvertPlan` |
| Convert.OutputDirectory.AppendRows | handlers/convert.py:47-49 | the write loop appends one formatted row per (wavenumber, absorption) pair, in order, to the output file only |
| Convert.OutputDirectory.ConvertPttable | handlers/convert.py:12-53 | when the info file is bad nothing is written; otherwise exactly the output file changes: it holds the info lines, then the rows if the table read succeeded |
| Convert.ConvertFieldsDistinct | handlers/convert.py:32-37 | the three prefixes that `convert_pttable` tests are distinct |
| Convert.BoundsMissingIff | handlers/convert.py:39-40 | after a clean scan the conversion stops with the missing-bounds error exactly when no line starts with "Start Wavenumber" or none starts with "End Wavenumber" |
| Convert.PlanFromLastLines | handlers/convert.py:30-42 | the bounds are parsed from the last matching lines, and the output name is built from the last molecule line's text |
| Convert.OutputHoldsDeclaredRange | handlers/convert.py:43-49 | on success the output is the info lines followed by one row per extracted sample of the declared range [v1, v2], in order |
| Convert.FailedReadLeavesInfoCopy | handlers/convert.py:43-45 | a failed table read after a good plan leaves only the copied info lines in the output |
| Convert.OutputFilenameInjective | handlers/convert.py:42 | different levels of the same run get different output files |
| Postprocess.TableFilename | scripts/postprocess.py:15-45 | the file is `./output/PT_CALC/`, the padded level stem, then `CO2` |
| Postprocess.TableFilenameInjective | scripts/postprocess.py:15-45 | different levels read different files |
| Postprocess.Granularity | scripts/postprocess.py:26-33 | 'high' gives stride 1, 'medium' 10 and 'coarse' 100; any other name gives none |
| Postprocess.SamplesPerRecord | scripts/postprocess.py:74 | the I loop keeps 20481, 2047 or 203 samples, and the last kept index is below NT |
| Postprocess.LogTransform | scripts/postprocess.py:80-83 | the result is -inf exactly for values <= 0; otherwise it is log10 of the value |
| Postprocess.DecimatedRecord | scripts/postprocess.py:72-84 | one record contributes SamplesPerRecord(g) points |
| Postprocess.CheckArguments | scripts/postprocess.py:148-153 | `main` accepts its arguments exactly when 0 <= V1 < V2 and level > 0 |
| Postprocess.Postprocess | scripts/postprocess.py:147-156 | a rejected argument stops `main` with that error before any file is looked at; a success implies valid arguments |
| Postprocess.AppendDecimated | scripts/postprocess.py:74-84 | the I loop appends exactly the record's decimated points |
| Postprocess.ProcessErrorPersists | scripts/postprocess.py:55-65 | after a record has failed, further records do not change the result |
| Postprocess.ProcessOneMore | scripts/postprocess.py:55-86 | each further record either appends its decimated points or ends the run with its error |
| Postprocess.ProcessData | scripts/postprocess.py:9-102 | `process_data` gives exactly the specification `ProcessedSpectrum`, with resolution, file and record errors in source order |
| Postprocess.DecimateRecords | scripts/postprocess.py:53-86 | the record loop gives exactly `ProcessRecords`: per record the offset check, the read and the length check, in that order, then the decimated points |
| Postprocess.PostprocessMain | scripts/postprocess.py:122-156 | `main` without argparse and plotting gives exactly the specification `Postprocess` |
| Postprocess.KeptIndexInRecord | scripts/postprocess.py:74-79 | every kept sample k reads record index k * g, which lies inside the record |
| Postprocess.BreakNeverFires | scripts/postprocess.py:76-78 | the `RK_index >= NT` guard never fires for any I the loop visits |
| Postprocess.StepIsStrideOfGrid | scripts/postprocess.py:35 | the offset k * step is the full-resolution grid position of sample k * g |
| Postprocess.ProcessShape | scripts/postprocess.py:55-86 | on success the output has SamplesPerRecord(g) points per record; point j comes from record s + j / c, sits at V1 + 10 (j / c) + (j % c) step, and carries the log of that record's sample (j % c) g |
| Postprocess.ProcessPoint | scripts/postprocess.py:72-84 | one output point: its source record, its position and its value |
| Postprocess.ProcessLastRecord | scripts/postprocess.py:72-84 | the points of the last record read sit at the last c output indices |
| Postprocess.LastRecordRow | scripts/postprocess.py:72-84 | output point (n - 1) c + k is kept sample k of the n-th record read |
| Postprocess.RecordSample | scripts/postprocess.py:62-68 | sample i of a record read whole is the table's sample (r - 1) NT + i |
| Postprocess.ProcessLength | scripts/postprocess.py:74-84 | a successful run over n records has n * SamplesPerRecord(g) points |
| Postprocess.ProcessFailsLikeExtract | scripts/postprocess.py:55-65 | `process_data` and `base_parser` fail on the same requests, with the same record error |
| Postprocess.HighResolutionShiftsBase | scripts/postprocess.py:72-75 | at high resolution `process_data` keeps every sample `base_parser` returns, with the same values, but every position is shifted by V1 - 10 * int(V1 / 10) |
| Postprocess.HighResolutionPoint | scripts/postprocess.py:72-84 | the high-resolution shift, for one point |
| Postprocess.ShiftedPosition | scripts/postprocess.py:72-75 | position (q + 1, r) at stride 1 is grid point (s + q, r) moved by V1 - 10 s |
| Postprocess.ProcessedSpectrumOutcome | scripts/postprocess.py:9-102 | a bad resolution is reported exactly when the name is unknown, and before the file check; on success the header count equals the number of points, c per record; a non-empty result needs V1 >= 10 and starts exactly at V1 |
| Postprocess.EmptyRangeAccepted | scripts/postprocess.py:38-42 | `main` accepts [10, 10.5], which reads no record and writes an empty spectrum |
| QofT.CleanLine | scripts/QofT_formatting.py:8-9 | a cleaned line contains no '&' and no '/' |
| QofT.Cleaned | scripts/QofT_formatting.py:7-10 | one processed line per input line |
| QofT.EmptyIndices | scripts/QofT_formatting.py:7-12 | `empty_lines` is strictly increasing and holds exactly the indices of the blank processed lines |
| QofT.DataLines | scripts/QofT_formatting.py:23-35 | k + 1 blank lines give k data lines; after a single blank line or none there are none |
| QofT.QofTOutput | scripts/QofT_formatting.py:18-43 | the script fails (IndexError on the header) exactly when the file has no lines |
| QofT.FormatQofT | scripts/QofT_formatting.py:1-43 | the script's loops give exactly the specification `QofTOutput` |
| QofT.CleanLines | scripts/QofT_formatting.py:7-12 | the first loop builds exactly the cleaned lines and their blank indices |
| QofT.GlueChunks | scripts/QofT_formatting.py:23-35 | the second loop, with its `break`, builds exactly the data lines |
| QofT.WriteLines | scripts/QofT_formatting.py:40-43 | the writes produce the header and each data line, each followed by a newline |
| QofT.CleanedSnoc | scripts/QofT_formatting.py:7-10 | cleaning one more line appends its cleaned form |
| QofT.CleanedAt | scripts/QofT_formatting.py:8-10 | processed line k is input line k, cleaned |
| QofT.EmptyIndicesSnoc | scripts/QofT_formatting.py:11-12 | one more processed line adds its index exactly when it is blank |
| QofT.DataLineAt | scripts/QofT_formatting.py:27-33 | data line k is the concatenation of the lines strictly between break k and break k + 1 |
| QofT.DataLinesSnoc | scripts/QofT_formatting.py:24-33 | one more break appends the chunk between it and the previous break |
| QofT.TerminatedSnoc | scripts/QofT_formatting.py:41-43 | writing one more line appends it and its newline |
| QofT.RemoveCharKeepsShape | scripts/QofT_formatting.py:8 | removing a character keeps "a newline only at the end" |
| QofT.StripDropsNewline | scripts/QofT_formatting.py:8 | stripping removes the only newline a `readlines` line may carry |
| QofT.CleanLineBlank | scripts/QofT_formatting.py:8-12 | a line is recorded as blank exactly when it holds nothing but whitespace, '&' and '/' |
| QofT.CleanLineNoNewline | scripts/QofT_formatting.py:8-9 | a cleaned `readlines` line contains no newline |
| QofT.JoinAvoids | scripts/QofT_formatting.py:32 | joining strings that lack a character gives a string that lacks it |
| QofT.LinesOfTerminated | scripts/QofT_formatting.py:40-43 | reading back newline-terminated, newline-free lines gives exactly those lines |
| QofT.ChunkHasNoBlankLine | scripts/QofT_formatting.py:11-28 | no line strictly between two consecutive blank lines is blank |
| QofT.JoinAcrossBlank | scripts/QofT_formatting.py:32 | a blank line contributes nothing to a join across it |
| QofT.JoinDataLinesSnoc | scripts/QofT_formatting.py:32-33 | the last chunk is joined after all the earlier ones |
| QofT.DataLinesCover | scripts/QofT_formatting.py:24-35 | gluing all data lines gives the text from just after the first blank line up to the last one: only the blank lines between chunks are skipped |
| QofT.CleanedNoNewlines | scripts/QofT_formatting.py:8 | no cleaned `readlines` line contains a newline |
| QofT.DataLinesNoNewlines | scripts/QofT_formatting.py:32 | data lines glued from newline-free lines are newline-free |
| QofT.OutputLines | scripts/QofT_formatting.py:40-43 | read back line by line, the output file is the header followed by the data lines and nothing else |
| QofT.HeaderAndDataRoundTrip | scripts/QofT_formatting.py:41-43 | writing a newline-free header and data lines and reading them back gives them unchanged |

## Left out

- File I/O is modelled by values. A `Disk` maps paths to tables (decoded samples) and to text files (their lines, as `readlines` returns them). Opening, closing, `shutil.copyfile` and `os.path.exists` are lookups in those maps, and `pathlib` joining is `directory + "/" + name`, without path normalisation.
- Python's float64 arithmetic is modelled by exact reals: rounding in `v1 / 10.0`, in `step` and in the record positions, and in the comparisons `v1 <= vl < vr <= v2` and `V1 >= V2`, is not modelled.
- Float32 is modelled by exact reals: rounding to float32 (`np.float32(vw)`), NaN and infinities are not modelled. A table's size in bytes is four times its sample count, so sizes that are not a multiple of 4 are not modelled.
- `np.frombuffer` decoding of bytes into floats is not modelled: a table is its already-decoded samples in file order.
- `float(text)` and `int(text)` parsing of info-file fields are parameters (`NumberParsers`). The model states which text each is applied to, not how the text is parsed.
- `np.log10` is left symbolic: `Log10(x)` stands for log10 of a positive x. Output number formatting (`{vw:15.5f}`, `{abs_data:17.7e}`, the Fortran-style header) is a `formatRow` parameter in `convert_pttable`. In `process_data` the written file is modelled as its header values and points, not its text.
- The file `process_data` writes is returned as a value, not written to `SPECTR_PYTHON.dat`. Building the pandas DataFrame is not modelled.
- Plotting (`plot_spectra`, the plot module), `argparse` parsing, the `--plot` flag, `print` output and the QofT script's `input()` pauses are not modelled; they have no effect on the data.
- `sys.exit` and raised exceptions are modelled as `Err` results. When `base_parser` cannot find the table it prints and exits the process; the model returns `TableNotFound` instead.
- In the QofT script, reading the file is the input list of lines, each with a newline only as its last character. Writing is the returned text.
- QofT.CleanLine: its own contract states only that '&' and '/' are gone, and `QofT.CleanLineBlank` states when the result is empty. The strip and the ", ," collapse it applies are fixed by `Builtins.Strip` with `Builtins.StripIsSlice`, by `Builtins.RemoveChar` and by the `Builtins.ReplaceAll` lemmas; `CleanLine`'s contract does not restate them.
