/**
 * The partition-function reformatting script: every line of the QofT table
 * loses its '&' and '/' characters and surrounding whitespace, ", ," is
 * collapsed to ",", and the lines strictly between consecutive blank lines
 * are glued together into one data line each. The output text is the first
 * cleaned line (the dimension header) followed by the data lines, each
 * terminated by a newline.
 */
module QofT {
  import opened Wrappers
  import opened Builtins

  /** Reading `processed_lines[0]` of an empty file raises IndexError. */
  datatype QofTError = NoHeader

  // ---------------------------------------------------------------------
  // Line cleaning
  // ---------------------------------------------------------------------

  /** One line cleaned: no '&', no '/', stripped, ", ," collapsed. */
  function CleanLine(line: string): (r: string)
    ensures '&' !in r && '/' !in r
  {
    var kept := RemoveChar(RemoveChar(line, '&'), '/');
    assert multiset(kept)['&'] == 0;
    ReplaceAll(Strip(kept), ", ,", ",")
  }

  /** `processed_lines`: one cleaned line per input line, in order. */
  function Cleaned(lines: seq<string>): (r: seq<string>)
    ensures |r| == |lines|
  {
    MapSeq(CleanLine, lines)
  }

  /** `f` applied to each element, in order. */
  function MapSeq<A, B>(f: A -> B, xs: seq<A>): (ys: seq<B>)
    ensures |ys| == |xs|
  {
    if xs == [] then [] else MapSeq(f, xs[..|xs| - 1]) + [f(xs[|xs| - 1])]
  }

  /** A line as `readlines` yields it: a newline can only be its last character. */
  predicate NewlineOnlyAtEnd(s: string) {
    forall i :: 0 <= i < |s| - 1 ==> s[i] != '\n'
  }

  predicate ReadlinesShape(lines: seq<string>) {
    forall k :: 0 <= k < |lines| ==> NewlineOnlyAtEnd(lines[k])
  }

  // ---------------------------------------------------------------------
  // Blank-line indices and the chunks between them
  // ---------------------------------------------------------------------

  predicate StrictlyIncreasing(e: seq<int>) {
    forall a, b :: 0 <= a < b < |e| ==> e[a] < e[b]
  }

  /** `empty_lines`: the indices of the blank processed lines, in increasing order. */
  function EmptyIndices(p: seq<string>): (e: seq<int>)
    ensures StrictlyIncreasing(e)
    ensures forall k :: 0 <= k < |e| ==> 0 <= e[k] < |p| && p[e[k]] == []
    ensures forall i :: 0 <= i < |p| && p[i] == [] ==> i in e
  {
    if p == [] then []
    else
      var prev := EmptyIndices(p[..|p| - 1]);
      assert forall i :: 0 <= i < |p| - 1 ==> p[..|p| - 1][i] == p[i];
      prev + (if p[|p| - 1] == [] then [|p| - 1] else [])
  }

  /** Indices usable as slice bounds into `p`. */
  predicate ValidBreaks(p: seq<string>, e: seq<int>) {
    StrictlyIncreasing(e) && forall k :: 0 <= k < |e| ==> 0 <= e[k] < |p|
  }

  /**
   * `data_lines`: chunk k is the concatenation, without separator, of the
   * lines strictly between break k and break k + 1; lines after the last
   * break are dropped.
   */
  function DataLines(p: seq<string>, e: seq<int>): (d: seq<string>)
    requires ValidBreaks(p, e)
    ensures |d| == if |e| == 0 then 0 else |e| - 1
    decreases |e|
  {
    if |e| < 2 then []
    else DataLines(p, e[..|e| - 1]) + [Join(p[e[|e| - 2] + 1..e[|e| - 1]])]
  }

  // ---------------------------------------------------------------------
  // The output file
  // ---------------------------------------------------------------------

  /** Each string followed by a newline, concatenated. */
  function Terminated(ds: seq<string>): string
    decreases |ds|
  {
    if ds == [] then [] else ds[0] + "\n" + Terminated(ds[1..])
  }

  /**
   * The newline-terminated lines of a text, without their terminators
   * (a trailing piece with no newline counts as a line too).
   */
  function LinesOf(s: string): seq<string>
    decreases |s|
  {
    match IndexOf(s, '\n')
    case None => if s == [] then [] else [s]
    case Some(i) => [s[..i]] + LinesOf(s[i + 1..])
  }

  /** The text written to the formatted file. */
  function QofTOutput(lines: seq<string>): (r: Result<string, QofTError>)
    ensures r.Err? <==> lines == []
  {
    if lines == [] then Err(NoHeader)
    else
      var p := Cleaned(lines);
      Ok(Terminated([p[0]] + DataLines(p, EmptyIndices(p))))
  }

  /** The script: clean every line, record the blank ones, glue the chunks, write. */
  method FormatQofT(lines: seq<string>) returns (res: Result<string, QofTError>)
    ensures res == QofTOutput(lines)
  {
    var processed, empties := CleanLines(lines);
    if |processed| == 0 {
      return Err(NoHeader);
    }
    var header := processed[0];
    var data := GlueChunks(processed, empties);
    var out := WriteLines(header, data);
    return Ok(out);
  }

  /** The first loop: `processed_lines` and `empty_lines`. */
  method CleanLines(lines: seq<string>) returns (processed: seq<string>, empties: seq<int>)
    ensures processed == Cleaned(lines) && empties == EmptyIndices(processed)
  {
    processed, empties := [], [];
    for i := 0 to |lines|
      invariant processed == Cleaned(lines[..i])
      invariant empties == EmptyIndices(processed)
    {
      var cleaned := CleanLine(lines[i]);
      CleanedSnoc(lines, i);
      EmptyIndicesSnoc(processed, cleaned);
      processed := processed + [cleaned];
      if cleaned == [] {
        empties := empties + [i];
      }
    }
    assert lines[..|lines|] == lines;
  }

  /** The second loop: one data line per pair of consecutive blank lines. */
  method GlueChunks(processed: seq<string>, empties: seq<int>) returns (data: seq<string>)
    requires ValidBreaks(processed, empties)
    ensures data == DataLines(processed, empties)
  {
    data := [];
    var i := 0;
    while i < |empties|
      invariant 0 <= i <= |empties|
      invariant i < |empties| ==> data == DataLines(processed, empties[..i + 1])
      invariant i == |empties| ==> data == [] && empties == []
    {
      if i + 1 < |empties| {
        var mm := empties[i] + 1;
        var nn := empties[i + 1];
        DataLinesSnoc(processed, empties, i);
        data := data + [Join(processed[mm..nn])];
      } else {
        assert empties[..i + 1] == empties;
        break;
      }
      i := i + 1;
    }
  }

  /** Writing the header and then each data line, each followed by a newline. */
  method WriteLines(header: string, data: seq<string>) returns (out: string)
    ensures out == Terminated([header] + data)
  {
    out := header + "\n";
    for k := 0 to |data|
      invariant out == header + "\n" + Terminated(data[..k])
    {
      TerminatedSnoc(data[..k], data[k]);
      assert data[..k + 1] == data[..k] + [data[k]];
      out := out + data[k] + "\n";
    }
    assert data[..|data|] == data;
    assert ([header] + data)[1..] == data;
  }

  // ---------------------------------------------------------------------
  // Lemmas
  // ---------------------------------------------------------------------

  /** Cleaning one more input line appends its cleaned form. */
  lemma CleanedSnoc(lines: seq<string>, i: int)
    requires 0 <= i < |lines|
    ensures Cleaned(lines[..i + 1]) == Cleaned(lines[..i]) + [CleanLine(lines[i])]
  {
    MapSeqSnoc(CleanLine, lines, i);
  }

  /** Processed line k is input line k, cleaned. */
  lemma CleanedAt(lines: seq<string>, k: int)
    requires 0 <= k < |lines|
    ensures Cleaned(lines)[k] == CleanLine(lines[k])
  {
    MapSeqAt(CleanLine, lines, k);
  }

  lemma MapSeqSnoc<A, B>(f: A -> B, xs: seq<A>, i: int)
    requires 0 <= i < |xs|
    ensures MapSeq(f, xs[..i + 1]) == MapSeq(f, xs[..i]) + [f(xs[i])]
  {
    var pre := xs[..i + 1];
    assert pre[..|pre| - 1] == xs[..i] && pre[|pre| - 1] == xs[i];
  }

  /** Element k of the mapped sequence is `f` of element k. */
  lemma {:induction false} MapSeqAt<A, B>(f: A -> B, xs: seq<A>, k: int)
    requires 0 <= k < |xs|
    ensures MapSeq(f, xs)[k] == f(xs[k])
    decreases |xs|
  {
    var pre := xs[..|xs| - 1];
    if k < |pre| {
      MapSeqAt(f, pre, k);
      assert pre[k] == xs[k];
    }
  }

  /** One more processed line adds its index exactly when it is blank. */
  lemma EmptyIndicesSnoc(p: seq<string>, c: string)
    ensures EmptyIndices(p + [c]) == EmptyIndices(p) + (if c == [] then [|p|] else [])
  {
    assert (p + [c])[..|p|] == p;
  }

  /** Data line k is the text strictly between break k and break k + 1. */
  lemma {:induction false} DataLineAt(p: seq<string>, e: seq<int>, k: int)
    requires ValidBreaks(p, e) && 0 <= k < |e| - 1
    ensures DataLines(p, e)[k] == Join(p[e[k] + 1..e[k + 1]])
    decreases |e|
  {
    var e' := e[..|e| - 1];
    ValidBreaksPrefix(p, e, |e| - 1);
    if k < |e| - 2 {
      DataLineAt(p, e', k);
      assert e'[k] == e[k] && e'[k + 1] == e[k + 1];
    }
  }

  /** Every prefix of valid breaks is valid. */
  lemma ValidBreaksPrefix(p: seq<string>, e: seq<int>, m: int)
    requires ValidBreaks(p, e) && 0 <= m <= |e|
    ensures ValidBreaks(p, e[..m])
  {
  }

  /** One more break adds the chunk between it and the previous break. */
  lemma DataLinesSnoc(p: seq<string>, e: seq<int>, i: int)
    requires ValidBreaks(p, e) && 0 <= i && i + 1 < |e|
    ensures ValidBreaks(p, e[..i + 1]) && ValidBreaks(p, e[..i + 2])
    ensures DataLines(p, e[..i + 2]) == DataLines(p, e[..i + 1]) + [Join(p[e[i] + 1..e[i + 1]])]
  {
    ValidBreaksPrefix(p, e, i + 1);
    ValidBreaksPrefix(p, e, i + 2);
    var pre := e[..i + 2];
    assert pre[..|pre| - 1] == e[..i + 1];
    assert pre[|pre| - 2] == e[i] && pre[|pre| - 1] == e[i + 1];
  }

  /** Appending one line to the output adds that line and its newline at the end. */
  lemma {:induction false} TerminatedSnoc(ds: seq<string>, d: string)
    ensures Terminated(ds + [d]) == Terminated(ds) + d + "\n"
    decreases |ds|
  {
    if ds != [] {
      assert (ds + [d])[1..] == ds[1..] + [d];
      TerminatedSnoc(ds[1..], d);
    }
  }

  /** Removing one character keeps a readlines-shaped line readlines-shaped. */
  lemma {:induction false} RemoveCharKeepsShape(s: string, c: char)
    requires c != '\n' && NewlineOnlyAtEnd(s)
    ensures NewlineOnlyAtEnd(RemoveChar(s, c))
    decreases |s|
  {
    if s != [] {
      RemoveCharKeepsShape(s[1..], c);
      var rest := RemoveChar(s[1..], c);
      if s[0] != c && rest != [] {
        assert rest[0] in multiset(rest);
        assert rest[0] in s[1..];
        assert |s| >= 2;
      }
    }
  }

  /** Stripping removes the only newline a readlines-shaped line may carry. */
  lemma StripDropsNewline(s: string)
    requires NewlineOnlyAtEnd(s)
    ensures '\n' !in Strip(s)
  {
    var l := StripLeft(s);
    assert NewlineOnlyAtEnd(l) by {
      forall i | 0 <= i < |l| - 1 ensures l[i] != '\n' {
        assert l[i] == s[|s| - |l| + i];
      }
    }
    var r := StripRight(l);
    assert IsSpace('\n');
    forall i | 0 <= i < |r| ensures r[i] != '\n' {
      assert r[i] == l[i];
      if i == |l| - 1 {
        assert i == |r| - 1;
      }
    }
  }

  /** A cleaned readlines line holds no newline. */
  lemma CleanLineNoNewline(line: string)
    requires NewlineOnlyAtEnd(line)
    ensures '\n' !in CleanLine(line)
  {
    RemoveCharKeepsShape(line, '&');
    RemoveCharKeepsShape(RemoveChar(line, '&'), '/');
    StripDropsNewline(RemoveChar(RemoveChar(line, '&'), '/'));
  }

  /**
   * A line is recorded as blank exactly when it holds nothing but
   * whitespace, '&' and '/'.
   */
  lemma CleanLineBlank(line: string)
    ensures CleanLine(line) == [] <==> forall x :: x in line ==> IsSpace(x) || x == '&' || x == '/'
  {
    var a := RemoveChar(line, '&');
    var b := RemoveChar(a, '/');
    forall x ensures x in b <==> x in line && x != '&' && x != '/' {
      RemoveCharMembers(line, '&', x);
      RemoveCharMembers(a, '/', x);
    }
    StripEmpty(b);
    ReplaceAllEmpty(Strip(b), ", ,", ",");
  }

  /** Joining newline-free strings gives a newline-free string. */
  lemma {:induction false} JoinAvoids(parts: seq<string>, c: char)
    requires forall k :: 0 <= k < |parts| ==> c !in parts[k]
    ensures c !in Join(parts)
    decreases |parts|
  {
    if parts != [] {
      JoinAvoids(parts[..|parts| - 1], c);
    }
  }

  /** The first line of a text is everything before its first newline. */
  lemma LinesOfCons(d: string, rest: string)
    requires '\n' !in d
    ensures LinesOf(d + "\n" + rest) == [d] + LinesOf(rest)
  {
    var s := d + "\n" + rest;
    var i := IndexOf(s, '\n');
    assert s[|d|] == '\n';
    assert forall j :: 0 <= j < |d| ==> s[j] == d[j];
    assert i.Some?;
    assert forall j :: 0 <= j < i.value ==> s[j] == s[..i.value][j];
    assert i.value == |d|;
    assert s[..|d|] == d && s[|d| + 1..] == rest;
  }

  /** Reading back terminated newline-free lines gives exactly those lines. */
  lemma {:induction false} LinesOfTerminated(ds: seq<string>)
    requires NoNewlines(ds)
    ensures LinesOf(Terminated(ds)) == ds
    decreases |ds|
  {
    if ds != [] {
      var d, rest := ds[0], ds[1..];
      assert '\n' !in d && NoNewlines(rest) by {
        assert forall k :: 0 <= k < |rest| ==> rest[k] == ds[k + 1];
      }
      assert Terminated(ds) == d + "\n" + Terminated(rest);
      LinesOfCons(d, Terminated(rest));
      LinesOfTerminated(rest);
    }
  }

  /** The lines strictly inside a chunk are never blank. */
  lemma ChunkHasNoBlankLine(p: seq<string>, k: int, i: int)
    requires 0 <= k < |EmptyIndices(p)| - 1
    requires EmptyIndices(p)[k] < i < EmptyIndices(p)[k + 1]
    ensures p[i] != []
  {
    var e := EmptyIndices(p);
    forall m | 0 <= m < |e| ensures e[m] != i {
      if m <= k {
        assert e[m] <= e[k];
      } else {
        assert e[k + 1] <= e[m];
      }
    }
  }

  /** `''.join` of a single string is that string. */
  lemma JoinSingle(x: string)
    ensures Join([x]) == x
  {
    assert [x][..0] == [];
  }

  /** A blank line contributes nothing to a join across it. */
  lemma JoinAcrossBlank(p: seq<string>, lo: int, mid: int, hi: int)
    requires 0 <= lo <= mid < hi <= |p| && p[mid] == []
    ensures Join(p[lo..hi]) == Join(p[lo..mid]) + Join(p[mid + 1..hi])
  {
    assert p[lo..hi] == p[lo..mid] + [p[mid]] + p[mid + 1..hi];
    JoinAppend(p[lo..mid] + [p[mid]], p[mid + 1..hi]);
    JoinAppend(p[lo..mid], [p[mid]]);
    JoinSingle(p[mid]);
  }

  /** Break indices that all point at blank lines. */
  predicate BlankBreaks(p: seq<string>, e: seq<int>) {
    ValidBreaks(p, e) && forall k :: 0 <= k < |e| ==> p[e[k]] == []
  }

  lemma BlankBreaksPrefix(p: seq<string>, e: seq<int>, m: int)
    requires BlankBreaks(p, e) && 0 <= m <= |e|
    ensures BlankBreaks(p, e[..m])
  {
  }

  /** The last chunk is joined after all the earlier ones. */
  lemma JoinDataLinesSnoc(p: seq<string>, e: seq<int>)
    requires ValidBreaks(p, e) && |e| >= 2
    ensures ValidBreaks(p, e[..|e| - 1])
    ensures Join(DataLines(p, e))
      == Join(DataLines(p, e[..|e| - 1])) + Join(p[e[|e| - 2] + 1..e[|e| - 1]])
  {
    var e' := e[..|e| - 1];
    var last := Join(p[e[|e| - 2] + 1..e[|e| - 1]]);
    assert DataLines(p, e) == DataLines(p, e') + [last];
    JoinAppend(DataLines(p, e'), [last]);
    JoinSingle(last);
  }

  /**
   * Gluing the data lines gives the text of everything from just after the
   * first blank line up to the last one: only blank lines are skipped
   * between the chunks.
   */
  lemma {:induction false} DataLinesCover(p: seq<string>, e: seq<int>)
    requires BlankBreaks(p, e) && |e| >= 2
    ensures Join(DataLines(p, e)) == Join(p[e[0] + 1..e[|e| - 1]])
    decreases |e|
  {
    var n := |e|;
    if n == 2 {
      JoinDataLinesSnoc(p, e);
      assert DataLines(p, e[..1]) == [];
    } else {
      var e' := e[..n - 1];
      assert BlankBreaks(p, e') && e'[0] == e[0] && e'[|e'| - 1] == e[n - 2] by {
        BlankBreaksPrefix(p, e, n - 1);
      }
      DataLinesCover(p, e');
      DataLinesCoverStep(p, e);
    }
  }

  /** One more chunk extends the covered text across one more blank line. */
  lemma DataLinesCoverStep(p: seq<string>, e: seq<int>)
    requires BlankBreaks(p, e) && |e| >= 3
    requires Join(DataLines(p, e[..|e| - 1])) == Join(p[e[0] + 1..e[|e| - 2]])
    ensures Join(DataLines(p, e)) == Join(p[e[0] + 1..e[|e| - 1]])
  {
    var n := |e|;
    var lo, mid, hi := e[0] + 1, e[n - 2], e[n - 1];
    var tail := Join(p[mid + 1..hi]);
    assert 0 <= lo <= mid < hi <= |p| && p[mid] == [];
    assert Join(DataLines(p, e)) == Join(DataLines(p, e[..n - 1])) + tail by {
      JoinDataLinesSnoc(p, e);
    }
    assert Join(p[lo..hi]) == Join(p[lo..mid]) + tail by {
      JoinAcrossBlank(p, lo, mid, hi);
    }
  }

  predicate NoNewlines(ps: seq<string>) {
    forall k :: 0 <= k < |ps| ==> '\n' !in ps[k]
  }

  /** Cleaned readlines lines carry no newline. */
  lemma CleanedNoNewlines(lines: seq<string>)
    requires ReadlinesShape(lines)
    ensures NoNewlines(Cleaned(lines))
  {
    forall k | 0 <= k < |lines| ensures '\n' !in Cleaned(lines)[k] {
      CleanedAt(lines, k);
      CleanLineNoNewline(lines[k]);
    }
  }

  /** Chunks glued from newline-free lines are newline-free. */
  lemma DataLinesNoNewlines(p: seq<string>, e: seq<int>)
    requires NoNewlines(p) && ValidBreaks(p, e)
    ensures NoNewlines(DataLines(p, e))
  {
    var d := DataLines(p, e);
    forall k | 0 <= k < |d| ensures '\n' !in d[k] {
      DataLineAt(p, e, k);
      var c := p[e[k] + 1..e[k + 1]];
      assert NoNewlines(c);
      JoinAvoids(c, '\n');
    }
  }

  /**
   * Read back line by line, the written file is the header followed by the
   * data lines, one per line, and nothing else.
   */
  lemma OutputLines(lines: seq<string>)
    requires lines != [] && ReadlinesShape(lines)
    ensures var p := Cleaned(lines);
      LinesOf(QofTOutput(lines).value) == [p[0]] + DataLines(p, EmptyIndices(p))
  {
    var p := Cleaned(lines);
    CleanedNoNewlines(lines);
    DataLinesNoNewlines(p, EmptyIndices(p));
    HeaderAndDataRoundTrip(p[0], DataLines(p, EmptyIndices(p)));
  }

  lemma HeaderAndDataRoundTrip(h: string, d: seq<string>)
    requires '\n' !in h && NoNewlines(d)
    ensures LinesOf(Terminated([h] + d)) == [h] + d
  {
    assert NoNewlines([h] + d);
    LinesOfTerminated([h] + d);
  }
}
