/**
 * Layout constants of a pt-table and the naming of table files by
 * atmospheric level.
 */
module Constants {
  import opened Builtins

  /** Samples in one record. */
  const POINTS_PER_RECORD: nat := 20481
  /** Wavenumber width, in cm-1, spanned by one record. */
  const RECORD_WV_SPAN: nat := 10
  /** Bytes in one record: one float32 per sample. */
  const RECORD_SIZE: nat := POINTS_PER_RECORD * 4
  const PT_EXTENSION: string := "ptbin"
  const INFO_FILENAME: string := "info.txt"
  const HUMAN_READABLE_DIRECTORY: string := "output/processedData"

  /** Exact wavenumber distance between neighbouring samples of a record, 10/20480 cm-1. */
  const STEP: real := RECORD_WV_SPAN as real / (POINTS_PER_RECORD - 1) as real

  /** `directory / name` for a `pathlib.Path` directory. */
  function JoinPath(directory: string, name: string): string {
    directory + "/" + name
  }

  /** The underscore template whose tail pads a level's digits. */
  const NAME_TEMPLATE: string := "___."

  /**
   * The stem of a table file name: the level's decimal text, then the
   * template with its first 1, 2 or 3 characters cut (by the level's
   * magnitude), so underscores and a final '.'.
   */
  function PaddedName(level: int): (name: string)
    ensures var digits := IntToString(level);
      |digits| < |name| && name[..|digits|] == digits && name[|name| - 1] == '.'
      && forall k :: |digits| <= k < |name| - 1 ==> name[k] == '_'
  {
    if level < 10 then IntToString(level) + NAME_TEMPLATE[1..]
    else if level < 100 then IntToString(level) + NAME_TEMPLATE[2..]
    else IntToString(level) + NAME_TEMPLATE[3..]
  }

  /** `get_pt_name`: the table file of a level inside a run directory. */
  function GetPtName(directory: string, level: int): (path: string)
    ensures |path| == |directory| + 1 + |PaddedName(level)| + |PT_EXTENSION|
    ensures path[..|directory| + 1] == directory + "/"
    ensures path[|directory| + 1..|directory| + 1 + |PaddedName(level)|] == PaddedName(level)
    ensures path[|path| - |PT_EXTENSION|..] == PT_EXTENSION
  {
    JoinPath(directory, PaddedName(level) + PT_EXTENSION)
  }

  /**
   * For levels 0..999 the stem before '.' is exactly three characters:
   * two underscores after one digit, one after two digits, none after three.
   */
  lemma PaddedNameThreeWide(level: int)
    ensures 0 <= level <= 999 ==> |PaddedName(level)| == 4
    ensures level < 10 ==> PaddedName(level) == IntToString(level) + "__."
    ensures 10 <= level < 100 ==> PaddedName(level) == IntToString(level) + "_."
    ensures 100 <= level ==> PaddedName(level) == IntToString(level) + "."
  {
    if 0 <= level {
      NatToStringLength(level);
    }
  }

  /** The part of a padded name before its first '_' or '.'. */
  function Stem(name: string): string {
    if name == [] || name[0] == '_' || name[0] == '.' then [] else [name[0]] + Stem(name[1..])
  }

  lemma {:induction false} StemOfTextAndPad(text: string, pad: string)
    requires forall k :: 0 <= k < |text| ==> text[k] != '_' && text[k] != '.'
    requires pad != [] && (pad[0] == '_' || pad[0] == '.')
    ensures Stem(text + pad) == text
  {
    if text == [] {
      assert text + pad == pad;
    } else {
      assert (text + pad)[1..] == text[1..] + pad;
      StemOfTextAndPad(text[1..], pad);
    }
  }

  /** The level's decimal text can be read back off its padded name. */
  lemma StemOfPaddedName(level: int)
    ensures Stem(PaddedName(level)) == IntToString(level)
  {
    var digits, name := IntToString(level), PaddedName(level);
    assert level >= 0 ==> IsDigit(NatToString(level)[0]);
    assert name == digits + name[|digits|..];
    StemOfTextAndPad(digits, name[|digits|..]);
  }

  /** Different levels never share a table file name, for any integer levels. */
  lemma PaddedNameInjective(a: int, b: int)
    requires PaddedName(a) == PaddedName(b)
    ensures a == b
  {
    StemOfPaddedName(a);
    StemOfPaddedName(b);
    IntToStringInjective(a, b);
  }

  lemma GetPtNameInjective(directory: string, a: int, b: int)
    requires GetPtName(directory, a) == GetPtName(directory, b)
    ensures a == b
  {
    var pa, pb := GetPtName(directory, a), GetPtName(directory, b);
    var na, nb := PaddedName(a), PaddedName(b);
    assert |na| == |nb|;
    assert na == pa[|directory| + 1..|directory| + 1 + |na|];
    assert nb == pb[|directory| + 1..|directory| + 1 + |nb|];
    PaddedNameInjective(a, b);
  }
}
