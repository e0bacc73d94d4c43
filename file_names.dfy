/**
 * File names: the extension gate applied to a picked file, and the name
 * given to the exported file.
 */
module FileNames {
  import opened Options

  /** The two export formats; the component starts with the workbook format. */
  datatype Format = Xlsx | Csv

  predicate EndsWith(s: string, suffix: string) {
    |suffix| <= |s| && s[|s| - |suffix|..] == suffix
  }

  /** The extension gate: the name ends in ".xlsx" or ".csv", in exactly that letter case. */
  predicate ExtOk(name: string) {
    EndsWith(name, ".xlsx") || EndsWith(name, ".csv")
  }

  /** The gate accepts exactly the names made of some stem followed by ".xlsx" or ".csv". */
  lemma ExtOkIff(name: string)
    ensures ExtOk(name) <==>
              (exists stem: string :: name == stem + ".xlsx") || (exists stem: string :: name == stem + ".csv")
  {
    if EndsWith(name, ".xlsx") {
      assert name == name[..|name| - 5] + ".xlsx";
    }
    if EndsWith(name, ".csv") {
      assert name == name[..|name| - 4] + ".csv";
    }
    forall stem: string | name == stem + ".xlsx" ensures EndsWith(name, ".xlsx") {
      assert name[|stem|..] == ".xlsx";
    }
    forall stem: string | name == stem + ".csv" ensures EndsWith(name, ".csv") {
      assert name[|stem|..] == ".csv";
    }
  }

  /** The match is case-sensitive: upper-case extensions are refused. */
  lemma ExtOkCaseSensitive()
    ensures ExtOk("data.xlsx") && ExtOk("data.csv")
    ensures !ExtOk("DATA.XLSX") && !ExtOk("data.Csv") && !ExtOk("data.xlsx.bak") && !ExtOk("xlsx")
  {
  }

  /** A character that may appear in an extension: anything but a slash or a dot. */
  predicate Plain(ch: char) {
    ch != '/' && ch != '.'
  }

  /** Position `i` starts the last extension of `s`: a dot followed, up to the end, by one or more plain characters. */
  predicate ExtMatchAt(s: string, i: int) {
    && 0 <= i && i + 1 < |s|
    && s[i] == '.'
    && forall j :: i < j < |s| ==> Plain(s[j])
  }

  /** Length of the longest suffix of `s` made only of plain characters. */
  function PlainTail(s: string): (n: nat)
    ensures n <= |s|
    ensures forall j :: |s| - n <= j < |s| ==> Plain(s[j])
    ensures n < |s| ==> !Plain(s[|s| - 1 - n])
  {
    if s == [] || !Plain(s[|s| - 1]) then 0 else PlainTail(s[..|s| - 1]) + 1
  }

  /**
   * Drop the last extension, that is the
   * final dot together with the one or more plain characters after it.
   */
  function StripLastExt(s: string): (r: string)
    ensures forall i :: ExtMatchAt(s, i) ==> r == s[..i]
    ensures (forall i :: !ExtMatchAt(s, i)) ==> r == s
  {
    var n := PlainTail(s);
    if 1 <= n < |s| && s[|s| - 1 - n] == '.' then
      assert ExtMatchAt(s, |s| - 1 - n);
      s[..|s| - 1 - n]
    else
      s
  }

  /** For a name without a file, the base is "filtered_data". */
  function BaseFilename(file: Option<string>): string
  {
    match file
    case Some(name) => "filtered_" + StripLastExt(name)
    case None => "filtered_data"
  }

  function Suffix(f: Format): string {
    if f == Csv then ".csv" else ".xlsx"
  }

  /** The exported file's name: base name plus the format's extension. */
  function OutputName(file: Option<string>, f: Format): (r: string)
    ensures |r| >= 13 && r[..9] == "filtered_"
    ensures EndsWith(r, ".csv") <==> f == Csv
    ensures EndsWith(r, ".xlsx") <==> f == Xlsx
  {
    var r := BaseFilename(file) + Suffix(f);
    assert r[..9] == "filtered_";
    assert r[|r| - |Suffix(f)|..] == Suffix(f);
    assert f == Csv ==> r[|r| - 1] == 'v';
    assert f == Xlsx ==> r[|r| - 4] == 'x';
    r
  }

  /** The gate and the renaming agree: an accepted name loses exactly its ".xlsx" or ".csv". */
  lemma AcceptedBaseFilename(stem: string, ext: string)
    requires ext == ".xlsx" || ext == ".csv"
    ensures ExtOk(stem + ext)
    ensures BaseFilename(Some(stem + ext)) == "filtered_" + stem
  {
    var s := stem + ext;
    assert s[|s| - |ext|..] == ext;
    assert ExtMatchAt(s, |stem|) by {
      forall j | |stem| < j < |s| ensures Plain(s[j]) {
        assert s[j] == ext[j - |stem|];
      }
    }
    assert s[..|stem|] == stem;
  }

  /** The part of an accepted name before its ".xlsx" or ".csv". */
  function Stem(name: string): string
    requires ExtOk(name)
  {
    if EndsWith(name, ".xlsx") then name[..|name| - 5] else name[..|name| - 4]
  }

  /** An accepted name is its stem plus ".xlsx" or ".csv", and its export base is "filtered_" plus that stem. */
  lemma StemBaseFilename(name: string)
    requires ExtOk(name)
    ensures name == Stem(name) + ".xlsx" || name == Stem(name) + ".csv"
    ensures BaseFilename(Some(name)) == "filtered_" + Stem(name)
  {
    var ext := if EndsWith(name, ".xlsx") then ".xlsx" else ".csv";
    assert name == Stem(name) + ext;
    AcceptedBaseFilename(Stem(name), ext);
  }

  /** "people.csv" passes the gate, and its export as CSV is named "filtered_people.csv". */
  lemma OutputNameExample()
    ensures ExtOk("people.csv")
    ensures OutputName(Some("people.csv"), Csv) == "filtered_people.csv"
  {
    assert "people" + ".csv" == "people.csv";
    AcceptedBaseFilename("people", ".csv");
    assert "filtered_people" + ".csv" == "filtered_people.csv";
  }

  /** Only the last extension goes; a name without one is kept whole. */
  lemma StripLastExtExamples()
    ensures StripLastExt("report.tar.csv") == "report.tar"
    ensures StripLastExt("report") == "report"
    ensures StripLastExt("report.") == "report."
  {
    assert ExtMatchAt("report.tar.csv", 10);
    assert "report.tar.csv"[..10] == "report.tar";
  }
}
