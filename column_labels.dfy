/**
 * Spreadsheet column labels: the bijective base-26 numbering in which
 * column 0 is "A", 25 is "Z", 26 is "AA" and 702 is "AAA".
 * The component uses them as the fallback name of a blank header cell.
 */
module ColumnLabels {

  predicate IsUpper(ch: char) {
    'A' <= ch <= 'Z'
  }

  /** A well-formed label: non-empty, letters A to Z only. */
  predicate IsLabel(s: string) {
    |s| >= 1 && forall i :: 0 <= i < |s| ==> IsUpper(s[i])
  }

  function Letter(d: nat): (ch: char)
    requires d < 26
    ensures IsUpper(ch)
    ensures ch as int - 65 == d
  {
    (d + 65) as char
  }

  /** The label of the zero-based column index `n`. */
  function ColLabel(n: nat): (s: string)
    ensures IsLabel(s)
    ensures |s| == 1 <==> n < 26
  {
    if n < 26 then [Letter(n)] else ColLabel(n / 26 - 1) + [Letter(n % 26)]
  }

  /** The column index a label denotes: the inverse of ColLabel. */
  function LabelValue(s: string): nat
    requires IsLabel(s)
    decreases |s|
  {
    if |s| == 1 then s[0] as int - 65
    else
      var p := s[..|s| - 1];
      assert IsLabel(p) by {
        forall i | 0 <= i < |p| ensures IsUpper(p[i]) {
          assert p[i] == s[i];
        }
      }
      (LabelValue(p) + 1) * 26 + (s[|s| - 1] as int - 65)
  }

  /** Decoding a label gives back the index it was made from. */
  lemma {:induction false} LabelValueOfColLabel(n: nat)
    ensures LabelValue(ColLabel(n)) == n
  {
    if n >= 26 {
      var p := n / 26 - 1;
      var s := ColLabel(n);
      LabelValueOfColLabel(p);
      assert s[..|s| - 1] == ColLabel(p);
      assert s[|s| - 1] as int - 65 == n % 26;
      assert (p + 1) * 26 + n % 26 == n;
    }
  }

  /** Every well-formed label is the label of the index it denotes: ColLabel is onto. */
  lemma {:induction false} ColLabelOfLabelValue(s: string)
    requires IsLabel(s)
    ensures ColLabel(LabelValue(s)) == s
  {
    if |s| > 1 {
      var p := s[..|s| - 1];
      var d := s[|s| - 1] as int - 65;
      assert IsLabel(p) by {
        forall i | 0 <= i < |p| ensures IsUpper(p[i]) {
          assert p[i] == s[i];
        }
      }
      var v := LabelValue(s);
      assert v == (LabelValue(p) + 1) * 26 + d;
      assert 0 <= d < 26;
      assert v / 26 == LabelValue(p) + 1 && v % 26 == d;
      ColLabelOfLabelValue(p);
      assert ColLabel(v) == ColLabel(LabelValue(p)) + [Letter(d)];
      assert [Letter(d)] == [s[|s| - 1]];
      assert s == p + [s[|s| - 1]];
    }
  }

  /** Distinct column indices have distinct labels. */
  lemma ColLabelInjective(m: nat, n: nat)
    requires m != n
    ensures ColLabel(m) != ColLabel(n)
  {
    LabelValueOfColLabel(m);
    LabelValueOfColLabel(n);
  }

  /** The first labels and the carries from one letter to two and from two to three. */
  lemma ColLabelExamples()
    ensures ColLabel(0) == "A" && ColLabel(1) == "B" && ColLabel(25) == "Z"
    ensures ColLabel(26) == "AA" && ColLabel(701) == "ZZ" && ColLabel(702) == "AAA"
  {
  }
}
