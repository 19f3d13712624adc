/**
 * The text of an output line. A row is formatted as
 * `package,class,name(desc),instruction,branch` with no quoting; the
 * one-decimal rendering of a percentage is the parameter `fmt`.
 */
module Render {
  import opened Csv
  import opened Coverage
  import opened HandlerSpec

  /** The five fields of a row, in column order. */
  function RowFields(r: Row, fmt: real -> string): (fields: seq<string>)
    ensures |fields| == |Header|
    ensures r.instruction.NotApplicable? ==> fields[3] == "n/a"
    ensures r.branch.NotApplicable? ==> fields[4] == "n/a"
  {
    [r.package, r.cls, r.name + "(" + r.desc + ")", CellText(r.instruction, fmt), CellText(r.branch, fmt)]
  }

  /** A header line is its text; a data line holds at least the four commas
      that separate its five fields. */
  function LineText(line: Line, fmt: real -> string): (t: string)
    ensures line.HeaderLine? ==> t == line.text
    ensures line.DataLine? ==> multiset(t)[','] >= |Header| - 1
  {
    match line
    case HeaderLine(text) => text
    case DataLine(r) =>
      JoinCount(RowFields(r, fmt), ',');
      Join(RowFields(r, fmt), ',')
  }

  /** A row whose fields hold no comma reads back as the five fields, one per header column. */
  lemma RowColumns(r: Row, fmt: real -> string)
    requires Unquoted(RowFields(r, fmt), ',')
    ensures Split(LineText(DataLine(r), fmt), ',') == RowFields(r, fmt)
  {
    SplitJoin(RowFields(r, fmt), ',');
  }

  /** The number of fields `split` yields is one more than the number of separators. */
  lemma {:induction false} SplitCount(s: string, sep: char)
    ensures |Split(s, sep)| == multiset(s)[sep] + 1
  {
    if |s| > 0 {
      SplitCount(s[1..], sep);
      assert s == [s[0]] + s[1..];
      assert multiset(s) == multiset([s[0]]) + multiset(s[1..]);
    }
  }

  /** A joined line holds at least one separator between neighbouring columns,
      plus those inside the first column. */
  lemma {:induction false} JoinCount(cols: seq<string>, sep: char)
    requires |cols| >= 1
    ensures multiset(Join(cols, sep))[sep] >= |cols| - 1 + multiset(cols[0])[sep]
  {
    if |cols| > 1 {
      JoinCount(cols[1..], sep);
      var rest := Join(cols[1..], sep);
      assert multiset(cols[0] + [sep] + rest) == multiset(cols[0]) + multiset([sep]) + multiset(rest);
    }
  }

  /** Fields are not quoted: a package name holding a comma yields a line
      that splits into more columns than the header has. */
  lemma CommaInPackageShiftsColumns(r: Row, fmt: real -> string)
    requires ',' in r.package
    ensures |Split(LineText(DataLine(r), fmt), ',')| > |Header|
  {
    var fields := RowFields(r, fmt);
    JoinCount(fields, ',');
    SplitCount(Join(fields, ','), ',');
    assert multiset(r.package)[','] >= 1;
  }
}
