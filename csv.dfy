/**
 * Comma-separated lines: `Join` is Python's `sep.join(cols)`, which builds the
 * header and every row; `Split` is `line.split(sep)`, the way a reader of the
 * CSV output recovers the columns of a line.
 */
module Csv {

  /** `sep.join(cols)`: the columns with one separator between neighbours. */
  function Join(cols: seq<string>, sep: char): string
  {
    if |cols| == 0 then ""
    else if |cols| == 1 then cols[0]
    else cols[0] + [sep] + Join(cols[1..], sep)
  }

  /** `s.split(sep)`: the text between separators; always at least one field. */
  function Split(s: string, sep: char): (fields: seq<string>)
    ensures |fields| >= 1
  {
    if |s| == 0 then [""]
    else
      var rest := Split(s[1..], sep);
      if s[0] == sep then [""] + rest
      else [[s[0]] + rest[0]] + rest[1..]
  }

  /** No column contains the separator. */
  predicate Unquoted(cols: seq<string>, sep: char)
  {
    forall i :: 0 <= i < |cols| ==> sep !in cols[i]
  }

  /** A field free of separators splits into itself. */
  lemma {:induction false} SplitField(a: string, sep: char)
    requires sep !in a
    ensures Split(a, sep) == [a]
  {
    if |a| > 0 {
      SplitField(a[1..], sep);
      assert [a[0]] + a[1..] == a;
    }
  }

  /** Splitting stops at the first separator. */
  lemma {:induction false} SplitAtSeparator(a: string, sep: char, rest: string)
    requires sep !in a
    ensures Split(a + [sep] + rest, sep) == [a] + Split(rest, sep)
  {
    if |a| == 0 {
      assert a + [sep] + rest == [sep] + rest;
      assert ([sep] + rest)[1..] == rest;
    } else {
      var s := a + [sep] + rest;
      assert s[0] == a[0];
      assert s[1..] == a[1..] + [sep] + rest;
      SplitAtSeparator(a[1..], sep, rest);
      assert [a[0]] + a[1..] == a;
    }
  }

  /** Reading a joined line back gives the columns, as long as none contains the separator. */
  lemma {:induction false} SplitJoin(cols: seq<string>, sep: char)
    requires |cols| >= 1
    requires Unquoted(cols, sep)
    ensures Split(Join(cols, sep), sep) == cols
  {
    if |cols| == 1 {
      SplitField(cols[0], sep);
    } else {
      assert sep !in cols[0];
      SplitAtSeparator(cols[0], sep, Join(cols[1..], sep));
      assert Unquoted(cols[1..], sep) by {
        forall i | 0 <= i < |cols[1..]| ensures sep !in cols[1..][i] {
          assert cols[1..][i] == cols[i + 1];
        }
      }
      SplitJoin(cols[1..], sep);
      assert [cols[0]] + cols[1..] == cols;
    }
  }
}
