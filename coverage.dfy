/**
 * One coverage counter and the percentage rendered for it in a row
 * (`__coverage`). A counter keeps its `missed` and `covered` attributes as
 * the text the report gave; they are converted with `int()` only when the
 * percentage is computed.
 */
module Coverage {
  import opened Wrappers
  import opened PyInt

  /** The `missed` and `covered` attribute texts of one `counter` element. */
  datatype Counter = Counter(missed: string, covered: string)

  /** A rendered column: `n/a`, or the exact percentage that the source prints with one decimal. */
  datatype Cell = NotApplicable | Percent(value: real)

  /** Why a counter has no percentage: `int()` rejected a text, or the total is zero. */
  datatype CoverageError = BadCount(text: string) | ZeroTotal

  /** `covered / (covered + missed) * 100`, computed exactly: the one value
      whose product with the total is 100 times the covered count. */
  function Percentage(covered: int, missed: int): (p: real)
    requires covered + missed != 0
    ensures p * ((covered + missed) as real) == 100.0 * (covered as real)
  {
    var t := (covered + missed) as real;
    assert (covered as real) / t * t == covered as real;
    (covered as real) / t * 100.0
  }

  /** The column for a metric: `n/a` when the method has no counter of that
      type, otherwise the percentage, or the error Python raises. */
  function Coverage(counter: Option<Counter>): (r: Result<Cell, CoverageError>)
    ensures counter.None? ==> r == Ok(NotApplicable)
    ensures counter.Some? ==>
      (r.Ok? <==>
        && ParseInt(counter.value.covered).Some?
        && ParseInt(counter.value.missed).Some?
        && ParseInt(counter.value.covered).value + ParseInt(counter.value.missed).value != 0)
    ensures counter.Some? && r.Ok? ==>
      && r.value.Percent?
      && var c := ParseInt(counter.value.covered).value;
         var m := ParseInt(counter.value.missed).value;
         r.value == Percent(Percentage(c, m))
    ensures counter.Some? && ParseInt(counter.value.covered).None? ==>
      r == Err(BadCount(counter.value.covered))
    ensures counter.Some? && ParseInt(counter.value.covered).Some? && ParseInt(counter.value.missed).None? ==>
      r == Err(BadCount(counter.value.missed))
    ensures
      (&& counter.Some?
       && ParseInt(counter.value.covered).Some?
       && ParseInt(counter.value.missed).Some?
       && ParseInt(counter.value.covered).value + ParseInt(counter.value.missed).value == 0)
      ==> r == Err(ZeroTotal)
  {
    match counter
    case None => Ok(NotApplicable)
    case Some(cnt) =>
      match ParseInt(cnt.covered)
      case None => Err(BadCount(cnt.covered))
      case Some(c) =>
        match ParseInt(cnt.missed)
        case None => Err(BadCount(cnt.missed))
        case Some(m) =>
          if c + m == 0 then Err(ZeroTotal)
          else Ok(Percent(Percentage(c, m)))
  }

  /** For counts a report can hold, the percentage lies between 0 and 100,
      is 100 exactly when nothing was missed and 0 exactly when nothing was covered. */
  lemma PercentageBounds(c: nat, m: nat)
    requires c + m > 0
    ensures 0.0 <= Percentage(c, m) <= 100.0
    ensures Percentage(c, m) == 100.0 <==> m == 0
    ensures Percentage(c, m) == 0.0 <==> c == 0
  {
    var t := (c + m) as real;
    var q := (c as real) / t;
    assert q * t == c as real;
    assert 0.0 <= q <= 1.0 by { FractionBounds(c as real, t); }
    assert q == 1.0 <==> m == 0;
    assert q == 0.0 <==> c == 0;
  }

  lemma FractionBounds(a: real, t: real)
    requires 0.0 <= a <= t && t > 0.0
    ensures 0.0 <= a / t <= 1.0
  {
  }

  /** A counter whose attributes are the decimal counts renders the exact
      percentage, and fails only when both counts are zero. */
  lemma CoverageOfCounts(covered: nat, missed: nat)
    ensures Coverage(Some(Counter(ShowInt(missed), ShowInt(covered)))) ==
      if covered + missed == 0 then Err(ZeroTotal) else Ok(Percent(Percentage(covered, missed)))
  {
    ParseShowInt(covered);
    ParseShowInt(missed);
  }

  /** The text of a column; the `'{:.1f}'` rendering of a percentage is the parameter `fmt`. */
  function CellText(cell: Cell, fmt: real -> string): (t: string)
    ensures cell.NotApplicable? ==> t == "n/a"
  {
    match cell
    case NotApplicable => "n/a"
    case Percent(v) => fmt(v)
  }
}
