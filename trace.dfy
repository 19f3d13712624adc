/**
 * A whole parse: the handler fed a sequence of events. The parse stops at the
 * first event whose handler raises; the lines written until then remain.
 */
module Trace {
  import opened Wrappers
  import opened HandlerSpec

  /** Where a parse ends: the last state reached, and the error that stopped it, if any. */
  datatype Outcome = Outcome(state: State, error: Option<Error>)

  function Run(s: State, events: seq<Event>): Outcome
    decreases |events|
  {
    if |events| == 0 then Outcome(s, None)
    else
      match Step(s, events[0])
      case Ok(t) => Run(t, events[1..])
      case Err(e) => Outcome(s, Some(e))
  }

  /** The number of lines the events write when none fails. */
  function Written(events: seq<Event>): nat
  {
    if |events| == 0 then 0 else Emitted(events[0]) + Written(events[1..])
  }

  /** The number of method-close events. */
  function MethodCloses(events: seq<Event>): nat
  {
    if |events| == 0 then 0
    else (if events[0] == ElementEnd("method") then 1 else 0) + MethodCloses(events[1..])
  }

  /** The number of document-start events. */
  function DocumentStarts(events: seq<Event>): nat
  {
    if |events| == 0 then 0
    else (if events[0].DocumentStart? then 1 else 0) + DocumentStarts(events[1..])
  }

  lemma {:induction false} WrittenSplits(events: seq<Event>)
    ensures Written(events) == DocumentStarts(events) + MethodCloses(events)
  {
    if |events| > 0 {
      WrittenSplits(events[1..]);
    }
  }

  /** Running two event sequences one after the other is running their concatenation. */
  lemma {:induction false} RunAppend(s: State, a: seq<Event>, b: seq<Event>)
    ensures Run(s, a + b) ==
      if Run(s, a).error.Some? then Run(s, a) else Run(Run(s, a).state, b)
    decreases |a|
  {
    if |a| == 0 {
      assert a + b == b;
    } else {
      assert (a + b)[0] == a[0];
      assert (a + b)[1..] == a[1..] + b;
      match Step(s, a[0])
      case Ok(t) => RunAppend(t, a[1..], b);
      case Err(_) =>
    }
  }

  /** Lines are only ever appended; a parse that completes writes one line per
      document start and one row per method close. */
  lemma {:induction false} RunLines(s: State, events: seq<Event>)
    ensures s.lines <= Run(s, events).state.lines
    ensures Run(s, events).error.None? ==>
      |Run(s, events).state.lines| == |s.lines| + DocumentStarts(events) + MethodCloses(events)
    decreases |events|
  {
    WrittenSplits(events);
    if |events| > 0 {
      match Step(s, events[0])
      case Ok(t) =>
        RunLines(t, events[1..]);
        WrittenSplits(events[1..]);
      case Err(_) =>
    }
  }

  /** The k-th event of a completed parse is a method close: it wrote, right
      after the lines of the events before it, the row built from the records
      open at that moment. So rows appear in the order of the close events. */
  lemma RowOfMethodClose(s: State, events: seq<Event>, k: nat)
    requires Run(s, events).error.None?
    requires k < |events| && events[k] == ElementEnd("method")
    ensures
      var before := Run(s, events[..k]);
      var lines := Run(s, events).state.lines;
      && before.error.None?
      && |before.state.lines| == |s.lines| + DocumentStarts(events[..k]) + MethodCloses(events[..k])
      && CurrentRow(before.state).Ok?
      && |before.state.lines| < |lines|
      && lines[|before.state.lines|] == DataLine(CurrentRow(before.state).value)
  {
    var prefix, tail := events[..k], events[k..];
    assert events == prefix + tail;
    RunAppend(s, prefix, tail);
    var before := Run(s, prefix);
    assert before.error.None?;
    RunLines(s, prefix);
    CloseThenRest(before.state, tail);
  }

  /** A parse that starts with a method close and completes writes that
      method's row first. */
  lemma CloseThenRest(t: State, tail: seq<Event>)
    requires |tail| > 0 && tail[0] == ElementEnd("method")
    requires Run(t, tail).error.None?
    ensures CurrentRow(t).Ok?
    ensures |t.lines| < |Run(t, tail).state.lines|
    ensures Run(t, tail).state.lines[|t.lines|] == DataLine(CurrentRow(t).value)
  {
    assert Step(t, tail[0]) == EndMethod(t);
    var u := EndMethod(t).value;
    assert Run(t, tail) == Run(u, tail[1..]);
    RunLines(u, tail[1..]);
    assert u.lines[|t.lines|] == DataLine(CurrentRow(t).value);
  }

  /** A parse that stops early leaves exactly the output of the events before
      the failing one, and that event's handler is the one that raised. */
  lemma {:induction false} RunStopsAtFailure(s: State, events: seq<Event>) returns (k: nat)
    requires Run(s, events).error.Some?
    ensures k < |events|
    ensures Run(s, events[..k]) == Outcome(Run(s, events).state, None)
    ensures Step(Run(s, events).state, events[k]) == Err(Run(s, events).error.value)
    decreases |events|
  {
    match Step(s, events[0])
    case Err(_) =>
      k := 0;
      assert events[..0] == [];
    case Ok(t) =>
      var j := RunStopsAtFailure(t, events[1..]);
      k := j + 1;
      assert events[..k][0] == events[0];
      assert events[..k][1..] == events[1..][..j];
  }

  /** From any well-formed state, the output of a parse starts with the
      header if the document started, and is empty otherwise. */
  lemma {:induction false} RunKeepsWellFormed(s: State, events: seq<Event>)
    requires WellFormed(s)
    ensures WellFormed(Run(s, events).state)
    decreases |events|
  {
    if |events| > 0 {
      StepPreservesWellFormed(s, events[0]);
      match Step(s, events[0])
      case Ok(t) => RunKeepsWellFormed(t, events[1..]);
      case Err(_) =>
    }
  }

  /** No event in the sequence opens a method. */
  predicate NoMethodOpens(events: seq<Event>)
  {
    forall i :: 0 <= i < |events| ==> !(events[i].ElementStart? && events[i].name == "method")
  }

  /** An event that does not open a method does not put the handler in one. */
  lemma StepOutsideMethod(s: State, e: Event)
    requires !IsInMethod(s)
    requires !(e.ElementStart? && e.name == "method")
    requires Step(s, e).Ok?
    ensures !IsInMethod(Step(s, e).value)
  {
    match e
    case DocumentStart =>
    case DocumentEnd =>
    case ElementStart(name, attrs) =>
      assert Step(s, e) == OnStartElement(s, name, attrs);
    case ElementEnd(name) =>
      assert Step(s, e) == OnEndElement(s, name);
  }

  /** With no method open, the handler stays outside a method until an event opens one. */
  lemma {:induction false} StaysOutsideMethod(s: State, events: seq<Event>)
    requires !IsInMethod(s)
    requires NoMethodOpens(events)
    ensures !IsInMethod(Run(s, events).state)
    decreases |events|
  {
    if |events| > 0 {
      match Step(s, events[0])
      case Ok(t) =>
        StepOutsideMethod(s, events[0]);
        assert NoMethodOpens(events[1..]) by {
          forall i | 0 <= i < |events[1..]|
            ensures !(events[1..][i].ElementStart? && events[1..][i].name == "method")
          {
            assert events[1..][i] == events[i + 1];
          }
        }
        StaysOutsideMethod(t, events[1..]);
      case Err(_) =>
    }
  }

  /** Once a method has closed, a counter changes nothing, however many
      events come between, until the next method opens. */
  lemma CounterDroppedUntilMethodOpens(s: State, events: seq<Event>, attrs: map<string, string>)
    requires EndMethod(s).Ok?
    requires NoMethodOpens(events)
    requires Run(EndMethod(s).value, events).error.None?
    ensures
      var t := EndMethod(s).value;
      Run(t, events + [ElementStart("counter", attrs)]) == Run(t, events)
  {
    var t := EndMethod(s).value;
    StaysOutsideMethod(t, events);
    RunAppend(t, events, [ElementStart("counter", attrs)]);
    var u := Run(t, events).state;
    assert Step(u, ElementStart("counter", attrs)) == Ok(u);
    assert [ElementStart("counter", attrs)][1..] == [];
  }

  /** Every line after the first is a data row. */
  predicate RowsAfterHeader(lines: seq<Line>)
  {
    forall i :: 1 <= i < |lines| ==> lines[i].DataLine?
  }

  /** Events without a document start write only data rows. */
  lemma {:induction false} RunKeepsRows(s: State, events: seq<Event>)
    requires DocumentStarts(events) == 0
    requires RowsAfterHeader(s.lines)
    ensures RowsAfterHeader(Run(s, events).state.lines)
    decreases |events|
  {
    if |events| > 0 {
      var e := events[0];
      match Step(s, e)
      case Ok(t) =>
        if e == ElementEnd("method") {
          assert Step(s, e) == EndMethod(s);
        } else {
          assert t.lines == s.lines;
        }
        RunKeepsRows(t, events[1..]);
      case Err(_) =>
    }
  }

  /** A completed parse of a document (one document start first) writes the
      header and then exactly one row per method close. */
  lemma DocumentRows(events: seq<Event>)
    requires |events| > 0 && events[0] == DocumentStart
    requires DocumentStarts(events) == 1
    requires Run(Init(), events).error.None?
    ensures var lines := Run(Init(), events).state.lines;
      && |lines| == 1 + MethodCloses(events)
      && lines[0] == HeaderLine(FormatHeader())
      && (forall i :: 1 <= i < |lines| ==> lines[i].DataLine?)
  {
    RunLines(Init(), events);
    RunKeepsWellFormed(Init(), events);
    RunKeepsRows(StartDocument(Init()), events[1..]);
  }
}
