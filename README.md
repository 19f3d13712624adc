# jacoco-xml2csv in Dafny

A model of `JacocoXmlContentHandler`, the SAX content handler at the centre of
`jacoco-xml2csv.py`. The handler receives the start-element and end-element
events of a JaCoCo XML coverage report. It writes the CSV header
`package,class,method,instruction,branch` when the document starts. After that
it writes one line per method: the package name, the class name,
`name(desc)`, and the INSTRUCTION and BRANCH coverage percentages.

Between events the handler keeps three "currently open" records: the package
name, the class name, and the method record (name, descriptor, counters by
metric type).

Layout:

- `wrappers.dfy`: `Option` and `Result`.
- `csv.dfy`: `Join` (Python's `','.join`) and `Split` (how a reader takes a line
  apart), and the lemma that splitting a joined line gives back the columns.
- `pyint.dfy`: Python's `int()` on a string (`ParseInt`), and the decimal
  rendering `ShowInt` it inverts.
- `coverage.dfy`: a counter and `__coverage`. A missing counter gives `n/a`. A
  present one gives the exact percentage `covered / (covered + missed) * 100`
  as a `real`, or the error Python raises.
- `handler_spec.dfy`: the handler's state as a value, and one pure function
  per event handler.
- `content_handler.dfy`: the handler as a class. Its fields are the records
  and the output lines, and each event method is proved to do what the
  matching function of `handler_spec.dfy` says.
- `trace.dfy`: whole parses (sequences of events). It covers how many lines
  are written, their order, and what remains when a handler raises.
- `render.dfy`: the text of a line, and what unquoted fields do to its columns.
- `scenario.dfy`: a small report driven through the class.

Counter attributes are stored as the text the report gives, as the source
does. `int()` is applied only when the method closes, so a malformed count
inside a method fails at the method's close. If the counter's type is neither
INSTRUCTION nor BRANCH, the malformed count never fails at all.

Errors are `Result` values. They stand for the exceptions the handler lets
escape, each of which ends the parse:

- `MissingAttribute`: a `KeyError` from `getValue`.
- `NoOpenMethod`, `NoPackageName`, `NoClassName`: a `KeyError` on an emptied record.
- `InvalidCount`: a `ValueError` from `int()`.
- `UndefinedCoverage`: a `ZeroDivisionError`.
- `NotStarted`: an `AttributeError` when `_fp` is missing before `startDocument`.

When several errors apply, the model reports the one Python raises first.

Points where the code behaves differently from what a reader might expect:

- Names and descriptors are copied verbatim. The code has no descriptor
  decoding and no `/` to `.` rewriting.
- `sourcefile` elements are ignored like any other unknown element.
- Counters are kept only inside a method. Report-, package- and class-level
  counters are dropped, and their attributes are never read.
- Nesting is not checked. Closing a class or package that is not open does
  nothing. Opening a method outside a class is accepted; the failure comes at
  its close: `NoPackageName` if no package is open, otherwise `NoClassName`.
- A percentage is rendered with one decimal, not truncated to an integer.

## Model

| member | source | states |
|---|---|---|
| `HandlerSpec.FormatHeader` | jacoco-xml2csv.py:96-98 | the header line splits at its commas into exactly the five titles package, class, method, instruction, branch |
| `Csv.SplitJoin` | jacoco-xml2csv.py:98 | splitting a comma-joined line gives back its columns whenever no column holds a comma |
| `HandlerSpec.StartDocument` | jacoco-xml2csv.py:16-19 | document start marks the output as open and appends the header line; the records are untouched |
| `HandlerSpec.StartPackage` | jacoco-xml2csv.py:48-49 | succeeds exactly when `name` is present, records it as the package name and changes nothing else; otherwise a missing-attribute error |
| `HandlerSpec.StartClass` | jacoco-xml2csv.py:51-52 | succeeds exactly when `name` is present, records it as the class name and changes nothing else; otherwise a missing-attribute error |
| `HandlerSpec.StartMethod` | jacoco-xml2csv.py:54-57 | succeeds exactly when `name` and `desc` are present (reporting `name` first), records both with an empty counter map, and the handler is then in a method; nothing else changes |
| `HandlerSpec.StartCounter` | jacoco-xml2csv.py:59-65 | with no open method the state is returned unchanged and no attribute is read; inside a method it needs `type`, `missed` and `covered`, reporting the first one missing in that order, stores the counter under its type (replacing an earlier one), keeps every other type's counter, and changes nothing else |
| `HandlerSpec.EndPackage` | jacoco-xml2csv.py:67-68 | clears the package record and nothing else |
| `HandlerSpec.EndClass` | jacoco-xml2csv.py:70-71 | clears the class record and nothing else |
| `HandlerSpec.MetricCell` | jacoco-xml2csv.py:81-82 | a metric with no counter in the method renders as `n/a`; a present counter renders exactly when `__coverage` succeeds on it, with its value, and its unparsable count or zero total is reported labelled with the metric |
| `HandlerSpec.CurrentRow` | jacoco-xml2csv.py:73-83 | the row is built exactly when the method, package and class records are present and both metric columns render; it holds the package name, class name, method name and descriptor and those two columns; otherwise the first failure in the order no open method, no package name, no class name, INSTRUCTION column, BRANCH column |
| `HandlerSpec.EndMethod` | jacoco-xml2csv.py:73-85 | succeeds exactly when the row can be built and the output is open; it then appends exactly that row and empties the method record, leaving package and class as they were; otherwise the row's error, or the missing-output error |
| `HandlerSpec.OnStartElement` | jacoco-xml2csv.py:26-35 | elements other than package, class, method and counter change nothing; opening an element never writes a line |
| `HandlerSpec.OnEndElement` | jacoco-xml2csv.py:37-46 | closing anything but package, class or method (counter included) changes nothing; only closing a method can fail or write a line |
| `HandlerSpec.StepPreservesWellFormed` | jacoco-xml2csv.py:16-19 | every event keeps the invariant that the output is empty before the document starts and begins with the header afterwards |
| `HandlerSpec.Step` | jacoco-xml2csv.py:16-46 | a successful event only appends to the output, one line for a document start or a method close and none otherwise; only an element start or a method close can fail; the document end changes nothing |
| `HandlerSpec.Init` | jacoco-xml2csv.py:12-14 | a fresh state has empty package, class and method records, has not started and has written nothing |
| `HandlerSpec.IsInMethod` | jacoco-xml2csv.py:93-94 | the handler is in a method exactly when closing the method would not fail for lack of a method record |
| `HandlerSpec.CounterAfterMethodCloseDropped` | jacoco-xml2csv.py:85 | right after a method closes, a counter event changes nothing |
| `Trace.StepOutsideMethod` | jacoco-xml2csv.py:26-57 | an event that does not open a method never puts the handler in one |
| `Trace.StaysOutsideMethod` | jacoco-xml2csv.py:54-85 | with no method open, no sequence of events that opens no method leaves the handler in a method |
| `Trace.CounterDroppedUntilMethodOpens` | jacoco-xml2csv.py:59-85 | after a method closes and any events that open no method, a counter event changes nothing |
| `PyInt.ParseIntNeedsDigit` | jacoco-xml2csv.py:104-105 | `int()` accepts a text only if it contains a digit |
| `PyInt.ParseShowInt` | jacoco-xml2csv.py:104-105 | `int()` of the decimal rendering of any integer gives that integer back |
| `Scenario.IntOneDigit` | jacoco-xml2csv.py:104-105 | `int()` of one decimal digit is that digit's value |
| `Scenario.IntPadded` | jacoco-xml2csv.py:104-105 | `int(" 1_0\n")` is 10: surrounding whitespace is stripped and an underscore between digits is dropped |
| `Scenario.IntSigned` | jacoco-xml2csv.py:104-105 | `int("-07")` is -7: the minus sign is read and the leading zero accepted |
| `Scenario.IntRejects` | jacoco-xml2csv.py:104-105 | `int()` rejects the empty text, a doubled or leading underscore, and a lone sign |
| `Coverage.Coverage` | jacoco-xml2csv.py:101-106 | absent counter gives `n/a`; a present one succeeds exactly when both counts parse and their sum is non-zero, and then yields covered*100/(covered+missed); an unparsable `covered` is reported before `missed` |
| `Coverage.Percentage` | jacoco-xml2csv.py:106 | the percentage is the value whose product with the total is 100 times the covered count |
| `Coverage.PercentageBounds` | jacoco-xml2csv.py:106 | for non-negative counts the percentage lies in [0, 100], is 100 exactly when nothing was missed and 0 exactly when nothing was covered |
| `Coverage.CoverageOfCounts` | jacoco-xml2csv.py:101-106 | a counter written as decimal counts renders its exact percentage and fails only when both counts are zero |
| `Coverage.CellText` | jacoco-xml2csv.py:102-103 | an absent metric's column text is `n/a` |
| `Scenario.ThreeOfFour` | jacoco-xml2csv.py:101-106 | a method with INSTRUCTION missed 1 covered 3 and no BRANCH counter renders 75 and `n/a` |
| `Trace.RunAppend` | jacoco-xml2csv.py:113-116 | a parse of two event sequences in a row is the parse of their concatenation, stopping at the first failure |
| `Trace.RunLines` | jacoco-xml2csv.py:76-85 | a parse only appends lines; a completed one writes one line per document start plus one row per method close |
| `Trace.RowOfMethodClose` | jacoco-xml2csv.py:73-85 | in a completed parse the k-th event, a method close, put the row built from the records then open right after the lines of the earlier events, so rows come in the order of the close events |
| `Trace.RunStopsAtFailure` | jacoco-xml2csv.py:113-116 | a parse that fails keeps exactly the output of the events before the failing one, and that event's handler is the one that raised |
| `Trace.RunKeepsWellFormed` | jacoco-xml2csv.py:16-19 | from any well-formed state a parse keeps the output empty before the document starts and headed by the header line after |
| `Trace.DocumentRows` | jacoco-xml2csv.py:16-19 | a completed parse of a document from a fresh handler writes the header first and then exactly one row per method close, and every line after the header is a data row |
| `Render.RowFields` | jacoco-xml2csv.py:76-83 | a row has one field per header title, and an absent metric's field is `n/a` |
| `Render.LineText` | jacoco-xml2csv.py:76-83 | a header line is its text; a data line holds at least the four commas that separate its five fields |
| `Render.RowColumns` | jacoco-xml2csv.py:76-83 | a row whose fields hold no comma reads back as its five fields, in header order |
| `Render.CommaInPackageShiftsColumns` | jacoco-xml2csv.py:76-77 | fields are not quoted: a package name holding a comma gives a line with more columns than the header |
| `ContentHandler.JacocoXmlContentHandler.constructor` | jacoco-xml2csv.py:9-14 | a new handler has empty package, class and method records and has written nothing |
| `ContentHandler.JacocoXmlContentHandler.StartDocument` | jacoco-xml2csv.py:16-20 | appends the header line to the output, as `HandlerSpec.StartDocument` |
| `ContentHandler.JacocoXmlContentHandler.StartElement` | jacoco-xml2csv.py:26-35 | updates the records as `HandlerSpec.OnStartElement`; on failure reports its error and leaves the state unchanged |
| `ContentHandler.JacocoXmlContentHandler.EndElement` | jacoco-xml2csv.py:37-46 | updates the records and output as `HandlerSpec.OnEndElement`; on failure reports its error and leaves the state unchanged |
| `ContentHandler.JacocoXmlContentHandler.StartPackage` | jacoco-xml2csv.py:48-49 | records the package name as `HandlerSpec.StartPackage` |
| `ContentHandler.JacocoXmlContentHandler.StartClass` | jacoco-xml2csv.py:51-52 | records the class name as `HandlerSpec.StartClass` |
| `ContentHandler.JacocoXmlContentHandler.StartMethod` | jacoco-xml2csv.py:54-57 | opens the method record as `HandlerSpec.StartMethod`; afterwards the handler is in a method |
| `ContentHandler.JacocoXmlContentHandler.StartCounter` | jacoco-xml2csv.py:59-65 | stores the counter as `HandlerSpec.StartCounter`; with no open method nothing changes and no error arises |
| `ContentHandler.JacocoXmlContentHandler.EndPackage` | jacoco-xml2csv.py:67-68 | clears the package record, as `HandlerSpec.EndPackage` |
| `ContentHandler.JacocoXmlContentHandler.EndClass` | jacoco-xml2csv.py:70-71 | clears the class record, as `HandlerSpec.EndClass` |
| `ContentHandler.JacocoXmlContentHandler.EndDocument` | jacoco-xml2csv.py:22-24 | changes nothing |
| `ContentHandler.JacocoXmlContentHandler.EndCounter` | jacoco-xml2csv.py:87-88 | changes nothing |
| `ContentHandler.JacocoXmlContentHandler.IsInMethod` | jacoco-xml2csv.py:93-94 | the method record is present, as `HandlerSpec.IsInMethod` of the handler's state |
| `ContentHandler.JacocoXmlContentHandler.EndMethod` | jacoco-xml2csv.py:73-85 | writes the row and empties the method record as `HandlerSpec.EndMethod`; on success exactly one line is added and the handler is no longer in a method |

## Left out

- XML parsing (`xml.sax.parse`) is foreign code. The model receives its events directly. `attrs.getValue` is a lookup in a map from attribute name to text, and a missing attribute is the `MissingAttribute` error.
- `main`, the command-line argument and the default file name `jacoco.xml` are command-line plumbing.
- The `outfile` constructor argument is not modelled: it is stored but never used.
- The output stream is a sequence of lines. Writing to `sys.stdout` and the newline after each line in `__print` are not modelled.
- The one-decimal float formatting `'{:.1f}'` is not modelled. A percentage is the exact real `covered / (covered + missed) * 100`, and `Render` takes its text rendering as a parameter `fmt`. Float rounding is therefore not modelled, nor the `OverflowError` that `covered / (covered + missed)` raises when the quotient exceeds the float range; only negative counts can produce such a quotient.
- `PyInt.ParseInt`: only ASCII whitespace and ASCII digits are modelled. Python's `int()` also strips non-ASCII whitespace and accepts non-ASCII decimal digits. The limit on numeral length in Python 3.11 and later (by default 4300 digits, `sys.get_int_max_str_digits`) is not modelled either, so `PyInt.ParseShowInt` holds for every integer, where Python raises `ValueError` on longer numerals.
- `HandlerSpec.StartMethod`: when `desc` is missing, Python has already stored `name` in the method record before raising. The model leaves the state unchanged. The exception ends the parse, so no later event sees the difference.
- `__isInClass` is never called, so it is not modelled.
