/**
 * The handler's state and its reaction to each parser event, as pure
 * functions. A `State` holds what `JacocoXmlContentHandler` keeps between
 * events: whether the document has started (the output stream exists), the
 * open package's name, the open class's name, the open method record, and
 * the lines written so far.
 */
module HandlerSpec {
  import opened Wrappers
  import opened Csv
  import opened Coverage

  /** The open method: its `name` and `desc` attributes and its counters by metric type. */
  datatype MethodRecord = MethodRecord(name: string, desc: string, counters: map<string, Counter>)

  /** One output row: `package,class,name(desc),instruction,branch`. */
  datatype Row = Row(package: string, cls: string, name: string, desc: string, instruction: Cell, branch: Cell)

  datatype Line = HeaderLine(text: string) | DataLine(row: Row)

  /** What makes the handler raise: a missing attribute (KeyError from
      `getValue`), a missing record entry (KeyError on a cleared dictionary),
      a count `int()` rejects, a zero total, or a write before the document started. */
  datatype Error =
    | MissingAttribute(element: string, attribute: string)
    | NoOpenMethod
    | NoPackageName
    | NoClassName
    | InvalidCount(metric: string, text: string)
    | UndefinedCoverage(metric: string)
    | NotStarted

  datatype State = State(
    started: bool,
    package: Option<string>,
    cls: Option<string>,
    meth: Option<MethodRecord>,
    lines: seq<Line>)

  /** The events the parser delivers; `attrs` are an element's attributes by name. */
  datatype Event =
    | DocumentStart
    | DocumentEnd
    | ElementStart(name: string, attrs: map<string, string>)
    | ElementEnd(name: string)

  const Header: seq<string> := ["package", "class", "method", "instruction", "branch"]

  /** `__formatHeader`: the column titles joined by commas; a reader splitting
      the line at its commas gets the five titles back. */
  function FormatHeader(): (h: string)
    ensures Split(h, ',') == Header
  {
    assert Unquoted(Header, ',') by {
      forall i | 0 <= i < |Header| ensures ',' !in Header[i] {
        assert Header[i] in Header;
      }
    }
    SplitJoin(Header, ',');
    Join(Header, ',')
  }

  /** The state right after construction: every record empty, nothing written. */
  function Init(): (s: State)
    ensures WellFormed(s) && !s.started && s.lines == []
    ensures s.package.None? && s.cls.None? && !IsInMethod(s)
  {
    State(false, None, None, None, [])
  }

  /** `__isInMethod`: the method record is not empty, so that it holds the
      counters a method close reads. */
  predicate IsInMethod(s: State)
    ensures IsInMethod(s) <==> CurrentRow(s) != Err(NoOpenMethod)
  {
    s.meth.Some?
  }

  /** `counters.get(metric)`. */
  function Lookup(counters: map<string, Counter>, metric: string): Option<Counter>
  {
    if metric in counters then Some(counters[metric]) else None
  }

  function StartDocument(s: State): (t: State)
    ensures t.started
    ensures t.lines == s.lines + [HeaderLine(FormatHeader())]
    ensures t.package == s.package && t.cls == s.cls && t.meth == s.meth
  {
    s.(started := true, lines := s.lines + [HeaderLine(FormatHeader())])
  }

  function StartPackage(s: State, attrs: map<string, string>): (r: Result<State, Error>)
    ensures r.Ok? <==> "name" in attrs
    ensures r.Err? ==> r.error == MissingAttribute("package", "name")
    ensures r.Ok? ==> r.value.package == Some(attrs["name"]) && r.value.(package := s.package) == s
  {
    if "name" in attrs then Ok(s.(package := Some(attrs["name"])))
    else Err(MissingAttribute("package", "name"))
  }

  function StartClass(s: State, attrs: map<string, string>): (r: Result<State, Error>)
    ensures r.Ok? <==> "name" in attrs
    ensures r.Err? ==> r.error == MissingAttribute("class", "name")
    ensures r.Ok? ==> r.value.cls == Some(attrs["name"]) && r.value.(cls := s.cls) == s
  {
    if "name" in attrs then Ok(s.(cls := Some(attrs["name"])))
    else Err(MissingAttribute("class", "name"))
  }

  /** Opening a method records its name and descriptor with no counters yet. */
  function StartMethod(s: State, attrs: map<string, string>): (r: Result<State, Error>)
    ensures r.Ok? <==> "name" in attrs && "desc" in attrs
    ensures "name" !in attrs ==> r == Err(MissingAttribute("method", "name"))
    ensures "name" in attrs && "desc" !in attrs ==> r == Err(MissingAttribute("method", "desc"))
    ensures r.Ok? ==>
      && IsInMethod(r.value)
      && r.value.meth.value.name == attrs["name"]
      && r.value.meth.value.desc == attrs["desc"]
      && r.value.meth.value.counters == map[]
      && r.value.(meth := s.meth) == s
  {
    if "name" !in attrs then Err(MissingAttribute("method", "name"))
    else if "desc" !in attrs then Err(MissingAttribute("method", "desc"))
    else Ok(s.(meth := Some(MethodRecord(attrs["name"], attrs["desc"], map[]))))
  }

  /** A counter is kept only while a method is open, under its type; a later
      counter of the same type replaces the earlier one. */
  function StartCounter(s: State, attrs: map<string, string>): (r: Result<State, Error>)
    ensures !IsInMethod(s) ==> r == Ok(s)
    ensures IsInMethod(s) ==> (r.Ok? <==> "type" in attrs && "missed" in attrs && "covered" in attrs)
    ensures IsInMethod(s) && "type" !in attrs ==> r == Err(MissingAttribute("counter", "type"))
    ensures IsInMethod(s) && "type" in attrs && "missed" !in attrs ==>
      r == Err(MissingAttribute("counter", "missed"))
    ensures IsInMethod(s) && "type" in attrs && "missed" in attrs && "covered" !in attrs ==>
      r == Err(MissingAttribute("counter", "covered"))
    ensures r.Ok? && IsInMethod(s) ==>
      var before := s.meth.value;
      var after := r.value.meth;
      && after.Some?
      && after.value.name == before.name
      && after.value.desc == before.desc
      && after.value.counters.Keys == before.counters.Keys + {attrs["type"]}
      && after.value.counters[attrs["type"]] == Counter(attrs["missed"], attrs["covered"])
      && (forall t :: t in before.counters && t != attrs["type"] ==>
            after.value.counters[t] == before.counters[t])
      && r.value.(meth := s.meth) == s
  {
    if !IsInMethod(s) then Ok(s)
    else if "type" !in attrs then Err(MissingAttribute("counter", "type"))
    else if "missed" !in attrs then Err(MissingAttribute("counter", "missed"))
    else if "covered" !in attrs then Err(MissingAttribute("counter", "covered"))
    else
      var m := s.meth.value;
      Ok(s.(meth := Some(m.(counters := m.counters[attrs["type"] := Counter(attrs["missed"], attrs["covered"])]))))
  }

  function EndPackage(s: State): (t: State)
    ensures t.package.None? && t.(package := s.package) == s
  {
    s.(package := None)
  }

  function EndClass(s: State): (t: State)
    ensures t.cls.None? && t.(cls := s.cls) == s
  {
    s.(cls := None)
  }

  /** The column for one metric of the open method, with a failure labelled by the metric. */
  function MetricCell(counters: map<string, Counter>, metric: string): (r: Result<Cell, Error>)
    ensures metric !in counters ==> r == Ok(NotApplicable)
    ensures metric in counters ==>
      var c := Coverage.Coverage(Some(counters[metric]));
      && (r.Ok? <==> c.Ok?)
      && (c.Ok? ==> r.value == c.value)
      && (c.Err? && c.error.BadCount? ==> r == Err(InvalidCount(metric, c.error.text)))
      && (c.Err? && c.error.ZeroTotal? ==> r == Err(UndefinedCoverage(metric)))
  {
    match Coverage.Coverage(Lookup(counters, metric))
    case Ok(cell) => Ok(cell)
    case Err(BadCount(text)) => Err(InvalidCount(metric, text))
    case Err(ZeroTotal) => Err(UndefinedCoverage(metric))
  }

  /** The row that closing the method writes, or the first failure Python
      meets while building it: the counters of the method record, then the
      package name, the class name, the INSTRUCTION column, the BRANCH column. */
  function CurrentRow(s: State): (r: Result<Row, Error>)
    ensures s.meth.None? ==> r == Err(NoOpenMethod)
    ensures s.meth.Some? && s.package.None? ==> r == Err(NoPackageName)
    ensures s.meth.Some? && s.package.Some? && s.cls.None? ==> r == Err(NoClassName)
    ensures r.Ok? <==>
      && s.meth.Some? && s.package.Some? && s.cls.Some?
      && MetricCell(s.meth.value.counters, "INSTRUCTION").Ok?
      && MetricCell(s.meth.value.counters, "BRANCH").Ok?
    ensures s.meth.Some? && s.package.Some? && s.cls.Some? ==>
      && (MetricCell(s.meth.value.counters, "INSTRUCTION").Err? ==>
            r == Err(MetricCell(s.meth.value.counters, "INSTRUCTION").error))
      && (MetricCell(s.meth.value.counters, "INSTRUCTION").Ok? &&
          MetricCell(s.meth.value.counters, "BRANCH").Err? ==>
            r == Err(MetricCell(s.meth.value.counters, "BRANCH").error))
    ensures r.Ok? ==>
      && s.meth.Some? && s.package.Some? && s.cls.Some?
      && r.value.package == s.package.value
      && r.value.cls == s.cls.value
      && r.value.name == s.meth.value.name
      && r.value.desc == s.meth.value.desc
      && MetricCell(s.meth.value.counters, "INSTRUCTION") == Ok(r.value.instruction)
      && MetricCell(s.meth.value.counters, "BRANCH") == Ok(r.value.branch)
  {
    if s.meth.None? then Err(NoOpenMethod)
    else if s.package.None? then Err(NoPackageName)
    else if s.cls.None? then Err(NoClassName)
    else
      var m := s.meth.value;
      match MetricCell(m.counters, "INSTRUCTION")
      case Err(e) => Err(e)
      case Ok(instruction) =>
        match MetricCell(m.counters, "BRANCH")
        case Err(e) => Err(e)
        case Ok(branch) => Ok(Row(s.package.value, s.cls.value, m.name, m.desc, instruction, branch))
  }

  /** Closing a method writes exactly one row and empties the method record. */
  function EndMethod(s: State): (r: Result<State, Error>)
    ensures r.Ok? <==> CurrentRow(s).Ok? && s.started
    ensures CurrentRow(s).Err? ==> r == Err(CurrentRow(s).error)
    ensures CurrentRow(s).Ok? && !s.started ==> r == Err(NotStarted)
    ensures r.Ok? ==>
      && r.value.lines == s.lines + [DataLine(CurrentRow(s).value)]
      && !IsInMethod(r.value)
      && r.value.started == s.started && r.value.package == s.package && r.value.cls == s.cls
  {
    match CurrentRow(s)
    case Err(e) => Err(e)
    case Ok(row) =>
      if !s.started then Err(NotStarted)
      else Ok(s.(lines := s.lines + [DataLine(row)], meth := None))
  }

  /** `startElement`: dispatch on the element name; other elements change nothing. */
  function OnStartElement(s: State, name: string, attrs: map<string, string>): (r: Result<State, Error>)
    ensures name !in {"package", "class", "method", "counter"} ==> r == Ok(s)
    ensures r.Ok? ==> r.value.lines == s.lines && r.value.started == s.started
  {
    if name == "package" then StartPackage(s, attrs)
    else if name == "class" then StartClass(s, attrs)
    else if name == "method" then StartMethod(s, attrs)
    else if name == "counter" then StartCounter(s, attrs)
    else Ok(s)
  }

  /** `endElement`: dispatch on the element name; closing a counter or any
      other element changes nothing. */
  function OnEndElement(s: State, name: string): (r: Result<State, Error>)
    ensures name !in {"package", "class", "method"} ==> r == Ok(s)
    ensures name != "method" ==> r.Ok?
    ensures r.Ok? && name != "method" ==> r.value.lines == s.lines
  {
    if name == "package" then Ok(EndPackage(s))
    else if name == "class" then Ok(EndClass(s))
    else if name == "method" then EndMethod(s)
    else Ok(s)
  }

  /** The number of lines an event writes when it succeeds: one for a
      document start or a method close, none otherwise. */
  function Emitted(e: Event): nat
  {
    if e.DocumentStart? || e == ElementEnd("method") then 1 else 0
  }

  /** The handler's reaction to one event. A successful event only appends
      to the output, and only an element start or a method close can fail. */
  function Step(s: State, e: Event): (r: Result<State, Error>)
    ensures r.Ok? ==> s.lines <= r.value.lines && |r.value.lines| == |s.lines| + Emitted(e)
    ensures r.Err? ==> e.ElementStart? || e == ElementEnd("method")
    ensures e.DocumentEnd? ==> r == Ok(s)
  {
    match e
    case DocumentStart => Ok(StartDocument(s))
    case DocumentEnd => Ok(s)
    case ElementStart(name, attrs) => OnStartElement(s, name, attrs)
    case ElementEnd(name) => OnEndElement(s, name)
  }

  /** The output starts with the header exactly when the document has started,
      and nothing is written before that. */
  predicate WellFormed(s: State)
  {
    && (s.started ==> |s.lines| > 0 && s.lines[0] == HeaderLine(FormatHeader()))
    && (!s.started ==> s.lines == [])
  }

  lemma StepPreservesWellFormed(s: State, e: Event)
    requires WellFormed(s)
    ensures Step(s, e).Ok? ==> WellFormed(Step(s, e).value)
  {
  }

  /** Once a method has been closed, counters are dropped until the next method opens. */
  lemma CounterAfterMethodCloseDropped(s: State, attrs: map<string, string>)
    ensures EndMethod(s).Ok? ==>
      Step(EndMethod(s).value, ElementStart("counter", attrs)) == Ok(EndMethod(s).value)
  {
  }
}
