/**
 * `JacocoXmlContentHandler`: the SAX content handler, as an object whose
 * event methods update its records in place and append to its output.
 * Each method is proved to behave as the corresponding function of
 * `HandlerSpec` on the handler's state.
 */
module ContentHandler {
  import opened Wrappers
  import opened Coverage
  import opened HandlerSpec

  /** How an event method's outcome matches a step function's result: on
      success the new state is the step's, on failure the error is reported
      and the state is left as it was. */
  predicate Reflects(r: Result<State, Error>, err: Option<Error>, before: State, after: State)
  {
    match r
    case Ok(t) => err.None? && after == t
    case Err(e) => err == Some(e) && after == before
  }

  class JacocoXmlContentHandler {
    /** Whether `startDocument` has run, so that the output stream exists. */
    var started: bool
    /** The package record: the open package's name, if any. */
    var package: Option<string>
    /** The class record: the open class's name, if any. */
    var cls: Option<string>
    /** The method record: the open method's name, descriptor and counters, if any. */
    var meth: Option<MethodRecord>
    /** The lines written to the output, in order. */
    var lines: seq<Line>

    function Snapshot(): State
      reads this
    {
      State(started, package, cls, meth, lines)
    }

    predicate Valid()
      reads this
    {
      WellFormed(Snapshot())
    }

    constructor ()
      ensures Valid() && Snapshot() == Init()
    {
      started, package, cls, meth, lines := false, None, None, None, [];
    }

    /** The output is started with the header line. */
    method StartDocument()
      requires Valid()
      modifies this
      ensures Valid()
      ensures Snapshot() == HandlerSpec.StartDocument(old(Snapshot()))
      ensures lines == old(lines) + [HeaderLine(FormatHeader())]
    {
      started := true;
      lines := lines + [HeaderLine(FormatHeader())];
    }

    /** `endDocument` does nothing. */
    method EndDocument()
      ensures unchanged(this)
    {
    }

    method StartElement(name: string, attrs: map<string, string>) returns (err: Option<Error>)
      requires Valid()
      modifies this
      ensures Valid()
      ensures Reflects(OnStartElement(old(Snapshot()), name, attrs), err, old(Snapshot()), Snapshot())
    {
      err := None;
      if name == "package" {
        err := StartPackage(attrs);
      } else if name == "class" {
        err := StartClass(attrs);
      } else if name == "method" {
        err := StartMethod(attrs);
      } else if name == "counter" {
        err := StartCounter(attrs);
      }
    }

    method EndElement(name: string) returns (err: Option<Error>)
      requires Valid()
      modifies this
      ensures Valid()
      ensures Reflects(OnEndElement(old(Snapshot()), name), err, old(Snapshot()), Snapshot())
    {
      err := None;
      if name == "package" {
        EndPackage();
      } else if name == "class" {
        EndClass();
      } else if name == "method" {
        err := EndMethod();
      } else if name == "counter" {
        EndCounter();
      }
    }

    method StartPackage(attrs: map<string, string>) returns (err: Option<Error>)
      modifies this
      ensures Reflects(HandlerSpec.StartPackage(old(Snapshot()), attrs), err, old(Snapshot()), Snapshot())
    {
      if "name" !in attrs {
        return Some(MissingAttribute("package", "name"));
      }
      package := Some(attrs["name"]);
      return None;
    }

    method StartClass(attrs: map<string, string>) returns (err: Option<Error>)
      modifies this
      ensures Reflects(HandlerSpec.StartClass(old(Snapshot()), attrs), err, old(Snapshot()), Snapshot())
    {
      if "name" !in attrs {
        return Some(MissingAttribute("class", "name"));
      }
      cls := Some(attrs["name"]);
      return None;
    }

    method StartMethod(attrs: map<string, string>) returns (err: Option<Error>)
      modifies this
      ensures Reflects(HandlerSpec.StartMethod(old(Snapshot()), attrs), err, old(Snapshot()), Snapshot())
      ensures err.None? ==> IsInMethod()
    {
      if "name" !in attrs {
        return Some(MissingAttribute("method", "name"));
      }
      if "desc" !in attrs {
        return Some(MissingAttribute("method", "desc"));
      }
      meth := Some(MethodRecord(attrs["name"], attrs["desc"], map[]));
      return None;
    }

    method StartCounter(attrs: map<string, string>) returns (err: Option<Error>)
      modifies this
      ensures Reflects(HandlerSpec.StartCounter(old(Snapshot()), attrs), err, old(Snapshot()), Snapshot())
      ensures !old(IsInMethod()) ==> err.None? && unchanged(this)
    {
      if IsInMethod() {
        if "type" !in attrs {
          return Some(MissingAttribute("counter", "type"));
        }
        if "missed" !in attrs {
          return Some(MissingAttribute("counter", "missed"));
        }
        if "covered" !in attrs {
          return Some(MissingAttribute("counter", "covered"));
        }
        var m := meth.value;
        meth := Some(m.(counters := m.counters[attrs["type"] := Counter(attrs["missed"], attrs["covered"])]));
      }
      return None;
    }

    method EndPackage()
      modifies this
      ensures Snapshot() == HandlerSpec.EndPackage(old(Snapshot()))
    {
      package := None;
    }

    method EndClass()
      modifies this
      ensures Snapshot() == HandlerSpec.EndClass(old(Snapshot()))
    {
      cls := None;
    }

    /** Writes the method's row, then empties the method record. */
    method EndMethod() returns (err: Option<Error>)
      modifies this
      ensures Reflects(HandlerSpec.EndMethod(old(Snapshot())), err, old(Snapshot()), Snapshot())
      ensures err.None? ==> |lines| == |old(lines)| + 1 && !IsInMethod()
    {
      if meth.None? {
        return Some(NoOpenMethod);
      }
      var counters := meth.value.counters;
      if package.None? {
        return Some(NoPackageName);
      }
      if cls.None? {
        return Some(NoClassName);
      }
      var instruction := MetricCell(counters, "INSTRUCTION");
      if instruction.Err? {
        return Some(instruction.error);
      }
      var branch := MetricCell(counters, "BRANCH");
      if branch.Err? {
        return Some(branch.error);
      }
      if !started {
        return Some(NotStarted);
      }
      var row := Row(package.value, cls.value, meth.value.name, meth.value.desc, instruction.value, branch.value);
      lines := lines + [DataLine(row)];
      meth := None;
      return None;
    }

    /** `endCounter` does nothing. */
    method EndCounter()
      ensures unchanged(this)
    {
    }

    /** `__isInMethod`: the method record is not empty. */
    predicate IsInMethod()
      reads this
      ensures IsInMethod() <==> HandlerSpec.IsInMethod(Snapshot())
    {
      meth.Some?
    }
  }
}
