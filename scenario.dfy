/**
 * A small report fed to the handler, and what callers can conclude about the
 * output from the contracts alone.
 */
module Scenario {
  import opened Wrappers
  import opened PyInt
  import opened Coverage
  import opened HandlerSpec
  import opened ContentHandler

  /** A single decimal digit is read as its value. */
  lemma IntOneDigit(c: char)
    requires IsDigit(c)
    ensures ParseInt([c]) == Some(c as int - '0' as int)
  {
    assert Strip([c]) == [c];
    assert Ungrouped([c]) == [c] by {
      assert [c][1..] == [];
    }
    assert DigitsValue([c]) == c as int - '0' as int by {
      assert [c][..0] == [];
    }
    assert ParseUnsigned([c]) == Some(c as int - '0' as int);
  }

  lemma StripPadded()
    ensures Strip(" 1_0\n") == "1_0"
  {
  }

  lemma TenGrouped()
    ensures WellGrouped("1_0") && DigitsValue(Ungrouped("1_0")) == 10
  {
    assert Ungrouped("1_0") == "10" by {
      assert Ungrouped("0") == "0";
      assert "1_0"[1..] == "_0" && "_0"[1..] == "0";
    }
    assert DigitsValue("10") == 10 by {
      assert "10"[..1] == "1";
    }
  }

  /** `int()` strips surrounding whitespace and drops an underscore between digits. */
  lemma IntPadded()
    ensures ParseInt(" 1_0\n") == Some(10)
  {
    StripPadded();
    TenGrouped();
    assert ParseUnsigned("1_0") == Some(10);
  }

  /** `int()` reads a minus sign and accepts leading zeros. */
  lemma IntSigned()
    ensures ParseInt("-07") == Some(-7)
  {
    StripSigned();
    SevenGrouped();
    assert ParseUnsigned("07") == Some(7);
  }

  lemma StripSigned()
    ensures Strip("-07") == "-07" && "-07"[1..] == "07"
  {
  }

  lemma SevenGrouped()
    ensures WellGrouped("07") && DigitsValue(Ungrouped("07")) == 7
  {
    assert Ungrouped("07") == "07" by {
      assert "07"[1..] == "7";
    }
    assert DigitsValue("07") == 7 by {
      assert "07"[..1] == "0";
    }
  }

  /** `int()` rejects the empty text, a doubled or leading underscore, and a lone sign. */
  lemma IntRejects()
    ensures ParseInt("") == None
    ensures ParseInt("1__0") == None
    ensures ParseInt("_1") == None
    ensures ParseInt("+") == None
  {
    assert Strip("1__0") == "1__0";
    assert "1__0"[1] == '_' && "1__0"[2] == '_';
    assert Strip("_1") == "_1";
    assert Strip("+") == "+";
  }

  method OneMethodReport()
  {
    var h := new JacocoXmlContentHandler();
    h.StartDocument();
    var err := h.StartElement("report", map["name" := "demo"]);
    assert err.None?;
    // A report-level counter is dropped, and its attributes are never read.
    err := h.StartElement("counter", map[]);
    assert err.None? && h.Snapshot() == StartDocument(Init());
    err := h.StartElement("package", map["name" := "org/example"]);
    err := h.StartElement("class", map["name" := "org/example/Foo"]);
    err := h.StartElement("method", map["name" := "run", "desc" := "(I)V"]);
    assert err.None? && h.IsInMethod();
    assert h.package == Some("org/example") && h.cls == Some("org/example/Foo");
    CloseMethod(h);
  }

  method CloseMethod(h: JacocoXmlContentHandler)
    requires h.Valid() && h.started
    requires h.package == Some("org/example") && h.cls == Some("org/example/Foo")
    requires h.meth == Some(MethodRecord("run", "(I)V", map[]))
    modifies h
  {
    var err := h.StartElement("counter", map["type" := "INSTRUCTION", "missed" := "9", "covered" := "3"]);
    assert err.None? && h.meth == Some(MethodRecord("run", "(I)V", map["INSTRUCTION" := Counter("9", "3")]));
    err := h.EndElement("counter");
    assert err.None? && h.meth == Some(MethodRecord("run", "(I)V", map["INSTRUCTION" := Counter("9", "3")]));
    ReplaceCounter(h);
    WriteRow(h);
  }

  /** A later counter of the same type replaces the earlier one. */
  lemma CounterReplaced(s: State, attrs: map<string, string>)
    requires s.meth == Some(MethodRecord("run", "(I)V", map["INSTRUCTION" := Counter("9", "3")]))
    requires attrs == map["type" := "INSTRUCTION", "missed" := "1", "covered" := "3"]
    ensures OnStartElement(s, "counter", attrs) ==
      Ok(s.(meth := Some(MethodRecord("run", "(I)V", map["INSTRUCTION" := Counter("1", "3")]))))
  {
    assert "type" in attrs && "missed" in attrs && "covered" in attrs;
    assert map["INSTRUCTION" := Counter("9", "3")]["INSTRUCTION" := Counter("1", "3")]
      == map["INSTRUCTION" := Counter("1", "3")];
  }

  method ReplaceCounter(h: JacocoXmlContentHandler)
    requires h.Valid() && h.started
    requires h.package == Some("org/example") && h.cls == Some("org/example/Foo")
    requires h.meth == Some(MethodRecord("run", "(I)V", map["INSTRUCTION" := Counter("9", "3")]))
    modifies h
    ensures h.Valid() && h.started
    ensures h.package == Some("org/example") && h.cls == Some("org/example/Foo")
    ensures h.meth == Some(MethodRecord("run", "(I)V", map["INSTRUCTION" := Counter("1", "3")]))
  {
    var attrs := map["type" := "INSTRUCTION", "missed" := "1", "covered" := "3"];
    CounterReplaced(h.Snapshot(), attrs);
    var err := h.StartElement("counter", attrs);
  }

  /** The counter `missed="1" covered="3"` renders as 75 percent. */
  lemma ThreeOfFour(counters: map<string, Counter>)
    requires counters == map["INSTRUCTION" := Counter("1", "3")]
    ensures MetricCell(counters, "INSTRUCTION") == Ok(Percent(75.0))
    ensures MetricCell(counters, "BRANCH") == Ok(NotApplicable)
  {
    CounterThreeOfFour();
  }

  lemma CounterThreeOfFour()
    ensures Coverage.Coverage(Some(Counter("1", "3"))) == Ok(Percent(75.0))
  {
    IntOneDigit('3');
    IntOneDigit('1');
    assert Percentage(3, 1) == 75.0;
  }

  method WriteRow(h: JacocoXmlContentHandler)
    requires h.Valid() && h.started
    requires h.package == Some("org/example") && h.cls == Some("org/example/Foo")
    requires h.meth == Some(MethodRecord("run", "(I)V", map["INSTRUCTION" := Counter("1", "3")]))
    modifies h
  {
    var lines := h.lines;
    ThreeOfFour(h.meth.value.counters);
    var err := h.EndElement("method");
    assert err.None?;
    // Names and the descriptor are copied verbatim; a missing metric is `n/a`.
    assert h.lines == lines + [DataLine(Row("org/example", "org/example/Foo", "run", "(I)V", Percent(75.0), NotApplicable))];
    // With the method record emptied, a second close fails.
    err := h.EndElement("method");
    assert err == Some(NoOpenMethod);
  }
}
