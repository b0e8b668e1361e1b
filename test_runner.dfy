/** One test case and the failure boundary around it: `TestRunner::run`, its two
    `reportError` overloads, and `TestResultCollector`, whose output (one
    `std::endl`-terminated write per report on `std::cout`) is the `output`
    sequence of a collector object.

    A test case is its name (the `testName` the `TEST` macro gives the test's
    class) and its body (the class constructor), written as the sequence of
    assertion macros and throws it performs. */
module TestRunner {
  import opened CText
  import opened Messages
  import opened Assertions

  /** The `testName` the `TEST(suite, test)` macro declares. */
  function TestLabel(suite: CString, test: CString): CString
  {
    "[test <" + (test + ("> in suite <" + (suite + ">]")))
  }

  /** One use of an assertion macro, with its arguments as evaluated and, for
      the boolean ones, their spelling. */
  datatype Check =
    | IsTrue(value: bool, text: CString)                 // ASSERT_TRUE
    | IsFalse(value: bool, text: CString)                // ASSERT_FALSE
    | IsNull(pointer: int, text: CString)                // ASSERT_NULL
    | IsNotNull(pointer: int, text: CString)             // ASSERT_NOT_NULL
    | EqualCStrings(expected: CString, actual: CString)  // ASSERT_EQUAL on const char *
    | EqualInts(expectedInt: int, actualInt: int)        // ASSERT_EQUAL on int
    | EqualStrings(expectedText: string, actualText: string)  // ASSERT_EQUAL on std::string
    | Fails(message: CString)                            // FAIL

  /** Whether a check holds, stated independently of how the engine decides it. */
  predicate Holds(c: Check)
  {
    match c
    case IsTrue(v, _) => v
    case IsFalse(v, _) => !v
    case IsNull(p, _) => p == 0
    case IsNotNull(p, _) => p != 0
    case EqualCStrings(e, a) => e == a
    case EqualInts(e, a) => e == a
    case EqualStrings(e, a) => e == a
    case Fails(_) => false
  }

  /** What a test body does, one statement at a time. */
  datatype Statement =
    | Macro(fileName: CString, lineNumber: nat, check: Check)
    | ThrowFailure(message: CString)  // throws a cuu_exception of its own
    | ThrowStd(what: CString)   // throws some std::exception whose what() is this
    | ThrowOther                // throws something that is not a std::exception

  datatype TestCase = TestCase(testName: CString, body: seq<Statement>)

  /** How constructing the test's class ends. */
  datatype Completion =
    | Completed
    | ThrewFailure(failure: Failure)
    | ThrewStd(what: CString)
    | ThrewUnknown

  /** The expansion of one macro at its call site. */
  function Evaluate(c: Check, fileName: CString, lineNumber: nat, testName: CString): (r: Outcome)
    ensures r.Returns? <==> Holds(c)
    ensures r.Throws? ==> ErrorLocation(fileName, lineNumber, testName) <= r.failure.message
  {
    match c
    case IsTrue(v, t) => AssertTrue(v, t, fileName, lineNumber, testName)
    case IsFalse(v, t) => AssertFalse(v, t, fileName, lineNumber, testName)
    case IsNull(p, t) => AssertNull(p, t, fileName, lineNumber, testName)
    case IsNotNull(p, t) => AssertNotNull(p, t, fileName, lineNumber, testName)
    case EqualCStrings(e, a) => AssertEqualCStrings(e, a, fileName, lineNumber, testName)
    case EqualInts(e, a) => AssertEqualInts(e, a, fileName, lineNumber, testName)
    case EqualStrings(e, a) => AssertEqualStrings(e, a, fileName, lineNumber, testName)
    case Fails(m) => Fail(m, fileName, lineNumber, testName)
  }

  /** A statement that does not throw lets the body go on. */
  predicate Passes(s: Statement)
  {
    s.Macro? && Holds(s.check)
  }

  function Step(s: Statement, testName: CString): (c: Completion)
    ensures c.Completed? <==> Passes(s)
  {
    match s
    case Macro(f, n, check) =>
      (match Evaluate(check, f, n, testName)
       case Returns => Completed
       case Throws(e) => ThrewFailure(e))
    case ThrowFailure(m) => ThrewFailure(Failure(m))
    case ThrowStd(w) => ThrewStd(w)
    case ThrowOther => ThrewUnknown
  }

  /** The position of the first statement that does not pass, or the length
      of the body when every one does. */
  function FirstFailing(body: seq<Statement>): (k: nat)
    ensures k <= |body|
    ensures forall i :: 0 <= i < k ==> Passes(body[i])
    ensures k < |body| ==> !Passes(body[k])
  {
    if body == [] || !Passes(body[0]) then 0 else 1 + FirstFailing(body[1..])
  }

  /** Running the body: the first statement that throws ends it, and nothing
      after it runs. */
  function Execute(body: seq<Statement>, testName: CString): (c: Completion)
    ensures c.Completed? <==> FirstFailing(body) == |body|
    ensures FirstFailing(body) < |body| ==> c == Step(body[FirstFailing(body)], testName)
  {
    if body == [] then Completed
    else
      var first := Step(body[0], testName);
      if !first.Completed? then first
      else
        var c := Execute(body[1..], testName);
        assert FirstFailing(body) == 1 + FirstFailing(body[1..]);
        c
  }

  /** `reportError(description)`: the description followed by the test's name. */
  function Described(description: CString, testName: CString): CString
  {
    description + " in " + testName
  }

  /** The report `TestRunner::run` writes for each way the body can end. */
  function Report(c: Completion, testName: CString): (r: Option<CString>)
    ensures r.None? <==> c.Completed?
    ensures c.ThrewFailure? ==> r == Some(c.failure.message)
    ensures c.ThrewStd? ==> r == Some(Described("Caught exception: " + c.what, testName))
    ensures c.ThrewUnknown? ==> r == Some(Described("Caught unknown exception", testName))
  {
    match c
    case Completed => None
    case ThrewFailure(e) => Some(e.message)
    case ThrewStd(w) => Some(Described("Caught exception: " + w, testName))
    case ThrewUnknown => Some(Described("Caught unknown exception", testName))
  }

  /** What one run of a test case writes: nothing if it completes, one report if not. */
  function Reports(tc: TestCase): (r: seq<CString>)
    ensures |r| <= 1
    ensures r == [] <==> forall i :: 0 <= i < |tc.body| ==> Passes(tc.body[i])
  {
    match Report(Execute(tc.body, tc.testName), tc.testName)
    case None => []
    case Some(line) => [line]
  }

  /** The exact report of a statement that does not pass, written with the
      message builders and independently of the assertion engine. */
  function ReportText(s: Statement, testName: CString): string
  {
    match s
    case Macro(f, n, c) =>
      (match c
       case IsTrue(v, t) => BoolErrorMessage(f, n, testName, t, v)
       case IsFalse(v, t) => BoolErrorMessage(f, n, testName, t, v)
       case IsNull(p, t) => BoolErrorMessage(f, n, testName, "(" + t + ") == 0", p == 0)
       case IsNotNull(p, t) => BoolErrorMessage(f, n, testName, "(" + t + ") != 0", p != 0)
       case EqualCStrings(e, a) => EqualsErrorMessage(f, n, testName, e, a)
       case EqualInts(e, a) => EqualsErrorMessage(f, n, testName, IntToDecimal(e), IntToDecimal(a))
       case EqualStrings(e, a) => CStr(EqualsErrorMessage(f, n, testName, e, a))
       case Fails(m) => FailErrorMessage(f, n, testName, m))
    case ThrowFailure(m) => m
    case ThrowStd(w) => "Caught exception: " + w + " in " + testName
    case ThrowOther => "Caught unknown exception in " + testName
  }

  /** A statement that does not pass is reported with exactly its text: the
      builder message of its macro, a body-thrown `cuu_exception` verbatim,
      anything else wrapped with the test's name. */
  lemma StatementReport(s: Statement, testName: CString)
    requires !Passes(s)
    ensures Report(Step(s, testName), testName).Some?
    ensures Report(Step(s, testName), testName).value == ReportText(s, testName)
  {
    match s
    case Macro(f, n, c) =>
      match c {
        case IsTrue(v, t) => BoolMessageWords(f, n, testName, t, v);
        case IsFalse(v, t) => BoolMessageWords(f, n, testName, t, v);
        case IsNull(p, t) => BoolMessageWords(f, n, testName, "(" + t + ") == 0", p == 0);
        case IsNotNull(p, t) => BoolMessageWords(f, n, testName, "(" + t + ") != 0", p != 0);
        case EqualCStrings(_, _) =>
        case EqualInts(_, _) =>
        case EqualStrings(_, _) =>
        case Fails(_) =>
      }
    case ThrowFailure(_) =>
    case ThrowStd(_) =>
    case ThrowOther =>
      assert "Caught unknown exception" + " in " == "Caught unknown exception in ";
  }

  /** A test case that does not complete writes exactly one report: the text
      of its first statement that does not pass. */
  lemma FailingReport(tc: TestCase)
    requires FirstFailing(tc.body) < |tc.body|
    ensures |Reports(tc)| == 1
    ensures Reports(tc)[0] == ReportText(tc.body[FirstFailing(tc.body)], tc.testName)
  {
    StatementReport(tc.body[FirstFailing(tc.body)], tc.testName);
  }

  /** Every report a run writes names the test it came from (an assertion's
      message through its location, a non-harness throw through " in <name>"),
      unless it is the message of a `cuu_exception` the body threw itself. */
  lemma ReportsNameTheTest(tc: TestCase)
    ensures forall line :: line in Reports(tc) ==>
      Contains(line, tc.testName) || ThrowFailure(line) in tc.body
  {
    var c := Execute(tc.body, tc.testName);
    match c
    case Completed =>
    case ThrewFailure(e) =>
      var s := tc.body[FirstFailing(tc.body)];
      if s.Macro? {
        FailureNamesTest(s, tc.testName, e);
      } else {
        assert s == ThrowFailure(e.message);
      }
    case ThrewStd(w) =>
      DescribedNamesTest("Caught exception: " + w, tc.testName);
    case ThrewUnknown =>
      DescribedNamesTest("Caught unknown exception", tc.testName);
  }

  /** A failed assertion's message names the test through its location. */
  lemma FailureNamesTest(s: Statement, testName: CString, e: Failure)
    requires s.Macro? && Step(s, testName) == ThrewFailure(e)
    ensures Contains(e.message, testName)
  {
    var loc := ErrorLocation(s.fileName, s.lineNumber, testName);
    assert loc <= e.message;
    assert e.message == loc + e.message[|loc|..];
    LocationNamesTest(s.fileName, s.lineNumber, testName, e.message[|loc|..]);
  }

  lemma DescribedNamesTest(description: CString, testName: CString)
    ensures Contains(Described(description, testName), testName)
  {
    var pre := description + " in ";
    assert Described(description, testName) == pre + testName;
    assert Described(description, testName)[|pre|..] == testName;
  }

  /** `TestResultCollector`, with `std::cout` as the reports written so far. */
  class ResultCollector {
    var output: seq<CString>

    constructor ()
      ensures output == []
    {
      output := [];
    }

    /** `addException`: writes the exception's message, then `std::endl`. */
    method AddException(e: Failure)
      modifies this
      ensures output == old(output) + [e.message]
    {
      output := output + [e.message];
    }
  }

  /** `TestRunner::run`: builds a fresh instance of the test (running its body)
      and turns every exception into exactly one report; nothing propagates. */
  method Run(tc: TestCase, collector: ResultCollector)
    modifies collector
    ensures collector.output == old(collector.output) + Reports(tc)
  {
    var ending := Execute(tc.body, tc.testName);
    match ending
    case Completed =>
    case ThrewFailure(e) =>
      ReportFailure(e, collector);
    case ThrewStd(what) =>
      ReportError("Caught exception: " + what, tc.testName, collector);
    case ThrewUnknown =>
      ReportError("Caught unknown exception", tc.testName, collector);
  }

  /** `reportError(const std::string&)`: wraps the description into a new
      `cuu_exception` naming the test and hands it to the collector. */
  method ReportError(description: CString, testName: CString, collector: ResultCollector)
    modifies collector
    ensures collector.output == old(collector.output) + [Described(description, testName)]
  {
    var e := Failure(Described(description, testName));
    ReportFailure(e, collector);
  }

  /** `reportError(cuu_exception&)`: hands the exception to the collector as it is. */
  method ReportFailure(e: Failure, collector: ResultCollector)
    modifies collector
    ensures collector.output == old(collector.output) + [e.message]
  {
    collector.AddException(e);
  }
}
