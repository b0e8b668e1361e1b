/** The failure-message builders of the harness (`cuu_condition_text`,
    `cuu_error_location`, `cuu_fail_error_message`, `cuu_equals_error_message`,
    `cuu_bool_error_message`) and a decoder that reads a message back into its
    parts. The decoder is the partner of the builders: each kind of message
    decodes to exactly the arguments it was built from. */
module Messages {
  import opened CText

  /** `cuu_condition_text`: the word `operator<<` would not give for a bool. */
  function ConditionText(value: bool): (r: CString)
    ensures r == "true" || r == "false"
    ensures r == "true" <==> value
  {
    if value then "true" else "false"
  }

  // Each builder appends its pieces in the order the source streams them into
  // its buffer; the parentheses group them from the right, which is the same text.

  /** `cuu_error_location`: where a check failed, followed by a single space. */
  function ErrorLocation(fileName: CString, lineNumber: nat, testName: CString): CString
  {
    fileName + (":" + (NatToDecimal(lineNumber) + (": " + (testName + " "))))
  }

  /** `cuu_fail_error_message`. */
  function FailErrorMessage(fileName: CString, lineNumber: nat, testName: CString,
                            message: CString): CString
  {
    ErrorLocation(fileName, lineNumber, testName) + ("error: " + message)
  }

  /** `cuu_equals_error_message`, with `expected` and `actual` already rendered
      by `operator<<` (a `std::string` rendering may hold NUL characters). */
  function EqualsErrorMessage(fileName: CString, lineNumber: nat, testName: CString,
                              expected: string, actual: string): string
  {
    ErrorLocation(fileName, lineNumber, testName)
      + ("expected: " + ("<" + (expected + ("> but was: <" + (actual + ">")))))
  }

  /** `cuu_bool_error_message`: names the value the expression should have had. */
  function BoolErrorMessage(fileName: CString, lineNumber: nat, testName: CString,
                            boolToCheckText: CString, boolToCheck: bool): CString
  {
    ErrorLocation(fileName, lineNumber, testName)
      + ("expected: " + (boolToCheckText + (" to be " + ConditionText(!boolToCheck))))
  }

  /** The closing words of a boolean message: the observed value negated. */
  lemma BoolMessageWords(fileName: CString, lineNumber: nat, testName: CString,
                         boolToCheckText: CString, boolToCheck: bool)
    ensures BoolErrorMessage(fileName, lineNumber, testName, boolToCheckText, boolToCheck)
         == ErrorLocation(fileName, lineNumber, testName)
              + ("expected: " + (boolToCheckText + (if boolToCheck then " to be false" else " to be true")))
  {
    if boolToCheck {
      assert " to be " + ConditionText(false) == " to be false";
    } else {
      assert " to be " + ConditionText(true) == " to be true";
    }
  }

  /** An equals message has a NUL in it only if one of the renderings has. */
  lemma EqualsMessageClean(fileName: CString, lineNumber: nat, testName: CString,
                           expected: string, actual: string)
    ensures '\0' !in expected && '\0' !in actual ==>
      '\0' !in EqualsErrorMessage(fileName, lineNumber, testName, expected, actual)
  {
    assert '\0' !in "> but was: <" && '\0' !in ">";
    assert '\0' !in "expected: " && '\0' !in "<";
  }

  // ---------------------------------------------------------------------------
  // Reading messages back

  /** What a failure message says after its location. */
  datatype Detail =
    | Error(message: string)
    | NotEqual(expected: string, actual: string)
    | NotAsExpected(text: string, shouldBe: bool)

  datatype Diagnostic = Diagnostic(fileName: string, lineNumber: nat, detail: Detail)

  /** Reads a failure message of the test named testName: the file name up to
      the first ':', the line number, the test name, then the detail. */
  function Decode(s: string, testName: string): Option<Diagnostic>
  {
    var i := IndexOf(s, ':');
    if i == |s| then None else DecodeLine(s[..i], s[i + 1..], testName)
  }

  function DecodeLine(fileName: string, rest: string, testName: string): Option<Diagnostic>
  {
    var k := DigitRun(rest);
    if k == 0 then None else DecodeTail(fileName, ParseDecimal(rest[..k]), rest[k..], testName)
  }

  function DecodeTail(fileName: string, lineNumber: nat, rest: string, testName: string)
    : Option<Diagnostic>
  {
    match StripPrefix(rest, ": " + (testName + " "))
    case None => None
    case Some(detail) =>
      match DecodeDetail(detail)
      case None => None
      case Some(d) => Some(Diagnostic(fileName, lineNumber, d))
  }

  function DecodeDetail(d: string): Option<Detail>
  {
    match StripPrefix(d, "error: ")
    case Some(m) => Some(Error(m))
    case None =>
      match StripPrefix(d, "expected: ")
      case None => None
      case Some(e) =>
        match StripSuffix(e, " to be true")
        case Some(x) => Some(NotAsExpected(x, true))
        case None =>
          match StripSuffix(e, " to be false")
          case Some(x) => Some(NotAsExpected(x, false))
          case None => DecodeComparison(e)
  }

  /** Reads `<expected> but was: <actual>`. */
  function DecodeComparison(e: string): Option<Detail>
  {
    match StripPrefix(e, "<")
    case None => None
    case Some(e1) =>
      match StripSuffix(e1, ">")
      case None => None
      case Some(inner) => SplitComparison(inner)
  }

  /** Splits `expected> but was: <actual` at its first '>'. */
  function SplitComparison(inner: string): Option<Detail>
  {
    var j := IndexOf(inner, '>');
    match StripPrefix(inner[j..], "> but was: <")
    case None => None
    case Some(a) => Some(NotEqual(inner[..j], a))
  }

  /** A location followed by more text, grouped from the right. */
  lemma LocationThen(fileName: CString, lineNumber: nat, testName: CString, detail: string)
    ensures ErrorLocation(fileName, lineNumber, testName) + detail
         == fileName + ([':'] + (NatToDecimal(lineNumber) + ((": " + (testName + " ")) + detail)))
  {
    var digits := NatToDecimal(lineNumber);
    var tail := ": " + (testName + " ");
    Associative(fileName, ":" + (digits + tail), detail);
    Associative(":", digits + tail, detail);
    Associative(digits, tail, detail);
  }

  /** The file name is read up to the first ':', when it has none itself. */
  lemma DecodeFileName(fileName: string, rest: string, testName: string)
    requires ':' !in fileName
    ensures Decode(fileName + ([':'] + rest), testName) == DecodeLine(fileName, rest, testName)
  {
    var s := fileName + ([':'] + rest);
    assert s == fileName + [':'] + rest;
    IndexOfAfter(fileName, ':', rest);
    PrefixOfAppend(fileName, [':'] + rest);
    assert s[|fileName| + 1..] == rest;
  }

  /** The line number is read back from its numeral. */
  lemma DecodeLineNumber(fileName: string, lineNumber: nat, rest: string, testName: string)
    requires rest != [] && rest[0] == ':'
    ensures DecodeLine(fileName, NatToDecimal(lineNumber) + rest, testName)
         == DecodeTail(fileName, lineNumber, rest, testName)
  {
    var digits := NatToDecimal(lineNumber);
    DigitRunOf(digits, rest);
    PrefixOfAppend(digits, rest);
    assert (digits + rest)[|digits|..] == rest;
    DecimalRoundTrip(lineNumber);
  }

  /** The location is read back exactly, whatever follows it, when the file
      name has no ':' in it. */
  lemma DecodeLocation(fileName: CString, lineNumber: nat, testName: CString, detail: string)
    requires ':' !in fileName
    ensures Decode(ErrorLocation(fileName, lineNumber, testName) + detail, testName)
         == match DecodeDetail(detail)
            case None => None
            case Some(d) => Some(Diagnostic(fileName, lineNumber, d))
  {
    var tail := ": " + (testName + " ");
    LocationThen(fileName, lineNumber, testName, detail);
    DecodeFileName(fileName, NatToDecimal(lineNumber) + (tail + detail), testName);
    DecodeLineNumber(fileName, lineNumber, tail + detail, testName);
    StripPrefixOf(tail, detail);
  }

  /** A `cuu_fail_error_message` reads back as its location and message. */
  lemma DecodeFailMessage(fileName: CString, lineNumber: nat, testName: CString, message: CString)
    requires ':' !in fileName
    ensures Decode(FailErrorMessage(fileName, lineNumber, testName, message), testName)
         == Some(Diagnostic(fileName, lineNumber, Error(message)))
  {
    StripPrefixOf("error: ", message);
    DecodeLocation(fileName, lineNumber, testName, "error: " + message);
  }

  /** A detail that starts with "expected: " is not read as an "error: " one. */
  lemma NotAnErrorDetail(e: string)
    ensures StripPrefix("expected: " + e, "error: ") == None
    ensures StripPrefix("expected: " + e, "expected: ") == Some(e)
  {
    assert ("expected: " + e)[1] == 'x';
    StripPrefixOf("expected: ", e);
  }

  /** A `cuu_bool_error_message` reads back as its location, the expression's
      text and the NEGATION of the value that was observed. */
  lemma DecodeBoolMessage(fileName: CString, lineNumber: nat, testName: CString,
                          boolToCheckText: CString, boolToCheck: bool)
    requires ':' !in fileName
    ensures Decode(BoolErrorMessage(fileName, lineNumber, testName, boolToCheckText, boolToCheck), testName)
         == Some(Diagnostic(fileName, lineNumber, NotAsExpected(boolToCheckText, !boolToCheck)))
  {
    var e := boolToCheckText + (" to be " + ConditionText(!boolToCheck));
    NotAnErrorDetail(e);
    if boolToCheck {
      assert " to be " + ConditionText(!boolToCheck) == " to be false";
      assert e[|e| - 11] == 't';
      assert StripSuffix(e, " to be true") == None;
      StripSuffixOf(boolToCheckText, " to be false");
    } else {
      assert " to be " + ConditionText(!boolToCheck) == " to be true";
      StripSuffixOf(boolToCheckText, " to be true");
    }
    DecodeLocation(fileName, lineNumber, testName, "expected: " + e);
  }

  /** A `cuu_equals_error_message` reads back as its location and the two
      renderings, provided the expected rendering has no '>' in it (numbers
      never do). */
  lemma DecodeEqualsMessage(fileName: CString, lineNumber: nat, testName: CString,
                            expected: string, actual: string)
    requires ':' !in fileName
    requires '>' !in expected
    ensures Decode(EqualsErrorMessage(fileName, lineNumber, testName, expected, actual), testName)
         == Some(Diagnostic(fileName, lineNumber, NotEqual(expected, actual)))
  {
    var e := "<" + (expected + ("> but was: <" + (actual + ">")));
    DecodeComparisonDetail(e);
    DecodeComparisonOf(expected, actual);
    DecodeLocation(fileName, lineNumber, testName, "expected: " + e);
  }

  lemma DecodeComparisonDetail(e: string)
    requires e != [] && e[|e| - 1] == '>'
    ensures DecodeDetail("expected: " + e) == DecodeComparison(e)
  {
    NotAnErrorDetail(e);
    assert StripSuffix(e, " to be true") == None;
    assert StripSuffix(e, " to be false") == None;
  }

  lemma DecodeComparisonOf(expected: string, actual: string)
    requires '>' !in expected
    ensures DecodeComparison("<" + (expected + ("> but was: <" + (actual + ">"))))
         == Some(NotEqual(expected, actual))
  {
    var inner := expected + ("> but was: <" + actual);
    Associative(expected, "> but was: <" + actual, ">");
    Associative("> but was: <", actual, ">");
    StripPrefixOf("<", inner + ">");
    StripSuffixOf(inner, ">");
    SplitComparisonOf(expected, actual);
  }

  lemma SplitComparisonOf(expected: string, actual: string)
    requires '>' !in expected
    ensures SplitComparison(expected + ("> but was: <" + actual)) == Some(NotEqual(expected, actual))
  {
    var rest := " but was: <" + actual;
    var inner := expected + ("> but was: <" + actual);
    assert "> but was: <" + actual == ['>'] + rest;
    assert inner == expected + ['>'] + rest;
    IndexOfAfter(expected, '>', rest);
    PrefixOfAppend(expected, "> but was: <" + actual);
    assert inner[|expected|..] == "> but was: <" + actual;
    StripPrefixOf("> but was: <", actual);
  }

  /** Without that proviso the equals format is ambiguous: two different pairs
      of renderings give the same message. */
  lemma EqualsMessageAmbiguous(fileName: CString, lineNumber: nat, testName: CString)
    ensures EqualsErrorMessage(fileName, lineNumber, testName, "a> but was: <b", "c")
         == EqualsErrorMessage(fileName, lineNumber, testName, "a", "b> but was: <c")
  {
    assert "a> but was: <b" + ("> but was: <" + ("c" + ">"))
        == "a" + ("> but was: <" + ("b> but was: <c" + ">"));
  }

  /** The location always ends with the test name and one trailing space. */
  lemma LocationEndsWithTestName(fileName: CString, lineNumber: nat, testName: CString)
    ensures EndsWith(ErrorLocation(fileName, lineNumber, testName), ": " + testName + " ")
  {
    var q := ": " + (testName + " ");
    Associative(fileName, ":", NatToDecimal(lineNumber) + q);
    Associative(fileName + ":", NatToDecimal(lineNumber), q);
    SuffixOfAppend(fileName + ":" + NatToDecimal(lineNumber), q);
    assert ": " + testName + " " == q;
  }

  /** Every message begins with its location, so it names the test it came from. */
  lemma LocationNamesTest(fileName: CString, lineNumber: nat, testName: CString, detail: string)
    ensures Contains(ErrorLocation(fileName, lineNumber, testName) + detail, testName)
  {
    var digits := NatToDecimal(lineNumber);
    var pre := fileName + (":" + (digits + ": "));
    var s := ErrorLocation(fileName, lineNumber, testName) + detail;
    Associative(": ", testName + " ", detail);
    Associative(testName, " ", detail);
    Associative(digits, ": ", testName + (" " + detail));
    Associative(":", digits + ": ", testName + (" " + detail));
    Associative(fileName, ":" + (digits + ": "), testName + (" " + detail));
    Associative(fileName, ":" + (digits + (": " + (testName + " "))), detail);
    Associative(":", digits + (": " + (testName + " ")), detail);
    Associative(digits, ": " + (testName + " "), detail);
    assert s == pre + (testName + (" " + detail));
    assert s[|pre|..] == testName + (" " + detail);
    PrefixOfAppend(testName, " " + detail);
  }
}
