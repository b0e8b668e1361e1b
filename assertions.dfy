/** The assertion engine: `cuu_assert_equal` (the `const char *` overload and the
    template, instantiated for `int` and `std::string`), `cuu_assert_bool`,
    `cuu_fail`, and what the `ASSERT_*` and `FAIL` macros expand to. Each call
    either returns normally or throws exactly one `cuu_exception`; the throw is
    the `Throws` outcome. */
module Assertions {
  import opened CText
  import opened Messages

  /** `cuu_exception`: one message, the text its `what()` prints. The harness
      builds it from `.c_str()` of a formatted message; a body may also throw
      one with a message of its own. */
  datatype Failure = Failure(message: CString)

  /** How an assertion call ends. */
  datatype Outcome = Returns | Throws(failure: Failure)

  /** `cuu_assert_equal(const char *, const char *, ...)`: compares the
      characters with `strcmp`, never the pointers. */
  function AssertEqualCStrings(expected: CString, actual: CString, fileName: CString,
                               lineNumber: nat, testName: CString): (r: Outcome)
    ensures r.Returns? <==> expected == actual
    ensures r.Throws? ==>
      r.failure.message == EqualsErrorMessage(fileName, lineNumber, testName, expected, actual)
    ensures r.Throws? ==> ErrorLocation(fileName, lineNumber, testName) <= r.failure.message
  {
    StrcmpZeroIffEqual(expected, actual);
    if Strcmp(expected, actual) == 0 then Returns
    else
      var loc := ErrorLocation(fileName, lineNumber, testName);
      PrefixOfAppend(loc, "expected: " + ("<" + (expected + ("> but was: <" + (actual + ">")))));
      EqualsMessageClean(fileName, lineNumber, testName, expected, actual);
      Throws(Failure(CStr(EqualsErrorMessage(fileName, lineNumber, testName, expected, actual))))
  }

  /** `cuu_assert_equal<int>`: `operator==`, values rendered in decimal. */
  function AssertEqualInts(expected: int, actual: int, fileName: CString,
                           lineNumber: nat, testName: CString): (r: Outcome)
    ensures r.Returns? <==> expected == actual
    ensures r.Throws? ==>
      r.failure.message
        == EqualsErrorMessage(fileName, lineNumber, testName, IntToDecimal(expected), IntToDecimal(actual))
    ensures r.Throws? ==> ErrorLocation(fileName, lineNumber, testName) <= r.failure.message
  {
    if expected == actual then Returns
    else
      var loc := ErrorLocation(fileName, lineNumber, testName);
      var e, a := IntToDecimal(expected), IntToDecimal(actual);
      PrefixOfAppend(loc, "expected: " + ("<" + (e + ("> but was: <" + (a + ">")))));
      EqualsMessageClean(fileName, lineNumber, testName, e, a);
      Throws(Failure(CStr(EqualsErrorMessage(fileName, lineNumber, testName, e, a))))
  }

  /** `cuu_assert_equal<std::string>`: compares contents; the message passes
      through `.c_str()`, so it is cut at the first NUL of either value. */
  function AssertEqualStrings(expected: string, actual: string, fileName: CString,
                              lineNumber: nat, testName: CString): (r: Outcome)
    ensures r.Returns? <==> expected == actual
    ensures r.Throws? ==>
      r.failure.message == CStr(EqualsErrorMessage(fileName, lineNumber, testName, expected, actual))
    ensures r.Throws? ==> ErrorLocation(fileName, lineNumber, testName) <= r.failure.message
    ensures r.Throws? ==>
      r.failure.message <= EqualsErrorMessage(fileName, lineNumber, testName, expected, actual)
    ensures r.Throws? && '\0' !in expected && '\0' !in actual ==>
      r.failure.message == EqualsErrorMessage(fileName, lineNumber, testName, expected, actual)
  {
    if expected == actual then Returns
    else
      var loc := ErrorLocation(fileName, lineNumber, testName);
      CStrKeepsCleanPrefix(loc, "expected: " + ("<" + (expected + ("> but was: <" + (actual + ">")))));
      EqualsMessageClean(fileName, lineNumber, testName, expected, actual);
      Throws(Failure(CStr(EqualsErrorMessage(fileName, lineNumber, testName, expected, actual))))
  }

  /** `cuu_assert_bool`: throws exactly when the value is not the expected sense,
      with a message naming the sense that was expected. */
  function AssertBool(boolToCheck: bool, sense: bool, boolToCheckText: CString,
                      fileName: CString, lineNumber: nat, testName: CString): (r: Outcome)
    ensures r.Returns? <==> boolToCheck == sense
    ensures r.Throws? ==>
      r.failure.message == ErrorLocation(fileName, lineNumber, testName)
        + ("expected: " + (boolToCheckText + (if sense then " to be true" else " to be false")))
    ensures r.Throws? ==> ErrorLocation(fileName, lineNumber, testName) <= r.failure.message
  {
    if boolToCheck == sense then Returns
    else
      var loc := ErrorLocation(fileName, lineNumber, testName);
      BoolMessageWords(fileName, lineNumber, testName, boolToCheckText, boolToCheck);
      PrefixOfAppend(loc, "expected: " + (boolToCheckText + (if sense then " to be true" else " to be false")));
      Throws(Failure(CStr(BoolErrorMessage(fileName, lineNumber, testName,
                                           boolToCheckText, boolToCheck))))
  }

  /** `cuu_fail`: always throws. */
  function Fail(message: CString, fileName: CString, lineNumber: nat, testName: CString): (r: Outcome)
    ensures r.Throws?
    ensures r.failure.message == FailErrorMessage(fileName, lineNumber, testName, message)
    ensures EndsWith(r.failure.message, "error: " + message)
    ensures ErrorLocation(fileName, lineNumber, testName) <= r.failure.message
  {
    var loc := ErrorLocation(fileName, lineNumber, testName);
    PrefixOfAppend(loc, "error: " + message);
    SuffixOfAppend(loc, "error: " + message);
    Throws(Failure(CStr(FailErrorMessage(fileName, lineNumber, testName, message))))
  }

  // ---------------------------------------------------------------------------
  // Macro expansions. `#x` is the argument's spelling, passed in as text; for
  // ASSERT_NULL and ASSERT_NOT_NULL it is taken after macro replacement of
  // the argument, since they hand `(x) == 0` or `(x) != 0` on to ASSERT_TRUE.

  /** `ASSERT_TRUE(x)`. */
  function AssertTrue(x: bool, xText: CString, fileName: CString, lineNumber: nat,
                      testName: CString): (r: Outcome)
    ensures r.Throws? <==> !x
    ensures r.Throws? ==>
      r.failure.message == ErrorLocation(fileName, lineNumber, testName)
        + ("expected: " + (xText + " to be true"))
    ensures r.Throws? ==> ErrorLocation(fileName, lineNumber, testName) <= r.failure.message
  {
    AssertBool(x, true, xText, fileName, lineNumber, testName)
  }

  /** `ASSERT_FALSE(x)`. */
  function AssertFalse(x: bool, xText: CString, fileName: CString, lineNumber: nat,
                       testName: CString): (r: Outcome)
    ensures r.Throws? <==> x
    ensures r.Throws? ==>
      r.failure.message == ErrorLocation(fileName, lineNumber, testName)
        + ("expected: " + (xText + " to be false"))
    ensures r.Throws? ==> ErrorLocation(fileName, lineNumber, testName) <= r.failure.message
  {
    AssertBool(x, false, xText, fileName, lineNumber, testName)
  }

  /** `ASSERT_NULL(x)`, that is `ASSERT_TRUE((x) == 0)`; a pointer is its
      address, null being 0. */
  function AssertNull(x: int, xText: CString, fileName: CString, lineNumber: nat,
                      testName: CString): (r: Outcome)
    ensures r.Throws? <==> x != 0
    ensures r.Throws? ==>
      r.failure.message == ErrorLocation(fileName, lineNumber, testName)
        + ("expected: " + (("(" + xText + ") == 0") + " to be true"))
    ensures r.Throws? ==> ErrorLocation(fileName, lineNumber, testName) <= r.failure.message
  {
    AssertTrue(x == 0, "(" + xText + ") == 0", fileName, lineNumber, testName)
  }

  /** `ASSERT_NOT_NULL(x)`, that is `ASSERT_TRUE((x) != 0)`. */
  function AssertNotNull(x: int, xText: CString, fileName: CString, lineNumber: nat,
                         testName: CString): (r: Outcome)
    ensures r.Throws? <==> x == 0
    ensures r.Throws? ==>
      r.failure.message == ErrorLocation(fileName, lineNumber, testName)
        + ("expected: " + (("(" + xText + ") != 0") + " to be true"))
    ensures r.Throws? ==> ErrorLocation(fileName, lineNumber, testName) <= r.failure.message
  {
    AssertTrue(x != 0, "(" + xText + ") != 0", fileName, lineNumber, testName)
  }

  /** A failed integer comparison can be read back to the two numbers compared. */
  lemma {:induction false} IntComparisonReadsBack(expected: int, actual: int, fileName: CString,
                                                  lineNumber: nat, testName: CString)
    requires ':' !in fileName
    requires expected != actual
    ensures
      var r := AssertEqualInts(expected, actual, fileName, lineNumber, testName);
      match Decode(r.failure.message, testName)
      case Some(Diagnostic(f, n, NotEqual(e, a))) =>
        f == fileName && n == lineNumber && IsIntNumeral(e) && IsIntNumeral(a)
        && ParseInt(e) == expected && ParseInt(a) == actual
      case _ => false
  {
    var e := IntToDecimal(expected);
    if expected < 0 {
      DigitsExclude(e[1..], '>');
      assert e == [e[0]] + e[1..];
    } else {
      DigitsExclude(e, '>');
    }
    DecodeEqualsMessage(fileName, lineNumber, testName, e, IntToDecimal(actual));
    IntRoundTrip(expected);
    IntRoundTrip(actual);
  }
}
