# cuultralight in Dafny

A model of `cuultralight.h`, a single-header C++ unit-test harness. The model has five modules:

- **CText**: the C-level text the harness handles. A `CString` is the characters behind a `const char *`, so it holds no NUL. `CStr` is `.c_str()` of a `std::string`, which may hold NULs. The module also has `strcmp` and the decimal numerals that `operator<<` writes for `unsigned long` and `int`.
- **Messages**: the five failure-message builders (`cuu_condition_text`, `cuu_error_location`, `cuu_fail_error_message`, `cuu_equals_error_message`, `cuu_bool_error_message`). Their partner is `Decode`, a reader that takes a message apart again. Lemmas show that each kind of message reads back to the file, line and other arguments it was built from, and that the given test name is found after them, when the file name has no ':' (and, for equals messages, the expected rendering has no '>').
- **Assertions**: `cuu_assert_equal` in all three forms (the `const char *` overload, and the template at `int` and at `std::string`), `cuu_assert_bool`, `cuu_fail`, and the `ASSERT_*` and `FAIL` macro expansions. Each is a function returning `Returns` or `Throws(Failure(message))`, where `Failure` is `cuu_exception`.
- **TestRunner**: the parts of one test case.
  - A test case is its `testName` plus its body. The body is the sequence of macros and throws that the test class's constructor performs: a throw of a `cuu_exception` of its own, of another `std::exception`, or of anything else.
  - `Execute` stops at the first statement that throws.
  - `Report` gives the report `TestRunner::run` writes for each of the four ways a body can end.
  - `ResultCollector` is `TestResultCollector`. It is a class whose `output` sequence holds the reports written to `std::cout`, one element per `<< e.what() << std::endl` write.
  - `Run`, `ReportError` and `ReportFailure` are `run` and its two `reportError` overloads. They are module-level methods that take the collector as a parameter and modify it.
- **TestRegistry**: `TestRegistry` is the `Registry` class, which holds a `runners` sequence.
  - `AddRunner` appends to the sequence.
  - `RunAll` is a loop that calls `Run` on every runner in order.
  - `AllReports` is the reference definition of what a whole run writes: each test case's reports, concatenated in order. The lemmas about it cover:
    - one report per failing test;
    - isolation of failures;
    - pass/fail/pass;
    - running a test twice.

The model follows the header's code for every detail of the text. In particular:
- `ASSERT_NULL(x)` is `ASSERT_TRUE((x) == 0)`, so the text in its message is `(x) == 0`, parentheses included. Because the argument passes through `ASSERT_TRUE` before `#x` spells it, the `x` here is the argument's spelling after macro replacement (for example `ASSERT_NULL(NULL)` shows NULL's expansion); `xText` stands for that spelling.
- `cuu_assert_equal` for C strings builds its message from `.c_str()` of the formatted text.
- For `std::string` values, a message is therefore cut at the first NUL inside either value.

## Model

| member | source | states |
|---|---|---|
| CText.CStr | cuultralight.h:92 | `.c_str()` read as a C string is a prefix of the text; it stops only at a NUL; a text with no NUL is kept whole |
| CText.CStrKeepsCleanPrefix | cuultralight.h:104 | truncating at the first NUL never cuts into a NUL-free prefix such as the error location |
| CText.Strcmp | cuultralight.h:90 | `strcmp` written out: walks both strings while the codes agree and returns the difference of the first codes that do not; no `ensures` of its own, its partner is `CText.StrcmpZeroIffEqual` |
| CText.StrcmpZeroIffEqual | cuultralight.h:90 | `strcmp` returns 0 exactly when the two C strings have the same characters (content, not pointer, comparison) |
| CText.NatToDecimal | cuultralight.h:39 | the numeral streamed for the line number is non-empty, all digits, has a leading '0' only for 0, and is exactly "0" for 0 (no leading zeros) |
| CText.DecimalRoundTrip | cuultralight.h:39 | reading back the numeral streamed for a line number gives that number |
| CText.IntToDecimal | cuultralight.h:64 | the numeral streamed for an `int` starts with '-' exactly for negatives and is a well-formed numeral whose magnitude has no leading zeros (it is "0" if it starts with '0') |
| CText.IntRoundTrip | cuultralight.h:64 | reading back the numeral streamed for an `int` gives that `int` |
| Messages.ConditionText | cuultralight.h:27-31 | the word is only ever "true" or "false", and it is "true" exactly for true |
| Messages.ErrorLocation | cuultralight.h:33-41 | exact text `file:line: test ` with its trailing space; no `ensures` of its own, its partners are `Messages.DecodeLocation`, `Messages.LocationEndsWithTestName` and `Messages.LocationNamesTest` |
| Messages.FailErrorMessage | cuultralight.h:43-53 | exact text: the location, "error: " and the message; no `ensures` of its own, its partner is `Messages.DecodeFailMessage` |
| Messages.EqualsErrorMessage | cuultralight.h:55-66 | exact text: the location, "expected: <", the expected rendering, "> but was: <", the actual rendering and ">"; no `ensures` of its own, its partners are `Messages.DecodeEqualsMessage` and `Messages.EqualsMessageClean` |
| Messages.BoolErrorMessage | cuultralight.h:68-80 | exact text: the location, "expected: ", the text, " to be " and the word for the negated value; no `ensures` of its own, its partners are `Messages.BoolMessageWords` and `Messages.DecodeBoolMessage` |
| Messages.BoolMessageWords | cuultralight.h:68-80 | a bool message is the location, "expected: ", the text, then " to be false" for an observed true and " to be true" for an observed false (the observed value negated) |
| Messages.EqualsMessageClean | cuultralight.h:55-66 | an equals message contains a NUL only if one of the two renderings does |
| Messages.DecodeLocation | cuultralight.h:33-41 | the location `file:line: test ` reads back to the same file and line, and the given test name is found after them, whatever follows, when the file name has no ':' |
| Messages.DecodeFailMessage | cuultralight.h:43-53 | a fail message is the location followed by "error: " and the message, and reads back to exactly those |
| Messages.DecodeEqualsMessage | cuultralight.h:55-66 | an equals message is the location followed by "expected: <e> but was: <a>", and reads back to exactly e and a when e has no '>' |
| Messages.DecodeBoolMessage | cuultralight.h:68-80 | a bool message reads back to its location, the expression text and the negation of the observed value |
| Messages.EqualsMessageAmbiguous | cuultralight.h:55-66 | without the proviso on '>', two different pairs of renderings give the same equals message |
| Messages.LocationEndsWithTestName | cuultralight.h:33-41 | the location ends with ": ", the test name and one trailing space |
| Messages.LocationNamesTest | cuultralight.h:33-41 | any message that starts with a location contains the test name |
| Assertions.AssertEqualCStrings | cuultralight.h:83-93 | returns exactly when the characters are equal; otherwise throws the equals message of the two strings, which starts with the location |
| Assertions.AssertEqualInts | cuultralight.h:95-105 | returns exactly when the ints are equal; otherwise throws the equals message of their decimal renderings |
| Assertions.AssertEqualStrings | cuultralight.h:95-105 | returns exactly when the strings are equal; otherwise the message is `.c_str()` of the equals message, that is, the equals message cut at its first NUL; it keeps the whole location, is a prefix of the equals message, and is all of it when neither value holds a NUL |
| Assertions.AssertBool | cuultralight.h:107-118 | returns exactly when the value equals the sense; otherwise throws the location, the text and " to be " followed by the sense |
| Assertions.Fail | cuultralight.h:120-124 | always throws; the message is the fail message, starts with the location and ends with "error: " and the message |
| Assertions.AssertTrue | cuultralight.h:126-127 | throws exactly for false; the message is the location, "expected: ", the text and " to be true" |
| Assertions.AssertFalse | cuultralight.h:129-130 | throws exactly for true; the message is the location, "expected: ", the text and " to be false" |
| Assertions.AssertNull | cuultralight.h:132-133 | throws exactly for a non-null pointer; the message is the location, "expected: ", "(x) == 0" and " to be true" |
| Assertions.AssertNotNull | cuultralight.h:135-136 | throws exactly for a null pointer; the message is the location, "expected: ", "(x) != 0" and " to be true" |
| Assertions.IntComparisonReadsBack | cuultralight.h:95-105 | a failed int comparison reads back to its file, its line and the two ints compared |
| TestRunner.TestLabel | cuultralight.h:227 | exact text `[test <test> in suite <suite>]` that `TEST(suite, test)` declares as `testName`; no `ensures` of its own |
| TestRunner.Evaluate | cuultralight.h:126-142 | a macro returns exactly when its check holds; when it throws, the message starts with that call site's location (the exact message of each macro is stated by `TestRunner.StatementReport`) |
| TestRunner.Step | cuultralight.h:185-188 | a statement lets the body go on exactly when it is a macro whose check holds (how each other statement ends the body is stated by `TestRunner.StatementReport`) |
| TestRunner.FirstFailing | cuultralight.h:185-188 | the first statement that does not pass: every earlier one passes and it does not |
| TestRunner.Execute | cuultralight.h:185-188 | the body completes exactly when every statement passes; otherwise it ends as the first failing statement does, and nothing after it runs |
| TestRunner.Report | cuultralight.h:185-205 | no report for a completed body; a `cuu_exception` verbatim; `Described` of "Caught exception: " + what; `Described` of "Caught unknown exception" |
| TestRunner.ReportText | cuultralight.h:83-205 | reference text of the report of each kind of failing statement, written with the message builders: the bool message of the observed value (with `(x) == 0` / `(x) != 0` for the null checks), the equals message (of the decimal renderings for ints, cut by `.c_str()` for strings), the fail message, a body-thrown `cuu_exception` verbatim, "Caught exception: " + what + " in " + name, "Caught unknown exception in " + name; no `ensures` of its own, its partner is `TestRunner.StatementReport` |
| TestRunner.StatementReport | cuultralight.h:185-209 | a statement that does not pass ends the body with a report that is exactly its `ReportText`, for every kind of macro and throw |
| TestRunner.FailingReport | cuultralight.h:185-209 | a test case that does not complete writes exactly one report, the `ReportText` of its first statement that does not pass |
| TestRunner.Reports | cuultralight.h:185-209 | at most one report per run, and none exactly when every statement passes |
| TestRunner.ReportsNameTheTest | cuultralight.h:185-205 | every report a run writes contains the test's name, unless it is the message of a `cuu_exception` the body threw itself |
| TestRunner.FailureNamesTest | cuultralight.h:189-190 | a failed assertion's message contains the test's name |
| TestRunner.Described | cuultralight.h:200-202 | exact text: the description, " in " and the test name; no `ensures` of its own, its partner is `TestRunner.DescribedNamesTest` |
| TestRunner.DescribedNamesTest | cuultralight.h:200-205 | a wrapped description contains the test's name |
| TestRunner.ResultCollector.constructor | cuultralight.h:145-149 | a collector starts with nothing written |
| TestRunner.ResultCollector.AddException | cuultralight.h:148 | appends the exception's message as one more write, and nothing else |
| TestRunner.Run | cuultralight.h:185-198 | appends exactly the reports `Reports` gives for the test case, and never throws |
| TestRunner.ReportError | cuultralight.h:200-205 | appends the description followed by " in " and the test name |
| TestRunner.ReportFailure | cuultralight.h:207-209 | appends the exception's message unchanged |
| TestRegistry.ConcatAppend | cuultralight.h:174-179 | running two lists in turn writes the reports of the first and then those of the second |
| TestRegistry.AllReportsAppend | cuultralight.h:174-179 | the log of a concatenation of registries is the concatenation of their logs |
| TestRegistry.AllReportsExtend | cuultralight.h:174-179 | running one more test case adds exactly its reports to the end of the log |
| TestRegistry.ReportsIffFailing | cuultralight.h:185-198 | a test case writes one report if some statement fails and none otherwise |
| TestRegistry.ReportCount | cuultralight.h:174-179 | a whole run writes exactly as many reports as there are failing test cases |
| TestRegistry.Isolation | cuultralight.h:174-179 | a failing test case does not stop the ones after it: the log is the earlier reports, its report, then all later reports |
| TestRegistry.RunTwice | cuultralight.h:185-188 | a test case registered twice is run on a fresh instance each time and reports twice |
| TestRegistry.PassFailPass | cuultralight.h:174-179 | pass, fail, pass gives exactly one report, the failing test's |
| TestRegistry.Registry.constructor | cuultralight.h:162 | the registry starts empty |
| TestRegistry.Registry.AddRunner | cuultralight.h:170-172 | appends the runner at the end; earlier entries are unchanged, so the registry only grows |
| TestRegistry.Registry.RunAll | cuultralight.h:174-179 | appends to the collector exactly the in-order concatenation of every runner's reports |
| TestRegistry.ExampleSuite | cuultralight.h:107-118 | a suite of a passing, a failing and a passing test writes one report, which reads back as the failing test's file, line and expectation |

## Left out

- Printing: each `std::cout << e.what() << std::endl` is modelled as appending one report to the collector's `output` sequence. A message that itself holds a newline (for example from `FAIL("a\nb")` or a `what()` with a newline) prints as several lines on the terminal; the model counts reports, not terminal lines. Stream state and flushing are not modelled.
- Registration: the `TEST` macro's class generation and the static-initialization registration through `TestRegistrar` are replaced by explicit `AddRunner` calls. The order of registration across translation units is therefore not modelled. Only the label the macro declares is kept, as `TestRunner.TestLabel`.
- The `instance()` function-local static singleton and the `new TESTRUNNER` heap allocation are replaced by an explicitly constructed `Registry` whose runners are values.
- Generic `operator<<` is modelled only for `const char *`, which the header's own overload at cuultralight.h:83-93 fixes, and for `int` and `std::string`, the two instantiations of the template at cuultralight.h:95-105 this model chooses. Other template arguments are not modelled.
- `ASSERT_EQUAL` on two non-const `char *` (or `char[]`) values: overload resolution picks the template at cuultralight.h:95-105 with `T = char *` over the `const char *` overload, because it needs no qualification conversion, so the pointers rather than the characters are compared and equal buffers at different addresses fail. The model's `Check.EqualCStrings` covers only arguments of type `const char *`; pointer comparison of `char *` is not modelled.
- Virtual dispatch and C++ exception unwinding are modelled as the `Outcome` and `Completion` datatypes. So is the non-const `what()` of `cuu_exception`, which hides rather than overrides `std::exception::what`; it never matters, because `run` catches `cuu_exception` first.
- `main` and the process exit code are not modelled.
- The line number is an unbounded `nat`, not an `unsigned long` of the platform's width (32 or 64 bits); `__LINE__` never comes near the bound.
- The `int` values of `ASSERT_EQUAL` (`Check.EqualInts`, `Assertions.AssertEqualInts`) are unbounded integers, not the platform's `int`. They are only compared and printed, so no behaviour within the range of `int` is lost.
- `strcmp` compares characters as code points, not as bytes; only its zero/non-zero result is used.
- A test body is modelled as a list of statements (assertion macros, a throw of a `cuu_exception`, of another `std::exception`, or of anything else). Arbitrary C++ code in a test's constructor is not modelled. A pointer is modelled as an `int` address, with null as 0.
- Messages.Decode: the read-back lemmas assume that the file name has no ':'. In the equals message, they also assume that the expected rendering has no '>'. `Messages.EqualsMessageAmbiguous` shows that the second assumption is needed.
