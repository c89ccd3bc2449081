# AugmentedDriver core, modelled in Dafny

AugmentedDriver layers waits on top of Selenium and runs JUnit suites. This project covers three
of its parts:

- **`AugmentedWebFunctions`** is the lookup-and-wait facade over one search context. It provides
  `isElement…`, `findElement…`, `findElements…`, `waitElementToNotBe…` and `clickAndPresent`.
  Each comes in a default-timeout form and an `…After(seconds)` form. The boolean queries also
  have an `…Immediate` form. The model covers the routing and error-conversion layer:
  - which polling call each operation makes, with which scope, locator and timeout;
  - which precondition checks run before any lookup;
  - how a `TimeoutException` becomes `false`;
  - how lists are wrapped;
  - the order of events in `clickAndPresentAfter`.
- **`AugmentedBaseTestCase`** holds the run id, the full test name and the session id. It also
  holds the test watcher that reports each outcome to Sauce Labs and Slack.
- **The validity filter** (`TestSuiteRunner.validTest()`) decides which test methods run. Its unit
  test fixes five of the eight combinations of `@Test`, `@Ignore` and `@Quarantine`. For the
  other three, `ValidTest` uses the conjunction "`@Test` and not `@Ignore` and not `@Quarantine`".

## Layout

| file | module | contents |
|---|---|---|
| `java_lang.dfy` | `JavaLang` | `Nullable` (Java null), `Optional`, the exceptions that can be thrown, `Result`, Guava's `isNullOrEmpty`, how `String.format` renders `%s` |
| `web_driver.dfy` | `WebDriver` | locators, element references, search contexts, the `Driver` oracle, and the `Browser` session with its event log |
| `augmented_web_functions.dfy` | `Web` | class `AugmentedWebFunctions` and lemmas about it |
| `augmented_base_test_case.dfy` | `TestCases` | class `AugmentedBaseTestCase`, the watcher's report function, the full-test-name round trip |
| `test_suite_runner.dfy` | `Runners` | `ValidTest` and the cases `TestSuiteRunnerTest` checks |

How the model is built:

- **Polling oracle.** The polling in `WebDriverUtil` is not part of this model. A `Driver` value
  answers each polling call with one of three outcomes: `Found`, `TimedOut` (a
  `TimeoutException`) or `Raised` (any other exception). The answer depends on the call and on
  the session's history of lookups and clicks, so a page can change after a click.
- **Pure operations.** Every operation except `clickAndPresent` is a function of that history.
  It returns a `Run`, which pairs the call's result (a value or an exception) with the events the
  call causes.
- **`clickAndPresent`.** It is a method that performs its lookups and its click on the `Browser`.
  That appends them to the browser's log. The method is proved equal to the function
  `ClickAndPresentAfterRun`.
- **Fixed fields.** The facade's fields are `const`. So every operation uses the search context,
  timeout and factory given at construction.

`setSessionId` overwrites the field on every call with a non-empty id, and `SetSessionId` does the
same.

## Model

| member | source | states |
|---|---|---|
| `JavaLang.FormatArg` | src/main/java/com/salesforceiq/augmenteddriver/testcases/AugmentedBaseTestCase.java:70 | a `%s` argument prints as itself, or as "null" when it is null |
| `Web.AugmentedWebFunctions.Create` | src/main/java/com/salesforceiq/augmenteddriver/web/AugmentedWebFunctions.java:24-31 | construction succeeds iff the search context, timeout and factory are all non-null; otherwise it throws NullPointerException; the new object keeps exactly those values |
| `Web.SwallowTimeout` | src/main/java/com/salesforceiq/augmenteddriver/web/AugmentedWebFunctions.java:42-47 | true iff the find returned; false iff it threw TimeoutException; any other exception is rethrown unchanged; the lookups are those of the find |
| `Web.WrapAll` | src/main/java/com/salesforceiq/augmenteddriver/web/AugmentedWebFunctions.java:171-174 | the mapped list has the same length as the driver's list, and entry i is the factory applied to entry i |
| `Web.AugmentedWebFunctions.IsElementPresent` | src/main/java/com/salesforceiq/augmenteddriver/web/AugmentedWebFunctions.java:33-37 | equals `IsElementPresentAfter` with the configured timeout |
| `Web.AugmentedWebFunctions.IsElementPresentAfter` | src/main/java/com/salesforceiq/augmenteddriver/web/AugmentedWebFunctions.java:39-48 | same lookups as `FindElementPresentAfter`; true iff it returns; false iff it times out; other exceptions pass through; never throws TimeoutException |
| `Web.AugmentedWebFunctions.IsElementPresentImmediate` | src/main/java/com/salesforceiq/augmenteddriver/web/AugmentedWebFunctions.java:50-54 | equals `IsElementPresentAfter` with timeout 0 |
| `Web.AugmentedWebFunctions.IsElementVisible` | src/main/java/com/salesforceiq/augmenteddriver/web/AugmentedWebFunctions.java:56-60 | equals `IsElementVisibleAfter` with the configured timeout |
| `Web.AugmentedWebFunctions.IsElementVisibleAfter` | src/main/java/com/salesforceiq/augmenteddriver/web/AugmentedWebFunctions.java:62-71 | same lookups as `FindElementVisibleAfter`; true iff it returns; false iff it times out; other exceptions pass through; never throws TimeoutException |
| `Web.AugmentedWebFunctions.IsElementVisibleImmediate` | src/main/java/com/salesforceiq/augmenteddriver/web/AugmentedWebFunctions.java:73-77 | equals `IsElementVisibleAfter` with timeout 0 |
| `Web.AugmentedWebFunctions.IsElementClickable` | src/main/java/com/salesforceiq/augmenteddriver/web/AugmentedWebFunctions.java:79-83 | equals `IsElementClickableAfter` with the configured timeout |
| `Web.AugmentedWebFunctions.IsElementClickableAfter` | src/main/java/com/salesforceiq/augmenteddriver/web/AugmentedWebFunctions.java:85-94 | same lookups as `FindElementClickableAfter`; true iff it returns; false iff it times out; other exceptions pass through; never throws TimeoutException |
| `Web.AugmentedWebFunctions.IsElementClickableImmediate` | src/main/java/com/salesforceiq/augmenteddriver/web/AugmentedWebFunctions.java:96-100 | equals `IsElementClickableAfter` with timeout 0 |
| `Web.AugmentedWebFunctions.FindElementPresent` | src/main/java/com/salesforceiq/augmenteddriver/web/AugmentedWebFunctions.java:102-106 | equals `FindElementPresentAfter` with the configured timeout |
| `Web.AugmentedWebFunctions.FindElementPresentAfter` | src/main/java/com/salesforceiq/augmenteddriver/web/AugmentedWebFunctions.java:108-112 | a null locator throws NullPointerException with no lookup; otherwise exactly one present-lookup in the facade's context with the caller's timeout; a found element is wrapped by the factory; exceptions pass through |
| `Web.AugmentedWebFunctions.FindElementVisible` | src/main/java/com/salesforceiq/augmenteddriver/web/AugmentedWebFunctions.java:114-118 | equals `FindElementVisibleAfter` with the configured timeout |
| `Web.AugmentedWebFunctions.FindElementVisibleAfter` | src/main/java/com/salesforceiq/augmenteddriver/web/AugmentedWebFunctions.java:120-124 | a null locator throws NullPointerException with no lookup; otherwise exactly one visible-lookup in the facade's context with the caller's timeout, wrapped by the factory; exceptions pass through |
| `Web.AugmentedWebFunctions.FindElementClickable` | src/main/java/com/salesforceiq/augmenteddriver/web/AugmentedWebFunctions.java:126-130 | equals `FindElementClickableAfter` with the configured timeout |
| `Web.AugmentedWebFunctions.FindElementClickableAfter` | src/main/java/com/salesforceiq/augmenteddriver/web/AugmentedWebFunctions.java:132-136 | a null locator throws NullPointerException with no lookup; otherwise exactly one clickable-lookup in the facade's context with the caller's timeout, wrapped by the factory; exceptions pass through |
| `Web.AugmentedWebFunctions.FindElementNotMoving` | src/main/java/com/salesforceiq/augmenteddriver/web/AugmentedWebFunctions.java:138-142 | equals `FindElementNotMovingAfter` with the configured timeout |
| `Web.AugmentedWebFunctions.FindElementNotMovingAfter` | src/main/java/com/salesforceiq/augmenteddriver/web/AugmentedWebFunctions.java:144-148 | a null locator throws NullPointerException with no lookup; otherwise exactly one not-moving lookup in the facade's context with the caller's timeout, wrapped by the factory; exceptions pass through |
| `Web.AugmentedWebFunctions.FindElementContain` | src/main/java/com/salesforceiq/augmenteddriver/web/AugmentedWebFunctions.java:150-153 | equals `FindElementContainAfter` with the configured timeout; with valid arguments it makes the contain-lookup with that timeout |
| `Web.AugmentedWebFunctions.FindElementContainAfter` | src/main/java/com/salesforceiq/augmenteddriver/web/AugmentedWebFunctions.java:155-160 | a null locator throws NullPointerException; then null or empty text throws IllegalArgumentException; neither looks anything up; otherwise exactly one contain-lookup for that text, wrapped by the factory |
| `Web.AugmentedWebFunctions.FindElementsVisible` | src/main/java/com/salesforceiq/augmenteddriver/web/AugmentedWebFunctions.java:162-166 | equals `FindElementsVisibleAfter` with the configured timeout |
| `Web.AugmentedWebFunctions.FindElementsVisibleAfter` | src/main/java/com/salesforceiq/augmenteddriver/web/AugmentedWebFunctions.java:168-175 | a null locator throws NullPointerException with no lookup; otherwise one visible-list lookup; the result has the driver list's length and order, each entry wrapped by the factory; exceptions pass through |
| `Web.AugmentedWebFunctions.FindElementsPresent` | src/main/java/com/salesforceiq/augmenteddriver/web/AugmentedWebFunctions.java:177-181 | equals `FindElementsPresentAfter` with the configured timeout |
| `Web.AugmentedWebFunctions.FindElementsPresentAfter` | src/main/java/com/salesforceiq/augmenteddriver/web/AugmentedWebFunctions.java:183-190 | a null locator throws NullPointerException with no lookup; otherwise one present-list lookup; the result has the driver list's length and order, each entry wrapped by the factory; exceptions pass through |
| `Web.AugmentedWebFunctions.FindElementsClickable` | src/main/java/com/salesforceiq/augmenteddriver/web/AugmentedWebFunctions.java:192-196 | equals `FindElementsClickableAfter` with the configured timeout |
| `Web.AugmentedWebFunctions.FindElementsClickableAfter` | src/main/java/com/salesforceiq/augmenteddriver/web/AugmentedWebFunctions.java:198-205 | a null locator throws NullPointerException with no lookup; otherwise one clickable-list lookup; the result has the driver list's length and order, each entry wrapped by the factory; exceptions pass through |
| `Web.AugmentedWebFunctions.WaitElementToNotBePresent` | src/main/java/com/salesforceiq/augmenteddriver/web/AugmentedWebFunctions.java:207-210 | equals `WaitElementToNotBePresentAfter` with the configured timeout; with a locator it makes the absence wait with that timeout |
| `Web.AugmentedWebFunctions.WaitElementToNotBePresentAfter` | src/main/java/com/salesforceiq/augmenteddriver/web/AugmentedWebFunctions.java:212-216 | a null locator throws NullPointerException with no lookup; otherwise one not-present wait with the same locator and timeout; it returns nothing; its exceptions pass through |
| `Web.AugmentedWebFunctions.WaitElementToNotBeVisible` | src/main/java/com/salesforceiq/augmenteddriver/web/AugmentedWebFunctions.java:218-221 | equals `WaitElementToNotBeVisibleAfter` with the configured timeout; with a locator it makes the absence wait with that timeout |
| `Web.AugmentedWebFunctions.WaitElementToNotBeVisibleAfter` | src/main/java/com/salesforceiq/augmenteddriver/web/AugmentedWebFunctions.java:223-227 | a null locator throws NullPointerException with no lookup; otherwise one not-visible wait with the same locator and timeout; it returns nothing; its exceptions pass through |
| `Web.AugmentedWebFunctions.ClickAndPresentAfterRun` | src/main/java/com/salesforceiq/augmenteddriver/web/AugmentedWebFunctions.java:234-240 | either locator null: NullPointerException and no events. Otherwise the clickable lookup comes first. If it fails, nothing else happens and its exception is thrown. Otherwise exactly one click follows, on the factory-wrapped element. If the click throws, that is the end. Otherwise one present-lookup of `wait` follows, with the same timeout, answered in the history that includes the click. Its result is returned |
| `Web.AugmentedWebFunctions.ClickAndPresentAfter` | src/main/java/com/salesforceiq/augmenteddriver/web/AugmentedWebFunctions.java:234-240 | performing the steps on the browser returns what `ClickAndPresentAfterRun` returns, and appends exactly its events to the log |
| `Web.AugmentedWebFunctions.ClickAndPresent` | src/main/java/com/salesforceiq/augmenteddriver/web/AugmentedWebFunctions.java:229-232 | behaves as `ClickAndPresentAfterRun` with the configured timeout, on result and on log |
| `Web.AugmentedWebFunctions.ClickAndPresentOrder` | src/main/java/com/salesforceiq/augmenteddriver/web/AugmentedWebFunctions.java:234-240 | every lookup of clickAndPresentAfter is in the facade's search context; it clicks at most once; it clicks exactly when both locators are non-null and the clickable find succeeds |
| `TestCases.SessionIdOf` | src/main/java/com/salesforceiq/augmenteddriver/testcases/AugmentedBaseTestCase.java:89-96 | empty iff the stored id is null or empty; otherwise exactly the stored, non-empty id |
| `TestCases.AugmentedBaseTestCase.SessionId` | src/main/java/com/salesforceiq/augmenteddriver/testcases/AugmentedBaseTestCase.java:89-96 | sessionId() is empty iff the field is null or empty; otherwise it yields the stored id |
| `TestCases.AugmentedBaseTestCase.SetSessionId` | src/main/java/com/salesforceiq/augmenteddriver/testcases/AugmentedBaseTestCase.java:81-84 | a null or empty id throws IllegalArgumentException and leaves the field unchanged; any other id is stored exactly, and sessionId() then yields it |
| `TestCases.AugmentedBaseTestCase.GetUniqueId` | src/main/java/com/salesforceiq/augmenteddriver/testcases/AugmentedBaseTestCase.java:60-64 | throws IllegalArgumentException iff the run id is null or empty; otherwise returns it |
| `TestCases.AugmentedBaseTestCase.GetFullTestName` | src/main/java/com/salesforceiq/augmenteddriver/testcases/AugmentedBaseTestCase.java:69-71 | fails, as `getUniqueId` does, iff the run id is null or empty; otherwise it is `uniqueId:shortClass:method` |
| `TestCases.SplitAtColonField` | src/main/java/com/salesforceiq/augmenteddriver/testcases/AugmentedBaseTestCase.java:70 | a colon-free field followed by ':' splits back into that field and the rest |
| `TestCases.FullTestNameRoundTrip` | src/main/java/com/salesforceiq/augmenteddriver/testcases/AugmentedBaseTestCase.java:66-71 | when the run id and class name contain no ':', the full test name parses back into run id, class name and method name |
| `TestCases.ReportCalls` | src/main/java/com/salesforceiq/augmenteddriver/testcases/AugmentedBaseTestCase.java:108-125 | no calls when the session id is null or empty. Otherwise Sauce Labs gets `testPassed(succeeded, id)` iff it is enabled, and Slack gets `passed`/`failed` iff it is enabled. At most these two calls are made, nothing else is called, and Sauce Labs comes first |
| `TestCases.IntegrationsAreIndependent` | src/main/java/com/salesforceiq/augmenteddriver/testcases/AugmentedBaseTestCase.java:108-125 | disabling Sauce Labs removes only its call; disabling Slack removes only Slack's call |
| `TestCases.AugmentedBaseTestCase.OnFailed` | src/main/java/com/salesforceiq/augmenteddriver/testcases/AugmentedBaseTestCase.java:108-115 | appends exactly `ReportCalls` for the failure, with the current session id, to the log of integration calls |
| `TestCases.AugmentedBaseTestCase.OnSucceeded` | src/main/java/com/salesforceiq/augmenteddriver/testcases/AugmentedBaseTestCase.java:118-125 | appends exactly `ReportCalls` for the success, with the current session id, to the log of integration calls |
| `TestCases.UnsetSessionReportsNothing` | src/main/java/com/salesforceiq/augmenteddriver/testcases/AugmentedBaseTestCase.java:79-125 | a fresh test case whose session id was never set makes no integration call, whatever the outcome and whichever integrations are enabled |
| `Runners.ValidTest` | src/test/java/com/salesforceiq/augmenteddriver/runners/TestSuiteRunnerTest.java:29-63 | a valid method carries `@Test`; a method with `@Ignore` or `@Quarantine` is never valid |
| `Runners.ValidMeansOnlyTestMarker` | src/test/java/com/salesforceiq/augmenteddriver/runners/TestSuiteRunnerTest.java:29-63 | a method is valid iff, of `@Test`, `@Ignore` and `@Quarantine`, it carries exactly `@Test` |
| `Runners.MethodWithoutTestAnnotationShouldNotBeValid` | src/test/java/com/salesforceiq/augmenteddriver/runners/TestSuiteRunnerTest.java:29-32 | `method1` (no annotation) is not valid |
| `Runners.MethodWithIgnoreAnnotationShouldNotBeValid` | src/test/java/com/salesforceiq/augmenteddriver/runners/TestSuiteRunnerTest.java:34-38 | `method2` (@Test @Ignore) and `method3` (@Test @Ignore @Quarantine) are not valid |
| `Runners.MethodWithQuarantineShouldNotBeValid` | src/test/java/com/salesforceiq/augmenteddriver/runners/TestSuiteRunnerTest.java:40-43 | `method4` (@Test @Quarantine) is not valid |
| `Runners.MethodWithTestAnnotationWithoutIgnoreAndQuarantineShouldBeValid` | src/test/java/com/salesforceiq/augmenteddriver/runners/TestSuiteRunnerTest.java:45-48 | `method5` (@Test alone) is valid |
| `Runners.ValidityDependsOnlyOnMarkers` | src/test/java/com/salesforceiq/augmenteddriver/runners/TestSuiteRunnerTest.java:54-64 | two methods with the same @Test/@Ignore/@Quarantine markers get the same verdict, whatever their names and other annotations |
| `Runners.ExclusionMarkersOnlyExclude` | src/test/java/com/salesforceiq/augmenteddriver/runners/TestSuiteRunnerTest.java:54-64 | adding @Ignore or @Quarantine to any method makes it invalid |

## Left out

- The polling loop in `WebDriverUtil` is not part of this model: its deadline, poll interval, clock and sleep. Each polling call is an answer from the `Driver` oracle.
- Selenium's `SearchContext`, `By` and `WebElement.click()` are opaque values in this model. So is `AugmentedWebElementFactory.create`, which is the class's `factory` function. A click is a logged event whose outcome the oracle decides.
- An `AugmentedWebElement` can itself be used as a search context for nested lookups. That is not part of this model: the facade's `searchContext` can be `Within` an element, but the element class is not modelled.
- `Integer.valueOf` parsing of the timeout string is left out, because it is a library call. The timeout is given as an `int`.
- The `waitTimeInSeconds()` getter in `AugmentedBaseTestCase` is left out for the same reason.
- `sessionId()` runs through `CompletableFuture.supplyAsync`. Only the value the future yields is modelled, not the asynchrony.
- The source of `Util.shortenClass` is outside this model, so the short class name is a given string.
- `testName.getMethodName()` is a given, possibly null, string.
- `integrations.sauceLabs().isEnabled()` and `integrations.slack().isEnabled()` are fixed flags of each test case. The source asks them afresh on each outcome.
- The Sauce Labs and Slack back-ends are recorded calls only.
- Guice injection, the JUnit `@Rule`/`TestName` plumbing and `@RunWith` are wiring, and are left out.
- `TestRunnerRetryingRule` and `TestSuiteRunner`'s worker pool, scheduling and retries are not part of this model. Their source is outside this model, and they concern concurrency.
- The source of `TestSuiteRunner.validTest()` is outside this model. Its unit test fixes five of the eight marker combinations; `ValidTest` uses the conjunction `@Test` and not `@Ignore` and not `@Quarantine` for the other three.
- The Mockito setup of `TestSuiteRunnerTest` is left out.
