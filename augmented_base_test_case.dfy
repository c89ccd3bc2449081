/** AugmentedBaseTestCase: the per-test run identifiers and the test watcher that
    reports each test's outcome to Sauce Labs and Slack. */
module TestCases {
  import opened JavaLang

  /** The JUnit Description of a test. */
  datatype Description = Description(className: string, methodName: string)

  /** How the test body ended, as the watcher sees it. */
  datatype TestOutcome = Succeeded | Failed(error: Exception)

  /** A call the watcher makes on an integration. */
  datatype IntegrationCall =
    | SauceTestPassed(passed: bool, sessionId: string)                              // sauceLabs().testPassed
    | SlackFailed(description: Description, error: Exception, sessionId: string)    // slack().failed
    | SlackPassed(description: Description, sessionId: string)                      // slack().passed

  /** The value sessionId() yields for a stored session id: empty when the field
      is null or empty, the id otherwise. */
  function SessionIdOf(stored: Nullable<string>): (r: Optional<string>)
    ensures r.Empty? <==> IsNullOrEmpty(stored)
    ensures r.Of? ==> stored == NonNull(r.value) && r.value != ""
  {
    if IsNullOrEmpty(stored) then Empty else Of(stored.value)
  }

  /** The text getFullTestName builds: "uniqueId:shortClass:method". */
  function FullTestName(uniqueId: string, shortClass: string, methodName: string): string
  {
    uniqueId + ":" + shortClass + ":" + methodName
  }

  /** The text of `s` up to its first ':', and what follows that ':' (none if there is none). */
  function SplitAtColon(s: string): (r: (string, Nullable<string>))
    ensures ':' !in r.0
  {
    if s == [] then ([], Null)
    else if s[0] == ':' then ([], NonNull(s[1..]))
    else
      var rest := SplitAtColon(s[1..]);
      ([s[0]] + rest.0, rest.1)
  }

  /** Reads a full test name back into its three parts. */
  function ParseFullTestName(name: string): Nullable<(string, string, string)>
  {
    var (uniqueId, afterId) := SplitAtColon(name);
    if afterId.Null? then Null
    else
      var (shortClass, afterClass) := SplitAtColon(afterId.value);
      if afterClass.Null? then Null else NonNull((uniqueId, shortClass, afterClass.value))
  }

  lemma {:induction false} SplitAtColonField(field: string, rest: string)
    requires ':' !in field
    ensures SplitAtColon(field + ":" + rest) == (field, NonNull(rest))
  {
    if field == [] {
      assert field + ":" + rest == [':'] + rest;
    } else {
      var s := field + ":" + rest;
      assert s[0] == field[0] != ':';
      assert s[1..] == field[1..] + ":" + rest;
      SplitAtColonField(field[1..], rest);
      assert [field[0]] + field[1..] == field;
    }
  }

  /** A full test name determines its unique id, short class name and method name,
      provided the first two hold no ':' (a run id is ten digits; a class name is
      a Java identifier). */
  lemma FullTestNameRoundTrip(uniqueId: string, shortClass: string, methodName: string)
    requires ':' !in uniqueId && ':' !in shortClass
    ensures ParseFullTestName(FullTestName(uniqueId, shortClass, methodName))
         == NonNull((uniqueId, shortClass, methodName))
  {
    var name := FullTestName(uniqueId, shortClass, methodName);
    assert name == uniqueId + ":" + (shortClass + ":" + methodName);
    SplitAtColonField(uniqueId, shortClass + ":" + methodName);
    SplitAtColonField(shortClass, methodName);
  }

  /** The Slack call for an outcome. */
  function SlackCall(outcome: TestOutcome, description: Description, id: string): IntegrationCall
  {
    match outcome
    case Succeeded => SlackPassed(description, id)
    case Failed(e) => SlackFailed(description, e, id)
  }

  /** The calls the test watcher makes when a test ends, in order: Sauce Labs first,
      then Slack, each only when that integration is enabled and a session id is set. */
  function ReportCalls(outcome: TestOutcome, description: Description, sauceLabsEnabled: bool,
                       slackEnabled: bool, sessionId: Nullable<string>): (r: seq<IntegrationCall>)
    ensures |r| <= 2
    ensures IsNullOrEmpty(sessionId) ==> r == []
    ensures !IsNullOrEmpty(sessionId) ==>
      (SauceTestPassed(outcome.Succeeded?, sessionId.value) in r <==> sauceLabsEnabled)
    ensures !IsNullOrEmpty(sessionId) ==>
      (SlackCall(outcome, description, sessionId.value) in r <==> slackEnabled)
    ensures forall c :: c in r ==>
      c == SauceTestPassed(outcome.Succeeded?, sessionId.value) || c == SlackCall(outcome, description, sessionId.value)
    ensures |r| == 2 ==> r[0].SauceTestPassed? && !r[1].SauceTestPassed?
  {
    var reportable := !IsNullOrEmpty(sessionId);
    (if sauceLabsEnabled && reportable then [SauceTestPassed(outcome.Succeeded?, sessionId.value)] else [])
    + (if slackEnabled && reportable then [SlackCall(outcome, description, sessionId.value)] else [])
  }

  /** Disabling one integration leaves the other's call as it was. */
  lemma IntegrationsAreIndependent(outcome: TestOutcome, description: Description,
                                   sauceLabsEnabled: bool, slackEnabled: bool, sessionId: Nullable<string>)
    ensures ReportCalls(outcome, description, false, slackEnabled, sessionId)
         == (if sauceLabsEnabled && !IsNullOrEmpty(sessionId) then ReportCalls(outcome, description, sauceLabsEnabled, slackEnabled, sessionId)[1..]
             else ReportCalls(outcome, description, sauceLabsEnabled, slackEnabled, sessionId))
    ensures ReportCalls(outcome, description, sauceLabsEnabled, false, sessionId)
         == ReportCalls(outcome, description, sauceLabsEnabled, slackEnabled, sessionId)[..if sauceLabsEnabled && !IsNullOrEmpty(sessionId) then 1 else 0]
  {
  }

  class AugmentedBaseTestCase {
    const uniqueId: Nullable<string>
    const shortClassName: string          // Util.shortenClass(getClass())
    const methodName: Nullable<string>    // testName.getMethodName()
    const sauceLabsEnabled: bool          // integrations.sauceLabs().isEnabled()
    const slackEnabled: bool              // integrations.slack().isEnabled()
    var sessionId: Nullable<string>
    /** The integration calls made so far, in order. */
    var reports: seq<IntegrationCall>

    constructor (uniqueId: Nullable<string>, shortClassName: string, methodName: Nullable<string>,
                 sauceLabsEnabled: bool, slackEnabled: bool)
      ensures this.uniqueId == uniqueId && this.shortClassName == shortClassName
      ensures this.methodName == methodName
      ensures this.sauceLabsEnabled == sauceLabsEnabled && this.slackEnabled == slackEnabled
      ensures sessionId == Null && reports == []
    {
      this.uniqueId := uniqueId;
      this.shortClassName := shortClassName;
      this.methodName := methodName;
      this.sauceLabsEnabled := sauceLabsEnabled;
      this.slackEnabled := slackEnabled;
      sessionId := Null;
      reports := [];
    }

    function GetUniqueId(): (r: Result<string>)
      ensures r.Err? <==> IsNullOrEmpty(uniqueId)
      ensures r.Err? ==> r.error == IllegalArgument
      ensures r.Ok? ==> uniqueId == NonNull(r.value) && r.value != ""
    {
      if IsNullOrEmpty(uniqueId) then Err(IllegalArgument) else Ok(uniqueId.value)
    }

    /** The name is the run id, the short class name and the method name, joined by
        ':' (String.format renders a null method name as "null"); FullTestNameRoundTrip
        shows the parts can be read back. */
    function GetFullTestName(): (r: Result<string>)
      ensures r.Err? <==> IsNullOrEmpty(uniqueId)
      ensures r.Err? ==> r.error == IllegalArgument
      ensures r.Ok? ==> r.value == FullTestName(uniqueId.value, shortClassName, FormatArg(methodName))
    {
      var id := GetUniqueId();
      if id.Err? then Err(id.error)
      else Ok(FullTestName(id.value, shortClassName, FormatArg(methodName)))
    }

    method SetSessionId(id: Nullable<string>) returns (r: Result<()>)
      modifies this`sessionId
      ensures r.Ok? <==> !IsNullOrEmpty(id)
      ensures r.Err? ==> r.error == IllegalArgument && sessionId == old(sessionId)
      ensures r.Ok? ==> sessionId == id && SessionId() == Of(id.value)
    {
      if IsNullOrEmpty(id) {
        return Err(IllegalArgument);
      }
      sessionId := id;
      r := Ok(());
    }

    /** The value of the future sessionId() returns. */
    function SessionId(): (r: Optional<string>)
      reads this`sessionId
      ensures r.Empty? <==> IsNullOrEmpty(sessionId)
      ensures r.Of? ==> sessionId == NonNull(r.value)
    {
      SessionIdOf(sessionId)
    }

    method OnFailed(e: Exception, description: Description)
      modifies this`reports
      ensures reports == old(reports) + ReportCalls(Failed(e), description, sauceLabsEnabled, slackEnabled, sessionId)
    {
      if sauceLabsEnabled && !IsNullOrEmpty(sessionId) {
        reports := reports + [SauceTestPassed(false, sessionId.value)];
      }
      if slackEnabled && !IsNullOrEmpty(sessionId) {
        reports := reports + [SlackFailed(description, e, sessionId.value)];
      }
    }

    method OnSucceeded(description: Description)
      modifies this`reports
      ensures reports == old(reports) + ReportCalls(Succeeded, description, sauceLabsEnabled, slackEnabled, sessionId)
    {
      if sauceLabsEnabled && !IsNullOrEmpty(sessionId) {
        reports := reports + [SauceTestPassed(true, sessionId.value)];
      }
      if slackEnabled && !IsNullOrEmpty(sessionId) {
        reports := reports + [SlackPassed(description, sessionId.value)];
      }
    }
  }

  /** A test whose session id was never set reports nothing, whatever its outcome
      and whichever integrations are enabled. */
  method UnsetSessionReportsNothing(uniqueId: Nullable<string>, shortClassName: string, methodName: Nullable<string>,
                                    sauceLabsEnabled: bool, slackEnabled: bool,
                                    outcome: TestOutcome, description: Description)
    returns (calls: seq<IntegrationCall>)
    ensures calls == []
  {
    var test := new AugmentedBaseTestCase(uniqueId, shortClassName, methodName, sauceLabsEnabled, slackEnabled);
    match outcome {
      case Succeeded => test.OnSucceeded(description);
      case Failed(e) => test.OnFailed(e, description);
    }
    calls := test.reports;
  }
}
