/** AugmentedWebFunctions: the lookup and wait facade over one search context.

    Every operation is a function of the session history `h` before the call.
    It returns a `Run`: how the call ends, and the events it causes in the
    session, in order. clickAndPresent, which clicks, is a method that performs
    those events on the browser. */
module Web {
  import opened JavaLang
  import opened WebDriver

  /** How a facade call ends, and what it asked of the browser on the way. */
  datatype Run<T> = Run(result: Result<T>, trace: seq<Event>)

  /** A call rejected by a precondition check: it throws before any lookup. */
  function Rejected<T>(e: Exception): (r: Run<T>)
    ensures r.result.Err? && r.result.error == e && r.trace == []
  {
    Run(Err(e), [])
  }

  /** Stream.map(factory::create).collect(toList()): wraps each raw element, in order. */
  function WrapAll(create: NodeRef -> AugmentedWebElement, nodes: seq<NodeRef>): (r: seq<AugmentedWebElement>)
    ensures |r| == |nodes|
    ensures forall i :: 0 <= i < |nodes| ==> r[i] == create(nodes[i])
  {
    if nodes == [] then [] else [create(nodes[0])] + WrapAll(create, nodes[1..])
  }

  /** `q` is `f` with a TimeoutException, and only that, turned into `false`. */
  ghost predicate TimeoutBecomesFalse<T>(q: Run<bool>, f: Run<T>)
  {
    && q.trace == f.trace
    && (q.result == Ok(true) <==> f.result.Ok?)
    && (q.result == Ok(false) <==> f.result == Err(Timeout))
    && (q.result.Err? ==> f.result == Err(q.result.error))
  }

  /** try { find; return true; } catch (TimeoutException e) { return false; } */
  function SwallowTimeout<T>(f: Run<T>): (r: Run<bool>)
    ensures TimeoutBecomesFalse(r, f)
    ensures r.result != Err(Timeout)
  {
    if f.result.Ok? then Run(Ok(true), f.trace)
    else if f.result.error == Timeout then Run(Ok(false), f.trace)
    else Run(Err(f.result.error), f.trace)
  }

  /** Every lookup in `trace` starts from `scope`. */
  ghost predicate ScopedTo(trace: seq<Event>, scope: SearchContext)
  {
    forall i :: 0 <= i < |trace| && trace[i].Lookup? ==> trace[i].query.scope == scope
  }

  /** The number of clicks in `trace`. */
  function Clicks(trace: seq<Event>): nat
  {
    if trace == [] then 0 else (if trace[0].Clicked? then 1 else 0) + Clicks(trace[1..])
  }

  class AugmentedWebFunctions {
    const searchContext: SearchContext
    const waitTimeInSeconds: int
    const factory: NodeRef -> AugmentedWebElement
    const browser: Browser

    constructor (searchContext: SearchContext, waitTimeInSeconds: int,
                 factory: NodeRef -> AugmentedWebElement, browser: Browser)
      ensures this.searchContext == searchContext && this.waitTimeInSeconds == waitTimeInSeconds
      ensures this.factory == factory && this.browser == browser
    {
      this.searchContext := searchContext;
      this.waitTimeInSeconds := waitTimeInSeconds;
      this.factory := factory;
      this.browser := browser;
    }

    /** The injected constructor: each argument is checked non-null, then kept for good. */
    static method Create(searchContext: Nullable<SearchContext>, waitTimeInSeconds: Nullable<int>,
                         factory: Nullable<NodeRef -> AugmentedWebElement>, browser: Browser)
      returns (r: Result<AugmentedWebFunctions>)
      ensures r.Ok? <==> searchContext.NonNull? && waitTimeInSeconds.NonNull? && factory.NonNull?
      ensures r.Err? ==> r.error == NullPointer
      ensures r.Ok? ==> fresh(r.value) && r.value.browser == browser
      ensures r.Ok? ==> r.value.searchContext == searchContext.value
      ensures r.Ok? ==> r.value.waitTimeInSeconds == waitTimeInSeconds.value
      ensures r.Ok? ==> r.value.factory == factory.value
    {
      if searchContext.Null? || waitTimeInSeconds.Null? || factory.Null? {
        return Err(NullPointer);
      }
      var fns := new AugmentedWebFunctions(searchContext.value, waitTimeInSeconds.value, factory.value, browser);
      r := Ok(fns);
    }

    // ---------------------------------------------------------------------
    // How a WebDriverUtil answer becomes the facade's result.

    /** A single-element answer, wrapped by the factory; exceptions pass through. */
    ghost predicate Wraps(res: Result<AugmentedWebElement>, p: Poll<NodeRef>)
    {
      if p.Found? then res == Ok(factory(p.value)) else res == Err(ErrorOf(p))
    }

    /** A list answer, each entry wrapped by the factory, same length and order. */
    ghost predicate WrapsEach(res: Result<seq<AugmentedWebElement>>, p: Poll<seq<NodeRef>>)
    {
      if p.Found? then
        && res.Ok?
        && |res.value| == |p.value|
        && forall i :: 0 <= i < |p.value| ==> res.value[i] == factory(p.value[i])
      else
        res == Err(ErrorOf(p))
    }

    /** An absence wait returns nothing; exceptions pass through. */
    ghost predicate Relays(res: Result<()>, p: Poll<()>)
    {
      if p.Found? then res == Ok(()) else res == Err(ErrorOf(p))
    }

    /** The query a facade call with a non-null locator sends. */
    function QueryFor(condition: Condition, locator: By, seconds: int): (q: Query)
      ensures q.scope == searchContext
    {
      Query(condition, searchContext, locator, seconds)
    }

    function Resolve(h: seq<Event>, q: Query): Run<AugmentedWebElement>
    {
      var p := browser.driver.findElement(h, q);
      Run(if p.Found? then Ok(factory(p.value)) else Err(ErrorOf(p)), [Lookup(q)])
    }

    function ResolveAll(h: seq<Event>, q: Query): Run<seq<AugmentedWebElement>>
    {
      var p := browser.driver.findElements(h, q);
      Run(if p.Found? then Ok(WrapAll(factory, p.value)) else Err(ErrorOf(p)), [Lookup(q)])
    }

    function AwaitGone(h: seq<Event>, q: Query): Run<()>
    {
      var p := browser.driver.waitGone(h, q);
      Run(if p.Found? then Ok(()) else Err(ErrorOf(p)), [Lookup(q)])
    }

    // ---------------------------------------------------------------------
    // findElement*

    function FindElementPresentAfter(h: seq<Event>, locator: Nullable<By>, waitSeconds: int): (r: Run<AugmentedWebElement>)
      ensures locator.Null? ==> r == Rejected(NullPointer)
      ensures locator.NonNull? ==> r.trace == [Lookup(Query(ElementPresent, searchContext, locator.value, waitSeconds))]
      ensures locator.NonNull? ==> Wraps(r.result, browser.driver.findElement(h, r.trace[0].query))
    {
      if locator.Null? then Rejected(NullPointer)
      else Resolve(h, QueryFor(ElementPresent, locator.value, waitSeconds))
    }

    function FindElementPresent(h: seq<Event>, locator: Nullable<By>): (r: Run<AugmentedWebElement>)
      ensures r == FindElementPresentAfter(h, locator, waitTimeInSeconds)
    {
      if locator.Null? then Rejected(NullPointer)
      else FindElementPresentAfter(h, locator, waitTimeInSeconds)
    }

    function FindElementVisibleAfter(h: seq<Event>, locator: Nullable<By>, waitSeconds: int): (r: Run<AugmentedWebElement>)
      ensures locator.Null? ==> r == Rejected(NullPointer)
      ensures locator.NonNull? ==> r.trace == [Lookup(Query(ElementVisible, searchContext, locator.value, waitSeconds))]
      ensures locator.NonNull? ==> Wraps(r.result, browser.driver.findElement(h, r.trace[0].query))
    {
      if locator.Null? then Rejected(NullPointer)
      else Resolve(h, QueryFor(ElementVisible, locator.value, waitSeconds))
    }

    function FindElementVisible(h: seq<Event>, locator: Nullable<By>): (r: Run<AugmentedWebElement>)
      ensures r == FindElementVisibleAfter(h, locator, waitTimeInSeconds)
    {
      if locator.Null? then Rejected(NullPointer)
      else FindElementVisibleAfter(h, locator, waitTimeInSeconds)
    }

    function FindElementClickableAfter(h: seq<Event>, locator: Nullable<By>, waitSeconds: int): (r: Run<AugmentedWebElement>)
      ensures locator.Null? ==> r == Rejected(NullPointer)
      ensures locator.NonNull? ==> r.trace == [Lookup(Query(ElementClickable, searchContext, locator.value, waitSeconds))]
      ensures locator.NonNull? ==> Wraps(r.result, browser.driver.findElement(h, r.trace[0].query))
    {
      if locator.Null? then Rejected(NullPointer)
      else Resolve(h, QueryFor(ElementClickable, locator.value, waitSeconds))
    }

    function FindElementClickable(h: seq<Event>, locator: Nullable<By>): (r: Run<AugmentedWebElement>)
      ensures r == FindElementClickableAfter(h, locator, waitTimeInSeconds)
    {
      if locator.Null? then Rejected(NullPointer)
      else FindElementClickableAfter(h, locator, waitTimeInSeconds)
    }

    function FindElementNotMovingAfter(h: seq<Event>, locator: Nullable<By>, waitSeconds: int): (r: Run<AugmentedWebElement>)
      ensures locator.Null? ==> r == Rejected(NullPointer)
      ensures locator.NonNull? ==> r.trace == [Lookup(Query(ElementNotMoving, searchContext, locator.value, waitSeconds))]
      ensures locator.NonNull? ==> Wraps(r.result, browser.driver.findElement(h, r.trace[0].query))
    {
      if locator.Null? then Rejected(NullPointer)
      else Resolve(h, QueryFor(ElementNotMoving, locator.value, waitSeconds))
    }

    function FindElementNotMoving(h: seq<Event>, locator: Nullable<By>): (r: Run<AugmentedWebElement>)
      ensures r == FindElementNotMovingAfter(h, locator, waitTimeInSeconds)
    {
      if locator.Null? then Rejected(NullPointer)
      else FindElementNotMovingAfter(h, locator, waitTimeInSeconds)
    }

    /** The locator is checked first, then the text; only then is the browser asked. */
    function FindElementContainAfter(h: seq<Event>, locator: Nullable<By>, text: Nullable<string>, waitInSeconds: int)
      : (r: Run<AugmentedWebElement>)
      ensures locator.Null? ==> r == Rejected(NullPointer)
      ensures locator.NonNull? && IsNullOrEmpty(text) ==> r == Rejected(IllegalArgument)
      ensures locator.NonNull? && !IsNullOrEmpty(text) ==>
        r.trace == [Lookup(Query(ElementContain(text.value), searchContext, locator.value, waitInSeconds))]
      ensures locator.NonNull? && !IsNullOrEmpty(text) ==>
        Wraps(r.result, browser.driver.findElement(h, r.trace[0].query))
    {
      if locator.Null? then Rejected(NullPointer)
      else if IsNullOrEmpty(text) then Rejected(IllegalArgument)
      else Resolve(h, QueryFor(ElementContain(text.value), locator.value, waitInSeconds))
    }

    function FindElementContain(h: seq<Event>, locator: Nullable<By>, text: Nullable<string>): (r: Run<AugmentedWebElement>)
      ensures r == FindElementContainAfter(h, locator, text, waitTimeInSeconds)
      ensures locator.NonNull? && !IsNullOrEmpty(text) ==>
        r.trace == [Lookup(Query(ElementContain(text.value), searchContext, locator.value, waitTimeInSeconds))]
    {
      FindElementContainAfter(h, locator, text, waitTimeInSeconds)
    }

    // ---------------------------------------------------------------------
    // isElement*: the same lookups, with a timeout turned into false.

    function IsElementPresentAfter(h: seq<Event>, locator: Nullable<By>, waitSeconds: int): (r: Run<bool>)
      ensures TimeoutBecomesFalse(r, FindElementPresentAfter(h, locator, waitSeconds))
      ensures r.result != Err(Timeout)
    {
      if locator.Null? then Rejected(NullPointer)
      else SwallowTimeout(FindElementPresentAfter(h, locator, waitSeconds))
    }

    function IsElementPresent(h: seq<Event>, locator: Nullable<By>): (r: Run<bool>)
      ensures r == IsElementPresentAfter(h, locator, waitTimeInSeconds)
    {
      if locator.Null? then Rejected(NullPointer)
      else IsElementPresentAfter(h, locator, waitTimeInSeconds)
    }

    function IsElementPresentImmediate(h: seq<Event>, locator: Nullable<By>): (r: Run<bool>)
      ensures r == IsElementPresentAfter(h, locator, 0)
    {
      if locator.Null? then Rejected(NullPointer)
      else IsElementPresentAfter(h, locator, 0)
    }

    function IsElementVisibleAfter(h: seq<Event>, locator: Nullable<By>, waitSeconds: int): (r: Run<bool>)
      ensures TimeoutBecomesFalse(r, FindElementVisibleAfter(h, locator, waitSeconds))
      ensures r.result != Err(Timeout)
    {
      if locator.Null? then Rejected(NullPointer)
      else SwallowTimeout(FindElementVisibleAfter(h, locator, waitSeconds))
    }

    function IsElementVisible(h: seq<Event>, locator: Nullable<By>): (r: Run<bool>)
      ensures r == IsElementVisibleAfter(h, locator, waitTimeInSeconds)
    {
      if locator.Null? then Rejected(NullPointer)
      else IsElementVisibleAfter(h, locator, waitTimeInSeconds)
    }

    function IsElementVisibleImmediate(h: seq<Event>, locator: Nullable<By>): (r: Run<bool>)
      ensures r == IsElementVisibleAfter(h, locator, 0)
    {
      if locator.Null? then Rejected(NullPointer)
      else IsElementVisibleAfter(h, locator, 0)
    }

    function IsElementClickableAfter(h: seq<Event>, locator: Nullable<By>, waitSeconds: int): (r: Run<bool>)
      ensures TimeoutBecomesFalse(r, FindElementClickableAfter(h, locator, waitSeconds))
      ensures r.result != Err(Timeout)
    {
      if locator.Null? then Rejected(NullPointer)
      else SwallowTimeout(FindElementClickableAfter(h, locator, waitSeconds))
    }

    function IsElementClickable(h: seq<Event>, locator: Nullable<By>): (r: Run<bool>)
      ensures r == IsElementClickableAfter(h, locator, waitTimeInSeconds)
    {
      if locator.Null? then Rejected(NullPointer)
      else IsElementClickableAfter(h, locator, waitTimeInSeconds)
    }

    function IsElementClickableImmediate(h: seq<Event>, locator: Nullable<By>): (r: Run<bool>)
      ensures r == IsElementClickableAfter(h, locator, 0)
    {
      if locator.Null? then Rejected(NullPointer)
      else IsElementClickableAfter(h, locator, 0)
    }

    // ---------------------------------------------------------------------
    // findElements*: the list the driver found, mapped one to one, in order.

    function FindElementsVisibleAfter(h: seq<Event>, locator: Nullable<By>, waitInSeconds: int)
      : (r: Run<seq<AugmentedWebElement>>)
      ensures locator.Null? ==> r == Rejected(NullPointer)
      ensures locator.NonNull? ==> r.trace == [Lookup(Query(ElementsVisible, searchContext, locator.value, waitInSeconds))]
      ensures locator.NonNull? ==> WrapsEach(r.result, browser.driver.findElements(h, r.trace[0].query))
    {
      if locator.Null? then Rejected(NullPointer)
      else ResolveAll(h, QueryFor(ElementsVisible, locator.value, waitInSeconds))
    }

    function FindElementsVisible(h: seq<Event>, locator: Nullable<By>): (r: Run<seq<AugmentedWebElement>>)
      ensures r == FindElementsVisibleAfter(h, locator, waitTimeInSeconds)
    {
      if locator.Null? then Rejected(NullPointer)
      else FindElementsVisibleAfter(h, locator, waitTimeInSeconds)
    }

    function FindElementsPresentAfter(h: seq<Event>, locator: Nullable<By>, waitInSeconds: int)
      : (r: Run<seq<AugmentedWebElement>>)
      ensures locator.Null? ==> r == Rejected(NullPointer)
      ensures locator.NonNull? ==> r.trace == [Lookup(Query(ElementsPresent, searchContext, locator.value, waitInSeconds))]
      ensures locator.NonNull? ==> WrapsEach(r.result, browser.driver.findElements(h, r.trace[0].query))
    {
      if locator.Null? then Rejected(NullPointer)
      else ResolveAll(h, QueryFor(ElementsPresent, locator.value, waitInSeconds))
    }

    function FindElementsPresent(h: seq<Event>, locator: Nullable<By>): (r: Run<seq<AugmentedWebElement>>)
      ensures r == FindElementsPresentAfter(h, locator, waitTimeInSeconds)
    {
      if locator.Null? then Rejected(NullPointer)
      else FindElementsPresentAfter(h, locator, waitTimeInSeconds)
    }

    function FindElementsClickableAfter(h: seq<Event>, locator: Nullable<By>, waitInSeconds: int)
      : (r: Run<seq<AugmentedWebElement>>)
      ensures locator.Null? ==> r == Rejected(NullPointer)
      ensures locator.NonNull? ==> r.trace == [Lookup(Query(ElementsClickable, searchContext, locator.value, waitInSeconds))]
      ensures locator.NonNull? ==> WrapsEach(r.result, browser.driver.findElements(h, r.trace[0].query))
    {
      if locator.Null? then Rejected(NullPointer)
      else ResolveAll(h, QueryFor(ElementsClickable, locator.value, waitInSeconds))
    }

    function FindElementsClickable(h: seq<Event>, locator: Nullable<By>): (r: Run<seq<AugmentedWebElement>>)
      ensures r == FindElementsClickableAfter(h, locator, waitTimeInSeconds)
    {
      if locator.Null? then Rejected(NullPointer)
      else FindElementsClickableAfter(h, locator, waitTimeInSeconds)
    }

    // ---------------------------------------------------------------------
    // waitElementToNotBe*: absence waits that return nothing.

    function WaitElementToNotBePresentAfter(h: seq<Event>, locator: Nullable<By>, waitInSeconds: int): (r: Run<()>)
      ensures locator.Null? ==> r == Rejected(NullPointer)
      ensures locator.NonNull? ==> r.trace == [Lookup(Query(ElementNotPresent, searchContext, locator.value, waitInSeconds))]
      ensures locator.NonNull? ==> Relays(r.result, browser.driver.waitGone(h, r.trace[0].query))
    {
      if locator.Null? then Rejected(NullPointer)
      else AwaitGone(h, QueryFor(ElementNotPresent, locator.value, waitInSeconds))
    }

    function WaitElementToNotBePresent(h: seq<Event>, locator: Nullable<By>): (r: Run<()>)
      ensures r == WaitElementToNotBePresentAfter(h, locator, waitTimeInSeconds)
      ensures locator.NonNull? ==>
        r.trace == [Lookup(Query(ElementNotPresent, searchContext, locator.value, waitTimeInSeconds))]
    {
      WaitElementToNotBePresentAfter(h, locator, waitTimeInSeconds)
    }

    function WaitElementToNotBeVisibleAfter(h: seq<Event>, locator: Nullable<By>, waitInSeconds: int): (r: Run<()>)
      ensures locator.Null? ==> r == Rejected(NullPointer)
      ensures locator.NonNull? ==> r.trace == [Lookup(Query(ElementNotVisible, searchContext, locator.value, waitInSeconds))]
      ensures locator.NonNull? ==> Relays(r.result, browser.driver.waitGone(h, r.trace[0].query))
    {
      if locator.Null? then Rejected(NullPointer)
      else AwaitGone(h, QueryFor(ElementNotVisible, locator.value, waitInSeconds))
    }

    function WaitElementToNotBeVisible(h: seq<Event>, locator: Nullable<By>): (r: Run<()>)
      ensures r == WaitElementToNotBeVisibleAfter(h, locator, waitTimeInSeconds)
      ensures locator.NonNull? ==>
        r.trace == [Lookup(Query(ElementNotVisible, searchContext, locator.value, waitTimeInSeconds))]
    {
      WaitElementToNotBeVisibleAfter(h, locator, waitTimeInSeconds)
    }

    // ---------------------------------------------------------------------
    // clickAndPresent: resolve clickable, click it, then resolve `wait` as present.

    /** What clickAndPresentAfter does, stated against the browser oracle. */
    function ClickAndPresentAfterRun(h: seq<Event>, click: Nullable<By>, wait: Nullable<By>, waitInSeconds: int)
      : (r: Run<AugmentedWebElement>)
      ensures click.Null? || wait.Null? ==> r == Rejected(NullPointer)
      ensures click.NonNull? && wait.NonNull? ==>
        var first := Lookup(Query(ElementClickable, searchContext, click.value, waitInSeconds));
        var found := browser.driver.findElement(h, first.query);
        && 1 <= |r.trace| <= 3
        && r.trace[0] == first
        && (!found.Found? ==> r == Rejected(ErrorOf(found)).(trace := [first]))
        && (found.Found? ==>
              var target := factory(found.value);
              var clicked := browser.driver.click(h + [first], target);
              && |r.trace| >= 2
              && r.trace[1] == Clicked(target)
              && (!clicked.Found? ==> r == Run(Err(ErrorOf(clicked)), [first, Clicked(target)]))
              && (clicked.Found? ==>
                    var last := Lookup(Query(ElementPresent, searchContext, wait.value, waitInSeconds));
                    && r.trace == [first, Clicked(target), last]
                    && Wraps(r.result, browser.driver.findElement(h + [first] + [Clicked(target)], last.query))))
    {
      if click.Null? || wait.Null? then Rejected(NullPointer)
      else
        var clickable := FindElementClickableAfter(h, click, waitInSeconds);
        if clickable.result.Err? then clickable
        else
          var target := clickable.result.value;
          var clicked := browser.driver.click(h + clickable.trace, target);
          if !clicked.Found? then Run(Err(ErrorOf(clicked)), clickable.trace + [Clicked(target)])
          else
            var present := FindElementPresentAfter(h + clickable.trace + [Clicked(target)], wait, waitInSeconds);
            Run(present.result, clickable.trace + [Clicked(target)] + present.trace)
    }

    method ClickAndPresentAfter(click: Nullable<By>, wait: Nullable<By>, waitInSeconds: int)
      returns (r: Result<AugmentedWebElement>)
      modifies browser`log
      ensures r == ClickAndPresentAfterRun(old(browser.log), click, wait, waitInSeconds).result
      ensures browser.log == old(browser.log) + ClickAndPresentAfterRun(old(browser.log), click, wait, waitInSeconds).trace
    {
      if click.Null? || wait.Null? {
        return Err(NullPointer);
      }
      var found := browser.FindElement(QueryFor(ElementClickable, click.value, waitInSeconds));
      if !found.Found? {
        return Err(ErrorOf(found));
      }
      var target := factory(found.value);
      var clicked := browser.Click(target);
      if !clicked.Found? {
        return Err(ErrorOf(clicked));
      }
      var present := browser.FindElement(QueryFor(ElementPresent, wait.value, waitInSeconds));
      r := if present.Found? then Ok(factory(present.value)) else Err(ErrorOf(present));
    }

    method ClickAndPresent(click: Nullable<By>, wait: Nullable<By>) returns (r: Result<AugmentedWebElement>)
      modifies browser`log
      ensures r == ClickAndPresentAfterRun(old(browser.log), click, wait, waitTimeInSeconds).result
      ensures browser.log == old(browser.log) + ClickAndPresentAfterRun(old(browser.log), click, wait, waitTimeInSeconds).trace
    {
      r := ClickAndPresentAfter(click, wait, waitTimeInSeconds);
    }

    // ---------------------------------------------------------------------
    // Properties relating the operations to each other.

    /** clickAndPresentAfter: every lookup it makes is in this facade's search context,
        it clicks at most once, and it clicks only if the clickable lookup succeeded. */
    lemma ClickAndPresentOrder(h: seq<Event>, click: Nullable<By>, wait: Nullable<By>, waitInSeconds: int)
      ensures ScopedTo(ClickAndPresentAfterRun(h, click, wait, waitInSeconds).trace, searchContext)
      ensures Clicks(ClickAndPresentAfterRun(h, click, wait, waitInSeconds).trace) <= 1
      ensures Clicks(ClickAndPresentAfterRun(h, click, wait, waitInSeconds).trace) == 1
          <==> FindElementClickableAfter(h, click, waitInSeconds).result.Ok? && wait.NonNull?
    {
      var r := ClickAndPresentAfterRun(h, click, wait, waitInSeconds);
      if click.NonNull? && wait.NonNull? {
        var t := r.trace;
        var found := FindElementClickableAfter(h, click, waitInSeconds);
        assert t == [t[0]] + t[1..];
        if found.result.Ok? {
          var clicked := browser.driver.click(h + found.trace, found.result.value);
          assert t[1..] == [t[1]] + t[2..];
          if clicked.Found? {
            assert t[2].Lookup?;
            assert t[2..] == [t[2]] + t[3..] && t[3..] == [];
            assert Clicks(t[2..]) == 0;
          } else {
            assert t == [t[0], t[1]];
            assert t[2..] == [] && Clicks(t[2..]) == 0;
          }
        } else {
          assert t[1..] == [];
        }
      }
    }
  }
}
