/** The Selenium side of the facade, reduced to values and an oracle.

    The polling helpers of WebDriverUtil (poll a condition until it holds or the
    deadline passes) are not modelled step by step: each call is answered by a
    `Driver`, a total function of the call and of everything the session saw
    before it, so a page may change after a click. A `Browser` keeps that
    history as a log. */
module WebDriver {
  import opened JavaLang

  /** A Selenium locator (`By`), passed through untouched. */
  datatype By = By(strategy: string, argument: string)

  /** A raw element reference handed back by the browser. */
  datatype NodeRef = NodeRef(id: nat)

  /** Where a lookup starts: the whole page, or inside an element found earlier. */
  datatype SearchContext = Page | Within(root: NodeRef)

  /** What AugmentedWebElementFactory.create returns for a raw element. */
  datatype AugmentedWebElement = AugmentedWebElement(element: NodeRef)

  /** One constructor per WebDriverUtil polling entry point. */
  datatype Condition =
    | ElementPresent
    | ElementVisible
    | ElementClickable
    | ElementNotMoving
    | ElementContain(text: string)
    | ElementsVisible
    | ElementsPresent
    | ElementsClickable
    | ElementNotPresent
    | ElementNotVisible

  /** The arguments of one WebDriverUtil call. */
  datatype Query = Query(condition: Condition, scope: SearchContext, locator: By, seconds: int)

  /** What the session observes: a polling lookup, or a click on an element. */
  datatype Event = Lookup(query: Query) | Clicked(target: AugmentedWebElement)

  /** How a polling call ends: the condition held, the deadline passed
      (TimeoutException), or the driver threw something else. */
  datatype Poll<T> = Found(value: T) | TimedOut | Raised(message: string)

  /** The exception a poll that did not find anything propagates. */
  function ErrorOf<T>(p: Poll<T>): (e: Exception)
    requires !p.Found?
    ensures e == Timeout <==> p.TimedOut?
  {
    if p.TimedOut? then Timeout else WebDriver(p.message)
  }

  /** The browser as an oracle: the answer to each call, given the session's history. */
  datatype Driver = Driver(
    findElement: (seq<Event>, Query) -> Poll<NodeRef>,
    findElements: (seq<Event>, Query) -> Poll<seq<NodeRef>>,
    waitGone: (seq<Event>, Query) -> Poll<()>,
    click: (seq<Event>, AugmentedWebElement) -> Poll<()>)

  /** One browser session: the oracle and the history of what was asked of it. */
  class Browser {
    const driver: Driver
    var log: seq<Event>

    constructor (driver: Driver)
      ensures this.driver == driver && log == []
    {
      this.driver := driver;
      log := [];
    }

    /** A single-element WebDriverUtil call. */
    method FindElement(q: Query) returns (p: Poll<NodeRef>)
      modifies this`log
      ensures p == driver.findElement(old(log), q)
      ensures log == old(log) + [Lookup(q)]
    {
      p := driver.findElement(log, q);
      log := log + [Lookup(q)];
    }

    /** WebElement.click() on the element an AugmentedWebElement wraps. */
    method Click(target: AugmentedWebElement) returns (p: Poll<()>)
      modifies this`log
      ensures p == driver.click(old(log), target)
      ensures log == old(log) + [Clicked(target)]
    {
      p := driver.click(log, target);
      log := log + [Clicked(target)];
    }
  }
}
