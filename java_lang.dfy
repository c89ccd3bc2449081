/** Java values the driver layer passes around: references that may be null,
    the exceptions its methods throw, and Guava's string check. */
module JavaLang {

  /** A Java reference: either `null` or a value. */
  datatype Nullable<T> = Null | NonNull(value: T)

  /** java.util.Optional. */
  datatype Optional<T> = Empty | Of(value: T)

  /** The exceptions that cross the modelled methods. `WebDriver` stands for any
      Selenium exception other than a timeout; `Assertion` for a failing test body. */
  datatype Exception =
    | NullPointer           // Preconditions.checkNotNull
    | IllegalArgument       // Preconditions.checkArgument
    | Timeout               // org.openqa.selenium.TimeoutException
    | WebDriver(message: string)
    | Assertion(message: string)

  /** A call that returns normally with a value or completes by throwing. */
  datatype Result<T> = Ok(value: T) | Err(error: Exception)

  /** Guava's Strings.isNullOrEmpty. */
  predicate IsNullOrEmpty(s: Nullable<string>)
  {
    s.Null? || s.value == ""
  }

  /** How String.format renders a `%s` argument. */
  function FormatArg(s: Nullable<string>): (r: string)
    ensures s.NonNull? ==> r == s.value
    ensures s.Null? ==> r == "null"
  {
    match s
    case Null => "null"
    case NonNull(v) => v
  }
}
