/** The exceptions the browser core raises or lets through, as values.
    `Text(e)` is `str(e)`.

    The skyvern exception classes (`UnknownBrowserType`,
    `UnknownErrorWhileCreatingBrowserContext`, `FailedToNavigateToUrl`, ...)
    are defined in skyvern/exceptions.py, which is not part of this model;
    their text is taken to be a fixed sentence that embeds the constructor
    arguments. The only thing the session logic depends on is that the text of a
    wrapping exception contains the text it wraps. */
module Errors {
  import opened PyStr

  datatype Exc =
    | Raised(message: string)          // `Exception(message)`, or any driver/HTTP error with that text
    | TimeoutError                     // `asyncio.TimeoutError()`, whose text is empty
    | ValueError(message: string)
    | FileNotFoundError(message: string)
    | NameError(name: string)            // a name used before it is bound
    | TypeError(message: string)
    | UnknownBrowserType(browserType: string)
    | UnknownErrorWhileCreatingBrowserContext(browserType: string, cause: Exc)
    | FailedToNavigateToUrl(url: string, errorMessage: string)
    | FailedToReloadPage(url: string, errorMessage: string)
    | FailedToStopLoadingPage(url: string, errorMessage: string)
    | MissingBrowserStatePage
    | AssertionError                   // a failing `assert` statement, whose text is empty

  /** `str(e)` */
  function Text(e: Exc): string {
    match e
    case Raised(m) => m
    case TimeoutError => ""
    case ValueError(m) => m
    case FileNotFoundError(m) => m
    case NameError(n) => "name '" + n + "' is not defined"
    case TypeError(m) => m
    case UnknownBrowserType(t) => "Unknown browser type " + t
    case UnknownErrorWhileCreatingBrowserContext(t, c) =>
      "Unexpected error while creating browser context for " + t + ". Error message: " + Text(c)
    case FailedToNavigateToUrl(u, m) => "Failed to navigate to url " + u + ". Error message: " + m
    case FailedToReloadPage(u, m) => "Failed to reload the page " + u + ". Error message: " + m
    case FailedToStopLoadingPage(u, m) => "Failed to stop loading the page " + u + ". Error message: " + m
    case MissingBrowserStatePage => "No page found for the current browser state"
    case AssertionError => ""
  }

  /** The class name `repr(e)` starts with. */
  function ClassName(e: Exc): string {
    match e
    case Raised(_) => "Exception"
    case TimeoutError => "TimeoutError"
    case ValueError(_) => "ValueError"
    case FileNotFoundError(_) => "FileNotFoundError"
    case NameError(_) => "NameError"
    case TypeError(_) => "TypeError"
    case UnknownBrowserType(_) => "UnknownBrowserType"
    case UnknownErrorWhileCreatingBrowserContext(_, _) => "UnknownErrorWhileCreatingBrowserContext"
    case FailedToNavigateToUrl(_, _) => "FailedToNavigateToUrl"
    case FailedToReloadPage(_, _) => "FailedToReloadPage"
    case FailedToStopLoadingPage(_, _) => "FailedToStopLoadingPage"
    case MissingBrowserStatePage => "MissingBrowserStatePage"
    case AssertionError => "AssertionError"
  }

  /** `repr(e)` for an exception built from its message: the class name
      around the quoted text, or empty parentheses when there is no text.
      Quotes inside the text are not escaped here. */
  function Repr(e: Exc): (r: string)
    ensures Text(e) != "" ==> Contains(r, Text(e))
  {
    if Text(e) == "" then ClassName(e) + "()"
    else
      ContainsExtend(ClassName(e) + "('", Text(e), "')", Text(e));
      ClassName(e) + "('" + Text(e) + "')"
  }

  /** The test `"net::ERR" in str(e)` that decides whether a failed session
      set-up is retried (skyvern/webeye/browser_factory.py:1106). */
  predicate IsNetworkError(e: Exc) {
    Contains(Text(e), "net::ERR")
  }

  /** A driver error that mentions net::ERR keeps being recognised as a
      network error once it is wrapped by the factory or by navigation. */
  lemma NetworkErrorSurvivesWrapping(t: string, url: string, cause: Exc)
    ensures IsNetworkError(cause) ==> IsNetworkError(UnknownErrorWhileCreatingBrowserContext(t, cause))
    ensures Contains(Text(cause), "net::ERR") ==> IsNetworkError(FailedToNavigateToUrl(url, Text(cause)))
  {
    if IsNetworkError(cause) {
      ContainsExtend("Unexpected error while creating browser context for " + t + ". Error message: ", Text(cause), "", "net::ERR");
      assert "Unexpected error while creating browser context for " + t + ". Error message: " + Text(cause) + ""
          == Text(UnknownErrorWhileCreatingBrowserContext(t, cause));
      ContainsExtend("Failed to navigate to url " + url + ". Error message: ", Text(cause), "", "net::ERR");
      assert "Failed to navigate to url " + url + ". Error message: " + Text(cause) + ""
          == Text(FailedToNavigateToUrl(url, Text(cause)));
    }
  }
}
