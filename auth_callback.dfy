/**
 * The OAuth / e-mail confirmation callback (app/auth/callback/route.ts):
 * which redirect a callback request produces, and where it points.
 */
module AuthCallback {
  import opened Wrappers
  import opened Text

  /** The query parameters the route reads; `None` is a missing parameter. */
  datatype Query = Query(
    code: Option<string>,
    next: Option<string>,
    error: Option<string>,
    errorDescription: Option<string>)

  /** What `exchangeCodeForSession` did, when it was called. */
  datatype Exchange = ExchangeOk | ExchangeFailed(message: string) | ExchangeThrew

  /** Where the route sends the browser. */
  datatype Target = ToApp(path: string) | ToErrorPage(message: string) | Unexpected

  const ErrorPagePrefix := "/auth/auth-code-error?error="
  const NoCodeMessage := "No authentication code provided"
  const ExchangeFallbackMessage := "Failed to exchange code"
  const UnexpectedMessage := "An unexpected error occurred"

  /** Lines 6-44, with the code exchange as an input; this is the route as written. */
  function Decide(q: Query, exchange: Exchange): (t: Target)
    ensures Truthy(q.error) ==> t == ToErrorPage(Or(q.errorDescription, q.error.value))
    ensures !Truthy(q.error) && !Truthy(q.code) ==> t == ToErrorPage(NoCodeMessage)
    ensures !Truthy(q.error) && Truthy(q.code) && exchange.ExchangeFailed? ==>
      t == ToErrorPage(Or(Some(exchange.message), ExchangeFallbackMessage))
    ensures t.ToErrorPage? ==> t.message != ""
    ensures t.ToApp? <==> !Truthy(q.error) && Truthy(q.code) && exchange.ExchangeOk?
    ensures t.ToApp? ==> t.path == q.next.GetOr("/")
    ensures t.Unexpected? <==> !Truthy(q.error) && Truthy(q.code) && exchange.ExchangeThrew?
  {
    if Truthy(q.error) then
      ToErrorPage(Or(q.errorDescription, q.error.value))
    else if Truthy(q.code) then
      match exchange
      case ExchangeOk => ToApp(q.next.GetOr("/"))
      case ExchangeFailed(m) => ToErrorPage(Or(Some(m), ExchangeFallbackMessage))
      case ExchangeThrew => Unexpected
    else
      ToErrorPage(NoCodeMessage)
  }

  /**
   * The redirect URL: the request origin followed by the path (lines 23, 34,
   * 39, 44 and 48). `enc` stands for `encodeURIComponent`.
   */
  function Location(origin: string, t: Target, enc: string -> string): (url: string)
    ensures StartsWith(url, origin)
    ensures t.ToApp? ==> url == origin + t.path
    ensures t.ToErrorPage? ==> url == origin + ErrorPagePrefix + enc(t.message)
    ensures t.Unexpected? ==> url == origin + ErrorPagePrefix + enc(UnexpectedMessage)
    ensures !t.ToApp? ==> StartsWith(url, origin + ErrorPagePrefix)
  {
    match t
    case ToApp(path) => origin + path
    case ToErrorPage(m) => origin + ErrorPagePrefix + enc(m)
    case Unexpected => origin + ErrorPagePrefix + enc(UnexpectedMessage)
  }

  /** The error parameter is reported even when a code is present, and no exchange happens. */
  lemma ProviderErrorWins(q: Query, e1: Exchange, e2: Exchange)
    requires Truthy(q.error)
    ensures Decide(q, e1) == Decide(q, e2) && Decide(q, e1).ToErrorPage?
  {
  }

  /** Without `next`, a successful sign-in lands on the home page. */
  lemma DefaultNextIsHome(origin: string, code: string, enc: string -> string)
    requires code != ""
    ensures Location(origin, Decide(Query(Some(code), None, None, None), ExchangeOk), enc) == origin + "/"
  {
  }

  /**
   * As written, `next` is appended to the origin unchecked: a value that
   * does not begin with "/" continues the host name, and the browser is
   * sent to another site.
   */
  lemma NextCanLeaveOrigin(enc: string -> string)
    ensures
      var origin := "https://zenphonyaudio.com";
      var url := Location(origin, Decide(Query(Some("c"), Some(".evil.example"), None, None), ExchangeOk), enc);
      url == "https://zenphonyaudio.com.evil.example" && !StartsWith(url, origin + "/")
  {
    var url := Location("https://zenphonyaudio.com", Decide(Query(Some("c"), Some(".evil.example"), None, None), ExchangeOk), enc);
    assert url[25] == '.';
  }

  /** `next` kept only when it is a path on this origin, else home. */
  function SafeNext(next: Option<string>): (path: string)
    ensures StartsWith(path, "/")
    ensures next.Some? && StartsWith(next.value, "/") ==> path == next.value
  {
    if next.Some? && StartsWith(next.value, "/") then next.value else "/"
  }

  /** The callback with `next` restricted to same-origin paths. */
  function DecideSafe(q: Query, exchange: Exchange): (t: Target)
    ensures !t.ToApp? ==> t == Decide(q, exchange)
    ensures t.ToApp? <==> Decide(q, exchange).ToApp?
    ensures t.ToApp? ==> StartsWith(t.path, "/")
  {
    match Decide(q, exchange)
    case ToApp(_) => ToApp(SafeNext(q.next))
    case other => other
  }

  /** With the corrected rule every redirect stays on the request origin. */
  lemma SafeRedirectStaysOnOrigin(origin: string, q: Query, exchange: Exchange, enc: string -> string)
    ensures StartsWith(Location(origin, DecideSafe(q, exchange), enc), origin + "/")
  {
    var t := DecideSafe(q, exchange);
    var url := Location(origin, t, enc);
    if t.ToApp? {
      assert url == origin + t.path;
      assert url[..|origin| + 1] == origin + t.path[..1];
    } else {
      assert StartsWith(url, origin + ErrorPagePrefix);
      assert (origin + ErrorPagePrefix)[..|origin| + 1] == origin + "/";
    }
  }
}
