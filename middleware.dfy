/** proxy.py, request middlewares: Basic authentication and the choice of
    the carrier endpoint (test or production). Each one's result is what the
    source stores in the request context. */
module Middleware {
  import opened Wrappers
  import opened Python
  import Utilities
  import Base64

  /** The client/factory pair stored in the request context. */
  datatype Endpoint = TestEndpoint | ProductionEndpoint

  const Unauthorized: Exception :=
    HttpError(Unauthorized401, "401 Unauthorized", "The provided credentials are not valid")

  /** `AuthMiddleware.process_request`. `auth` is the Authorization header,
      None when absent (then `split` raises AttributeError, turned into 401).
      The header must split on " " into exactly "Basic" and a token; the
      credentials are then extracted, and extraction errors are NOT turned
      into 401. */
  function ProcessAuth(auth: Option<string>): (r: Result<(string, string), Exception>)
    ensures auth.None? ==> r == Failure(Unauthorized)
    ensures auth.Some? ==>
      var parts := Split(auth.value, ' ');
      if |parts| == 2 && parts[0] == "Basic" then r == Utilities.ExtractCredentials(parts[1])
      else r == Failure(Unauthorized)
  {
    match auth
    case None => Failure(Unauthorized)
    case Some(header) =>
      var parsed := Split(header, ' ');
      if |parsed| == 2 && parsed[0] == "Basic" then Utilities.ExtractCredentials(parsed[1])
      else Failure(Unauthorized)
  }

  /** "Basic " followed by a space-free token splits into the scheme and the token. */
  lemma BasicHeaderSplit(token: string)
    requires ' ' !in token
    ensures Split("Basic " + token, ' ') == ["Basic", token]
  {
    assert "Basic " + token == "Basic" + [' '] + token;
    SplitAfterPiece("Basic", token, ' ');
    SplitNoSeparator(token, ' ');
  }

  /** A header is accepted only in the shape "Basic <token>" with a
      space-free token; every other shape, and a missing header, is a 401. */
  lemma AuthAcceptedOnlyBasic(auth: Option<string>)
    ensures ProcessAuth(auth).Success? ==>
      auth.Some? && exists token :: ' ' !in token && auth.value == "Basic " + token
    ensures (auth.None? || !(exists token :: ' ' !in token && auth.value == "Basic " + token)) ==>
      ProcessAuth(auth) == Failure(Unauthorized)
  {
    if auth.Some? {
      var parts := Split(auth.value, ' ');
      if |parts| == 2 && parts[0] == "Basic" {
        JoinSplit(auth.value, ' ');
        assert auth.value == "Basic " + parts[1];
      } else if exists token :: ' ' !in token && auth.value == "Basic " + token {
        var token :| ' ' !in token && auth.value == "Basic " + token;
        BasicHeaderSplit(token);
        assert false;
      }
    }
  }

  /** A client that sends `Basic base64(user:password)` is authenticated as
      that user, provided neither part contains a colon. */
  lemma BasicHeaderRoundTrip(user: string, password: string)
    requires Base64.IsAscii(user) && Base64.IsAscii(password)
    requires ':' !in user && ':' !in password
    ensures Base64.IsAscii(user + ":" + password)
    ensures ProcessAuth(Some("Basic " + Utilities.BasicToken(user + ":" + password))) == Success((user, password))
  {
    Utilities.ExtractRoundTrip(user, password);
    var token := Utilities.BasicToken(user + ":" + password);
    Base64.EncodeHasNoSpace(Base64.AsciiBytes(user + ":" + password));
    BasicHeaderSplit(token);
  }

  /** `EnvironmentMiddleware.process_request`: the test endpoint when the
      user is the carrier's test account or the `environment` parameter is
      exactly the string "test" (a repeated parameter is a list, not "test"). */
  function SelectEndpoint(username: string, params: map<string, PyObject>): (e: Endpoint)
    ensures e == TestEndpoint <==>
      username == "YKTEST" || ("environment" in params && params["environment"] == Scalar(PyStr("test")))
  {
    if username == "YKTEST" || ("environment" in params && params["environment"] == Scalar(PyStr("test"))) then
      TestEndpoint
    else
      ProductionEndpoint
  }

  /** What the middlewares leave in `req.context`. */
  datatype RequestContext = RequestContext(username: string, password: string, formatted: bool, endpoint: Endpoint)

  /** The middleware chain in registration order: authentication, then
      `FormatMiddleware`, then the endpoint choice; the first failure stops
      the request. `formatted` is the outcome of falcon's
      `get_param_as_bool("formatted", default=False)`: False when the
      parameter is absent, an HTTP 400 when its value is not a boolean. */
  function ProcessRequest(auth: Option<string>, formatted: Result<bool, Exception>, params: map<string, PyObject>)
    : (r: Result<RequestContext, Exception>)
    ensures r.Success? <==> ProcessAuth(auth).Success? && formatted.Success?
    ensures ProcessAuth(auth).Failure? ==> r == Failure(ProcessAuth(auth).error)
    ensures ProcessAuth(auth).Success? && formatted.Failure? ==> r == Failure(formatted.error)
    ensures r.Success? ==>
      var (user, password) := ProcessAuth(auth).value;
      r.value == RequestContext(user, password, formatted.value, SelectEndpoint(user, params))
  {
    var credentials :- ProcessAuth(auth);
    var f :- formatted;
    Success(RequestContext(credentials.0, credentials.1, f, SelectEndpoint(credentials.0, params)))
  }

  /** The carrier's test account always reaches the test endpoint, whatever
      the parameters say, once the `formatted` parameter parses. */
  lemma TestAccountUsesTestEndpoint(password: string, formatted: Result<bool, Exception>, params: map<string, PyObject>)
    requires Base64.IsAscii(password) && ':' !in password
    ensures Base64.IsAscii("YKTEST:" + password)
    ensures ProcessRequest(Some("Basic " + Utilities.BasicToken("YKTEST:" + password)), formatted, params) ==
      match formatted
      case Success(f) => Success(RequestContext("YKTEST", password, f, TestEndpoint))
      case Failure(e) => Failure(e)
  {
    BasicHeaderRoundTrip("YKTEST", password);
    assert "YKTEST" + ":" + password == "YKTEST:" + password;
  }
}
