/**
 * The check the REST front end runs before every request: informational
 * endpoints pass, the favicon is not found, a `_method` form field overrides
 * the request method, and everything else needs an API token unless the
 * server listens only on the loopback address.
 */
module HttpdGate {
  import opened Wrappers

  /**
   * The parts of a request the check looks at: its method, the name of the
   * endpoint it was routed to (none when no route matched), and the
   * `_method` form field, if present.
   */
  datatype Request = Request(verb: string, endpoint: Option<string>, methodField: Option<string>)

  /** Whether the request goes on to its handler or is aborted with a status. */
  datatype Outcome = Continue | Abort(status: int)

  /** The outcome, and the method the request carries afterwards. */
  datatype Gate = Gate(outcome: Outcome, verb: string)

  const NotFound: int := 404
  const Unauthorized: int := 401
  const Loopback: string := "127.0.0.1"

  /** Endpoints a GET may reach without a token. */
  const Whitelist: seq<string> := ["/", "doc", "help", "health", "restplus_doc.static", "specs", "swaggerui"]

  /** A GET to a whitelisted endpoint, judged by the method the request arrived with. */
  predicate Exempt(req: Request) {
    req.verb == "GET" && req.endpoint.Some? && req.endpoint.value in Whitelist
  }

  /** A GET for the favicon. */
  predicate Favicon(req: Request) {
    req.verb == "GET" && req.endpoint == Some("favicon")
  }

  /** `not t or t == 'None'`: no token, an empty one, or the text `None`. */
  predicate MissingToken(token: Option<string>) {
    token.None? || token.value == "" || token.value == "None"
  }

  /** Python's `str.upper()` on one character, for the ASCII letters. */
  function UpperChar(c: char): (u: char)
    ensures 'a' <= c <= 'z' ==> 'A' <= u <= 'Z' && u as int - 'A' as int == c as int - 'a' as int
    ensures !('a' <= c <= 'z') ==> u == c
  {
    if 'a' <= c <= 'z' then (c as int - 'a' as int + 'A' as int) as char else c
  }

  /** Python's `str.upper()`, for the ASCII letters. */
  function Upper(s: string): (r: string)
    ensures |r| == |s|
    ensures forall k :: 0 <= k < |s| ==> r[k] == UpperChar(s[k])
    ensures forall k :: 0 <= k < |r| ==> !('a' <= r[k] <= 'z')
  {
    seq(|s|, k requires 0 <= k < |s| => UpperChar(s[k]))
  }

  /** `request.form.get('_method', '').upper()`. */
  function MethodOverride(req: Request): (m: string)
    ensures m == "" <==> req.methodField.None? || req.methodField.value == ""
    ensures req.methodField.Some? ==> m == Upper(req.methodField.value)
    ensures m == Upper(m)
  {
    Upper(if req.methodField.Some? then req.methodField.value else "")
  }

  /**
   * `before_request()`. `listen` is the address the server listens on and
   * `token` what `pull_token()` finds in the request.
   */
  function BeforeRequest(req: Request, listen: string, token: Option<string>): (g: Gate)
    // Whitelisted GETs and the favicon are decided on the original method.
    ensures Exempt(req) ==> g == Gate(Continue, req.verb)
    ensures Favicon(req) ==> g == Gate(Abort(NotFound), req.verb)
    // Otherwise a non-empty `_method` field becomes the method, upper-cased.
    ensures !Exempt(req) && !Favicon(req) ==>
      g.verb == if MethodOverride(req) != "" then MethodOverride(req) else req.verb
    // Only these three outcomes exist, each under exactly its condition.
    ensures g.outcome == Continue || g.outcome == Abort(NotFound) || g.outcome == Abort(Unauthorized)
    ensures g.outcome == Abort(NotFound) <==> Favicon(req)
    ensures g.outcome == Abort(Unauthorized) <==>
      !Exempt(req) && !Favicon(req) && listen != Loopback && MissingToken(token)
    ensures g.outcome == Continue <==>
      Exempt(req) || (!Favicon(req) && (listen == Loopback || !MissingToken(token)))
  {
    if req.verb == "GET" && req.endpoint.Some? && req.endpoint.value in Whitelist then
      Gate(Continue, req.verb)
    else if req.verb == "GET" && req.endpoint.Some? && req.endpoint.value in ["favicon"] then
      Gate(Abort(NotFound), req.verb)
    else
      var overridden := MethodOverride(req);
      var effective := if overridden != "" then overridden else req.verb;
      if listen == Loopback then Gate(Continue, effective)
      else if token.None? || token.value == "" || token.value == "None" then Gate(Abort(Unauthorized), effective)
      else Gate(Continue, effective)
  }

  /**
   * The override comes after the whitelist check: a POST to a documentation
   * endpoint with `_method=get` is treated as a GET afterwards, yet without a
   * token on a public address it is refused.
   */
  lemma OverrideDoesNotExempt(endpoint: string, listen: string)
    requires endpoint in Whitelist
    requires listen != Loopback
    ensures BeforeRequest(Request("POST", Some(endpoint), Some("get")), listen, None) ==
      Gate(Abort(Unauthorized), "GET")
  {
    assert Upper("get") == "GET";
  }
}
