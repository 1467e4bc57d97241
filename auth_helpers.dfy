/**
 * Request authorization for the API routes (src/utils/auth-helpers.ts):
 * the padded string comparison, the same-origin test, and the decision
 * chain of the token checker.
 *
 * URL parsing is a parameter: it yields the hostname and the `token` query
 * parameter, or nothing when the text is not a URL.
 */
module AuthHelpers {
  import opened Wrappers
  import opened Text

  /** Fixed padding length of the comparison. */
  const PadLength: nat := 128

  /** What the checker reads from a parsed URL. */
  datatype Url = Url(hostname: string, token: Option<string>)

  /** The request headers the checks read (absent header: `None`). */
  datatype Request = Request(
    url: string,
    origin: Option<string>,
    referer: Option<string>,
    authorization: Option<string>)

  /** The environment: URL parsing and whether the server runs in development mode. */
  datatype Env = Env(parseUrl: string -> Option<Url>, isDevelopment: bool)

  /** A header is truthy when present and non-empty. */
  predicate Truthy(h: Option<string>)
  {
    h.Some? && h.value != ""
  }

  /** `origin || referer`. */
  function RequestOrigin(req: Request): (r: Option<string>)
    ensures Truthy(r) <==> Truthy(req.origin) || Truthy(req.referer)
    ensures Truthy(req.origin) ==> r == req.origin
    ensures !Truthy(req.origin) && Truthy(req.referer) ==> r == req.referer
  {
    if Truthy(req.origin) then req.origin else req.referer
  }

  /**
   * `timingSafeEqual(a, b)`: both strings are padded with NUL to 128
   * characters; the buffer comparison fails when the padded lengths differ,
   * and a true buffer comparison still needs equal original lengths.
   */
  function TimingSafeEqual(a: string, b: string): bool
  {
    var pa, pb := PadEnd(a, PadLength, '\0'), PadEnd(b, PadLength, '\0');
    if |pa| != |pb| then false
    else pa == pb && |a| == |b|
  }

  /** The comparison is exactly string equality, for every length, 128 and beyond included. */
  lemma TimingSafeEqualIsEquality(a: string, b: string)
    ensures TimingSafeEqual(a, b) <==> a == b
  {
    var pa, pb := PadEnd(a, PadLength, '\0'), PadEnd(b, PadLength, '\0');
    if |pa| == |pb| && pa == pb && |a| == |b| {
      assert a == pa[..|a|] == pb[..|b|] == b;
    }
  }

  /** Strings of different lengths never compare equal. */
  lemma TimingSafeEqualLengths(a: string, b: string)
    requires |a| != |b|
    ensures !TimingSafeEqual(a, b)
  {
    TimingSafeEqualIsEquality(a, b);
  }

  predicate IsLoopback(host: string)
  {
    host == "localhost" || host == "127.0.0.1"
  }

  /**
   * `isSameOrigin(request)`: without origin and referer only development
   * passes; otherwise both URLs must parse and the origin's host must be the
   * request's host or a loopback name.
   */
  function IsSameOrigin(req: Request, env: Env): (b: bool)
    ensures !Truthy(RequestOrigin(req)) ==> (b <==> env.isDevelopment)
    ensures Truthy(RequestOrigin(req)) ==>
      (b <==> exists o, c :: env.parseUrl(RequestOrigin(req).value) == Some(o) && env.parseUrl(req.url) == Some(c)
                             && (o.hostname == c.hostname || IsLoopback(o.hostname)))
  {
    var requestOrigin := RequestOrigin(req);
    if !Truthy(requestOrigin) then env.isDevelopment
    else match (env.parseUrl(requestOrigin.value), env.parseUrl(req.url))
      case (Some(o), Some(c)) => o.hostname == c.hostname || IsLoopback(o.hostname)
      case _ => false
  }

  /** The token from the `token` query parameter, when the URL parses and it is non-empty. */
  function QueryToken(req: Request, env: Env): Option<string>
  {
    match env.parseUrl(req.url)
    case Some(u) => if Truthy(u.token) then u.token else None
    case None => None
  }

  /** The origin branch: the origin's host is the request's host, or a loopback name in development. */
  function SameHostAllowed(req: Request, env: Env): bool
  {
    var requestOrigin := RequestOrigin(req);
    Truthy(requestOrigin) &&
    match (env.parseUrl(requestOrigin.value), env.parseUrl(req.url))
    case (Some(o), Some(c)) => o.hostname == c.hostname || (IsLoopback(o.hostname) && env.isDevelopment)
    case _ => false
  }

  /** `checkToken(request)` with `secret` as the configured token. */
  function CheckToken(req: Request, secret: string, env: Env): bool
  {
    match QueryToken(req, env)
    case Some(t) => secret != "" && TimingSafeEqual(t, secret)
    case None =>
      if req.authorization.Some? && StartsWith(req.authorization.value, "Bearer ") then
        secret != "" && TimingSafeEqual(req.authorization.value[7..], secret)
      else
        SameHostAllowed(req, env)
  }

  /** A query token decides alone: access iff a secret is configured and the token equals it. */
  lemma QueryTokenDecides(req: Request, secret: string, env: Env)
    requires QueryToken(req, env).Some?
    ensures CheckToken(req, secret, env) <==> secret != "" && QueryToken(req, env).value == secret
  {
    TimingSafeEqualIsEquality(QueryToken(req, env).value, secret);
  }

  /** Without a query token, a `Bearer ` header decides alone on the text after the prefix. */
  lemma BearerDecides(req: Request, secret: string, env: Env)
    requires QueryToken(req, env).None?
    requires req.authorization.Some? && StartsWith(req.authorization.value, "Bearer ")
    ensures CheckToken(req, secret, env) <==> secret != "" && req.authorization.value[7..] == secret
  {
    TimingSafeEqualIsEquality(req.authorization.value[7..], secret);
  }

  /**
   * With no token at all, access is granted only to a same-host origin (or
   * a loopback origin in development); the origin branch never grants more
   * than `IsSameOrigin`, and an unconfigured secret changes nothing here.
   */
  lemma NoTokenNeedsSameHost(req: Request, secret: string, env: Env)
    requires QueryToken(req, env).None?
    requires !(req.authorization.Some? && StartsWith(req.authorization.value, "Bearer "))
    ensures CheckToken(req, secret, env) <==> SameHostAllowed(req, env)
    ensures CheckToken(req, secret, env) ==> IsSameOrigin(req, env)
    ensures CheckToken(req, secret, env) == CheckToken(req, "", env)
  {
  }

  /** With no secret configured, only the origin branch can grant access. */
  lemma NoSecretOnlySameHost(req: Request, env: Env)
    ensures CheckToken(req, "", env) ==> QueryToken(req, env).None? && SameHostAllowed(req, env)
  {
  }

  /** Outside development, the origin branch and `IsSameOrigin` agree except on loopback origins. */
  lemma SameHostMatchesSameOrigin(req: Request, env: Env)
    requires !env.isDevelopment && Truthy(RequestOrigin(req))
    requires forall u :: env.parseUrl(RequestOrigin(req).value) == Some(u) ==> !IsLoopback(u.hostname)
    ensures SameHostAllowed(req, env) <==> IsSameOrigin(req, env)
  {
  }
}
