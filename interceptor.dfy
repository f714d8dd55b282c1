/**
 * The request authoriser: a hook run on every outgoing request that adds the
 * bearer token to requests aimed at the backend.
 */
module Interceptor {
  import opened Wrappers
  import Session

  /** The backend base URL the request URL is compared against. */
  const BackendUrl: string := "http://localhost:8080"

  const AuthorizationHeader: string := "Authorization"

  /** An outgoing request: method, URL, headers (name to value) and an opaque body. */
  datatype Request = Request(verb: string, url: string, headers: map<string, string>, body: string)

  /** `s.startsWith(prefix)`: a plain string prefix test, not an origin comparison. */
  predicate StartsWith(s: string, prefix: string)
  {
    |prefix| <= |s| && s[..|prefix|] == prefix
  }

  /** The header is added when the stored token is truthy and the URL starts with the backend URL. */
  predicate Authorises(stored: map<string, string>, req: Request)
  {
    Session.TokenKey in stored && stored[Session.TokenKey] != "" && StartsWith(req.url, BackendUrl)
  }

  /**
   * `intercept`: the one request handed on to the next handler. When it
   * authorises, a copy of `req` whose `Authorization` header is
   * `Bearer <token>`; otherwise `req` itself.
   */
  function Intercept(stored: map<string, string>, req: Request): (forwarded: Request)
    ensures Authorises(stored, req) ==>
      && forwarded.verb == req.verb && forwarded.url == req.url && forwarded.body == req.body
      && forwarded.headers.Keys == req.headers.Keys + {AuthorizationHeader}
      && forwarded.headers[AuthorizationHeader] == "Bearer " + stored[Session.TokenKey]
      && (forall name :: name in req.headers && name != AuthorizationHeader ==> forwarded.headers[name] == req.headers[name])
    ensures !Authorises(stored, req) ==> forwarded == req
  {
    var token := Lookup(stored, Session.TokenKey);
    var isApiRequest := StartsWith(req.url, BackendUrl);
    if token.Some? && token.value != "" && isApiRequest then
      req.(headers := req.headers[AuthorizationHeader := "Bearer " + token.value])
    else
      req
  }

  /** The forwarded request carries a bearer header exactly when the interceptor authorises (for a request that had none). */
  lemma {:induction false} HeaderIffAuthorised(stored: map<string, string>, req: Request)
    requires AuthorizationHeader !in req.headers
    ensures AuthorizationHeader in Intercept(stored, req).headers <==> Authorises(stored, req)
  {
  }

  /** With no token stored, the very request given is handed on. */
  lemma NoTokenForwardsRequestUnchanged(stored: map<string, string>, req: Request)
    requires Session.TokenKey !in stored
    ensures Intercept(stored, req) == req
  {
  }

  /** A relative URL such as `/test` never gets the header, whatever token is stored. */
  lemma RelativeUrlIsNeverAuthorised(stored: map<string, string>, req: Request)
    requires |req.url| > 0 && req.url[0] == '/'
    ensures Intercept(stored, req) == req
  {
  }

  /** Because the test is a string prefix, a host merely starting with the backend URL also receives the token. */
  lemma LookalikeHostIsAuthorised(token: string, req: Request)
    requires token != ""
    requires req.url == "http://localhost:8080evil"
    ensures Intercept(map[Session.TokenKey := token], req).headers[AuthorizationHeader] == "Bearer " + token
  {
  }

  /** The expiry of the token plays no part: an expired stored token is attached all the same. */
  lemma ExpiredTokenIsStillAttached(decode: Session.Decoder, stored: map<string, string>, req: Request, now: int)
    requires Session.TokenKey in stored && stored[Session.TokenKey] != ""
    requires StartsWith(req.url, BackendUrl)
    requires Session.IsTokenExpired(decode, stored[Session.TokenKey], now)
    ensures Intercept(stored, req).headers[AuthorizationHeader] == "Bearer " + stored[Session.TokenKey]
  {
  }
}
