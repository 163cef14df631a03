/**
 * JwtAuthenticationFilter: which requests it skips, where it finds the access
 * token (an Authorization bearer header first, then the "access_token"
 * cookie), and when it fills the security context.
 *
 * The user-details service is an oracle: `loadUser` maps the usernames it
 * can load to their details; any other username makes it throw.
 */
module JwtFilter {

  import opened Wrappers
  import opened Text
  import opened Tokens

  const AccessCookieName := "access_token"
  const BearerPrefix := "bearer "

  datatype Cookie = Cookie(name: string, value: string)

  /** The parts of an HTTP request the filter reads; `None` stands for a missing header or cookie array. */
  datatype Request = Request(httpMethod: string, servletPath: string, authorization: Option<string>, cookies: Option<seq<Cookie>>)

  datatype UserDetails = UserDetails(username: string, authorities: set<string>)

  /** The authentication the filter stores: the loaded principal and its authorities. */
  datatype Authentication = Authentication(principal: UserDetails, authorities: set<string>)

  /** `shouldNotFilter`: CORS pre-flight requests and the public auth endpoints. */
  predicate ShouldNotFilter(req: Request) {
    req.httpMethod == "OPTIONS" || StartsWith(req.servletPath, "/api/auth")
  }

  /**
   * The header's lower-cased form starts with "bearer ". Java lower-cases the
   * whole header; only characters that are ASCII letters or their upper-case
   * forms can lower-case to the letters of "bearer ", so ASCII mapping suffices.
   */
  predicate IsBearer(header: string) {
    StartsWith(ToLower(header), BearerPrefix)
  }

  /** The value of the first cookie named "access_token", as the stream's `findFirst` picks it. */
  function FirstAccessCookie(cookies: seq<Cookie>): (v: Option<string>)
    ensures v.None? <==> forall i :: 0 <= i < |cookies| ==> cookies[i].name != AccessCookieName
    ensures v.Some? ==> exists i :: 0 <= i < |cookies| && cookies[i] == Cookie(AccessCookieName, v.value)
                                    && (forall j :: 0 <= j < i ==> cookies[j].name != AccessCookieName)
  {
    if cookies == [] then None
    else if cookies[0].name == AccessCookieName then Some(cookies[0].value)
    else
      var v := FirstAccessCookie(cookies[1..]);
      if v.Some? then
        ghost var i :| 0 <= i < |cookies| - 1 && cookies[1..][i] == Cookie(AccessCookieName, v.value)
                        && (forall j :: 0 <= j < i ==> cookies[1..][j].name != AccessCookieName);
        assert cookies[i + 1] == Cookie(AccessCookieName, v.value);
        v
      else v
  }

  /** `resolveToken`: a bearer header wins; otherwise the access cookie, if any. */
  function ResolveToken(req: Request): (token: Option<string>)
    ensures req.authorization.Some? && IsBearer(req.authorization.value) ==>
      token == Some(req.authorization.value[|BearerPrefix|..])
    ensures !(req.authorization.Some? && IsBearer(req.authorization.value)) ==>
      token == if req.cookies.Some? then FirstAccessCookie(req.cookies.value) else None
  {
    if req.authorization.Some? && IsBearer(req.authorization.value) then
      Some(req.authorization.value[7..])
    else if req.cookies.Some? then FirstAccessCookie(req.cookies.value)
    else None
  }

  /** A header whose first seven characters are a case variant of "bearer" and a space is a bearer header. */
  lemma BearerHeader(h: string, scheme: string)
    requires |h| >= 7 && h[..7] == scheme + " " && ToLower(scheme) == "bearer"
    ensures IsBearer(h)
  {
    ToLowerPrefix(h, 7);
    ToLowerAppend(scheme, " ");
    assert ToLower(" ") == " ";
  }

  /** A header "Bearer <t>", in any letter case, yields exactly `t`, whatever the cookies say. */
  lemma BearerRoundTrip(httpMethod: string, path: string, scheme: string, t: string, cookies: Option<seq<Cookie>>)
    requires |scheme| == 6 && ToLower(scheme) == "bearer"
    ensures ResolveToken(Request(httpMethod, path, Some(scheme + " " + t), cookies)) == Some(t)
  {
    var h := scheme + " " + t;
    assert h[..7] == scheme + " ";
    BearerHeader(h, scheme);
    assert h[7..] == t;
  }

  /**
   * `doFilterInternal` on a context holding `auth`: whether the chain went
   * on (it does not when loading the user throws), and the context's
   * authentication afterwards.
   */
  function FilterStep(req: Request, jwt: TokenService, loadUser: map<string, UserDetails>, auth: Option<Authentication>): (r: (bool, Option<Authentication>))
    ensures auth.Some? ==> r == (true, auth)
    ensures r.1 != auth ==>
      var token := ResolveToken(req);
      auth.None? && token.Some? && jwt.Validate(token.value) && jwt.Username(token.value).Some?
      && jwt.Username(token.value).value in loadUser
      && var details := loadUser[jwt.Username(token.value).value];
      r.1 == Some(Authentication(details, details.authorities))
    ensures !r.0 <==>
      var token := ResolveToken(req);
      auth.None? && token.Some? && jwt.Validate(token.value) && jwt.Username(token.value).Some?
      && jwt.Username(token.value).value !in loadUser
    ensures r.0 && auth.None? ==> (r.1.Some? <==>
      var token := ResolveToken(req);
      token.Some? && jwt.Validate(token.value) && jwt.Username(token.value).Some?)
  {
    var token := ResolveToken(req);
    if token.Some? && jwt.Validate(token.value) then
      var username := jwt.Username(token.value);
      if username.Some? && auth.None? then
        if username.value !in loadUser then (false, auth)
        else
          var details := loadUser[username.value];
          (true, Some(Authentication(details, details.authorities)))
      else (true, auth)
    else (true, auth)
  }

  /** A token that is missing or does not validate leaves the context alone and the chain continues. */
  lemma NoValidTokenNoChange(req: Request, jwt: TokenService, loadUser: map<string, UserDetails>, auth: Option<Authentication>)
    requires ResolveToken(req).None? || !jwt.Validate(ResolveToken(req).value)
    ensures FilterStep(req, jwt, loadUser, auth) == (true, auth)
  {
  }

  /** The holder of the request's security context. */
  class SecurityContext {
    var authentication: Option<Authentication>

    constructor ()
      ensures authentication.None?
    {
      authentication := None;
    }
  }

  /**
   * `OncePerRequestFilter.doFilter` with this filter's `shouldNotFilter` and
   * `doFilterInternal`: whether the rest of the chain ran.
   */
  method DoFilter(req: Request, jwt: TokenService, loadUser: map<string, UserDetails>, ctx: SecurityContext) returns (chainContinued: bool)
    modifies ctx
    ensures ShouldNotFilter(req) ==> chainContinued && ctx.authentication == old(ctx.authentication)
    ensures !ShouldNotFilter(req) ==>
      (chainContinued, ctx.authentication) == FilterStep(req, jwt, loadUser, old(ctx.authentication))
  {
    if ShouldNotFilter(req) {
      return true;
    }
    chainContinued := DoFilterInternal(req, jwt, loadUser, ctx);
  }

  method DoFilterInternal(req: Request, jwt: TokenService, loadUser: map<string, UserDetails>, ctx: SecurityContext) returns (chainContinued: bool)
    modifies ctx
    ensures (chainContinued, ctx.authentication) == FilterStep(req, jwt, loadUser, old(ctx.authentication))
  {
    var token := ResolveToken(req);
    if token.Some? && jwt.Validate(token.value) {
      var username := jwt.Username(token.value);
      if username.Some? && ctx.authentication.None? {
        if username.value !in loadUser {
          return false;
        }
        var details := loadUser[username.value];
        ctx.authentication := Some(Authentication(details, details.authorities));
      }
    }
    return true;
  }
}
