/**
 * GET /invite (app/invite/route.ts): the link in an invitation email. The token is
 * kept in an `invite_token` cookie and the browser is sent on to accept the
 * invitation, or to sign in first.
 */
module InviteRoute {
  import opened Wrappers
  import opened Text
  import opened HttpResponse

  const InviteCookieName := "invite_token"
  /** Seven days, in seconds. */
  const InviteCookieMaxAge := 60 * 60 * 24 * 7
  const InvalidPath := "/invite/invalid"
  const SignInPath := "/auth/sign-in"
  const AcceptPath := "/invite/accept"

  /** The invite cookie with a value and lifetime; `secure` only in production. */
  function InviteCookie(value: string, maxAge: int, production: bool): Cookie {
    Cookie(InviteCookieName, value, true, Some("lax"), production, "/", maxAge, None)
  }

  /** `/invite/accept?token=<token>`. */
  function AcceptLocation(token: string): Location {
    Location(AcceptPath, [("token", token)])
  }

  /** The specification of GET /invite: `production` is NODE_ENV being "production". */
  function InviteSpec(token: Option<string>, signedIn: bool, production: bool): ResponseValue {
    if !Present(token) then ResponseValue(RedirectTo(PathOnly(InvalidPath)), [])
    else
      var destination := if signedIn then AcceptLocation(token.value) else PathOnly(SignInPath);
      ResponseValue(RedirectTo(destination), [InviteCookie(token.value, InviteCookieMaxAge, production)])
  }

  /** A missing or empty token goes to /invite/invalid and sets no cookie. */
  lemma NoTokenNoCookie(token: Option<string>, signedIn: bool, production: bool)
    requires !Present(token)
    ensures InviteSpec(token, signedIn, production) == ResponseValue(RedirectTo(PathOnly("/invite/invalid")), [])
  {
  }

  /** With a token, a signed-in user goes on to accept it and anyone else to sign in;
      either way exactly one cookie is set: invite_token holding the token, httpOnly,
      SameSite lax, path "/", for 604800 seconds, secure exactly in production. */
  lemma TokenIsRemembered(token: Option<string>, signedIn: bool, production: bool)
    requires Present(token)
    ensures var r := InviteSpec(token, signedIn, production);
      && r.target == RedirectTo(if signedIn then Location("/invite/accept", [("token", token.value)]) else PathOnly("/auth/sign-in"))
      && |r.cookies| == 1
      && var c := r.cookies[0];
      && c.name == "invite_token" && c.value == token.value
      && c.httpOnly && c.sameSite == Some("lax") && c.path == "/" && c.maxAge == 604800
      && (c.secure <==> production) && c.domain.None?
  {
  }

  /** GET /invite, building the response. */
  method HandleInvite(token: Option<string>, signedIn: bool, production: bool) returns (response: Response)
    ensures fresh(response)
    ensures response.Value() == InviteSpec(token, signedIn, production)
  {
    if !Present(token) {
      response := new Response(RedirectTo(PathOnly(InvalidPath)));
      return;
    }
    var destination := if signedIn then AcceptLocation(token.value) else PathOnly(SignInPath);
    response := new Response(RedirectTo(destination));
    response.SetCookie(InviteCookie(token.value, InviteCookieMaxAge, production));
  }
}
