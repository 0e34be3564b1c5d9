/**
 * GET /auth/post-auth (app/auth/post-auth/route.ts): where a user lands after
 * signing in. A pending invitation, remembered in the invite cookie, wins over the
 * requested redirect.
 */
module PostAuth {
  import opened Wrappers
  import opened Text
  import opened HttpResponse
  import Redirect
  import InviteRoute
  import InviteAccept

  /** The specification of GET /auth/post-auth. The fallback keeps any query the
      redirect parameter carried, inside its path. */
  function PostAuthSpec(redirect: Option<string>, inviteCookie: Option<string>, signedIn: bool): Location {
    var fallback := Redirect.GetSafeRedirectPath(redirect, Redirect.DefaultFallback);
    if !signedIn then Location(InviteRoute.SignInPath, [("redirect", fallback)])
    else if Present(inviteCookie) then PathOnly(InviteRoute.AcceptPath)
    else PathOnly(fallback)
  }

  /** Without a user, sign in and come back to the safe fallback; with an invite
      cookie, accept the invitation whatever the redirect asked for; otherwise go to
      the safe fallback, /dashboard by default. */
  lemma PostAuthOutcomes(redirect: Option<string>, inviteCookie: Option<string>, signedIn: bool)
    ensures var fallback := Redirect.GetSafeRedirectPath(redirect, "/dashboard");
      var r := PostAuthSpec(redirect, inviteCookie, signedIn);
      && (!signedIn ==> r == Location("/auth/sign-in", [("redirect", fallback)]))
      && (signedIn && Present(inviteCookie) ==> r == PathOnly("/invite/accept"))
      && (signedIn && !Present(inviteCookie) ==> r == PathOnly(fallback))
      && Redirect.IsSafePath(fallback)
      && (redirect.None? ==> fallback == "/dashboard")
  {
    assert "/dashboard"[..1] == "/" && "/dashboard"[..2] == "/d";
    Redirect.ResultIsSafe(redirect, "/dashboard");
  }

  /** An invitation opened while signed out survives sign-in: GET /invite sends the
      browser to sign in and sets the cookie, post-auth then sends the signed-in
      user to /invite/accept, and the accept route reads the token back from the
      cookie. */
  lemma InviteSurvivesSignIn(token: string, production: bool, redirect: Option<string>)
    requires token != ""
    ensures var invite := InviteRoute.InviteSpec(Some(token), false, production);
      && invite.target == RedirectTo(PathOnly("/auth/sign-in"))
      && PostAuthSpec(redirect, Some(invite.cookies[0].value), true) == PathOnly("/invite/accept")
      && InviteAccept.AcceptToken(None, Some(invite.cookies[0].value)) == token
  {
  }
}
