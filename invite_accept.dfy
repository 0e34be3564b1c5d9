/**
 * GET /invite/accept (app/invite/accept/route.ts): the signed-in user accepts the
 * invitation through the `accept_invitation` database function. Every outcome but
 * "sign in first" clears the invite cookie.
 */
module InviteAccept {
  import opened Wrappers
  import opened Text
  import opened HttpResponse
  import opened InviteRoute

  const DashboardPath := "/dashboard"

  /** The token: the query's when non-empty, else the cookie's, else "". */
  function AcceptToken(query: Option<string>, cookie: Option<string>): (r: string)
    ensures Present(query) ==> r == query.value
    ensures !Present(query) && Present(cookie) ==> r == cookie.value
    ensures r == "" <==> !Present(query) && !Present(cookie)
  {
    if Present(query) then query.value
    else if Present(cookie) then cookie.value
    else ""
  }

  /** The call to `accept_invitation`. */
  datatype RpcCall = RpcCall(inviteToken: string, userEmail: string)

  /** What the call answered: an error, or data (a string, or None for anything that
      is not one). */
  datatype RpcResult = RpcError | RpcData(data: Option<string>)

  /** The signed-in user, as far as this route reads it. */
  datatype User = User(email: Option<string>)

  datatype AcceptOutcome = AcceptOutcome(response: ResponseValue, rpc: Option<RpcCall>)

  /** clearInviteCookie's write: the invite cookie emptied, with maxAge 0. */
  function ClearedInviteCookie(production: bool): Cookie {
    InviteCookie("", 0, production)
  }

  /** The sign-in page, returning to this route with the token (`encode` is
      encodeURIComponent). */
  function SignInFirst(token: string, encode: string -> string): Location {
    Location(SignInPath, [("redirect", AcceptPath + "?token=" + encode(token))])
  }

  /** The specification of GET /invite/accept. */
  function AcceptSpec(query: Option<string>, cookie: Option<string>, user: Option<User>, rpc: RpcResult,
                      production: bool, encode: string -> string): AcceptOutcome
  {
    var token := AcceptToken(query, cookie);
    var cleared := [ClearedInviteCookie(production)];
    if token == "" then AcceptOutcome(ResponseValue(RedirectTo(PathOnly(InvalidPath)), cleared), None)
    else if user.None? then AcceptOutcome(ResponseValue(RedirectTo(SignInFirst(token, encode)), []), None)
    else
      var call := Some(RpcCall(token, user.value.email.GetOr("")));
      if rpc.RpcError? then AcceptOutcome(ResponseValue(RedirectTo(PathOnly(InvalidPath)), cleared), call)
      else if rpc.data == Some("accepted") || rpc.data == Some("already_accepted") then
        AcceptOutcome(ResponseValue(RedirectTo(PathOnly(DashboardPath)), cleared), call)
      else AcceptOutcome(ResponseValue(RedirectTo(PathOnly(InvalidPath)), cleared), call)
  }

  // ---------------------------------------------------------------------------
  // Properties

  /** Every outcome clears the invite cookie exactly once, except sending a user who
      is not signed in to sign in, which keeps it. */
  lemma ClearsUnlessSigningIn(query: Option<string>, cookie: Option<string>, user: Option<User>, rpc: RpcResult,
                              production: bool, encode: string -> string)
    ensures var o := AcceptSpec(query, cookie, user, rpc, production, encode);
      && (AcceptToken(query, cookie) != "" && user.None? ==>
            o.response == ResponseValue(RedirectTo(SignInFirst(AcceptToken(query, cookie), encode)), []) && o.rpc.None?)
      && (!(AcceptToken(query, cookie) != "" && user.None?) ==> o.response.cookies == [ClearedInviteCookie(production)])
  {
  }

  /** The invitation is accepted only for a non-empty token and a signed-in user,
      with the user's address ("" when it has none); "accepted" and
      "already_accepted" lead to the dashboard, anything else to /invite/invalid. */
  lemma OutcomeMapping(query: Option<string>, cookie: Option<string>, user: Option<User>, rpc: RpcResult,
                       production: bool, encode: string -> string)
    ensures var o := AcceptSpec(query, cookie, user, rpc, production, encode);
      && (o.rpc.Some? <==> AcceptToken(query, cookie) != "" && user.Some?)
      && (o.rpc.Some? ==> o.rpc.value == RpcCall(AcceptToken(query, cookie), user.value.email.GetOr("")))
      && (o.response.target == RedirectTo(PathOnly("/dashboard")) <==>
            o.rpc.Some? && rpc.RpcData? && (rpc.data == Some("accepted") || rpc.data == Some("already_accepted")))
      && (o.rpc.Some? && o.response.target != RedirectTo(PathOnly("/dashboard")) ==>
            o.response.target == RedirectTo(PathOnly("/invite/invalid")))
  {
  }

  /** The clearing write overwrites the cookie set by GET /invite: same name, path,
      flags and domain, an empty value and no lifetime. */
  lemma ClearMatchesInviteCookie(token: string, production: bool)
    ensures var written := InviteCookie(token, InviteCookieMaxAge, production);
      var clear := ClearedInviteCookie(production);
      && clear == written.(value := "", maxAge := 0)
  {
  }

  /** The token set by GET /invite reaches this route: through the query when the
      user was signed in, and through the cookie when the query is lost on the way
      through sign-in. */
  lemma InviteTokenReachesAccept(token: string, production: bool, cookie: Option<string>)
    requires token != ""
    ensures var signedIn := InviteSpec(Some(token), true, production);
      && signedIn.target.location == Location("/invite/accept", [("token", token)])
      && AcceptToken(Some(signedIn.target.location.query[0].1), cookie) == token
    ensures var viaSignIn := InviteSpec(Some(token), false, production);
      && viaSignIn.cookies[0].name == "invite_token"
      && AcceptToken(None, Some(viaSignIn.cookies[0].value)) == token
  {
  }

  // ---------------------------------------------------------------------------
  // The route

  /** clearInviteCookie: one clearing write on the response. */
  method ClearInviteCookie(response: Response, production: bool)
    modifies response
    ensures response.Value() == ResponseValue(old(response.target), old(response.cookies) + [ClearedInviteCookie(production)])
  {
    response.SetCookie(ClearedInviteCookie(production));
  }

  /** GET /invite/accept, building the response. */
  method HandleAccept(query: Option<string>, cookie: Option<string>, user: Option<User>, rpc: RpcResult,
                      production: bool, encode: string -> string)
    returns (response: Response, call: Option<RpcCall>)
    ensures fresh(response)
    ensures AcceptOutcome(response.Value(), call) == AcceptSpec(query, cookie, user, rpc, production, encode)
  {
    var token := AcceptToken(query, cookie);
    call := None;
    if token == "" {
      response := new Response(RedirectTo(PathOnly(InvalidPath)));
      ClearInviteCookie(response, production);
      return;
    }
    if user.None? {
      response := new Response(RedirectTo(SignInFirst(token, encode)));
      return;
    }
    call := Some(RpcCall(token, user.value.email.GetOr("")));
    var destination := InvalidPath;
    if rpc.RpcData? && (rpc.data == Some("accepted") || rpc.data == Some("already_accepted")) {
      destination := DashboardPath;
    }
    response := new Response(RedirectTo(PathOnly(destination)));
    ClearInviteCookie(response, production);
  }
}
