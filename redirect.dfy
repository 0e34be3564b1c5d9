/** Open-redirect protection for post-sign-in destinations (lib/auth/redirect.ts). */
module Redirect {
  import opened Wrappers
  import opened Text

  const DefaultFallback: string := "/dashboard"

  /** The sanitizer's test: the path starts with a single "/" and not with "//"
      (which a browser would read as a protocol-relative URL to another host). */
  predicate IsSafePath(p: string) {
    StartsWith(p, "/") && !StartsWith(p, "//")
  }

  /** getSafeRedirectPath: the redirect when it is a safe path, the fallback otherwise. */
  function GetSafeRedirectPath(redirect: Option<string>, fallback: string): (r: string)
    ensures redirect.Some? && IsSafePath(redirect.value) ==> r == redirect.value
    ensures !(redirect.Some? && IsSafePath(redirect.value)) ==> r == fallback
  {
    if !Present(redirect) then fallback
    else if !StartsWith(redirect.value, "/") then fallback
    else if StartsWith(redirect.value, "//") then fallback
    else redirect.value
  }

  /** With a fallback that passes the test, the result always passes it: it starts
      with a single "/" and not with "//". */
  lemma ResultIsSafe(redirect: Option<string>, fallback: string)
    requires IsSafePath(fallback)
    ensures IsSafePath(GetSafeRedirectPath(redirect, fallback))
  {
  }

  /** Sanitizing an already sanitized path changes nothing. */
  lemma SanitizeIdempotent(redirect: Option<string>, fallback: string)
    requires IsSafePath(fallback)
    ensures var once := GetSafeRedirectPath(redirect, fallback);
      GetSafeRedirectPath(Some(once), fallback) == once
  {
  }

  lemma RedirectExamples()
    ensures GetSafeRedirectPath(None, DefaultFallback) == "/dashboard"
    ensures GetSafeRedirectPath(Some(""), DefaultFallback) == "/dashboard"
    ensures GetSafeRedirectPath(Some("https://evil.example"), DefaultFallback) == "/dashboard"
    ensures GetSafeRedirectPath(Some("//evil.example"), DefaultFallback) == "/dashboard"
    ensures GetSafeRedirectPath(Some("/settings?tab=members"), DefaultFallback) == "/settings?tab=members"
  {
    assert "https://evil.example"[..1] == "h";
    assert "//evil.example"[..2] == "//";
    assert "/settings?tab=members"[..1] == "/";
    assert "/settings?tab=members"[..2] == "/s";
  }

  // ---------------------------------------------------------------------------
  // Paths the browser resolves to another host

  /** Tab, line feed and carriage return: the URL parser deletes them wherever
      they occur before it reads the input. */
  predicate IsUrlStrippedChar(c: char) {
    c == '\t' || c == '\n' || c == '\r'
  }

  /** The input as the URL parser reads it, without tabs and line breaks. */
  function StripUrlWhitespace(s: string): (r: string)
    ensures |r| <= |s|
    ensures forall i :: 0 <= i < |r| ==> !IsUrlStrippedChar(r[i])
    ensures |s| > 0 && !IsUrlStrippedChar(s[0]) ==> |r| > 0 && r[0] == s[0]
  {
    if s == [] then []
    else if IsUrlStrippedChar(s[0]) then StripUrlWhitespace(s[1..])
    else [s[0]] + StripUrlWhitespace(s[1..])
  }

  /** A path that an http(s) URL parser resolves against the request's own origin:
      read without tabs and line breaks, it starts with "/" and its next character
      is neither "/" nor "\" (either one starts a host name for http and https). */
  predicate IsSameOriginPath(p: string) {
    var q := StripUrlWhitespace(p);
    |q| >= 1 && q[0] == '/' && (|q| == 1 || (q[1] != '/' && q[1] != '\\'))
  }

  /** A path starting with "/" and one character that the URL parser keeps, looks
      at only those two characters under both tests. */
  lemma {:induction false} SecondCharDecides(p: string)
    requires |p| >= 2 && p[0] == '/' && !IsUrlStrippedChar(p[1])
    ensures IsSafePath(p) <==> p[1] != '/'
    ensures IsSameOriginPath(p) <==> p[1] != '/' && p[1] != '\\'
  {
    assert p[..2] == [p[0], p[1]];
    assert StripUrlWhitespace(p) == [p[0]] + StripUrlWhitespace(p[1..]);
    assert p[1..][0] == p[1];
  }

  /** The written test lets through a path that starts with "/\": a redirect
      to it, resolved against the request URL as app/auth/callback/route.ts and
      app/auth/post-auth/route.ts do, leaves for another host. */
  lemma BackslashPathLeavesOrigin()
    ensures IsSafePath("/\\evil.example")
    ensures GetSafeRedirectPath(Some("/\\evil.example"), DefaultFallback) == "/\\evil.example"
    ensures !IsSameOriginPath("/\\evil.example")
  {
    SecondCharDecides("/\\evil.example");
  }

  /** The sanitizer as evidently intended: it also refuses the paths the browser
      reads as a host name. */
  predicate IsLocalRedirect(p: string) {
    IsSafePath(p) && IsSameOriginPath(p)
  }

  /** getSafeRedirectPath corrected: the redirect when it stays on this origin,
      the fallback otherwise. */
  function GetSameOriginRedirectPath(redirect: Option<string>, fallback: string): (r: string)
    ensures redirect.Some? && IsLocalRedirect(redirect.value) ==> r == redirect.value
    ensures !(redirect.Some? && IsLocalRedirect(redirect.value)) ==> r == fallback
  {
    if Present(redirect) && IsLocalRedirect(redirect.value) then redirect.value else fallback
  }

  /** With a local fallback the corrected result always stays on this origin, and
      the corrected sanitizer keeps a redirect only where the written one keeps
      it too: the two differ exactly on the paths that leave the origin. */
  lemma CorrectedRedirectStaysLocal(redirect: Option<string>, fallback: string)
    requires IsLocalRedirect(fallback)
    ensures IsLocalRedirect(GetSameOriginRedirectPath(redirect, fallback))
    ensures GetSameOriginRedirectPath(redirect, fallback) != GetSafeRedirectPath(redirect, fallback) ==>
      redirect.Some? && IsSafePath(redirect.value) && !IsSameOriginPath(redirect.value)
    ensures redirect.Some? && IsSafePath(redirect.value) && !IsSameOriginPath(redirect.value) ==>
      GetSafeRedirectPath(redirect, fallback) == redirect.value &&
      GetSameOriginRedirectPath(redirect, fallback) == fallback
  {
  }

  /** The corrected sanitizer refuses the backslash path and keeps an ordinary one. */
  lemma CorrectedRedirectExamples()
    ensures GetSameOriginRedirectPath(Some("/\\evil.example"), DefaultFallback) == "/dashboard"
    ensures GetSameOriginRedirectPath(Some("/settings"), DefaultFallback) == "/settings"
  {
    BackslashPathLeavesOrigin();
    SecondCharDecides("/settings");
    SecondCharDecides("/dashboard");
  }
}
