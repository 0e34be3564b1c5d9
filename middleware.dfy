/**
 * The request middleware (middleware.ts): a signed-in user whose profile is gone
 * (removed from the company) is signed out on any guarded page, sent to sign in
 * with reason "removed", and every auth cookie is cleared for the host and its
 * parent domain.
 */
module Middleware {
  import opened Wrappers
  import opened Text
  import opened HttpResponse

  const KnownSupabaseCookieNames: seq<string> := ["supabase-auth-token", "sb-access-token", "sb-refresh-token"]

  const GuardedPathPrefixes: seq<string> := ["/dashboard", "/settings", "/profile", "/clients", "/projects", "/invoices"]

  /** isGuardedPath: the path is one of the prefixes, or lies below one. */
  predicate IsGuardedPath(path: string) {
    exists i :: 0 <= i < |GuardedPathPrefixes| && (path == GuardedPathPrefixes[i] || StartsWith(path, GuardedPathPrefixes[i] + "/"))
  }

  /** `/^\d+\.\d+\.\d+\.\d+$/`: four non-empty runs of digits joined by dots. */
  predicate IsDottedQuad(host: string) {
    var parts := Split(host, '.');
    |parts| == 4 && forall i :: 0 <= i < 4 ==> parts[i] != "" && AllDigits(parts[i])
  }

  /** isDomainCookieHost: not localhost, has a dot, and is not an IPv4 address. */
  predicate IsDomainCookieHost(host: string) {
    host != "localhost" && '.' in host && !IsDottedQuad(host)
  }

  /** extractProjectRef: the first label of the Supabase URL's host, unless the URL is
      missing or empty, does not parse (`hostnameOf` answers None), or that label is
      empty. */
  function ExtractProjectRef(supabaseUrl: Option<string>, hostnameOf: string -> Option<string>): Option<string> {
    if !Present(supabaseUrl) then None
    else match hostnameOf(supabaseUrl.value)
      case None => None
      case Some(host) => if Split(host, '.')[0] == "" then None else Some(Split(host, '.')[0])
  }

  /** getKnownProjectCookieNames: `sb-<ref>-auth-token` and its `.0` and `.1` chunks. */
  function KnownProjectCookieNames(projectRef: Option<string>): seq<string> {
    if projectRef.None? then []
    else
      var base := "sb-" + projectRef.value + "-auth-token";
      [base, base + ".0", base + ".1"]
  }

  /** The project ref is a non-empty first label of the Supabase host, without dots;
      only with one are there project cookie names, three of them, all "sb-" names. */
  lemma ProjectRefIsFirstLabel(supabaseUrl: Option<string>, hostnameOf: string -> Option<string>)
    ensures var r := ExtractProjectRef(supabaseUrl, hostnameOf);
      && (r.Some? ==> && Present(supabaseUrl) && hostnameOf(supabaseUrl.value).Some?
                      && r.value != "" && '.' !in r.value
                      && StartsWith(hostnameOf(supabaseUrl.value).value, r.value))
      && (KnownProjectCookieNames(r) == [] <==> r.None?)
      && (r.Some? ==> |KnownProjectCookieNames(r)| == 3)
      && (forall n :: n in KnownProjectCookieNames(r) ==> StartsWith(n, "sb-"))
  {
    var r := ExtractProjectRef(supabaseUrl, hostnameOf);
    if r.Some? {
      FirstPartIsPrefix(hostnameOf(supabaseUrl.value).value, '.');
      var base := "sb-" + r.value + "-auth-token";
      assert base[..3] == "sb-";
      assert (base + ".0")[..3] == "sb-" && (base + ".1")[..3] == "sb-";
    }
  }

  // ---------------------------------------------------------------------------
  // The names to clear: a Set, kept in insertion order

  predicate NoDuplicates(names: seq<string>) {
    forall i, j :: 0 <= i < j < |names| ==> names[i] != names[j]
  }

  /** `set.add(name)` */
  function AddName(names: seq<string>, name: string): seq<string> {
    if name in names then names else names + [name]
  }

  /** Adding each of `more` in turn. */
  function AddNames(names: seq<string>, more: seq<string>): seq<string>
    decreases |more|
  {
    if more == [] then names else AddName(AddNames(names, more[..|more| - 1]), more[|more| - 1])
  }

  /** The request cookie names starting with "sb-", in order. */
  function SbCookieNames(requestCookies: seq<string>): seq<string>
    decreases |requestCookies|
  {
    if requestCookies == [] then []
    else
      var last := requestCookies[|requestCookies| - 1];
      SbCookieNames(requestCookies[..|requestCookies| - 1]) + (if StartsWith(last, "sb-") then [last] else [])
  }

  /** `new Set([...KNOWN_SUPABASE_COOKIE_NAMES, ...getKnownProjectCookieNames()])` */
  function InitialNames(projectNames: seq<string>): seq<string> {
    AddNames([], KnownSupabaseCookieNames + projectNames)
  }

  /** Every name clearSupabaseAuthCookies clears. */
  function NamesToClear(requestCookies: seq<string>, projectNames: seq<string>): seq<string> {
    AddNames(InitialNames(projectNames), SbCookieNames(requestCookies))
  }

  lemma {:induction false} AddNamesProperties(names: seq<string>, more: seq<string>)
    requires NoDuplicates(names)
    ensures NoDuplicates(AddNames(names, more))
    ensures forall n :: n in AddNames(names, more) <==> n in names || n in more
    decreases |more|
  {
    if more != [] {
      var init := more[..|more| - 1];
      AddNamesProperties(names, init);
      assert more == init + [more[|more| - 1]];
    }
  }

  lemma {:induction false} SbCookieNamesMembers(requestCookies: seq<string>)
    ensures forall n :: n in SbCookieNames(requestCookies) <==> n in requestCookies && StartsWith(n, "sb-")
    decreases |requestCookies|
  {
    if requestCookies != [] {
      var init := requestCookies[..|requestCookies| - 1];
      SbCookieNamesMembers(init);
      assert requestCookies == init + [requestCookies[|requestCookies| - 1]];
    }
  }

  /** The names cleared are the three known names, the project's names and every
      request cookie starting with "sb-", each once. */
  lemma NamesToClearSpec(requestCookies: seq<string>, projectNames: seq<string>)
    ensures var names := NamesToClear(requestCookies, projectNames);
      && NoDuplicates(names)
      && forall n :: n in names <==>
           n in KnownSupabaseCookieNames || n in projectNames || (n in requestCookies && StartsWith(n, "sb-"))
  {
    AddNamesProperties([], KnownSupabaseCookieNames + projectNames);
    AddNamesProperties(InitialNames(projectNames), SbCookieNames(requestCookies));
    SbCookieNamesMembers(requestCookies);
  }

  // ---------------------------------------------------------------------------
  // The clearing writes

  /** The host without "www.", when the host takes domain cookies and starts with it. */
  function ParentDomain(host: string): Option<string> {
    if IsDomainCookieHost(host) && StartsWith(host, "www.") then Some(host[4..]) else None
  }

  /** One clearing write: empty value, path "/", maxAge 0, and the given domain. */
  function ClearingWrite(name: string, domain: Option<string>): Cookie {
    Cookie(name, "", false, None, false, "/", 0, domain)
  }

  /** The writes for one name: without a domain, for the host when it takes domain
      cookies, and for a non-empty parent domain. */
  function WritesFor(name: string, host: string): seq<Cookie> {
    [ClearingWrite(name, None)]
    + (if IsDomainCookieHost(host) then [ClearingWrite(name, Some(host))] else [])
    + (if Present(ParentDomain(host)) then [ClearingWrite(name, ParentDomain(host))] else [])
  }

  /** The number of writes each name gets on a host. */
  function WritesPerName(host: string): nat {
    1 + (if IsDomainCookieHost(host) then 1 else 0) + (if Present(ParentDomain(host)) then 1 else 0)
  }

  function ClearingWrites(names: seq<string>, host: string): seq<Cookie>
    decreases |names|
  {
    if names == [] then [] else ClearingWrites(names[..|names| - 1], host) + WritesFor(names[|names| - 1], host)
  }

  /** What every clearing write satisfies: it empties one of the names at path "/"
      with maxAge 0, for no domain, the host or its parent domain. */
  predicate IsClearingWrite(c: Cookie, names: seq<string>, host: string) {
    && c.value == "" && c.path == "/" && c.maxAge == 0
    && c.name in names
    && (c.domain.None? || c.domain == Some(host) || c.domain == ParentDomain(host))
  }

  lemma {:induction false} ClearingWritesLength(names: seq<string>, host: string)
    ensures |ClearingWrites(names, host)| == |names| * WritesPerName(host)
    decreases |names|
  {
    if names != [] {
      var init := names[..|names| - 1];
      ClearingWritesLength(init, host);
      assert |WritesFor(names[|names| - 1], host)| == WritesPerName(host);
      assert |names| * WritesPerName(host) == |init| * WritesPerName(host) + WritesPerName(host);
    }
  }

  lemma {:induction false} ClearingWritesClear(names: seq<string>, host: string)
    ensures forall c :: c in ClearingWrites(names, host) ==> IsClearingWrite(c, names, host)
    decreases |names|
  {
    if names != [] {
      var init := names[..|names| - 1];
      ClearingWritesClear(init, host);
      assert names == init + [names[|names| - 1]];
    }
  }

  lemma {:induction false} ClearingWritesCover(names: seq<string>, host: string)
    ensures forall n :: n in names ==> ClearingWrite(n, None) in ClearingWrites(names, host)
    decreases |names|
  {
    if names != [] {
      var init := names[..|names| - 1];
      var last := names[|names| - 1];
      ClearingWritesCover(init, host);
      assert names == init + [last];
      assert WritesFor(last, host)[0] == ClearingWrite(last, None);
    }
  }

  /** Every write clears one of the names; each name gets the same number of writes,
      one of them without a domain, and a domain is only ever the host or its
      parent. */
  lemma ClearingWritesShape(names: seq<string>, host: string)
    ensures var writes := ClearingWrites(names, host);
      && |writes| == |names| * WritesPerName(host)
      && (forall c :: c in writes ==> IsClearingWrite(c, names, host))
      && (forall n :: n in names ==> ClearingWrite(n, None) in writes)
  {
    ClearingWritesLength(names, host);
    ClearingWritesClear(names, host);
    ClearingWritesCover(names, host);
  }

  /** A parent domain exists only for a domain-cookie host starting with "www.",
      and it is the host without that prefix. */
  lemma ParentDomainSpec(host: string)
    ensures ParentDomain(host).Some? <==> IsDomainCookieHost(host) && StartsWith(host, "www.")
    ensures ParentDomain(host).Some? ==> host == "www." + ParentDomain(host).value
  {
    if ParentDomain(host).Some? {
      assert host == host[..4] + host[4..];
    }
  }

  // ---------------------------------------------------------------------------
  // The middleware

  const RemovedLocation := Location("/sign-in", [("reason", "removed")])

  /** The response, and whether the user was signed out. */
  datatype MiddlewareOutcome = MiddlewareOutcome(response: ResponseValue, signedOut: bool)

  /** The specification of the middleware's decision: `userSignedIn` is whether the
      auth provider returned a user, `profileFound` whether the profile read
      returned a row (a failed read returns none). */
  function MiddlewareSpec(userSignedIn: bool, path: string, profileFound: bool, requestCookies: seq<string>,
                          host: string, supabaseUrl: Option<string>, hostnameOf: string -> Option<string>): MiddlewareOutcome
  {
    if userSignedIn && IsGuardedPath(path) && !profileFound then
      var names := NamesToClear(requestCookies, KnownProjectCookieNames(ExtractProjectRef(supabaseUrl, hostnameOf)));
      MiddlewareOutcome(ResponseValue(RedirectTo(RemovedLocation), ClearingWrites(names, host)), true)
    else MiddlewareOutcome(ResponseValue(PassThrough, []), false)
  }

  /** A signed-in user without a profile on a guarded path is signed out, sent to
      /sign-in?reason=removed, and every auth cookie is cleared; anything else passes
      through untouched. */
  lemma RemovedUserIsSignedOut(userSignedIn: bool, path: string, profileFound: bool, requestCookies: seq<string>,
                               host: string, supabaseUrl: Option<string>, hostnameOf: string -> Option<string>)
    ensures var o := MiddlewareSpec(userSignedIn, path, profileFound, requestCookies, host, supabaseUrl, hostnameOf);
      && (o.signedOut <==> userSignedIn && IsGuardedPath(path) && !profileFound)
      && (o.signedOut ==> o.response.target == RedirectTo(Location("/sign-in", [("reason", "removed")])))
      && (o.signedOut ==> forall n :: n in KnownSupabaseCookieNames || (n in requestCookies && StartsWith(n, "sb-")) ==>
                            ClearingWrite(n, None) in o.response.cookies)
      && (!o.signedOut ==> o.response == ResponseValue(PassThrough, []))
  {
    var names := NamesToClear(requestCookies, KnownProjectCookieNames(ExtractProjectRef(supabaseUrl, hostnameOf)));
    NamesToClearSpec(requestCookies, KnownProjectCookieNames(ExtractProjectRef(supabaseUrl, hostnameOf)));
    ClearingWritesShape(names, host);
  }

  /** A path below a guarded path is guarded too. */
  lemma GuardedBelowGuarded(path: string, rest: string)
    requires IsGuardedPath(path)
    ensures IsGuardedPath(path + "/" + rest)
  {
    var i :| 0 <= i < |GuardedPathPrefixes| && (path == GuardedPathPrefixes[i] || StartsWith(path, GuardedPathPrefixes[i] + "/"));
    var p := GuardedPathPrefixes[i] + "/";
    assert (path + "/" + rest)[..|p|] == if path == GuardedPathPrefixes[i] then p else path[..|p|];
  }

  lemma DiffersAt(s: string, prefix: string, k: nat)
    requires k < |s| && k < |prefix| && s[k] != prefix[k]
    ensures !StartsWith(s, prefix)
  {
  }

  /** "/settings" and everything below it is guarded; "/settingsX", "/" and the
      sign-in page are not. */
  lemma GuardedPathExamples()
    ensures IsGuardedPath("/settings")
    ensures IsGuardedPath("/settings/members")
    ensures !IsGuardedPath("/settingsX")
    ensures !IsGuardedPath("/")
    ensures !IsGuardedPath("/sign-in")
  {
    assert GuardedPathPrefixes[1] == "/settings";
    assert "/settings/members"[..10] == "/settings/";
    forall i | 0 <= i < |GuardedPathPrefixes|
      ensures !StartsWith("/settingsX", GuardedPathPrefixes[i] + "/")
    {
      if i == 1 {
        DiffersAt("/settingsX", GuardedPathPrefixes[i] + "/", 9);
      } else {
        DiffersAt("/settingsX", GuardedPathPrefixes[i] + "/", 1);
      }
    }
  }

  /** The characters of a dotted quad are digits and dots. */
  lemma {:induction false} JoinedDigits(parts: seq<string>)
    requires forall i :: 0 <= i < |parts| ==> AllDigits(parts[i])
    ensures forall c :: c in Join(parts, '.') ==> IsDigit(c) || c == '.'
    decreases |parts|
  {
    if |parts| > 1 {
      JoinedDigits(parts[1..]);
      assert forall c :: c in parts[0] ==> IsDigit(c);
    } else if |parts| == 1 {
      assert forall c :: c in parts[0] ==> IsDigit(c);
    }
  }

  lemma DottedQuadChars(host: string)
    requires IsDottedQuad(host)
    ensures forall i :: 0 <= i < |host| ==> IsDigit(host[i]) || host[i] == '.'
  {
    JoinSplit(host, '.');
    JoinedDigits(Split(host, '.'));
    forall i | 0 <= i < |host|
      ensures IsDigit(host[i]) || host[i] == '.'
    {
      assert host[i] in Join(Split(host, '.'), '.');
    }
  }

  /** A host with a dot and a letter (other than localhost) takes domain cookies. */
  lemma HostWithLetterTakesDomainCookies(host: string, k: nat)
    requires host != "localhost" && '.' in host
    requires k < |host| && IsAsciiLetter(host[k])
    ensures IsDomainCookieHost(host)
  {
    if IsDottedQuad(host) {
      DottedQuadChars(host);
    }
  }

  /** Four runs of digits joined by dots, an IPv4 address, take no domain cookies. */
  lemma AddressTakesNoDomainCookies(a: string, b: string, c: string, d: string)
    requires a != "" && b != "" && c != "" && d != ""
    requires AllDigits(a) && AllDigits(b) && AllDigits(c) && AllDigits(d)
    ensures !IsDomainCookieHost(a + "." + b + "." + c + "." + d)
  {
    var parts := [a, b, c, d];
    forall i, k | 0 <= i < 4 && 0 <= k < |parts[i]|
      ensures parts[i][k] != '.'
    {
      assert IsDigit(parts[i][k]);
    }
    assert parts[1..] == [b, c, d] && [b, c, d][1..] == [c, d] && [c, d][1..] == [d];
    assert Join([c, d], '.') == c + "." + d;
    assert Join([b, c, d], '.') == b + "." + c + "." + d;
    assert Join(parts, '.') == a + "." + b + "." + c + "." + d;
    SplitJoin(parts, '.');
  }

  // ---------------------------------------------------------------------------
  // The response

  /** The names clearSupabaseAuthCookies collects: the known and project names, then
      each request cookie starting with "sb-". */
  method CollectCookieNames(requestCookies: seq<string>, projectNames: seq<string>) returns (names: seq<string>)
    ensures names == NamesToClear(requestCookies, projectNames)
  {
    var initial := InitialNames(projectNames);
    names := initial;
    var i := 0;
    while i < |requestCookies|
      invariant 0 <= i <= |requestCookies|
      invariant names == AddNames(initial, SbCookieNames(requestCookies[..i]))
    {
      var name := requestCookies[i];
      var before := SbCookieNames(requestCookies[..i]);
      assert requestCookies[..i + 1][..i] == requestCookies[..i];
      if StartsWith(name, "sb-") {
        assert SbCookieNames(requestCookies[..i + 1]) == before + [name];
        assert (before + [name])[..|before|] == before;
        assert AddNames(initial, before + [name]) == AddName(AddNames(initial, before), name);
        names := AddName(names, name);
      } else {
        assert SbCookieNames(requestCookies[..i + 1]) == before;
      }
      i := i + 1;
    }
    assert requestCookies[..i] == requestCookies;
  }

  /** The writes for one name, as the loop body issues them. */
  method WriteClearing(response: Response, name: string, host: string, shouldSetDomain: bool, parentDomain: Option<string>)
    requires shouldSetDomain == IsDomainCookieHost(host) && parentDomain == ParentDomain(host)
    modifies response
    ensures response.Value() == ResponseValue(old(response.target), old(response.cookies) + WritesFor(name, host))
  {
    response.SetCookie(ClearingWrite(name, None));
    if shouldSetDomain {
      response.SetCookie(ClearingWrite(name, Some(host)));
    }
    if Present(parentDomain) {
      response.SetCookie(ClearingWrite(name, parentDomain));
    }
  }

  /** clearSupabaseAuthCookies: collect the names, then write the clearing cookies
      name by name. */
  method ClearSupabaseAuthCookies(response: Response, requestCookies: seq<string>, host: string, projectNames: seq<string>)
    modifies response
    ensures response.Value() == ResponseValue(old(response.target), old(response.cookies) + ClearingWrites(NamesToClear(requestCookies, projectNames), host))
  {
    var names := CollectCookieNames(requestCookies, projectNames);
    var shouldSetDomain := IsDomainCookieHost(host);
    var parentDomain := ParentDomain(host);
    var j := 0;
    while j < |names|
      invariant 0 <= j <= |names|
      invariant response.Value() == ResponseValue(old(response.target), old(response.cookies) + ClearingWrites(names[..j], host))
    {
      assert names[..j + 1][..j] == names[..j];
      WriteClearing(response, names[j], host, shouldSetDomain, parentDomain);
      j := j + 1;
    }
    assert names[..j] == names;
  }

  /** The middleware's decision, building the response. */
  method HandleRequest(userSignedIn: bool, path: string, profileFound: bool, requestCookies: seq<string>,
                       host: string, supabaseUrl: Option<string>, hostnameOf: string -> Option<string>)
    returns (response: Response, signedOut: bool)
    ensures fresh(response)
    ensures MiddlewareOutcome(response.Value(), signedOut) ==
      MiddlewareSpec(userSignedIn, path, profileFound, requestCookies, host, supabaseUrl, hostnameOf)
  {
    if userSignedIn && IsGuardedPath(path) && !profileFound {
      signedOut := true;
      response := new Response(RedirectTo(RemovedLocation));
      ClearSupabaseAuthCookies(response, requestCookies, host, KnownProjectCookieNames(ExtractProjectRef(supabaseUrl, hostnameOf)));
      return;
    }
    signedOut := false;
    response := new Response(PassThrough);
  }
}
