/**
 * The part of a Next.js response the routes and the middleware build: where it
 * sends the browser, and the cookies written on it, in the order they were set.
 */
module HttpResponse {
  import opened Wrappers

  /** A URL as its path and its query parameters (decoded), in the order set.
      Percent-encoding and the origin are not modelled. */
  datatype Location = Location(path: string, query: seq<(string, string)>)

  function PathOnly(path: string): Location {
    Location(path, [])
  }

  /** One `cookies.set` call. */
  datatype Cookie = Cookie(
    name: string,
    value: string,
    httpOnly: bool,
    sameSite: Option<string>,
    secure: bool,
    path: string,
    maxAge: int,
    domain: Option<string>)

  /** `NextResponse.next()` lets the request through; `NextResponse.redirect` sends
      the browser elsewhere. */
  datatype Target = PassThrough | RedirectTo(location: Location)

  /** A response as a value: its target and its cookie writes. */
  datatype ResponseValue = ResponseValue(target: Target, cookies: seq<Cookie>)

  class Response {
    var target: Target
    var cookies: seq<Cookie>

    function Value(): ResponseValue
      reads this
    {
      ResponseValue(target, cookies)
    }

    constructor(target: Target)
      ensures Value() == ResponseValue(target, [])
    {
      this.target := target;
      cookies := [];
    }

    /** `response.cookies.set(c)`: one more write, the target unchanged. */
    method SetCookie(c: Cookie)
      modifies this
      ensures Value() == ResponseValue(old(target), old(cookies) + [c])
    {
      cookies := cookies + [c];
    }
  }
}
