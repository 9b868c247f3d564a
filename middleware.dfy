/** `updateSession`, the request middleware: the auth client's cookie callback,
    which copies refreshed session cookies onto the request and the response,
    and the route guard. Whether a user is signed in, the cookies the auth client
    asks to set and whether creating the client throws are inputs. */
module Middleware {
  import opened Common

  /** A cookie as the auth client asks for it; `options` stands for its
      attributes (path, expiry, flags), which are passed on untouched. */
  datatype CookieToSet = CookieToSet(name: string, value: string, options: string)

  /** A cookie on the response: its value and attributes. */
  datatype Cookie = Cookie(value: string, options: string)

  /** The names of a list of cookies. */
  function Names(toSet: seq<CookieToSet>): (r: set<string>)
    ensures forall i :: 0 <= i < |toSet| ==> toSet[i].name in r
    ensures forall n :: n in r ==> exists i :: 0 <= i < |toSet| && toSet[i].name == n
  {
    set c | c in toSet :: c.name
  }

  /** `request.cookies.set(name, value)` for each cookie in turn. */
  function SetRequestCookies(store: map<string, string>, toSet: seq<CookieToSet>): (r: map<string, string>)
    ensures r.Keys == store.Keys + Names(toSet)
  {
    if toSet == [] then store
    else
      var last := toSet[|toSet| - 1];
      assert Names(toSet) == Names(toSet[..|toSet| - 1]) + {last.name} by {
        assert toSet == toSet[..|toSet| - 1] + [last];
      }
      SetRequestCookies(store, toSet[..|toSet| - 1])[last.name := last.value]
  }

  /** `response.cookies.set(name, value, options)` for each cookie in turn. */
  function SetCookies(jar: map<string, Cookie>, toSet: seq<CookieToSet>): (r: map<string, Cookie>)
    ensures r.Keys == jar.Keys + Names(toSet)
  {
    if toSet == [] then jar
    else
      var last := toSet[|toSet| - 1];
      assert Names(toSet) == Names(toSet[..|toSet| - 1]) + {last.name} by {
        assert toSet == toSet[..|toSet| - 1] + [last];
      }
      SetCookies(jar, toSet[..|toSet| - 1])[last.name := Cookie(last.value, last.options)]
  }

  /** The last cookie set under a name is the one the jar keeps. */
  lemma {:induction false} LastWriteWins(jar: map<string, Cookie>, toSet: seq<CookieToSet>, i: nat)
    requires i < |toSet|
    requires forall j :: i < j < |toSet| ==> toSet[j].name != toSet[i].name
    ensures SetCookies(jar, toSet)[toSet[i].name] == Cookie(toSet[i].value, toSet[i].options)
  {
    if i < |toSet| - 1 {
      LastWriteWins(jar, toSet[..|toSet| - 1], i);
    }
  }

  /** The response the `setAll` loop leaves as written: each cookie replaces the
      response by a fresh one before it is set, so only the last cookie remains. */
  function AsWrittenResponse(jar: map<string, Cookie>, toSet: seq<CookieToSet>): (r: map<string, Cookie>)
    ensures toSet == [] ==> r == jar
    ensures toSet != [] ==> r.Keys == {toSet[|toSet| - 1].name}
  {
    if toSet == [] then jar
    else
      var last := toSet[|toSet| - 1];
      map[last.name := Cookie(last.value, last.options)]
  }

  /** Two session cookies with different names, such as the two halves of a
      chunked auth token: the loop as written drops the first from the response,
      the corrected loop keeps both. */
  lemma CookieLossExample(a: CookieToSet, b: CookieToSet)
    requires a.name != b.name
    ensures a.name !in AsWrittenResponse(map[], [a, b])
    ensures a.name in SetCookies(map[], [a, b]) && b.name in SetCookies(map[], [a, b])
  {
    assert Names([a, b]) == {a.name, b.name};
  }

  /** The request's cookie store and the response being built. */
  class Session {
    var requestCookies: map<string, string>
    var responseCookies: map<string, Cookie>

    /** `NextResponse.next(...)`: the incoming cookies, and a response with none. */
    constructor (incoming: map<string, string>)
      ensures requestCookies == incoming && responseCookies == map[]
    {
      requestCookies, responseCookies := incoming, map[];
    }

    /** The `setAll` callback as written. */
    method SetAllAsWritten(toSet: seq<CookieToSet>)
      modifies this
      ensures requestCookies == SetRequestCookies(old(requestCookies), toSet)
      ensures responseCookies == AsWrittenResponse(old(responseCookies), toSet)
    {
      var request, response := requestCookies, responseCookies;
      for i := 0 to |toSet|
        invariant request == SetRequestCookies(requestCookies, toSet[..i])
        invariant response == AsWrittenResponse(responseCookies, toSet[..i])
      {
        var c := toSet[i];
        assert toSet[..i + 1][..i] == toSet[..i];
        request := request[c.name := c.value];
        response := map[];
        response := response[c.name := Cookie(c.value, c.options)];
      }
      assert toSet[..|toSet|] == toSet;
      requestCookies, responseCookies := request, response;
    }

    /** The `setAll` callback corrected: every cookie goes onto the request, the
        response is rebuilt once, and then every cookie goes onto it. */
    method SetAll(toSet: seq<CookieToSet>)
      modifies this
      ensures requestCookies == SetRequestCookies(old(requestCookies), toSet)
      ensures responseCookies == SetCookies(map[], toSet)
    {
      var request := requestCookies;
      for i := 0 to |toSet|
        invariant request == SetRequestCookies(requestCookies, toSet[..i])
      {
        assert toSet[..i + 1][..i] == toSet[..i];
        request := request[toSet[i].name := toSet[i].value];
      }
      var response := map[];
      for i := 0 to |toSet|
        invariant response == SetCookies(map[], toSet[..i])
      {
        assert toSet[..i + 1][..i] == toSet[..i];
        response := response[toSet[i].name := Cookie(toSet[i].value, toSet[i].options)];
      }
      assert toSet[..|toSet|] == toSet;
      requestCookies, responseCookies := request, response;
    }
  }

  datatype Guard = Pass | RedirectTo(path: string)

  /** The route guard: the dashboard needs a user, and the sign-in and sign-up
      pages send a signed-in user on to the dashboard. */
  function Decide(pathname: string, signedIn: bool): (g: Guard)
    ensures StartsWith(pathname, "/dashboard") && !signedIn ==> g == RedirectTo("/sign-in")
    ensures (pathname == "/sign-in" || pathname == "/sign-up") && signedIn ==> g == RedirectTo("/dashboard")
    ensures g == Pass <==>
      !(StartsWith(pathname, "/dashboard") && !signedIn) && !((pathname == "/sign-in" || pathname == "/sign-up") && signedIn)
  {
    if StartsWith(pathname, "/dashboard") && !signedIn then RedirectTo("/sign-in")
    else if (pathname == "/sign-in" || pathname == "/sign-up") && signedIn then RedirectTo("/dashboard")
    else Pass
  }

  /** Following a redirect never redirects again. */
  lemma NoRedirectLoop(pathname: string, signedIn: bool)
    ensures Decide(pathname, signedIn).RedirectTo? ==> Decide(Decide(pathname, signedIn).path, signedIn) == Pass
  {
    assert !StartsWith("/sign-in", "/dashboard") by { assert "/sign-in"[1] != "/dashboard"[1]; }
  }

  /** What the middleware answers: the request goes on with a response carrying
      these cookies, or it is redirected with a fresh response. */
  datatype MiddlewareResponse = Next(cookies: map<string, Cookie>) | Redirected(location: string)

  /** `updateSession` as written; `refreshed` are the cookies the auth client
      sets while reading the user, and `clientThrows` is a failure to create
      the client. A request that passes carries only the last refreshed cookie. */
  method UpdateSession(pathname: string, incoming: map<string, string>, refreshed: seq<CookieToSet>,
                       signedIn: bool, clientThrows: bool) returns (r: MiddlewareResponse)
    ensures clientThrows ==> r == Next(map[])
    ensures !clientThrows ==> match Decide(pathname, signedIn)
      case RedirectTo(p) => r == Redirected(p)
      case Pass => r == Next(AsWrittenResponse(map[], refreshed))
  {
    if clientThrows {
      return Next(map[]);
    }
    var session := new Session(incoming);
    session.SetAllAsWritten(refreshed);
    match Decide(pathname, signedIn) {
      case RedirectTo(p) => r := Redirected(p);
      case Pass => r := Next(session.responseCookies);
    }
  }

  /** `updateSession` with the corrected `setAll`: a request that passes carries
      every refreshed cookie, the last one set under each name. */
  method UpdateSessionCorrected(pathname: string, incoming: map<string, string>, refreshed: seq<CookieToSet>,
                                signedIn: bool, clientThrows: bool) returns (r: MiddlewareResponse)
    ensures clientThrows ==> r == Next(map[])
    ensures !clientThrows ==> match Decide(pathname, signedIn)
      case RedirectTo(p) => r == Redirected(p)
      case Pass => r == Next(SetCookies(map[], refreshed))
  {
    if clientThrows {
      return Next(map[]);
    }
    var session := new Session(incoming);
    session.SetAll(refreshed);
    match Decide(pathname, signedIn) {
      case RedirectTo(p) => r := Redirected(p);
      case Pass => r := Next(session.responseCookies);
    }
  }
}
