/** The request guard that runs before the wizard and results pages: it
    lets the auth library refresh the session cookies, then sends a
    request for a protected path without a session to the login page. */
module RouteGuard {
  import opened Wrappers
  import opened Text

  const FormPrefix: string := "/form"
  const ResultsPrefix: string := "/results"
  const LoginPath: string := "/login"

  /** A path is protected when it starts with `/form` or `/results`. */
  predicate IsProtected(path: string) {
    StartsWith(path, FormPrefix) || StartsWith(path, ResultsPrefix)
  }

  /** The test is on the prefix alone: anything after `/form` or
      `/results` (a sub-path, or more letters as in `/formX`) is protected
      too. */
  lemma ProtectionIsByPrefix(rest: string)
    ensures IsProtected(FormPrefix + rest)
    ensures IsProtected(ResultsPrefix + rest)
  {
    StartsWithExtends(FormPrefix, rest);
    StartsWithExtends(ResultsPrefix, rest);
  }

  /** The pages reachable without a session are not protected. */
  lemma PublicPagesUnprotected()
    ensures !IsProtected("/") && !IsProtected(LoginPath) && !IsProtected("/cadastro")
  {
    assert !StartsWith("/", FormPrefix) && !StartsWith("/", ResultsPrefix);
    NotStartsWithAt(LoginPath, FormPrefix, 1);
    NotStartsWithAt(LoginPath, ResultsPrefix, 1);
    NotStartsWithAt("/cadastro", FormPrefix, 1);
    NotStartsWithAt("/cadastro", ResultsPrefix, 1);
  }

  /** Cookie attributes (path, lifetime, flags), passed through as given. */
  type CookieOptions = map<string, string>

  /** One cookie the auth library asks to set. */
  datatype CookieToSet = CookieToSet(name: string, value: string, options: CookieOptions)

  /** A cookie as set on the response: its value and its attributes. */
  datatype ResponseCookie = ResponseCookie(value: string, options: CookieOptions)

  /** The guard's answer: let the request through, forwarding its (possibly
      updated) cookies and setting cookies on the response, or redirect. */
  datatype Response =
    | PassThrough(forwardedCookies: map<string, string>, cookies: map<string, ResponseCookie>)
    | RedirectTo(path: string)

  /** What the request keeps of a cookie: its value. */
  function ValueOf(): CookieToSet -> string {
    (c: CookieToSet) => c.value
  }

  /** What the response keeps of a cookie: its value and options. */
  function WithOptions(): CookieToSet -> ResponseCookie {
    (c: CookieToSet) => ResponseCookie(c.value, c.options)
  }

  /** The cookies `cs` written one after another into `m`. */
  function Assign<V>(m: map<string, V>, cs: seq<CookieToSet>, f: CookieToSet -> V): map<string, V> {
    if cs == [] then m
    else Assign(m, cs[..|cs| - 1], f)[cs[|cs| - 1].name := f(cs[|cs| - 1])]
  }

  /** After the writes, a name holds what the last cookie of that name
      wrote. */
  lemma {:induction false} AssignLastWriteWins<V>(m: map<string, V>, cs: seq<CookieToSet>, f: CookieToSet -> V, i: nat)
    requires i < |cs|
    requires forall j :: i < j < |cs| ==> cs[j].name != cs[i].name
    ensures cs[i].name in Assign(m, cs, f)
    ensures Assign(m, cs, f)[cs[i].name] == f(cs[i])
    decreases |cs|
  {
    if i < |cs| - 1 {
      var init := cs[..|cs| - 1];
      assert forall j :: i < j < |init| ==> init[j] == cs[j];
      AssignLastWriteWins(m, init, f, i);
    }
  }

  /** A name no cookie writes keeps what it had (present or absent). */
  lemma {:induction false} AssignKeepsOthers<V>(m: map<string, V>, cs: seq<CookieToSet>, f: CookieToSet -> V, name: string)
    requires forall j :: 0 <= j < |cs| ==> cs[j].name != name
    ensures name in Assign(m, cs, f) <==> name in m
    ensures name in m ==> Assign(m, cs, f)[name] == m[name]
    decreases |cs|
  {
    if cs != [] {
      var init := cs[..|cs| - 1];
      assert forall j :: 0 <= j < |init| ==> init[j] == cs[j];
      AssignKeepsOthers(m, init, f, name);
    }
  }

  /** The guard's state while it runs: the request's cookies and the
      response it will return if it lets the request through. */
  class ProxyState {
    var requestCookies: map<string, string>
    var response: Response

    /** The pass-through response built at the start, forwarding the
        request as it came. */
    constructor (requestCookies: map<string, string>)
      ensures this.requestCookies == requestCookies
      ensures response == PassThrough(requestCookies, map[])
    {
      this.requestCookies := requestCookies;
      response := PassThrough(requestCookies, map[]);
    }

    /** The `setAll` callback: every cookie written into the request, then
        a fresh pass-through response forwarding the updated request, with
        every cookie set on it with its options. */
    method SetAll(cs: seq<CookieToSet>)
      modifies this
      ensures requestCookies == Assign(old(requestCookies), cs, ValueOf())
      ensures response == PassThrough(requestCookies, Assign(map[], cs, WithOptions()))
    {
      var i := 0;
      while i < |cs|
        invariant 0 <= i <= |cs|
        invariant requestCookies == Assign(old(requestCookies), cs[..i], ValueOf())
      {
        assert cs[..i + 1][..i] == cs[..i];
        requestCookies := requestCookies[cs[i].name := cs[i].value];
        i := i + 1;
      }
      assert cs[..|cs|] == cs;
      var cookies: map<string, ResponseCookie> := map[];
      i := 0;
      while i < |cs|
        invariant 0 <= i <= |cs|
        invariant cookies == Assign(map[], cs[..i], WithOptions())
      {
        assert cs[..i + 1][..i] == cs[..i];
        cookies := cookies[cs[i].name := ResponseCookie(cs[i].value, cs[i].options)];
        i := i + 1;
      }
      response := PassThrough(requestCookies, cookies);
    }

    /** The guard after the session lookup: `refreshed` is what the auth
        library passed to `setAll` while reading the session, if it called
        it, and `hasSession` whether a session came back. A protected path
        without a session is redirected to the login page (the refreshed
        cookies are not carried over); anything else gets the pass-through
        response. */
    method Guard(path: string, refreshed: Option<seq<CookieToSet>>, hasSession: bool) returns (r: Response)
      modifies this
      ensures requestCookies == if refreshed.Some? then Assign(old(requestCookies), refreshed.value, ValueOf())
                                else old(requestCookies)
      ensures refreshed.Some? ==> response == PassThrough(requestCookies, Assign(map[], refreshed.value, WithOptions()))
      ensures refreshed.None? ==> response == old(response)
      ensures IsProtected(path) && !hasSession ==> r == RedirectTo(LoginPath)
      ensures !(IsProtected(path) && !hasSession) ==> r == response
    {
      if refreshed.Some? {
        SetAll(refreshed.value);
      }
      if IsProtected(path) && !hasSession {
        return RedirectTo(LoginPath);
      }
      return response;
    }
  }

  /** A whole run on a fresh request: a protected path with a session, or
      an unprotected path, passes through carrying every refreshed cookie
      with its last value. */
  method RefreshedCookieReachesBrowser(requestCookies: map<string, string>, path: string,
                                       cs: seq<CookieToSet>, hasSession: bool, i: nat)
    returns (r: Response)
    requires i < |cs| && forall j :: i < j < |cs| ==> cs[j].name != cs[i].name
    requires hasSession || !IsProtected(path)
    ensures r.PassThrough?
    ensures cs[i].name in r.cookies && r.cookies[cs[i].name] == ResponseCookie(cs[i].value, cs[i].options)
    ensures cs[i].name in r.forwardedCookies && r.forwardedCookies[cs[i].name] == cs[i].value
  {
    var state := new ProxyState(requestCookies);
    r := state.Guard(path, Some(cs), hasSession);
    AssignLastWriteWins(map[], cs, WithOptions(), i);
    AssignLastWriteWins(requestCookies, cs, ValueOf(), i);
  }
}
