/** The authentication provider: the signed-in user, restored on start-up
    from the `token` and `user` cookies, set by `login` and cleared by
    `logout`. The JWT decoder, `JSON.parse` and `JSON.stringify` are library
    code and enter as function parameters (None: the call throws). */
module AuthContext {
  import opened Wrappers
  import opened Js
  import opened Browser

  datatype User = User(id: string, email: string, role: string, name: Option<string>)

  /** The claims of a decoded token that the provider looks at. */
  datatype Claims = Claims(sub: Option<string>, email: Option<string>, role: Option<string>)

  /** `60 * 60 * 24 * 7`: the max-age of both session cookies, in seconds. */
  const SessionMaxAge: int := 60 * 60 * 24 * 7

  /** The part of the state the provider reads and writes. */
  datatype Session = Session(user: Option<User>, cookies: map<string, Cookie>)

  function CookieValue(cookies: map<string, Cookie>, name: string): Option<string> {
    if name in cookies then Some(cookies[name].value) else None
  }

  /** The start-up effect: with a truthy token it decodes the token (a failure
      deletes both cookies); then a truthy user cookie is parsed into the user
      (a failure deletes both cookies), and without one the user is built from
      the claims when `sub`, `email` and `role` are all truthy. Without a token
      nothing changes. */
  function Restored(s: Session, decode: string -> Option<Claims>, parse: string -> Option<User>): (r: Session)
    ensures !Truthy(CookieValue(s.cookies, "token")) ==> r == s
    ensures r.cookies == s.cookies || r.cookies == s.cookies - {"token", "user"}
    ensures r.user != s.user ==> r.user.Some?
  {
    var token := CookieValue(s.cookies, "token");
    if !Truthy(token) then s
    else
      match decode(token.value)
      case None => s.(cookies := s.cookies - {"token", "user"})
      case Some(claims) =>
        var userCookie := CookieValue(s.cookies, "user");
        if Truthy(userCookie) then
          match parse(userCookie.value)
          case Some(u) => s.(user := Some(u))
          case None => s.(cookies := s.cookies - {"token", "user"})
        else if Truthy(claims.sub) && Truthy(claims.email) && Truthy(claims.role) then
          s.(user := Some(User(claims.sub.value, claims.email.value, claims.role.value, None)))
        else s
  }

  /** The session after `login(token, user)`. */
  function LoggedIn(s: Session, token: string, u: User, stringify: User -> string): (r: Session)
    ensures r.user == Some(u)
    ensures CookieValue(r.cookies, "token") == Some(token)
    ensures CookieValue(r.cookies, "user") == Some(stringify(u))
    ensures r.cookies["token"].maxAge == r.cookies["user"].maxAge == Some(SessionMaxAge)
    ensures forall c :: c in s.cookies && c != "token" && c != "user" ==> c in r.cookies && r.cookies[c] == s.cookies[c]
  {
    Session(Some(u), s.cookies["token" := Cookie(token, Some(SessionMaxAge))]["user" := Cookie(stringify(u), Some(SessionMaxAge))])
  }

  /** The session after `logout()`. */
  function LoggedOut(s: Session): (r: Session)
    ensures r.user.None?
    ensures "token" !in r.cookies && "user" !in r.cookies
    ensures forall c :: c in s.cookies && c != "token" && c != "user" ==> c in r.cookies && r.cookies[c] == s.cookies[c]
  {
    Session(None, s.cookies - {"token", "user"})
  }

  /** A session stored by `login` is restored on the next start-up, provided
      the token decodes and the user survives a JSON round trip. */
  lemma LoginThenRestore(s: Session, token: string, u: User, stringify: User -> string,
                         decode: string -> Option<Claims>, parse: string -> Option<User>)
    requires token != "" && stringify(u) != ""
    requires decode(token).Some?
    requires parse(stringify(u)) == Some(u)
    ensures Restored(LoggedIn(s, token, u, stringify), decode, parse) == LoggedIn(s, token, u, stringify)
  {
  }

  /** After `logout` a restart restores nobody. */
  lemma LogoutThenRestore(s: Session, decode: string -> Option<Claims>, parse: string -> Option<User>)
    ensures Restored(LoggedOut(s), decode, parse) == LoggedOut(s)
    ensures Restored(LoggedOut(s), decode, parse).user.None?
  {
    assert CookieValue(LoggedOut(s).cookies, "token").None?;
  }

  /** A token the decoder rejects wipes the session even when the user cookie
      is intact: the token is decoded before the user cookie is read. */
  lemma UndecodableTokenClearsSession(s: Session, decode: string -> Option<Claims>, parse: string -> Option<User>)
    requires Truthy(CookieValue(s.cookies, "token"))
    requires decode(CookieValue(s.cookies, "token").value).None?
    ensures Restored(s, decode, parse) == Session(s.user, s.cookies - {"token", "user"})
  {
  }

  /** With a token that decodes and a truthy user cookie, the parsed cookie
      becomes the user and both cookies stay; a cookie that does not parse
      deletes both cookies and leaves the user as it was. */
  lemma RestoreFromUserCookie(s: Session, decode: string -> Option<Claims>, parse: string -> Option<User>)
    requires Truthy(CookieValue(s.cookies, "token"))
    requires decode(CookieValue(s.cookies, "token").value).Some?
    requires Truthy(CookieValue(s.cookies, "user"))
    ensures var p := parse(CookieValue(s.cookies, "user").value);
      (p.Some? ==> Restored(s, decode, parse) == s.(user := Some(p.value))) &&
      (p.None? ==> Restored(s, decode, parse) == Session(s.user, s.cookies - {"token", "user"}))
  {
  }

  /** Without a user cookie the user comes from the claims, exactly when all
      three of `sub`, `email`, `role` are truthy. */
  lemma RestoreFromClaims(s: Session, decode: string -> Option<Claims>, parse: string -> Option<User>)
    requires Truthy(CookieValue(s.cookies, "token"))
    requires decode(CookieValue(s.cookies, "token").value).Some?
    requires !Truthy(CookieValue(s.cookies, "user"))
    ensures var c := decode(CookieValue(s.cookies, "token").value).value;
      var r := Restored(s, decode, parse);
      r.cookies == s.cookies &&
      (Truthy(c.sub) && Truthy(c.email) && Truthy(c.role) ==> r.user == Some(User(c.sub.value, c.email.value, c.role.value, None))) &&
      (!(Truthy(c.sub) && Truthy(c.email) && Truthy(c.role)) ==> r.user == s.user)
  {
  }

  class AuthProvider {
    var user: Option<User>
    var loading: bool
    const window: Window

    function State(): Session
      reads this, window
    {
      Session(user, window.cookies)
    }

    /** The provider mounts with no user and `loading` set. */
    constructor (w: Window)
      ensures user.None? && loading && window == w
    {
      user := None;
      loading := true;
      window := w;
    }

    /** The mount effect: restores the session and always ends loading. */
    method Restore(decode: string -> Option<Claims>, parse: string -> Option<User>)
      modifies this, window
      ensures State() == Restored(old(State()), decode, parse)
      ensures !loading
      ensures window.pathname == old(window.pathname)
    {
      var token := window.GetCookie("token");
      if Truthy(token) {
        var claims := decode(token.value);
        if claims.None? {
          window.DeleteCookie("token");
          window.DeleteCookie("user");
        } else {
          var userCookie := window.GetCookie("user");
          if Truthy(userCookie) {
            var parsed := parse(userCookie.value);
            if parsed.Some? {
              user := parsed;
            } else {
              window.DeleteCookie("token");
              window.DeleteCookie("user");
            }
          } else {
            var c := claims.value;
            if Truthy(c.sub) && Truthy(c.email) && Truthy(c.role) {
              user := Some(User(c.sub.value, c.email.value, c.role.value, None));
            }
          }
        }
      }
      loading := false;
    }

    /** `login(token, userData)`: stores both cookies for seven days, sets the
        user and navigates to the dashboard. */
    method Login(token: string, u: User, stringify: User -> string)
      modifies this, window
      ensures State() == LoggedIn(old(State()), token, u, stringify)
      ensures window.pathname == "/"
      ensures loading == old(loading)
    {
      window.SetCookie("token", token, Some(SessionMaxAge));
      window.SetCookie("user", stringify(u), Some(SessionMaxAge));
      user := Some(u);
      window.Navigate("/");
    }

    /** `logout()`: deletes both cookies, clears the user and navigates to `/login`. */
    method Logout()
      modifies this, window
      ensures State() == LoggedOut(old(State()))
      ensures window.pathname == "/login"
      ensures loading == old(loading)
    {
      window.DeleteCookie("token");
      window.DeleteCookie("user");
      user := None;
      window.Navigate("/login");
    }
  }

  /** `useAuth()`: the provider's context (None: no provider above the
      caller, the context is undefined), or the error thrown outside one. */
  function UseAuth(context: Option<AuthProvider>): (r: Result<AuthProvider>)
    ensures context.None? <==> r.Err?
    ensures r.Err? ==> r.message == "useAuth must be used within an AuthProvider"
    ensures r.Ok? ==> r.value == context.value
  {
    if context.Some? then Ok(context.value) else Err("useAuth must be used within an AuthProvider")
  }
}
