/** The parts of the browser the dashboard touches: the cookie jar (as the
    cookies-next helpers see it) and the current location path. */
module Browser {
  import opened Wrappers

  /** A stored cookie: its value and the max-age it was set with, if any. */
  datatype Cookie = Cookie(value: string, maxAge: Option<int>)

  /** A file chosen in a file input; only its identity matters here. */
  datatype FileRef = FileRef(name: string)

  class Window {
    var cookies: map<string, Cookie>
    var pathname: string

    constructor (jar: map<string, Cookie>, path: string)
      ensures cookies == jar && pathname == path
    {
      cookies := jar;
      pathname := path;
    }

    /** `getCookie(name)`: the stored value, or undefined. */
    function GetCookie(name: string): (r: Option<string>)
      reads this
      ensures r.Some? <==> name in cookies
      ensures r.Some? ==> r.value == cookies[name].value
    {
      if name in cookies then Some(cookies[name].value) else None
    }

    /** `setCookie(name, value, { maxAge })`. */
    method SetCookie(name: string, value: string, maxAge: Option<int>)
      modifies this
      ensures cookies == old(cookies)[name := Cookie(value, maxAge)]
      ensures pathname == old(pathname)
    {
      cookies := cookies[name := Cookie(value, maxAge)];
    }

    /** `deleteCookie(name)`. */
    method DeleteCookie(name: string)
      modifies this
      ensures cookies == old(cookies) - {name}
      ensures pathname == old(pathname)
    {
      cookies := cookies - {name};
    }

    /** A navigation to `path` (a router push or an assignment to `location.href`). */
    method Navigate(path: string)
      modifies this
      ensures pathname == path
      ensures cookies == old(cookies)
    {
      pathname := path;
    }
  }
}
