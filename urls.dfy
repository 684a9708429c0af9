/** Absolute URLs of the form `protocol//hostname[:port]pathname[?query][#fragment]`,
    the part of the `URL` class the image-URL rewrite relies on: parsing a
    string, reading and replacing protocol, hostname and port, and turning
    the result back into a string. */
module Urls {
  import opened Wrappers
  import opened Strings

  /** `protocol` keeps its trailing ':'; `tail` is the query and fragment. */
  datatype Url = Url(protocol: string, hostname: string, port: string, pathname: string, tail: string)

  predicate NoneOf(s: string, stops: set<char>) {
    forall i :: 0 <= i < |s| ==> s[i] !in stops
  }

  /** `s` cut before its first character in `stops`: the part before holds
      none of them, the part after is empty or starts with one. */
  function SplitAt(s: string, stops: set<char>): (r: (string, string))
    ensures r.0 + r.1 == s
    ensures NoneOf(r.0, stops)
    ensures r.1 == [] || r.1[0] in stops
  {
    if s == [] then ([], [])
    else if s[0] in stops then ([], s)
    else
      var rest := SplitAt(s[1..], stops);
      assert s == [s[0]] + (rest.0 + rest.1);
      assert forall i :: 1 <= i <= |rest.0| ==> ([s[0]] + rest.0)[i] == rest.0[i - 1];
      ([s[0]] + rest.0, rest.1)
  }

  /** The cut is unique: a prefix free of `stops` followed by a stop (or by
      nothing) is exactly where `SplitAt` cuts. */
  lemma {:induction false} SplitAtConcat(x: string, y: string, stops: set<char>)
    requires NoneOf(x, stops)
    requires y == [] || y[0] in stops
    ensures SplitAt(x + y, stops) == (x, y)
  {
    if x == [] {
      assert x + y == y;
    } else {
      assert (x + y)[1..] == x[1..] + y;
      SplitAtConcat(x[1..], y, stops);
      assert x == [x[0]] + x[1..];
    }
  }

  const PathStops: set<char> := {'/', '?', '#'}
  const TailStops: set<char> := {'?', '#'}
  const HostStops: set<char> := {':', '/', '?', '#'}

  /** A port `new URL` accepts: decimal digits (possibly none) worth at most 65535. */
  predicate ValidPort(port: string) {
    AllDigits(port) && DigitsValue(port) <= 65535
  }

  predicate WellFormedAuthority(hostname: string, port: string) {
    hostname != "" && NoneOf(hostname, HostStops) && NoneOf(port, PathStops) && ValidPort(port)
  }

  predicate WellFormedPath(pathname: string, tail: string) {
    |pathname| >= 1 && pathname[0] == '/' && NoneOf(pathname, TailStops) &&
    (tail == [] || tail[0] in TailStops)
  }

  predicate WellFormedProtocol(protocol: string) {
    |protocol| >= 2 && protocol[|protocol| - 1] == ':' &&
    NoneOf(protocol[..|protocol| - 1], {':'})
  }

  /** The URLs this model serialises and reads back unchanged. */
  predicate WellFormed(u: Url) {
    WellFormedProtocol(u.protocol) &&
    WellFormedAuthority(u.hostname, u.port) &&
    WellFormedPath(u.pathname, u.tail)
  }

  function PortPart(port: string): string {
    if port == "" then "" else ":" + port
  }

  /** `url.toString()`. */
  function Serialize(u: Url): (r: string)
    ensures StartsWith(r, u.protocol)
  {
    var r := u.protocol + ("//" + (u.hostname + PortPart(u.port) + (u.pathname + u.tail)));
    assert r[..|u.protocol|] == u.protocol;
    r
  }

  /** The host and the optional ":port" (None: no host, or a port that is
      not a number up to 65535, on which `new URL` throws). */
  function ParseAuthority(authority: string): (r: Option<(string, string)>)
    requires NoneOf(authority, PathStops)
    ensures r.Some? ==> WellFormedAuthority(r.value.0, r.value.1)
  {
    var (hostname, portPart) := SplitAt(authority, {':'});
    var port := if portPart == "" then "" else portPart[1..];
    if hostname == "" || !ValidPort(port) then None
    else
      assert NoneOf(hostname, HostStops) by {
        assert forall i :: 0 <= i < |hostname| ==> hostname[i] == authority[i];
      }
      assert NoneOf(port, PathStops) by {
        assert forall i :: 0 <= i < |port| ==> port[i] == authority[|hostname| + 1 + i];
      }
      Some((hostname, port))
  }

  /** The path and what follows it; an empty path reads as "/". */
  function ParsePath(after: string): (r: (string, string))
    requires after == [] || after[0] in PathStops
    ensures WellFormedPath(r.0, r.1)
  {
    var (path, tail) := SplitAt(after, TailStops);
    if path == "" then ("/", tail)
    else
      assert path[0] == after[0];
      (path, tail)
  }

  /** `new URL(s)` (None: it throws). The scheme runs to the first ':', which
      must be followed by "//"; the host runs to the first '/', '?' or '#',
      with an optional ":port". */
  function Parse(s: string): (r: Option<Url>)
    ensures r.Some? ==> WellFormed(r.value)
  {
    var (scheme, rest) := SplitAt(s, {':'});
    if scheme == "" || !StartsWith(rest, "://") then None
    else
      var (authority, after) := SplitAt(rest[3..], PathStops);
      match ParseAuthority(authority)
      case None => None
      case Some(host) =>
        var (pathname, tail) := ParsePath(after);
        assert (scheme + ":")[..|scheme|] == scheme;
        Some(Url(scheme + ":", host.0, host.1, pathname, tail))
  }

  /** A host with its ":port" reads back as that host and port. */
  lemma ParseAuthorityOf(hostname: string, port: string)
    requires WellFormedAuthority(hostname, port)
    ensures NoneOf(hostname + PortPart(port), PathStops)
    ensures ParseAuthority(hostname + PortPart(port)) == Some((hostname, port))
  {
    var authority := hostname + PortPart(port);
    if port != "" {
      forall i | |hostname| < i < |authority| ensures authority[i] !in PathStops {
        assert authority[i] == port[i - |hostname| - 1];
      }
      assert PortPart(port)[1..] == port;
    }
    SplitAtConcat(hostname, PortPart(port), {':'});
  }

  /** The scheme of a well-formed protocol is read up to its ':'. */
  lemma SplitScheme(protocol: string, rest: string)
    requires WellFormedProtocol(protocol)
    ensures SplitAt(protocol + rest, {':'}) == (protocol[..|protocol| - 1], ":" + rest)
    ensures protocol[..|protocol| - 1] + ":" == protocol
  {
    var scheme := protocol[..|protocol| - 1];
    assert protocol == scheme + ":";
    assert protocol + rest == scheme + (":" + rest);
    SplitAtConcat(scheme, ":" + rest, {':'});
  }

  /** A protocol, a host with its ":port" and whatever follows the host
      read back as those parts, with the path and tail `ParsePath` finds. */
  lemma ParseOfParts(protocol: string, hostname: string, port: string, after: string)
    requires WellFormedProtocol(protocol) && WellFormedAuthority(hostname, port)
    requires after == [] || after[0] in PathStops
    ensures Parse(protocol + ("//" + (hostname + PortPart(port) + after)))
      == Some(Url(protocol, hostname, port, ParsePath(after).0, ParsePath(after).1))
  {
    var authority := hostname + PortPart(port);
    var rest := ":" + ("//" + (authority + after));
    SplitScheme(protocol, "//" + (authority + after));
    assert StartsWith(rest, "://") && rest[3..] == authority + after;
    ParseAuthorityOf(hostname, port);
    SplitAtConcat(authority, after, PathStops);
  }

  /** Serialising a well-formed URL and parsing it back gives the same URL. */
  lemma ParseSerialize(u: Url)
    requires WellFormed(u)
    ensures Parse(Serialize(u)) == Some(u)
  {
    ParseOfParts(u.protocol, u.hostname, u.port, u.pathname + u.tail);
    SplitAtConcat(u.pathname, u.tail, TailStops);
  }

  /** A URL written without a path (`http://host:port`) reads with the path "/". */
  lemma ParseOrigin(protocol: string, hostname: string, port: string)
    requires WellFormedProtocol(protocol) && WellFormedAuthority(hostname, port)
    ensures Parse(protocol + ("//" + (hostname + PortPart(port)))) == Some(Url(protocol, hostname, port, "/", ""))
  {
    ParseOfParts(protocol, hostname, port, "");
    assert hostname + PortPart(port) + "" == hostname + PortPart(port);
    SplitAtConcat("", "", TailStops);
  }

  /** The two protocols the image rewrite moves URLs between; the `protocol`
      setter switches freely between them. */
  const HttpProtocols: set<string> := {"http:", "https:"}

  /** The port `new URL` leaves out when it is written explicitly. */
  function DefaultPort(protocol: string): string {
    if protocol == "http:" then "80" else if protocol == "https:" then "443" else ""
  }

  /** A character `new URL` keeps as written in a host name. */
  predicate HostChar(c: char) {
    'a' <= c <= 'z' || '0' <= c <= '9' || c == '-' || c == '.'
  }

  /** A host of lower-case letters, digits, '-' and '.' only. */
  predicate HostChars(h: string) {
    forall i :: 0 <= i < |h| ==> HostChar(h[i])
  }

  /** The last label of a host: what follows its last '.'. */
  function LastLabel(h: string): string {
    if h == [] || h[|h| - 1] == '.' then []
    else LastLabel(h[..|h| - 1]) + [h[|h| - 1]]
  }

  predicate HexDigit(c: char) {
    '0' <= c <= '9' || 'a' <= c <= 'f' || 'A' <= c <= 'F'
  }

  /** A label `new URL` reads as a number: decimal digits, or "0x" followed
      by hexadecimal digits. A host whose last label is one is read as an
      IPv4 address. */
  predicate NumericLabel(l: string) {
    (l != "" && AllDigits(l)) ||
    (|l| >= 2 && l[0] == '0' && (l[1] == 'x' || l[1] == 'X') && forall i :: 2 <= i < |l| ==> HexDigit(l[i]))
  }

  /** No label starts with "xn--", the prefix of labels `new URL` decodes
      as Punycode (and refuses when they do not decode). */
  predicate NoAceLabel(h: string) {
    forall i :: 0 <= i < |h| - 3 && (i == 0 || h[i - 1] == '.') ==>
      !(h[i] == 'x' && h[i + 1] == 'n' && h[i + 2] == '-' && h[i + 3] == '-')
  }

  /** An IPv4 address in the dotted-decimal form `new URL` writes. */
  function Quad(a: nat, b: nat, c: nat, d: nat): (r: string)
    ensures |r| >= 7
  {
    NatToString(a) + "." + NatToString(b) + "." + NatToString(c) + "." + NatToString(d)
  }

  predicate DottedQuad(h: string) {
    exists a: nat, b: nat, c: nat, d: nat :: a <= 255 && b <= 255 && c <= 255 && d <= 255 && h == Quad(a, b, c, d)
  }

  /** A host `new URL` accepts and gives back as written: an IPv4 address in
      dotted-decimal form, or a domain of lower-case letters, digits, '-'
      and '.' that does not end in '.', has no Punycode label and whose last
      label is not a number. */
  predicate PlainHost(h: string) {
    DottedQuad(h) ||
    (h != "" && h[|h| - 1] != '.' && HostChars(h) && NoAceLabel(h) && !NumericLabel(LastLabel(h)))
  }

  /** A character `new URL` keeps as written in the path, query and fragment
      of an http(s) URL: printable ASCII other than those it percent-encodes
      or, for the backslash, turns into '/'. */
  predicate PathChar(c: char) {
    '!' <= c <= '~' && c !in {'"', '\'', '<', '>', '\\', '`', '{', '}'}
  }

  /** A path segment `new URL` resolves away: "." or "..", plain or percent-encoded. */
  predicate DotSegment(seg: string) {
    seg in {".", "..", "%2e", "%2E", ".%2e", ".%2E", "%2e.", "%2E.", "%2e%2e", "%2e%2E", "%2E%2e", "%2E%2E"}
  }

  /** No segment of the path (the text between a '/' and the next '/' or
      the end) is a dot segment. */
  predicate DotFree(path: string) {
    forall i, j ::
      (0 <= i < j <= |path| && path[i] == '/' && NoneOf(path[i + 1..j], {'/'}) && (j == |path| || path[j] == '/'))
      ==> !DotSegment(path[i + 1..j])
  }

  /** An origin `new URL` gives back as written: an http or https protocol, a
      plain host, and a port that is neither zero-padded nor the protocol's
      default. */
  predicate CanonicalOrigin(u: Url) {
    u.protocol in HttpProtocols && PlainHost(u.hostname) &&
    u.port != DefaultPort(u.protocol) && (|u.port| <= 1 || u.port[0] != '0')
  }

  /** A path, query and fragment `new URL` gives back as written: no dot
      segment and no character it rewrites. */
  predicate CanonicalPath(u: Url) {
    DotFree(u.pathname) &&
    (forall i :: 0 <= i < |u.pathname| ==> PathChar(u.pathname[i])) &&
    (forall i :: 0 <= i < |u.tail| ==> PathChar(u.tail[i]))
  }

  /** Replacing protocol, hostname and port keeps a URL well formed, and its
      path, query and fragment. */
  function WithOrigin(u: Url, base: Url): (r: Url)
    requires WellFormed(u) && WellFormed(base)
    ensures WellFormed(r)
    ensures r.pathname == u.pathname && r.tail == u.tail
    ensures r.protocol == base.protocol && r.hostname == base.hostname && r.port == base.port
  {
    u.(protocol := base.protocol, hostname := base.hostname, port := base.port)
  }
}
