/** Reading the credential of a gateway request from its headers. */
module Credentials {
  import opened Tables
  import opened Text

  /** A header occurs once, or several times. */
  datatype HeaderValue = Single(value: string) | Multiple(values: seq<string>)

  type Headers = map<string, HeaderValue>

  datatype Credential = Bearer(token: string) | SessionCookie(id: string)

  /** The name of a cookie part, before its first equals sign, and the trimmed rest. */
  function CookieName(part: string): string {
    Split(Trim(part), '=')[0]
  }

  function CookieText(part: string): string {
    Trim(Join(Split(Trim(part), '=')[1..], '='))
  }

  /** The value of the first part with this name; an empty one counts as none. */
  function CookieValue(parts: seq<string>, name: string): Option<string> {
    if parts == [] then None
    else if CookieName(parts[0]) == name then
      if |CookieText(parts[0])| > 0 then Some(CookieText(parts[0])) else None
    else CookieValue(parts[1..], name)
  }

  method ReadCookieValue(cookieHeader: string, name: string) returns (value: Option<string>)
    ensures value == CookieValue(Split(cookieHeader, ';'), name)
  {
    var parts := Split(cookieHeader, ';');
    var i := 0;
    while i < |parts|
      invariant 0 <= i <= |parts|
      invariant CookieValue(parts, name) == CookieValue(parts[i..], name)
    {
      if CookieName(parts[i]) == name {
        var text := CookieText(parts[i]);
        return if |text| > 0 then Some(text) else None;
      }
      i := i + 1;
    }
    value := None;
  }

  /** A header value, unless the header is missing or occurs several times. */
  function ReadHeader(headers: Headers, name: string): Option<string> {
    if name in headers && headers[name].Single? then Some(headers[name].value) else None
  }

  function AuthorizationHeader(headers: Headers): Option<string> {
    if "authorization" in headers then ReadHeader(headers, "authorization") else ReadHeader(headers, "Authorization")
  }

  /** A bearer token comes first; the session cookie counts only in session mode. */
  function ReadGatewayCredential(headers: Headers, sessionMode: bool, cookieName: string): Option<Credential> {
    var authorization := AuthorizationHeader(headers);
    var cookies := ReadHeader(headers, "cookie");
    if authorization.Some? && "Bearer " <= authorization.value then Some(Bearer(authorization.value[7..]))
    else if !sessionMode then None
    else
      match CookieValue(Split(if cookies.Some? then cookies.value else "", ';'), cookieName)
      case None => None
      case Some(id) => Some(SessionCookie(id))
  }

  /* ---------- cookies as written ---------- */

  function WriteCookie(name: string, value: string): string {
    name + "=" + value
  }

  function WriteCookies(cookies: seq<(string, string)>): (parts: seq<string>)
    ensures |parts| == |cookies| && forall i :: 0 <= i < |cookies| ==> parts[i] == WriteCookie(cookies[i].0, cookies[i].1)
  {
    MapRows(cookies, (c: (string, string)) => WriteCookie(c.0, c.1))
  }

  /** Non-empty, without separator and without white space at the ends. */
  predicate CookieToken(s: string) {
    s != "" && ';' !in s && !IsSpace(s[0]) && !IsSpace(s[|s| - 1])
  }

  predicate WellFormedCookie(c: (string, string)) {
    CookieToken(c.0) && '=' !in c.0 && CookieToken(c.1)
  }

  lemma WrittenCookieReads(name: string, value: string)
    requires WellFormedCookie((name, value))
    ensures CookieName(WriteCookie(name, value)) == name
    ensures CookieText(WriteCookie(name, value)) == value
    ensures ';' !in WriteCookie(name, value)
  {
    var part := WriteCookie(name, value);
    assert Trim(part) == part;
    assert part == name + ['='] + value;
    SplitAppend(name, value, '=');
    assert Split(part, '=')[1..] == Split(value, '=');
    JoinSplit(value, '=');
    assert Trim(value) == value;
  }

  /** The value that a list of cookies gives to a name: that of its first occurrence. */
  function FirstCookie(cookies: seq<(string, string)>, name: string): Option<string> {
    if cookies == [] then None
    else if cookies[0].0 == name then Some(cookies[0].1)
    else FirstCookie(cookies[1..], name)
  }

  lemma {:induction false} WrittenCookiesRead(cookies: seq<(string, string)>, name: string)
    requires forall i :: 0 <= i < |cookies| ==> WellFormedCookie(cookies[i])
    ensures CookieValue(WriteCookies(cookies), name) == FirstCookie(cookies, name)
    ensures forall i :: 0 <= i < |cookies| ==> ';' !in WriteCookies(cookies)[i]
  {
    if cookies != [] {
      WrittenCookieReads(cookies[0].0, cookies[0].1);
      WrittenCookiesRead(cookies[1..], name);
      assert WriteCookies(cookies)[1..] == WriteCookies(cookies[1..]);
    }
  }

  /** Reading a cookie header that was written from well-formed cookies gives the first one of the name. */
  lemma CookieRoundTrip(cookies: seq<(string, string)>, name: string)
    requires cookies != [] && forall i :: 0 <= i < |cookies| ==> WellFormedCookie(cookies[i])
    ensures CookieValue(Split(Join(WriteCookies(cookies), ';'), ';'), name) == FirstCookie(cookies, name)
  {
    WrittenCookiesRead(cookies, name);
    SplitJoin(WriteCookies(cookies), ';');
  }
}
