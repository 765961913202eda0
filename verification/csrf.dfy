/**
 * The CSRF guard of the web client (src/sa_web/static/sa/js/models.js,
 * the `ajaxSend` handler): before every jQuery AJAX request it adds an
 * `X-CSRFToken` header, holding the `csrftoken` cookie, to requests that
 * are not safe and go to the page's own origin.
 *
 * `document.cookie`, `document.location.host` and
 * `document.location.protocol` are parameters, and `decodeURIComponent`
 * is a parameter `decode`.
 */
module Csrf {
  import opened Wrappers
  import opened Text

  const CsrfCookieName := "csrftoken"

  /** The cookie piece (already trimmed) carries the cookie called `name`. */
  predicate NamesCookie(piece: string, name: string)
  {
    name + "=" <= piece
  }

  /** The value of the first cookie piece, trimmed, that carries `name`; null when there is none. */
  function FirstCookie(pieces: seq<string>, name: string, decode: string -> string): Option<string>
  {
    if pieces == [] then None
    else
      var cookie := Strip(pieces[0], IsJsSpace);
      if NamesCookie(cookie, name) then Some(decode(cookie[|name| + 1..]))
      else FirstCookie(pieces[1..], name, decode)
  }

  /** `getCookie(name)` on the cookie string `cookies`. */
  function CookieValue(cookies: string, name: string, decode: string -> string): Option<string>
  {
    if cookies == "" then None else FirstCookie(Split(cookies, ';'), name, decode)
  }

  /** `getCookie` as written: an indexed loop over the pieces that stops at the first match. */
  method GetCookie(cookies: string, name: string, decode: string -> string) returns (cookieValue: Option<string>)
    ensures cookieValue == CookieValue(cookies, name, decode)
  {
    cookieValue := None;
    if cookies != "" {
      var pieces := Split(cookies, ';');
      var i := 0;
      while i < |pieces|
        invariant 0 <= i <= |pieces|
        invariant FirstCookie(pieces, name, decode) == FirstCookie(pieces[i..], name, decode)
        invariant cookieValue == None
      {
        var cookie := Strip(pieces[i], IsJsSpace);
        if cookie[..if |name| + 1 <= |cookie| then |name| + 1 else |cookie|] == name + "=" {
          cookieValue := Some(decode(cookie[|name| + 1..]));
          break;
        }
        assert pieces[i..][1..] == pieces[i + 1..];
        i := i + 1;
      }
    }
  }

  /** The first trimmed piece carrying the name decides the value: both directions. */
  lemma {:induction false} FirstCookieFound(pieces: seq<string>, name: string, decode: string -> string, i: nat)
    requires i < |pieces| && NamesCookie(Strip(pieces[i], IsJsSpace), name)
    requires forall j :: 0 <= j < i ==> !NamesCookie(Strip(pieces[j], IsJsSpace), name)
    ensures FirstCookie(pieces, name, decode) == Some(decode(Strip(pieces[i], IsJsSpace)[|name| + 1..]))
  {
    if i > 0 {
      assert forall j :: 0 <= j < i - 1 ==> pieces[1..][j] == pieces[j + 1];
      FirstCookieFound(pieces[1..], name, decode, i - 1);
    }
  }

  lemma {:induction false} FirstCookieMissing(pieces: seq<string>, name: string, decode: string -> string)
    ensures FirstCookie(pieces, name, decode) == None <==>
      forall j :: 0 <= j < |pieces| ==> !NamesCookie(Strip(pieces[j], IsJsSpace), name)
  {
    if pieces != [] {
      FirstCookieMissing(pieces[1..], name, decode);
      var rest := pieces[1..];
      if !NamesCookie(Strip(pieces[0], IsJsSpace), name) {
        assert FirstCookie(pieces, name, decode) == FirstCookie(rest, name, decode);
        assert (forall j :: 0 <= j < |rest| ==> !NamesCookie(Strip(rest[j], IsJsSpace), name)) ==>
               (forall j :: 0 <= j < |pieces| ==> !NamesCookie(Strip(pieces[j], IsJsSpace), name)) by {
          forall j | 1 <= j < |pieces| ensures pieces[j] == rest[j - 1] { }
        }
      }
    }
  }

  lemma SplitTwo(first: string, second: string)
    requires ';' !in first && ';' !in second
    ensures first + ";" + second != ""
    ensures Split(first + ";" + second, ';') == [first, second]
  {
    JoinCons(first, [second], ';');
    SplitJoin([first, second], ';');
  }

  lemma TrimOneSpace(s: string)
    requires s != [] && !IsJsSpace(s[0]) && !IsJsSpace(s[|s| - 1])
    ensures Strip(" " + s, IsJsSpace) == s
  {
    assert (" " + s)[1..] == s;
    StripUnpadded(s, IsJsSpace);
  }

  /** `getCookie` gives null exactly for an empty cookie string or when no trimmed piece carries the name. */
  lemma CookieAbsent(cookies: string, name: string, decode: string -> string)
    ensures CookieValue(cookies, name, decode) == None <==>
      cookies == "" || NoneNamed(Split(cookies, ';'), name)
  {
    if cookies != "" {
      FirstCookieMissing(Split(cookies, ';'), name, decode);
    }
  }

  predicate NoneNamed(pieces: seq<string>, name: string)
  {
    forall j :: 0 <= j < |pieces| ==> !NamesCookie(Strip(pieces[j], IsJsSpace), name)
  }

  /** In `other; name=value`, where `other` does not carry `name`, the value is found. */
  lemma CookieAfterOther(other: string, name: string, value: string, decode: string -> string)
    requires ';' !in other && ';' !in name && ';' !in value
    requires other != [] && !IsJsSpace(other[0]) && !IsJsSpace(other[|other| - 1])
    requires name != [] && !IsJsSpace(name[0])
    requires !NamesCookie(other, name)
    requires value == [] || !IsJsSpace(value[|value| - 1])
    ensures CookieValue(other + "; " + name + "=" + value, name, decode) == Some(decode(value))
  {
    var named := name + "=" + value;
    assert other + "; " + name + "=" + value == other + ";" + (" " + named);
    NamedPieceTrimmed(name, value);
    SplitTwo(other, " " + named);
    StripUnpadded(other, IsJsSpace);
    FirstCookieFound([other, " " + named], name, decode, 1);
  }

  /** The piece ` name=value` trims to `name=value`, which carries `name` with the value after the `=`. */
  lemma NamedPieceTrimmed(name: string, value: string)
    requires name != [] && !IsJsSpace(name[0])
    requires value == [] || !IsJsSpace(value[|value| - 1])
    ensures Strip(" " + (name + "=" + value), IsJsSpace) == name + "=" + value
    ensures NamesCookie(name + "=" + value, name)
    ensures (name + "=" + value)[|name| + 1..] == value
  {
    var named := name + "=" + value;
    assert named[0] == name[0];
    assert named[|named| - 1] == if value == [] then '=' else value[|value| - 1];
    TrimOneSpace(named);
    assert named[..|name| + 1] == name + "=";
  }

  /**
   * A browser holding some other cookie and then the token sends
   * `other; csrftoken=token`, and `getCookie('csrftoken')` finds the token.
   */
  lemma TokenAfterOtherCookie(other: string, token: string, decode: string -> string)
    requires ';' !in other && ';' !in token
    requires other != [] && !IsJsSpace(other[0]) && !IsJsSpace(other[|other| - 1])
    requires !NamesCookie(other, CsrfCookieName)
    requires token == [] || !IsJsSpace(token[|token| - 1])
    ensures CookieValue(other + "; " + CsrfCookieName + "=" + token, CsrfCookieName, decode) == Some(decode(token))
  {
    CookieAfterOther(other, CsrfCookieName, token, decode);
  }

  /** `safeMethod`: the anchored, case-sensitive test for the four safe methods. */
  predicate SafeMethod(httpMethod: string)
  {
    httpMethod == "GET" || httpMethod == "HEAD" || httpMethod == "OPTIONS" || httpMethod == "TRACE"
  }

  /** The test is case-sensitive and anchored: `get` and `GETS` are not safe. */
  lemma SafeMethodExamples()
    ensures SafeMethod("GET") && SafeMethod("TRACE")
    ensures !SafeMethod("get") && !SafeMethod("POST") && !SafeMethod("GETS") && !SafeMethod("")
  {
    assert "get"[0] != "GET"[0];
    assert "POST"[0] != "GET"[0] && "POST"[0] != "HEAD"[0] && "POST"[0] != "OPTIONS"[0] && "POST"[0] != "TRACE"[0];
  }

  /**
   * The test accepts upper-case names only: a method name written in lower
   * case (as `settings.type` may be) is never safe, so the header is added
   * even for a lower-case `get`.
   */
  lemma LowerCaseMethodsUnsafe(httpMethod: string)
    ensures !SafeMethod(Lower(httpMethod))
  {
    var m := Lower(httpMethod);
    if m != [] {
      assert m[0] == LowerChar(httpMethod[0]);
      assert !('A' <= m[0] <= 'Z');
    }
  }

  /** `sameOrigin(url)` for a page at `protocol//host`. */
  predicate SameOrigin(url: string, host: string, protocol: string)
  {
    var srOrigin := "//" + host;
    var origin := protocol + srOrigin;
    || url == origin || origin + "/" <= url
    || url == srOrigin || srOrigin + "/" <= url
    || !("//" <= url || "http:" <= url || "https:" <= url)
  }

  /** Two slash-free heads, each followed by a slash, line up only when they are equal. */
  lemma SlashFreeHeads(a: string, b: string, rest: string)
    requires '/' !in a && '/' !in b
    requires |rest| > 0 && rest[0] == '/'
    requires a + "/" <= b + rest
    ensures a == b
  {
    assert (b + rest)[|b|] == '/';
    assert (a + "/")[|a|] == '/';
    assert forall i :: 0 <= i < |a| ==> (a + "/")[i] == a[i];
    assert forall i :: 0 <= i < |b| ==> (b + rest)[i] == b[i];
    assert |a| == |b|;
    assert a == (a + "/")[..|a|] == (b + rest)[..|b|] == b;
  }

  lemma PrefixCancel(x: string, y: string, z: string)
    requires x + y <= x + z
    ensures y <= z
  {
    assert forall i :: 0 <= i < |y| ==> y[i] == (x + y)[|x| + i] && z[i] == (x + z)[|x| + i];
  }

  /** An http(s) URL that starts with the page's origin and a slash is on the page's host. */
  lemma OriginPrefixSameHost(scheme: string, otherHost: string, path: string, host: string, protocol: string)
    requires scheme == "http:" || scheme == "https:"
    requires '/' !in protocol && '/' !in host && '/' !in otherHost
    requires protocol + "//" + host + "/" <= scheme + "//" + otherHost + "/" + path
    ensures host == otherHost
  {
    var tail := "//" + otherHost + "/" + path;
    assert scheme + "//" + otherHost + "/" + path == scheme + tail;
    assert protocol + "/" <= scheme + tail;
    SlashFreeHeads(protocol, scheme, tail);
    var head := protocol + "//";
    assert protocol + "//" + host + "/" == head + (host + "/");
    assert scheme + tail == head + (otherHost + ("/" + path));
    PrefixCancel(head, host + "/", otherHost + ("/" + path));
    SlashFreeHeads(host, otherHost, "/" + path);
  }

  /** An http(s) URL with a path is never exactly the page's origin, whose host has no slash. */
  lemma OriginNeverHasPath(scheme: string, otherHost: string, path: string, host: string, protocol: string)
    requires scheme == "http:" || scheme == "https:"
    requires '/' !in protocol && '/' !in otherHost
    requires protocol + "//" + host == scheme + "//" + otherHost + "/" + path
    ensures '/' in host
  {
    var tail := "//" + otherHost + "/" + path;
    assert scheme + "//" + otherHost + "/" + path == scheme + tail;
    assert protocol + "/" <= scheme + tail;
    SlashFreeHeads(protocol, scheme, tail);
    var head := protocol + "//";
    assert protocol + "//" + host == head + host;
    assert scheme + tail == head + (otherHost + "/" + path);
    assert host == (head + host)[|head|..] == otherHost + "/" + path;
    assert host[|otherHost|] == '/';
  }

  /**
   * An absolute http(s) URL to another host is never same-origin, even
   * when that host starts with the page's own host (`example.com.evil`).
   */
  lemma OtherHostRejected(scheme: string, otherHost: string, path: string, host: string, protocol: string)
    requires scheme == "http:" || scheme == "https:"
    requires '/' !in protocol && '/' !in host && '/' !in otherHost
    requires otherHost != host
    ensures !SameOrigin(scheme + "//" + otherHost + "/" + path, host, protocol)
  {
    var url := scheme + "//" + otherHost + "/" + path;
    assert url[0] == 'h';
    assert scheme <= url;
    if protocol + "//" + host + "/" <= url {
      OriginPrefixSameHost(scheme, otherHost, path, host, protocol);
    }
    if protocol + "//" + host == url {
      OriginNeverHasPath(scheme, otherHost, path, host, protocol);
    }
  }

  /** Relative URLs, and absolute or scheme-relative URLs on the page's own origin, are same-origin. */
  lemma OwnOriginAccepted(host: string, protocol: string, path: string)
    ensures SameOrigin(protocol + "//" + host + "/" + path, host, protocol)
    ensures SameOrigin("//" + host + "/" + path, host, protocol)
    ensures SameOrigin(protocol + "//" + host, host, protocol)
    ensures !("//" <= path || "http:" <= path || "https:" <= path) ==> SameOrigin(path, host, protocol)
  {
    assert protocol + "//" + host + "/" + path == (protocol + "//" + host + "/") + path;
    assert "//" + host + "/" + path == ("//" + host + "/") + path;
  }

  /** What `xhr.setRequestHeader("X-CSRFToken", getCookie('csrftoken'))` sends: a null cookie becomes "null". */
  function HeaderText(cookie: Option<string>): string
  {
    if cookie.Some? then cookie.value else "null"
  }

  /** The `X-CSRFToken` header the handler adds, if any. */
  function CsrfHeader(httpMethod: string, url: string, cookies: string, host: string, protocol: string, decode: string -> string): Option<string>
  {
    if !SafeMethod(httpMethod) && SameOrigin(url, host, protocol) then
      Some(HeaderText(CookieValue(cookies, CsrfCookieName, decode)))
    else None
  }

  /** The handler body: compute the cookie only when the header is to be sent. */
  method OnAjaxSend(httpMethod: string, url: string, cookies: string, host: string, protocol: string, decode: string -> string)
    returns (header: Option<string>)
    ensures header == CsrfHeader(httpMethod, url, cookies, host, protocol, decode)
  {
    header := None;
    if !SafeMethod(httpMethod) && SameOrigin(url, host, protocol) {
      var token := GetCookie(cookies, CsrfCookieName, decode);
      header := Some(HeaderText(token));
    }
  }

  /**
   * The header is sent exactly for unsafe methods to the page's own origin,
   * and then holds the decoded token of the first `csrftoken` cookie, or
   * the text "null" when there is no such cookie: for an empty cookie
   * string, or when no piece carries the name.
   */
  lemma CsrfHeaderRule(httpMethod: string, url: string, cookies: string, host: string, protocol: string, decode: string -> string)
    ensures CsrfHeader(httpMethod, url, cookies, host, protocol, decode).Some? <==> !SafeMethod(httpMethod) && SameOrigin(url, host, protocol)
    ensures CsrfHeader(httpMethod, url, cookies, host, protocol, decode).Some? && CookieValue(cookies, CsrfCookieName, decode).Some? ==>
      CsrfHeader(httpMethod, url, cookies, host, protocol, decode).value == CookieValue(cookies, CsrfCookieName, decode).value
    ensures !SafeMethod(httpMethod) && SameOrigin(url, host, protocol) && (cookies == "" || NoneNamed(Split(cookies, ';'), CsrfCookieName)) ==>
      CsrfHeader(httpMethod, url, cookies, host, protocol, decode) == Some("null")
  {
    CookieAbsent(cookies, CsrfCookieName, decode);
  }

  /** A POST to the page's own origin from a page without cookies sends the header text "null". */
  lemma NullTokenWithoutCookies(path: string, host: string, protocol: string, decode: string -> string)
    ensures CsrfHeader("POST", protocol + "//" + host + "/" + path, "", host, protocol, decode) == Some("null")
  {
    OwnOriginAccepted(host, protocol, path);
    CsrfHeaderRule("POST", protocol + "//" + host + "/" + path, "", host, protocol, decode);
  }

  /** A POST to another http(s) host never carries the token. */
  lemma TokenNotSentAcrossOrigins(otherHost: string, path: string, cookies: string, host: string, protocol: string, decode: string -> string)
    requires '/' !in protocol && '/' !in host && '/' !in otherHost && otherHost != host
    ensures CsrfHeader("POST", "https://" + otherHost + "/" + path, cookies, host, protocol, decode) == None
  {
    assert "https://" + otherHost + "/" + path == "https:" + "//" + otherHost + "/" + path;
    OtherHostRejected("https:", otherHost, path, host, protocol);
  }
}
