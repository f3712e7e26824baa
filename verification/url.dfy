/**
  * The part of `new URL(s).hostname` the allow-lists rely on, for URLs of the
  * shape `scheme://host[:port][/path][?query][#fragment]`. Anything else is
  * treated as unparsable. Host names are returned as written.
  */
module Url {
  import opened Text
  import opened Js

  predicate IsLetter(c: char)
  {
    'a' <= c <= 'z' || 'A' <= c <= 'Z'
  }

  predicate IsSchemeChar(c: char)
  {
    IsLetter(c) || IsDigit(c) || c == '+' || c == '-' || c == '.'
  }

  /** A scheme: a letter followed by letters, digits, `+`, `-` or `.`. */
  predicate IsScheme(s: string)
  {
    |s| > 0 && IsLetter(s[0]) && forall i :: 0 <= i < |s| ==> IsSchemeChar(s[i])
  }

  /** Characters that end the authority part of a URL. */
  predicate IsDelimiter(c: char)
  {
    c == '/' || c == '?' || c == '#'
  }

  /**
    * Characters a host name may hold in this model: anything but the
    * delimiters, the port and userinfo separators, and the forbidden domain
    * code points of the WHATWG URL Standard (section 3.5: controls, space,
    * `<`, `>`, `[`, `\`, `]`, `^`, `|`, `%` and DEL), on which `new URL` throws.
    */
  predicate IsHostChar(c: char)
  {
    !IsDelimiter(c) && c != ':' && c != '@' && ' ' < c && c != '\U{7F}' &&
    c != '<' && c != '>' && c != '[' && c != '\\' && c != ']' && c != '^' && c != '|' && c != '%'
  }

  predicate IsHost(h: string)
  {
    |h| > 0 && forall i :: 0 <= i < |h| ==> IsHostChar(h[i])
  }

  /** A port: decimal digits, possibly none, at most 65535. */
  predicate IsPort(p: string)
  {
    AllDigits(p) && (p == "" || DigitsValue(p) <= 65535)
  }

  /** Index of the first authority delimiter, or `|s|`. */
  function DelimiterIndex(s: string): (i: nat)
    ensures i <= |s|
    ensures forall j :: 0 <= j < i ==> !IsDelimiter(s[j])
    ensures i < |s| ==> IsDelimiter(s[i])
  {
    if |s| == 0 then 0
    else if IsDelimiter(s[0]) then 0
    else 1 + DelimiterIndex(s[1..])
  }

  /** The first-delimiter property determines `DelimiterIndex`. */
  lemma DelimiterIndexUnique(s: string, k: nat)
    requires k <= |s|
    requires forall j :: 0 <= j < k ==> !IsDelimiter(s[j])
    requires k < |s| ==> IsDelimiter(s[k])
    ensures DelimiterIndex(s) == k
  {
  }

  /** What follows `scheme://`, or None when `s` does not start with one. */
  function AfterScheme(s: string): (r: Option<string>)
    ensures r.Some? ==> |r.value| <= |s|
  {
    var i := IndexOf(s, ':');
    if i == |s| || !IsScheme(s[..i]) || !StartsWith(s[i..], "://") then None
    else Some(s[i + 3..])
  }

  /** The host of an authority `host[:port]`, or None when host or port is malformed. */
  function HostOfAuthority(authority: string): (r: Option<string>)
    ensures r.Some? ==> IsHost(r.value)
  {
    var c := IndexOf(authority, ':');
    var host := authority[..c];
    var port := if c == |authority| then "" else authority[c + 1..];
    if IsHost(host) && IsPort(port) then Some(host) else None
  }

  /** The host name of `s`, or None where `new URL(s)` would throw. */
  function Hostname(s: string): (r: Option<string>)
    ensures r.Some? ==> IsHost(r.value)
  {
    match AfterScheme(s)
    case None => None
    case Some(rest) => HostOfAuthority(rest[..DelimiterIndex(rest)])
  }

  /** `extractDomain`: the host name, or `""` when the URL does not parse. */
  function ExtractDomain(s: string): (d: string)
    ensures d == "" || IsHost(d)
    ensures d == "" <==> Hostname(s).None?
  {
    Hostname(s).GetOr("")
  }

  /** The text between the host and the path: nothing, or `:` and a port. */
  function PortPart(port: Option<string>): string
  {
    match port
    case None => ""
    case Some(p) => ":" + p
  }

  /** The scheme ends at the first colon, and `://` follows it. */
  lemma SchemeSplit(scheme: string, after: string)
    requires IsScheme(scheme)
    ensures AfterScheme(scheme + "://" + after) == Some(after)
  {
    var s := scheme + "://" + after;
    assert s[..|scheme|] == scheme;
    assert s[|scheme|] == ':';
    assert forall j :: 0 <= j < |scheme| ==> s[j] == scheme[j] && IsSchemeChar(scheme[j]);
    IndexOfUnique(s, ':', |scheme|);
    assert s[|scheme|..][..3] == "://";
    assert s[|scheme| + 3..] == after;
  }

  /** The authority of a URL ends where its path, query or fragment starts. */
  lemma AuthorityEnd(auth: string, tail: string)
    requires forall j :: 0 <= j < |auth| ==> !IsDelimiter(auth[j])
    requires tail == "" || IsDelimiter(tail[0])
    ensures (auth + tail)[..DelimiterIndex(auth + tail)] == auth
  {
    var rest := auth + tail;
    assert forall j :: 0 <= j < |auth| ==> rest[j] == auth[j];
    DelimiterIndexUnique(rest, |auth|);
    assert rest[..|auth|] == auth;
  }

  /** Host and port separate at the first colon of the authority. */
  lemma HostPortSplit(host: string, port: Option<string>)
    requires IsHost(host)
    requires port.Some? ==> IsPort(port.value)
    ensures HostOfAuthority(host + PortPart(port)) == Some(host)
  {
    var auth := host + PortPart(port);
    assert auth[..|host|] == host;
    assert forall j :: 0 <= j < |host| ==> auth[j] == host[j];
    IndexOfUnique(auth, ':', |host|);
    if port.Some? {
      assert auth[|host| + 1..] == port.value;
    }
  }

  /** Neither host nor port holds a delimiter. */
  lemma AuthorityHasNoDelimiter(host: string, port: Option<string>)
    requires IsHost(host)
    requires port.Some? ==> IsPort(port.value)
    ensures var auth := host + PortPart(port);
      forall j :: 0 <= j < |auth| ==> !IsDelimiter(auth[j])
  {
    var auth := host + PortPart(port);
    forall j | 0 <= j < |auth|
      ensures !IsDelimiter(auth[j])
    {
      if j < |host| {
        assert auth[j] == host[j];
      } else if j > |host| {
        assert auth[j] == port.value[j - |host| - 1];
      }
    }
  }

  /**
    * Taking a URL apart recovers the host it was built from: scheme, port,
    * path, query and fragment never leak into the result.
    */
  lemma HostnameOfBuiltUrl(scheme: string, host: string, port: Option<string>, tail: string)
    requires IsScheme(scheme) && IsHost(host)
    requires port.Some? ==> IsPort(port.value)
    requires tail == "" || IsDelimiter(tail[0])
    ensures Hostname(scheme + "://" + host + PortPart(port) + tail) == Some(host)
  {
    var auth := host + PortPart(port);
    assert scheme + "://" + host + PortPart(port) + tail == scheme + "://" + (auth + tail);
    SchemeSplit(scheme, auth + tail);
    AuthorityHasNoDelimiter(host, port);
    AuthorityEnd(auth, tail);
    HostPortSplit(host, port);
  }

  /** Strings without a colon have no scheme and are not URLs. */
  lemma NoColonNoDomain(s: string)
    requires ':' !in s
    ensures ExtractDomain(s) == ""
  {
  }

  /** A host holding a forbidden domain code point does not parse, so it yields no domain. */
  lemma ForbiddenHostCharRejected(scheme: string, host: string, tail: string)
    requires IsScheme(scheme)
    requires forall j :: 0 <= j < |host| ==> !IsDelimiter(host[j])
    requires '|' in host && ':' !in host
    requires tail == "" || IsDelimiter(tail[0])
    ensures ExtractDomain(scheme + "://" + host + tail) == ""
  {
    assert scheme + "://" + host + tail == scheme + "://" + (host + tail);
    SchemeSplit(scheme, host + tail);
    AuthorityEnd(host, tail);
    var j :| 0 <= j < |host| && host[j] == '|';
    assert !IsHostChar(host[j]);
    IndexOfFound(host, ':');
    assert host[..IndexOf(host, ':')] == host;
  }

  /** The unparsable inputs the project's unit tests give `extractDomain`. */
  lemma ExtractDomainInvalidExamples()
    ensures ExtractDomain("not-a-url") == ""
    ensures ExtractDomain("") == ""
    ensures ExtractDomain("null") == "" && ExtractDomain("undefined") == ""
  {
    NoColonNoDomain("not-a-url");
    NoColonNoDomain("");
    NoColonNoDomain("null");
    NoColonNoDomain("undefined");
  }
}
