/** The generic authenticated HTTP handle every service client is built on:
    base-URL normalisation, the session's header map, URL building and the
    verb helpers. The HTTP transport itself is an external collaborator; a
    session is modelled by its header map and an open/closed flag. */
module Base {
  import opened Wrappers

  /** Header that carries the API key unless the caller names another one. */
  const DefaultApiKeyHeader: string := "X-API-Key"
  const ContentTypeHeader: string := "Content-Type"
  const JsonMediaType: string := "application/json"
  const UserAgentHeader: string := "User-Agent"
  const UserAgent: string := "aftershipstorage-python-client/0.1.0"

  // ---------------------------------------------------------------------------
  // str.rstrip('/') and str.lstrip('/')
  // ---------------------------------------------------------------------------

  /** `s` without its trailing run of '/': the longest prefix of `s` that does
      not end in '/' and is followed only by slashes. */
  function StripTrailingSlashes(s: string): (r: string)
    ensures |r| <= |s| && r == s[..|r|]
    ensures r == [] || r[|r| - 1] != '/'
    ensures forall i :: |r| <= i < |s| ==> s[i] == '/'
    decreases |s|
  {
    if s != [] && s[|s| - 1] == '/' then StripTrailingSlashes(s[..|s| - 1]) else s
  }

  /** `s` without its leading run of '/'. */
  function StripLeadingSlashes(s: string): (r: string)
    ensures |r| <= |s| && r == s[|s| - |r|..]
    ensures r == [] || r[0] != '/'
    ensures forall i :: 0 <= i < |s| - |r| ==> s[i] == '/'
  {
    if s != [] && s[0] == '/' then StripLeadingSlashes(s[1..]) else s
  }

  /** The three properties of StripTrailingSlashes determine its result: any
      prefix of `s` that does not end in '/' and is followed only by slashes is
      the stripped string. */
  lemma {:induction false} StripTrailingSlashesUnique(s: string, r: string)
    requires |r| <= |s| && r == s[..|r|]
    requires r == [] || r[|r| - 1] != '/'
    requires forall i :: |r| <= i < |s| ==> s[i] == '/'
    ensures StripTrailingSlashes(s) == r
  {
    var t := StripTrailingSlashes(s);
    assert |t| == |r|;
  }

  /** Appending '/' to a base URL does not change what is stored. */
  lemma TrailingSlashIgnored(u: string)
    ensures StripTrailingSlashes(u + "/") == StripTrailingSlashes(u)
  {
    assert (u + "/")[..|u|] == u;
  }

  /** Prepending '/' to an endpoint does not change what is stripped. */
  lemma LeadingSlashIgnored(e: string)
    ensures StripLeadingSlashes("/" + e) == StripLeadingSlashes(e)
  {
    assert ("/" + e)[1..] == e;
  }

  // ---------------------------------------------------------------------------
  // Reference resolution as Python's `urljoin` does it, restricted to the
  // inputs on which it agrees with section 5.2 of RFC 3986: an http(s) base
  // with an authority and no query or fragment, and a reference that is a
  // plain relative path; neither has an empty segment, which `urljoin` drops,
  // nor a ';', after which `urlparse` splits parameters off the last segment
  // and drops them when they are empty.
  // ---------------------------------------------------------------------------

  /** The components of an absolute URI that has an authority and neither query
      nor fragment (section 3 of RFC 3986). */
  datatype UriParts = UriParts(scheme: string, authority: string, path: string)

  /** Component recomposition, section 5.3 of RFC 3986. */
  function Recompose(u: UriParts): string
  {
    u.scheme + "://" + u.authority + u.path
  }

  /** The position of the first `c` in `s`, or |s| when `c` does not occur
      (IndexOfIsFirst). */
  function IndexOf(s: string, c: char): (k: nat)
    ensures k <= |s|
  {
    if s == [] then 0 else if s[0] == c then 0 else 1 + IndexOf(s[1..], c)
  }

  /** IndexOf finds the first occurrence: `c` sits at the position returned,
      unless that is |s|, and nowhere before it. */
  lemma {:induction false} IndexOfIsFirst(s: string, c: char)
    ensures IndexOf(s, c) < |s| ==> s[IndexOf(s, c)] == c
    ensures forall i :: 0 <= i < IndexOf(s, c) ==> s[i] != c
  {
    if s != [] && s[0] != c {
      IndexOfIsFirst(s[1..], c);
      assert forall i :: 1 <= i < IndexOf(s, c) ==> s[i] == s[1..][i - 1];
    }
  }

  /** True when a segment of `p` (a maximal run between slashes) is "." or "..". */
  predicate HasDotSegment(p: string)
  {
    exists i, j :: 0 <= i <= j <= |p| && (i == 0 || p[i - 1] == '/') && (j == |p| || p[j] == '/')
                   && (p[i..j] == "." || p[i..j] == "..")
  }

  /** A path without any '.' has no dot segment. */
  lemma NoDotNoDotSegment(p: string)
    requires '.' !in p
    ensures !HasDotSegment(p)
  {
    forall i, j | 0 <= i <= j <= |p|
      ensures p[i..j] != "." && p[i..j] != ".."
    {
      if i < j {
        assert p[i..j][0] == p[i];
      }
    }
  }

  /** True when `p` has no empty segment inside it, that is no "//". Python's
      `urljoin` drops such segments, which section 5.2 of RFC 3986 keeps. */
  predicate NoEmptySegment(p: string)
  {
    forall i :: 0 < i < |p| ==> p[i - 1] != '/' || p[i] != '/'
  }

  /** True when `p` holds none of the characters Python's `urlsplit` deletes
      wherever they occur: tab, carriage return and line feed. */
  predicate NoDeletedChar(p: string)
  {
    '\t' !in p && '\r' !in p && '\n' !in p
  }

  /** The characters of a modelled authority: ASCII, no delimiter that would
      end it, no bracket (which `urlsplit` checks as an IPv6 literal), and none
      of the deleted characters. */
  predicate AuthorityChar(c: char)
  {
    (c as int) < 128 && c != '/' && c != '?' && c != '#' && c != '[' && c != ']'
    && c != '\t' && c != '\r' && c != '\n'
  }

  /** The bases whose resolution is modelled: scheme http or https, a non-empty
      authority of plain characters, and a path that is empty or absolute, has
      no '?', '#', ';', deleted character, empty segment or dot segment. On
      these `urljoin` and section 5.2 of RFC 3986 agree. */
  predicate PlainBase(u: UriParts)
  {
    && (u.scheme == "http" || u.scheme == "https")
    && u.authority != []
    && (forall i :: 0 <= i < |u.authority| ==> AuthorityChar(u.authority[i]))
    && (u.path == [] || u.path[0] == '/')
    && '?' !in u.path && '#' !in u.path && ';' !in u.path && NoDeletedChar(u.path)
    && NoEmptySegment(u.path)
    && !HasDotSegment(u.path)
  }

  /** The references whose resolution is modelled: a relative path that does
      not start with '/', a control character or a space (which `urlsplit`
      strips from the front), and has no scheme, '?', '#', ';', deleted
      character, empty segment or dot segment. */
  predicate PlainRelativePath(r: string)
  {
    && (r == [] || (r[0] != '/' && r[0] > ' '))
    && ':' !in r && '?' !in r && '#' !in r && ';' !in r && NoDeletedChar(r)
    && NoEmptySegment(r)
    && !HasDotSegment(r)
  }

  /** Splitting of a URI string at the first ':' (scheme), the "//" that
      introduces the authority and the first '/' after it (path), section 3 of
      RFC 3986; None when there is no scheme followed by "//". */
  function SplitParts(s: string): Option<UriParts>
  {
    var i := IndexOf(s, ':');
    if i == |s| || |s| < i + 3 || s[i + 1] != '/' || s[i + 2] != '/' then None
    else
      var hier := s[i + 3..];
      var k := IndexOf(hier, '/');
      Some(UriParts(s[..i], hier[..k], hier[k..]))
  }

  /** The split of a base URI, None outside the modelled bases. */
  function SplitUri(s: string): (r: Option<UriParts>)
    ensures r.Some? ==> PlainBase(r.value) && Recompose(r.value) == s
  {
    var p := SplitParts(s);
    if p.Some? && PlainBase(p.value) then RecomposeSplit(s); p else None
  }

  /** Splitting a recomposed URI gives its components back, provided the
      scheme holds no ':', the authority no '/' and the path is empty or
      absolute. */
  lemma SplitPartsRecompose(u: UriParts)
    requires ':' !in u.scheme && '/' !in u.authority
    requires u.path == [] || u.path[0] == '/'
    ensures SplitParts(Recompose(u)) == Some(u)
  {
    var s := Recompose(u);
    var n := |u.scheme|;
    var hier := u.authority + u.path;
    Regroup(u.scheme, "://", u.authority, u.path);
    assert s == u.scheme + ("://" + hier);
    IndexOfConcat(u.scheme, "://" + hier, ':');
    assert s[n + 1] == '/' && s[n + 2] == '/';
    assert s[..n] == u.scheme;
    assert s[n + 3..] == hier;
    IndexOfConcat(u.authority, u.path, '/');
    assert IndexOf(hier, '/') == |u.authority|;
    assert hier[..|u.authority|] == u.authority && hier[|u.authority|..] == u.path;
  }

  /** Searching past a prefix that lacks `c` adds the prefix's length. */
  lemma {:induction false} IndexOfConcat(a: string, b: string, c: char)
    requires c !in a
    ensures IndexOf(a + b, c) == |a| + IndexOf(b, c)
  {
    if a != [] {
      assert (a + b)[0] == a[0];
      assert (a + b)[1..] == a[1..] + b;
      IndexOfConcat(a[1..], b, c);
    } else {
      assert a + b == b;
    }
  }

  /** Splitting a recomposed plain base gives its components back. */
  lemma SplitRecompose(u: UriParts)
    requires PlainBase(u)
    ensures SplitUri(Recompose(u)) == Some(u)
  {
    assert ':' !in u.scheme;
    assert '/' !in u.authority by {
      forall i | 0 <= i < |u.authority| ensures u.authority[i] != '/' {
        assert AuthorityChar(u.authority[i]);
      }
    }
    SplitPartsRecompose(u);
  }

  /** An https origin followed by '/' splits into its host and the root path. */
  lemma HttpsOriginSplits(host: string)
    requires host != [] && forall i :: 0 <= i < |host| ==> AuthorityChar(host[i])
    ensures SplitUri("https://" + host + "/") == Some(UriParts("https", host, "/"))
  {
    var u := UriParts("https", host, "/");
    assert Recompose(u) == "https://" + host + "/";
    NoDotNoDotSegment("/");
    SplitRecompose(u);
  }

  /** Whatever SplitParts accepts, recomposing gives the string back. */
  lemma RecomposeSplit(s: string)
    requires SplitParts(s).Some?
    ensures Recompose(SplitParts(s).value) == s
  {
    var i := IndexOf(s, ':');
    var hier := s[i + 3..];
    var k := IndexOf(hier, '/');
    var u := SplitParts(s).value;
    assert u.scheme == s[..i] && u.authority + u.path == hier by {
      assert hier[..k] + hier[k..] == hier;
    }
    assert s[i..i + 3] == "://" by {
      IndexOfIsFirst(s, ':');
    }
    Regroup(u.scheme, "://", u.authority, u.path);
    CutInThree(s, i, i + 3);
  }

  /** Appending the last two of four strings first gives the same string. */
  lemma Regroup(a: string, b: string, c: string, d: string)
    ensures a + b + c + d == a + b + (c + d)
  {
  }

  /** A string is its three slices around two cut points put back together. */
  lemma CutInThree(s: string, i: nat, j: nat)
    requires i <= j <= |s|
    ensures s[..i] + s[i..j] + s[j..] == s
  {
  }

  /** Everything of `path` up to and including its last '/', or "" when it has
      none: the part of the base path that the merge routine of section 5.2.3 of
      RFC 3986 keeps. */
  function DirectoryPart(path: string): (d: string)
    ensures |d| <= |path| && d == path[..|d|]
    ensures d == [] || d[|d| - 1] == '/'
    ensures forall i :: |d| <= i < |path| ==> path[i] != '/'
  {
    if path == [] then []
    else if path[|path| - 1] == '/' then path
    else DirectoryPart(path[..|path| - 1])
  }

  /** Merging a relative path with a base path, section 5.2.3 of RFC 3986. */
  function Merge(base: UriParts, ref: string): (m: string)
    requires PlainRelativePath(ref)
    ensures |ref| <= |m| && m[|m| - |ref|..] == ref
    ensures base.path == [] || base.path[0] == '/' ==> m != [] && m[0] == '/'
  {
    if base.path == [] then "/" + ref else DirectoryPart(base.path) + ref
  }

  /** The target of a plain relative reference, section 5.2.2 of RFC 3986: an
      empty reference gives the base back; any other keeps the base's scheme and
      authority and takes the merged path (remove_dot_segments leaves the
      dot-free paths modelled here unchanged). */
  function UrlJoin(base: UriParts, ref: string): (r: string)
    requires PlainBase(base) && PlainRelativePath(ref)
    ensures var origin := base.scheme + "://" + base.authority;
            |origin| <= |r| && r[..|origin|] == origin
    ensures |ref| <= |r| && r[|r| - |ref|..] == ref
  {
    if ref == [] then Recompose(base)
    else Recompose(base.(path := Merge(base, ref)))
  }

  /** Joining against a base that ends in '/' appends the reference. */
  lemma {:induction false} JoinAfterSlash(s: string, ref: string)
    requires s != [] && s[|s| - 1] == '/'
    requires SplitUri(s).Some? && PlainRelativePath(ref)
    ensures UrlJoin(SplitUri(s).value, ref) == s + ref
  {
    var u := SplitUri(s).value;
    RecomposeSplit(s);
    assert Recompose(u) == s && PlainBase(u);
    assert u.path != [];
    assert u.path[|u.path| - 1] == s[|s| - 1];
    assert DirectoryPart(u.path) == u.path;
    if ref != [] {
      assert Recompose(u.(path := Merge(u, ref))) == Recompose(u) + ref;
    }
  }

  // ---------------------------------------------------------------------------
  // The client handle
  // ---------------------------------------------------------------------------

  /** The header map the constructor installs on the session: the API key under
      its header name, plus fixed content-type and user-agent entries. As in a
      dictionary display, a later entry wins when the key header collides with
      one of the fixed names. */
  function InstalledHeaders(keyHeader: string, apiKey: string): (h: map<string, string>)
    ensures h.Keys == {keyHeader, ContentTypeHeader, UserAgentHeader}
    ensures h[ContentTypeHeader] == JsonMediaType && h[UserAgentHeader] == UserAgent
    ensures keyHeader != ContentTypeHeader && keyHeader != UserAgentHeader ==> h[keyHeader] == apiKey
  {
    map[keyHeader := apiKey, ContentTypeHeader := JsonMediaType, UserAgentHeader := UserAgent]
  }

  /** With the default header name the key is always sent. */
  lemma DefaultHeaderCarriesKey(apiKey: string)
    ensures DefaultApiKeyHeader in InstalledHeaders(DefaultApiKeyHeader, apiKey)
    ensures InstalledHeaders(DefaultApiKeyHeader, apiKey)[DefaultApiKeyHeader] == apiKey
  {
  }

  /** Everything a handle holds, as a value. */
  datatype ClientState = ClientState(
    baseUrl: string,
    apiKey: string,
    apiKeyHeader: string,
    headers: map<string, string>,
    open: bool)

  /** What a request hands to the HTTP session: method, full URL and the
      per-call headers. */
  datatype SessionCall = SessionCall(verb: string, url: string, headers: map<string, string>)

  class BaseClient {
    const baseUrl: string
    const apiKey: string
    const apiKeyHeader: string
    /** The session's header map. */
    var headers: map<string, string>
    /** Whether the session is still open. */
    var open: bool

    function State(): ClientState
      reads this
    {
      ClientState(baseUrl, apiKey, apiKeyHeader, headers, open)
    }

    /** Stores the base URL without trailing slashes, opens a session and adds
        the key, content-type and user-agent headers to it. */
    constructor (baseUrl: string, apiKey: string, apiKeyHeader: string := DefaultApiKeyHeader)
      ensures State() == ClientState(StripTrailingSlashes(baseUrl), apiKey, apiKeyHeader,
                                     InstalledHeaders(apiKeyHeader, apiKey), true)
      ensures this.baseUrl == [] || this.baseUrl[|this.baseUrl| - 1] != '/'
    {
      this.baseUrl := StripTrailingSlashes(baseUrl);
      this.apiKey := apiKey;
      this.apiKeyHeader := apiKeyHeader;
      headers := map[];
      open := true;
      new;
      headers := headers + InstalledHeaders(apiKeyHeader, apiKey);
    }

    /** True when the stored base URL is one whose joins are modelled. */
    predicate JoinableBase()
      reads this
    {
      SplitUri(baseUrl + "/").Some?
    }

    /** The full URL for an endpoint: leading slashes are dropped and the rest
        is resolved against the base URL followed by '/'. */
    function BuildUrl(endpoint: string): (url: string)
      reads this
      requires JoinableBase()
      requires PlainRelativePath(StripLeadingSlashes(endpoint))
      ensures url == baseUrl + "/" + StripLeadingSlashes(endpoint)
    {
      JoinAfterSlash(baseUrl + "/", StripLeadingSlashes(endpoint));
      UrlJoin(SplitUri(baseUrl + "/").value, StripLeadingSlashes(endpoint))
    }

    /** The call handed to the session for the HTTP method `verb` on `endpoint`. */
    function Request(verb: string, endpoint: string, extraHeaders: map<string, string>): (call: SessionCall)
      reads this
      requires JoinableBase()
      requires PlainRelativePath(StripLeadingSlashes(endpoint))
      ensures call.verb == verb && call.headers == extraHeaders
      ensures call.url == baseUrl + "/" + StripLeadingSlashes(endpoint)
    {
      SessionCall(verb, BuildUrl(endpoint), extraHeaders)
    }

    function Get(endpoint: string, extraHeaders: map<string, string>): (call: SessionCall)
      reads this
      requires JoinableBase()
      requires PlainRelativePath(StripLeadingSlashes(endpoint))
      ensures call.verb == "GET" && call.url == BuildUrl(endpoint) && call.headers == extraHeaders
    {
      Request("GET", endpoint, extraHeaders)
    }

    function Post(endpoint: string, extraHeaders: map<string, string>): (call: SessionCall)
      reads this
      requires JoinableBase()
      requires PlainRelativePath(StripLeadingSlashes(endpoint))
      ensures call.verb == "POST" && call.url == BuildUrl(endpoint) && call.headers == extraHeaders
    {
      Request("POST", endpoint, extraHeaders)
    }

    function Put(endpoint: string, extraHeaders: map<string, string>): (call: SessionCall)
      reads this
      requires JoinableBase()
      requires PlainRelativePath(StripLeadingSlashes(endpoint))
      ensures call.verb == "PUT" && call.url == BuildUrl(endpoint) && call.headers == extraHeaders
    {
      Request("PUT", endpoint, extraHeaders)
    }

    function Patch(endpoint: string, extraHeaders: map<string, string>): (call: SessionCall)
      reads this
      requires JoinableBase()
      requires PlainRelativePath(StripLeadingSlashes(endpoint))
      ensures call.verb == "PATCH" && call.url == BuildUrl(endpoint) && call.headers == extraHeaders
    {
      Request("PATCH", endpoint, extraHeaders)
    }

    function Delete(endpoint: string, extraHeaders: map<string, string>): (call: SessionCall)
      reads this
      requires JoinableBase()
      requires PlainRelativePath(StripLeadingSlashes(endpoint))
      ensures call.verb == "DELETE" && call.url == BuildUrl(endpoint) && call.headers == extraHeaders
    {
      Request("DELETE", endpoint, extraHeaders)
    }

    /** Closes the session; nothing else changes, and closing again is harmless. */
    method Close()
      modifies this
      ensures State() == old(State()).(open := false)
    {
      open := false;
    }

    method Enter() returns (r: BaseClient)
      ensures r == this
    {
      r := this;
    }

    /** Leaving a `with` block closes the session and lets any exception through. */
    method Exit() returns (suppress: bool)
      modifies this
      ensures !suppress
      ensures State() == old(State()).(open := false)
    {
      Close();
      suppress := false;
    }
  }

  /** An endpoint reaches the same URL with or without a leading slash. */
  lemma {:induction false} LeadingSlashesDoNotChangeUrl(c: BaseClient, e: string)
    requires c.JoinableBase()
    requires PlainRelativePath(StripLeadingSlashes(e))
    ensures PlainRelativePath(StripLeadingSlashes("/" + e))
    ensures c.BuildUrl("/" + e) == c.BuildUrl(e)
  {
    LeadingSlashIgnored(e);
  }
}
