/**
 * Deep links to a render. Generation builds the link text; parsing works on
 * what the URL parser yields (protocol and pathname), or on its failure.
 */
module Deeplink {
  import opened Wrappers

  /** The outcome of `new URL(url)`: a thrown error, or the parsed parts used here. */
  datatype ParsedUrl = Invalid | Url(protocol: string, pathname: string)

  const ExpScheme := "exp://"
  const PvScheme := "pv://"
  const ExpPathPrefix := "/--/"

  /** The characters JavaScript's regular-expression `.` does not match. */
  predicate IsLineTerminator(c: char) {
    c == '\n' || c == '\r' || c == '\U{2028}' || c == '\U{2029}'
  }

  predicate NoLineTerminator(s: string) {
    forall i :: 0 <= i < |s| ==> !IsLineTerminator(s[i])
  }

  /** The pathname of an `exp:` deep link for `renderId`. */
  function ExpPath(renderId: string): string {
    ExpPathPrefix + renderId
  }

  /**
   * `expoConfig?.hostUri || manifest2?.extra?.expoGo?.hostUri`, kept only if
   * truthy: the first non-empty one of the two.
   */
  function HostUri(configHostUri: Option<string>, expoGoHostUri: Option<string>): (r: Option<string>)
    ensures r.Some? ==> r.value != "" && (r == configHostUri || r == expoGoHostUri)
    ensures r.None? ==> configHostUri.GetOr("") == "" && expoGoHostUri.GetOr("") == ""
    ensures configHostUri.GetOr("") != "" ==> r == configHostUri
  {
    if configHostUri.GetOr("") != "" then configHostUri
    else if expoGoHostUri.GetOr("") != "" then expoGoHostUri
    else None
  }

  /**
   * `generateDeeplink`: in development, with a host known, a link that the
   * development client opens; otherwise the app's own scheme.
   */
  function GenerateDeeplink(renderId: string, isDev: bool,
                            configHostUri: Option<string>, expoGoHostUri: Option<string>): (r: string)
    ensures ExpScheme <= r <==> isDev && HostUri(configHostUri, expoGoHostUri).Some?
    ensures !(ExpScheme <= r) ==> PvScheme <= r
    ensures |renderId| <= |r| && r[|r| - |renderId|..] == renderId
    ensures !(isDev && HostUri(configHostUri, expoGoHostUri).Some?) ==> |r| == |PvScheme| + |renderId|
    ensures isDev && HostUri(configHostUri, expoGoHostUri).Some? ==>
      var n := |ExpScheme| + |HostUri(configHostUri, expoGoHostUri).value|;
      |r| == n + |ExpPathPrefix| + |renderId| && r[|ExpScheme|..n] == HostUri(configHostUri, expoGoHostUri).value &&
      r[n..n + |ExpPathPrefix|] == ExpPathPrefix
  {
    var host := HostUri(configHostUri, expoGoHostUri);
    if isDev && host.Some? then ExpScheme + host.value + ExpPath(renderId)
    else
      var link := PvScheme + renderId;
      assert link[0] == 'p' != ExpScheme[0];
      link
  }

  /** The capture of `/^\/--\/(.+)$/` on a pathname, if it matches. */
  function ExpPathMatch(pathname: string): (r: Option<string>)
    ensures r.Some? <==> |pathname| > |ExpPathPrefix| && pathname[..|ExpPathPrefix|] == ExpPathPrefix &&
                         NoLineTerminator(pathname[|ExpPathPrefix|..])
    ensures r.Some? ==> pathname == ExpPath(r.value)
  {
    var n := |ExpPathPrefix|;
    if |pathname| > n && pathname[..n] == ExpPathPrefix && NoLineTerminator(pathname[n..]) then
      assert pathname == pathname[..n] + pathname[n..];
      Some(pathname[n..])
    else None
  }

  /** `pathname.replace(/^\//, '')`: at most one leading slash removed. */
  function StripLeadingSlash(pathname: string): (r: string)
    ensures pathname == r || pathname == "/" + r
    ensures |pathname| > 0 && pathname[0] == '/' ==> pathname == "/" + r
    ensures |pathname| == 0 || pathname[0] != '/' ==> r == pathname
  {
    if |pathname| > 0 && pathname[0] == '/' then
      assert pathname == "/" + pathname[1..];
      pathname[1..]
    else pathname
  }

  /**
   * `parseDeeplink`: the render id a link carries, or `None` for a URL that
   * does not parse, another protocol, or a pathname without an id.
   */
  function ParseDeeplink(url: ParsedUrl): (r: Option<string>)
    ensures r.Some? ==> url.Url? && r.value != ""
    ensures r.Some? && url.protocol == "exp:" ==> url.pathname == ExpPath(r.value) && NoLineTerminator(r.value)
    ensures r.Some? && url.protocol == "pv:" ==> url.pathname == r.value || url.pathname == "/" + r.value
    ensures url.Url? && url.protocol != "exp:" && url.protocol != "pv:" ==> r.None?
  {
    match url
    case Invalid => None
    case Url(protocol, pathname) =>
      if protocol == "exp:" && ExpPathMatch(pathname).Some? then ExpPathMatch(pathname)
      else if protocol == "pv:" then
        var id := StripLeadingSlash(pathname);
        if id != "" then Some(id) else None
      else None
  }

  /** The `exp:` pathname built by `GenerateDeeplink` is parsed back to the id. */
  lemma ExpPathRoundTrip(renderId: string)
    requires renderId != "" && NoLineTerminator(renderId)
    ensures ParseDeeplink(Url("exp:", ExpPath(renderId))) == Some(renderId)
  {
    assert ExpPath(renderId)[|ExpPathPrefix|..] == renderId;
  }

  /**
   * A development link: what follows the scheme and the host is a pathname
   * that `ParseDeeplink` turns back into the id.
   */
  lemma GeneratedExpLinkParses(renderId: string, configHostUri: Option<string>, expoGoHostUri: Option<string>)
    requires HostUri(configHostUri, expoGoHostUri).Some?
    requires renderId != "" && NoLineTerminator(renderId)
    ensures var link := GenerateDeeplink(renderId, true, configHostUri, expoGoHostUri);
      var n := |ExpScheme| + |HostUri(configHostUri, expoGoHostUri).value|;
      n <= |link| && ParseDeeplink(Url("exp:", link[n..])) == Some(renderId)
  {
    var host := HostUri(configHostUri, expoGoHostUri).value;
    var link := GenerateDeeplink(renderId, true, configHostUri, expoGoHostUri);
    assert link == (ExpScheme + host) + ExpPath(renderId);
    assert link[|ExpScheme| + |host|..] == ExpPath(renderId);
    ExpPathRoundTrip(renderId);
  }

  /** An `exp:` pathname yields an id exactly when it is "/--/" followed by one. */
  lemma ExpPathIff(pathname: string)
    ensures ParseDeeplink(Url("exp:", pathname)).Some? <==>
      exists s :: s != "" && NoLineTerminator(s) && pathname == ExpPath(s)
  {
    if exists s :: s != "" && NoLineTerminator(s) && pathname == ExpPath(s) {
      var s :| s != "" && NoLineTerminator(s) && pathname == ExpPath(s);
      ExpPathRoundTrip(s);
    }
  }

  /** A `pv:` pathname of one slash and an id, or of the bare id, yields that id. */
  lemma PvPathRoundTrip(renderId: string)
    requires renderId != ""
    ensures ParseDeeplink(Url("pv:", "/" + renderId)) == Some(renderId)
    ensures renderId[0] != '/' ==> ParseDeeplink(Url("pv:", renderId)) == Some(renderId)
  {
    assert ("/" + renderId)[1..] == renderId;
  }

  /** A `pv:` link with an empty pathname, or just "/", carries no id. */
  lemma PvEmptyPath()
    ensures ParseDeeplink(Url("pv:", "")) == None && ParseDeeplink(Url("pv:", "/")) == None
  {
  }
}
