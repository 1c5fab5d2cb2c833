/** The OpenAI-compatible endpoint URL built from a deployment's host and
    load-balancer port: `http://{host_name}:{lb_port}` followed by the API path. */
module Endpoint {
  import opened Common
  import opened Decimal

  const Scheme: string := "http://"

  /** The API path the command-line driver appends (with a trailing slash). */
  const CliPath: string := "/v1/"

  /** The API path the web front end appends (no trailing slash). */
  const UiPath: string := "/v1"

  /** The f-string `f"http://{host}:{port}{path}"`. */
  function Format(host: string, port: int, path: string): string
  {
    Scheme + host + ":" + IntToString(port) + path
  }

  /** Position of the last occurrence of `c` in `s`, if any. */
  function LastIndexOf(s: string, c: char): (r: Option<nat>)
    ensures r.Some? ==> r.value < |s| && s[r.value] == c
    ensures r.Some? ==> forall j :: r.value < j < |s| ==> s[j] != c
    ensures r.None? ==> forall j :: 0 <= j < |s| ==> s[j] != c
  {
    if s == [] then None
    else if s[|s| - 1] == c then Some(|s| - 1)
    else LastIndexOf(s[..|s| - 1], c)
  }

  /** Reads host and port back out of an endpoint URL with the given path:
      the port is what follows the last colon, so a host may itself hold colons. */
  function Parse(url: string, path: string): Option<(string, int)>
  {
    if |url| < |Scheme| + |path| || url[..|Scheme|] != Scheme || url[|url| - |path|..] != path then None
    else
      var authority := url[|Scheme|..|url| - |path|];
      match LastIndexOf(authority, ':')
      case None => None
      case Some(c) =>
        var port := authority[c + 1..];
        if IsIntString(port) then Some((authority[..c], ParseInt(port))) else None
  }

  /** A printed port holds digits and perhaps a minus sign, never a colon. */
  lemma PortHasNoColon(port: int)
    ensures forall j :: 0 <= j < |IntToString(port)| ==> IntToString(port)[j] != ':'
  {
  }

  /** The endpoint string determines the host and port it was built from. */
  lemma ParseFormat(host: string, port: int, path: string)
    ensures Parse(Format(host, port, path), path) == Some((host, port))
  {
    var digits := IntToString(port);
    var url := Format(host, port, path);
    var authority := host + ":" + digits;
    assert url == Scheme + authority + path;
    assert url[..|Scheme|] == Scheme;
    assert url[|url| - |path|..] == path;
    assert url[|Scheme|..|url| - |path|] == authority;
    PortHasNoColon(port);
    var last := LastIndexOf(authority, ':');
    assert authority[|host|] == ':';
    assert last.Some?;
    assert last.value == |host|;
    assert authority[..|host|] == host;
    assert authority[|host| + 1..] == digits;
    IntStringRoundTrip(port);
  }

  /** Two endpoints with the same path are equal only when host and port are. */
  lemma FormatInjective(host1: string, port1: int, host2: string, port2: int, path: string)
    requires Format(host1, port1, path) == Format(host2, port2, path)
    ensures host1 == host2 && port1 == port2
  {
    ParseFormat(host1, port1, path);
    ParseFormat(host2, port2, path);
  }

  /** The two drivers' endpoints for the same host and port differ by the final slash alone. */
  lemma CliEndpointAddsSlash(host: string, port: int)
    ensures Format(host, port, CliPath) == Format(host, port, UiPath) + "/"
    ensures Parse(Format(host, port, CliPath), CliPath) == Parse(Format(host, port, UiPath), UiPath)
  {
  }
}
