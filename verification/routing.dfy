/**
  * The per-request routing decision.  A PAC engine, when one was loaded,
  * answers `FindProxyForURL` for a URL with a directive string such as
  * "PROXY host:8080; DIRECT"; a result starting with "DIRECT" bypasses the
  * upstream proxy, anything else (or no engine, or an evaluation error) keeps
  * Go's environment-configured proxy.
  */
module Routing {
  import opened Wrappers

  /** The JavaScript PAC evaluator, `FindProxyForURL`, as an opaque total function. */
  type PacEngine = string -> Result<string, string>

  /** What the transport's `Proxy` function answers: `(nil, nil)` or `http.ProxyFromEnvironment(req)`. */
  datatype ProxyChoice = NoProxy | FromEnvironment

  const Direct: string := "DIRECT"

  predicate HasPrefix(s: string, p: string) {
    |p| <= |s| && s[..|p|] == p
  }

  /** The directive decision on a PAC result string, as EasyGate takes it: a prefix test. */
  predicate IsDirectResult(result: string) {
    HasPrefix(result, Direct)
  }

  /** `isDirect`: a loaded engine that evaluates without error to a "DIRECT..." result. */
  function IsDirect(pac: Option<PacEngine>, url: string): (r: bool)
    ensures pac.None? ==> !r
    ensures pac.Some? && pac.value(url).Failure? ==> !r
    ensures r <==> pac.Some? && pac.value(url).Success? && IsDirectResult(pac.value(url).value)
  {
    match pac
    case None => false
    case Some(findProxyForURL) =>
      match findProxyForURL(url)
      case Failure(_) => false
      case Success(result) => IsDirectResult(result)
  }

  /** `proxy()`: no proxy exactly for direct requests; otherwise delegate to the environment. */
  function Proxy(pac: Option<PacEngine>, url: string): (c: ProxyChoice)
    ensures c == NoProxy <==> IsDirect(pac, url)
  {
    if IsDirect(pac, url) then NoProxy else FromEnvironment
  }

  /** With no PAC loaded, no URL bypasses the environment's proxy. */
  lemma NoPacNeverDirect(url: string)
    ensures Proxy(None, url) == FromEnvironment
  {
  }

  /** The first directive of a PAC result: the text before the first ';'. */
  function FirstDirective(result: string): (d: string)
    ensures HasPrefix(result, d) && ';' !in d
    ensures |d| < |result| ==> result[|d|] == ';'
  {
    if result == [] || result[0] == ';' then []
    else [result[0]] + FirstDirective(result[1..])
  }

  /** Only the first directive decides: EasyGate reads "DIRECT" only at the start of the result. */
  lemma FirstDirectiveDecides(result: string)
    ensures IsDirectResult(result) <==> IsDirectResult(FirstDirective(result))
  {
  }

  /** Fallback directives after the first never change the decision. */
  lemma FallbacksIgnored(first: string, rest: string)
    requires ';' !in first
    ensures IsDirectResult(first + ";" + rest) <==> IsDirectResult(first)
  {
    var r := first + ";" + rest;
    assert r[..|first|] == first && r[|first|] == ';';
  }
}
