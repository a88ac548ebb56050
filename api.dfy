/** `fetchRssData`: one GET of the feed (through the proxy outside test mode),
    a check of the proxy's own status in `.then`, and the `.catch` that maps
    every failure onto one of three error kinds. The HTTP client is the
    parameter `get` and `createProxyUrl` is the parameter `proxy`. */
module Api {
  import opened Common

  /** The code the client gives the error when its 10000 ms timeout expires. */
  const AbortedCode: string := "ECONNABORTED"

  datatype ErrorKind = NetworkError | RssError | Unknown

  /** The message of the `Error` thrown for each kind. */
  function Message(kind: ErrorKind): (m: string)
    ensures m in {"networkError", "rssError", "unknown"}
  {
    match kind
    case NetworkError => "networkError"
    case RssError => "rssError"
    case Unknown => "unknown"
  }

  /** The proxy's `status` object; only `http_code` is read. */
  datatype ProxyStatus = ProxyStatus(httpCode: Option<int>)

  /** `response.data`: the proxy's `status` (if any) and `contents`. */
  datatype ResponseData = ResponseData(status: Option<ProxyStatus>, contents: Option<string>)

  /** The two things `.catch` looks at in an error: `code` and `response.status`. */
  datatype CaughtError = CaughtError(code: Option<string>, responseStatus: Option<int>)

  /** How the GET settles: with a response body, or with an error. */
  datatype RequestOutcome = Responded(data: ResponseData) | Failed(error: CaughtError)

  /** What a successful fetch resolves to: the whole body in test mode, its `contents` otherwise. */
  datatype Payload = WholeData(data: ResponseData) | Contents(contents: Option<string>)

  function TargetUrl(url: string, testMode: bool, proxy: string -> string): (target: string)
    ensures testMode ==> target == url
    ensures !testMode ==> target == proxy(url)
  {
    if testMode then url else proxy(url)
  }

  /** The proxy answered but reports that the origin did not answer 200. A
      body without `status` never counts as a failure; a `status` without
      `http_code` does, since `undefined !== 200`. */
  predicate ProxyFailed(data: ResponseData): (failed: bool)
    ensures data.status.None? ==> !failed
    ensures data.status == Some(ProxyStatus(Some(200))) ==> !failed
    ensures data.status == Some(ProxyStatus(None)) ==> failed
    ensures forall code: int :: code != 200 && data.status == Some(ProxyStatus(Some(code))) ==> failed
  {
    data.status.Some? && data.status.value.httpCode != Some(200)
  }

  /** `new Error('networkError')` carries neither a `code` nor a `response`. */
  const ThrownByThen: CaughtError := CaughtError(None, None)

  predicate IsAborted(e: CaughtError) {
    e.code == Some(AbortedCode)
  }

  predicate StatusAtLeast(e: CaughtError, bound: int) {
    e.responseStatus.Some? && e.responseStatus.value >= bound
  }

  /** The `.catch` mapping. */
  function Classify(e: CaughtError): (kind: ErrorKind)
    ensures kind == NetworkError <==> IsAborted(e) || StatusAtLeast(e, 500)
    ensures kind == RssError <==> !IsAborted(e) && !StatusAtLeast(e, 500) && StatusAtLeast(e, 400)
    ensures kind == Unknown <==> !IsAborted(e) && !StatusAtLeast(e, 400)
  {
    if IsAborted(e) || StatusAtLeast(e, 500) then NetworkError
    else if StatusAtLeast(e, 400) then RssError
    else Unknown
  }

  /** The `.then` handler: throws when the proxy reports a failure, else passes the body on. */
  function OnResponse(data: ResponseData, testMode: bool): (r: Result<Payload, CaughtError>)
    ensures r.Err? <==> ProxyFailed(data)
    ensures r.Err? ==> r.error == ThrownByThen
    ensures r.Ok? ==> r.value == if testMode then WholeData(data) else Contents(data.contents)
  {
    if ProxyFailed(data) then Err(ThrownByThen)
    else if testMode then Ok(WholeData(data))
    else Ok(Contents(data.contents))
  }

  function FetchRssData(url: string, testMode: bool, proxy: string -> string, get: string -> RequestOutcome): (r: Result<Payload, ErrorKind>)
    ensures var outcome := get(TargetUrl(url, testMode, proxy));
      && (outcome.Failed? ==> r == Err(Classify(outcome.error)))
      && (outcome.Responded? && ProxyFailed(outcome.data) ==> r == Err(Classify(ThrownByThen)))
      && (outcome.Responded? && !ProxyFailed(outcome.data) ==>
            r == Ok(if testMode then WholeData(outcome.data) else Contents(outcome.data.contents)))
  {
    var caught :=
      match get(TargetUrl(url, testMode, proxy))
      case Failed(e) => Err(e)
      case Responded(data) => OnResponse(data, testMode);
    match caught
    case Ok(payload) => Ok(payload)
    case Err(e) => Err(Classify(e))
  }

  /** The `networkError` thrown inside `.then` is caught by the `.catch` right
      after it, which finds no `code` and no `response` in it: a proxy that
      reports a failed origin fetch is therefore reported as `unknown`. */
  lemma ProxyFailureReportedAsUnknown(url: string, testMode: bool, proxy: string -> string, get: string -> RequestOutcome)
    requires get(TargetUrl(url, testMode, proxy)).Responded?
    requires ProxyFailed(get(TargetUrl(url, testMode, proxy)).data)
    ensures FetchRssData(url, testMode, proxy, get) == Err(Unknown)
  {
  }

  /** Only a request the client rejected can be reported as `networkError` or
      `rssError`: whatever the body of a resolved request holds, the fetch ends
      as a value or as `unknown`. */
  lemma ResolvedRequestIsNeverNetworkOrRssError(url: string, testMode: bool, proxy: string -> string, get: string -> RequestOutcome)
    requires get(TargetUrl(url, testMode, proxy)).Responded?
    ensures FetchRssData(url, testMode, proxy, get) !in {Err(NetworkError), Err(RssError)}
  {
  }
}
