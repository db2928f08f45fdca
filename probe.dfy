/**
 * The probe of `executeQuery`: the curl options chosen for a resolved
 * parameter set, and the classification of what curl reports back.
 */
module Probe {
  import opened Basics
  import opened Parameters

  /** The options `executeQuery` sets on its curl handle before `curl_exec`. */
  datatype Request = Request(
    url: string,
    customRequest: string,
    postFields: Option<string>,
    httpHeader: seq<string>,
    connectTimeoutMs: int,
    timeoutMs: int,
    freshConnect: bool,
    forbidReuse: bool,
    followLocation: bool,
    maxRedirs: int,
    failOnError: bool,
    returnTransfer: bool)

  /**
   * The request for `p` against the site `homeURL`: the target is the home URL
   * followed by the query, the body is attached only to a `POST` with
   * non-empty data, and both timeouts are the declared timeout.
   */
  function BuildRequest(homeURL: string, p: Params): (q: Request)
    ensures q.url == homeURL + p.query
    ensures q.postFields.Some? <==> p.httpMethod == "POST" && p.data != ""
    ensures q.postFields.Some? ==> q.postFields.value == p.data
    ensures q.connectTimeoutMs == q.timeoutMs == p.timeout
    ensures q.customRequest == p.httpMethod && q.httpHeader == p.headers
    ensures q.freshConnect && q.forbidReuse && !q.followLocation && q.maxRedirs == 0 && !q.failOnError
  {
    Request(
      url := homeURL + p.query,
      customRequest := p.httpMethod,
      postFields := if p.httpMethod == "POST" && p.data != "" then Some(p.data) else None,
      httpHeader := p.headers,
      connectTimeoutMs := p.timeout,
      timeoutMs := p.timeout,
      freshConnect := true,
      forbidReuse := true,
      followLocation := false,
      maxRedirs := 0,
      failOnError := false,
      returnTransfer := true)
  }

  /**
   * What curl reports after `curl_exec`: whether it returned `false`, the
   * error number and text, and the HTTP response code.
   */
  datatype CurlOutcome = CurlOutcome(execFailed: bool, errno: int, errorText: string, responseCode: int)

  /** `CURLE_OPERATION_TIMEDOUT` and its older alias `CURLE_OPERATION_TIMEOUTED`. */
  const CurleOperationTimedout: int := 28
  const CurleOperationTimeouted: int := 28

  /** `CURLE_COULDNT_CONNECT`, the error of a refused connection. */
  const CurleCouldntConnect: int := 7

  predicate TransportFailed(o: CurlOutcome) {
    o.execFailed || o.errno != 0
  }

  /** The result array: `pass`, `timeout`, and either `http_status` or `error_msg`. */
  datatype TestResult = TestResult(pass: bool, timeout: bool, httpStatus: Option<int>, errorMsg: Option<string>)

  /**
   * The classification of `executeQuery`. A transport error never passes,
   * carries the error text and no status, and is a timeout exactly when curl
   * says so; otherwise the status is reported and passes exactly when it is
   * one of the expected codes.
   */
  function Classify(o: CurlOutcome, expected: seq<int>): (r: TestResult)
    ensures TransportFailed(o) ==>
      && !r.pass && r.httpStatus == None && r.errorMsg == Some(o.errorText)
      && (r.timeout <==> o.errno == CurleOperationTimedout)
    ensures !TransportFailed(o) ==>
      && !r.timeout && r.errorMsg == None && r.httpStatus == Some(o.responseCode)
      && (r.pass <==> o.responseCode in expected)
  {
    if TransportFailed(o) then
      if o.errno in [CurleOperationTimedout, CurleOperationTimeouted] then
        TestResult(pass := false, timeout := true, httpStatus := None, errorMsg := Some(o.errorText))
      else
        TestResult(pass := false, timeout := false, httpStatus := None, errorMsg := Some(o.errorText))
    else if o.responseCode in expected then
      TestResult(pass := true, timeout := false, httpStatus := Some(o.responseCode), errorMsg := None)
    else
      TestResult(pass := false, timeout := false, httpStatus := Some(o.responseCode), errorMsg := None)
  }

  /** The four outcomes a probe can have. */
  datatype Outcome = Pass | FailStatus | FailTimeout | FailTransportError

  /** Which outcome a result array reports. */
  function OutcomeOf(r: TestResult): Outcome {
    if r.pass then Pass
    else if r.timeout then FailTimeout
    else if r.httpStatus.Some? then FailStatus
    else FailTransportError
  }

  /**
   * The classification agrees with the outcome decided directly from what curl
   * reports, and a passing result always carries an expected status.
   */
  lemma ClassifyOutcome(o: CurlOutcome, expected: seq<int>)
    ensures var r := Classify(o, expected);
      && OutcomeOf(r) == (
        if TransportFailed(o) then (if o.errno == CurleOperationTimedout then FailTimeout else FailTransportError)
        else if o.responseCode in expected then Pass
        else FailStatus)
      && (r.pass ==> r.httpStatus.Some? && r.httpStatus.value in expected)
      && (r.httpStatus.Some? <==> r.errorMsg.None?)
  {
  }

  /** A blocked request (403) passes with the default expected codes. */
  lemma BlockedRequestPasses(errorText: string)
    ensures Classify(CurlOutcome(false, 0, errorText, 403), Defaults.expected)
         == TestResult(true, false, Some(403), None)
  {
  }

  /** A request the site served normally (200) fails on its status. */
  lemma ServedRequestFails(errorText: string)
    ensures OutcomeOf(Classify(CurlOutcome(false, 0, errorText, 200), Defaults.expected)) == FailStatus
    ensures Classify(CurlOutcome(false, 0, errorText, 200), Defaults.expected).httpStatus == Some(200)
  {
  }

  /** A timeout fails with the error text and no status. */
  lemma TimeoutFails(errorText: string, code: int)
    ensures var r := Classify(CurlOutcome(true, CurleOperationTimedout, errorText, code), Defaults.expected);
      OutcomeOf(r) == FailTimeout && r.httpStatus == None && r.errorMsg == Some(errorText)
  {
  }

  /** A refused connection is a transport error, not a timeout. */
  lemma RefusedConnectionFails(errorText: string, code: int)
    ensures var r := Classify(CurlOutcome(true, CurleCouldntConnect, errorText, code), Defaults.expected);
      OutcomeOf(r) == FailTransportError && r.httpStatus == None && !r.timeout
  {
  }
}
