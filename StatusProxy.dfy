/** The status proxy route `GET /api/robot` and its pre-flight `OPTIONS` answer:
    it forwards one GET to `http://{ip}:{port}{endpoint}` on the robot and relays
    the reply with permissive cross-origin headers. */
module StatusProxy {
  import opened Http

  const DefaultPort := "8080"
  const DefaultEndpoint := "/api/status"
  const TimeoutMs: nat := 5000
  const MissingIpError := "Robot IP is required"
  const FailurePrefix := "Failed to connect to robot: "
  const NotOkPrefix := "Robot responded with status: "
  const FallbackContentType := "application/json"

  const CorsHeaders: Pairs := [
    ("Access-Control-Allow-Origin", "*"),
    ("Access-Control-Allow-Methods", "GET, POST, OPTIONS"),
    ("Access-Control-Allow-Headers", "Content-Type")
  ]

  /** The robot URL the handler fetches. */
  function UpstreamUrl(ip: string, port: string, endpoint: string): string {
    "http://" + ip + ":" + port + endpoint
  }

  /** The request handed to `fetch` for the given query, which must carry an ip. */
  function Upstream(q: Pairs): (r: UpstreamRequest)
    requires Truthy(Get(q, "ip"))
    ensures r.url == UpstreamUrl(Get(q, "ip").value,
                                 OrDefault(Get(q, "port"), DefaultPort),
                                 OrDefault(Get(q, "endpoint"), DefaultEndpoint))
    ensures r.verb == "GET" && r.timeoutMs == Some(TimeoutMs)
    ensures Get(r.headers, "Content-Type") == Some("application/json")
  {
    var ip := Get(q, "ip").value;
    var port := OrDefault(Get(q, "port"), DefaultPort);
    var endpoint := OrDefault(Get(q, "endpoint"), DefaultEndpoint);
    UpstreamRequest(UpstreamUrl(ip, port, endpoint), "GET",
                    [("Content-Type", "application/json")], Some(TimeoutMs))
  }

  /** The reply built from the robot's answer (the `try`/`catch` part of the handler). */
  function Reply(o: Outcome<string>): (r: Response<string>)
    ensures r.status == 200 <==> o.Responded? && IsOk(o.status)
    ensures r.status != 200 ==> r.status == 500 && r.headers == [] && r.body.ErrorJson?
    ensures r.status == 200 ==> r.body == Data(o.body) && |r.headers| == |CorsHeaders| + 1 && r.headers[1..] == CorsHeaders
  {
    match o
    case Responded(status, contentType, body) =>
      if !IsOk(status) then
        // the handler throws its own Error, which its catch turns into a 500
        Response(500, [], ErrorJson(FailurePrefix + ThrownText(Some(NotOkPrefix + NatToString(status)))))
      else
        Response(200, [("Content-Type", OrDefault(contentType, FallbackContentType))] + CorsHeaders,
                 Data(body))
    case Threw(message) =>
      Response(500, [], ErrorJson(FailurePrefix + ThrownText(message)))
  }

  /** `GET`: validation, then the upstream request and the reply to its outcome.
      `o` is what `fetch` would produce; it is ignored when no request is made. */
  function HandleGet(q: Pairs, o: Outcome<string>): (x: Exchange<string>)
    ensures x.request.None? <==> !Truthy(Get(q, "ip"))
    ensures x.request.Some? ==> x.request.value == Upstream(q) && x.response == Reply(o)
  {
    if !Truthy(Get(q, "ip")) then
      Exchange(None, Response(400, [], ErrorJson(MissingIpError)))
    else
      Exchange(Some(Upstream(q)), Reply(o))
  }

  /** `OPTIONS`: the pre-flight answer. */
  function HandleOptions(): (r: Response<string>)
    ensures r.status == 200 && r.body == Empty
    ensures Get(r.headers, "Access-Control-Allow-Origin") == Some("*")
    ensures Get(r.headers, "Access-Control-Allow-Methods") == Some("GET, POST, OPTIONS")
    ensures Get(r.headers, "Access-Control-Allow-Headers") == Some("Content-Type")
  {
    Response(200, CorsHeaders, Empty)
  }

  // ---- properties ----

  /** A missing or empty ip is refused with 400 whatever the other parameters,
      and no request reaches the robot. */
  lemma MissingIpRejected(q: Pairs, o: Outcome<string>)
    requires !Truthy(Get(q, "ip"))
    ensures HandleGet(q, o) == Exchange(None, Response(400, [], ErrorJson("Robot IP is required")))
  {
  }

  /** The response status is 400 exactly when the ip is missing or empty. */
  lemma BadRequestIffNoIp(q: Pairs, o: Outcome<string>)
    ensures HandleGet(q, o).response.status == 400 <==> !Truthy(Get(q, "ip"))
  {
  }

  /** Port and endpoint default to "8080" and "/api/status" when absent or empty. */
  lemma UpstreamUrlDefaults(ip: string, q: Pairs, o: Outcome<string>)
    requires ip != "" && Get(q, "ip") == Some(ip)
    requires !Truthy(Get(q, "port")) && !Truthy(Get(q, "endpoint"))
    ensures HandleGet(q, o).request.Some?
    ensures HandleGet(q, o).request.value.url == UpstreamUrl(ip, "8080", "/api/status")
  {
  }

  /** Given port and endpoint are used as they are: the URL is `http://{ip}:{port}{endpoint}`. */
  lemma UpstreamUrlGiven(ip: string, port: string, endpoint: string, q: Pairs, o: Outcome<string>)
    requires ip != "" && port != "" && endpoint != ""
    requires Get(q, "ip") == Some(ip) && Get(q, "port") == Some(port) && Get(q, "endpoint") == Some(endpoint)
    ensures HandleGet(q, o).request.Some?
    ensures HandleGet(q, o).request.value.url == "http://" + ip + ":" + port + endpoint
  {
  }

  /** A robot status outside 200-299 becomes a 500 whose error ends with that status
      written in decimal (see `NatToString`). */
  lemma NotOkReported(q: Pairs, status: nat, ct: Option<string>, body: string)
    requires Truthy(Get(q, "ip")) && !IsOk(status)
    ensures HandleGet(q, Responded(status, ct, body)).response ==
            Response(500, [], ErrorJson(FailurePrefix + (NotOkPrefix + NatToString(status))))
  {
  }

  /** A value thrown by `fetch` becomes a 500 carrying its message, or "Unknown error"
      when it is not an `Error`. */
  lemma ThrownReported(q: Pairs, message: Option<string>)
    requires Truthy(Get(q, "ip"))
    ensures message.Some? ==>
              HandleGet(q, Threw(message)).response ==
              Response(500, [], ErrorJson(FailurePrefix + message.value))
    ensures message.None? ==>
              HandleGet(q, Threw(message)).response ==
              Response(500, [], ErrorJson(FailurePrefix + "Unknown error"))
  {
  }

  /** A thrown error (a timeout, say) is told apart from an HTTP-status failure,
      unless its own message is word for word the status message. */
  lemma ThrownDistinctFromNotOk(q: Pairs, message: Option<string>, status: nat, ct: Option<string>, body: string)
    requires Truthy(Get(q, "ip")) && !IsOk(status)
    requires HandleGet(q, Threw(message)).response == HandleGet(q, Responded(status, ct, body)).response
    ensures message == Some(NotOkPrefix + NatToString(status))
  {
    var a := FailurePrefix + ThrownText(message);
    var b := FailurePrefix + NotOkPrefix + NatToString(status);
    assert a == b;
    assert a[|FailurePrefix|..] == ThrownText(message);
    assert b[|FailurePrefix|..] == NotOkPrefix + NatToString(status);
  }

  /** A robot reply in 200-299 is relayed as 200 with its body unchanged, its own
      Content-Type when it has a non-empty one (JSON otherwise), and the CORS headers. */
  lemma OkRelayed(q: Pairs, status: nat, ct: Option<string>, body: string)
    requires Truthy(Get(q, "ip")) && IsOk(status)
    ensures var r := HandleGet(q, Responded(status, ct, body)).response;
            r.status == 200 && r.body == Data(body) &&
            Get(r.headers, "Content-Type") == Some(if Truthy(ct) then ct.value else "application/json") &&
            Get(r.headers, "Access-Control-Allow-Origin") == Some("*") &&
            Get(r.headers, "Access-Control-Allow-Methods") == Some("GET, POST, OPTIONS") &&
            Get(r.headers, "Access-Control-Allow-Headers") == Some("Content-Type")
  {
  }

  /** Only the 400 and the 200 success carry different statuses; every failure after
      validation is a 500 with an error body. */
  lemma StatusesOfGet(q: Pairs, o: Outcome<string>)
    ensures HandleGet(q, o).response.status in {200, 400, 500}
    ensures HandleGet(q, o).response.status == 200 <==> Truthy(Get(q, "ip")) && o.Responded? && IsOk(o.status)
    ensures HandleGet(q, o).response.status != 200 ==> HandleGet(q, o).response.body.ErrorJson?
  {
  }

  /** The pre-flight answer is 200 with no body and exactly the CORS headers of a
      successful GET, which are the success headers after its Content-Type. */
  lemma OptionsMatchesGetCors(q: Pairs, status: nat, ct: Option<string>, body: string)
    requires Truthy(Get(q, "ip")) && IsOk(status)
    ensures HandleOptions().status == 200 && HandleOptions().body == Empty
    ensures HandleOptions().headers == HandleGet(q, Responded(status, ct, body)).response.headers[1..]
  {
  }
}
