/** The stream proxy route `GET /api/stream`: it opens
    `http://{ip}:{port}/camera/{camera}/stream` on the robot and relays the
    response body, unbuffered and unchanged, with no-cache headers. */
module StreamProxy {
  import opened Http

  /** The robot's stream body, as the bytes it carries. */
  type Bytes = seq<bv8>

  const DefaultPort := "8080"
  const MissingParamsError := "Robot IP and camera ID are required"
  const FailurePrefix := "Failed to proxy stream: "
  const NotOkPrefix := "Stream not available: "
  const AcceptTypes := "multipart/x-mixed-replace, image/jpeg"
  const FallbackContentType := "multipart/x-mixed-replace; boundary=frame"

  const StreamHeaders: Pairs := [
    ("Access-Control-Allow-Origin", "*"),
    ("Cache-Control", "no-cache, no-store, must-revalidate"),
    ("Pragma", "no-cache"),
    ("Expires", "0")
  ]

  /** The per-camera stream URL on the robot. */
  function StreamUrl(ip: string, port: string, camera: string): string {
    "http://" + ip + ":" + port + "/camera/" + camera + "/stream"
  }

  /** Both required parameters are present and non-empty. */
  predicate HasRequired(q: Pairs) {
    Truthy(Get(q, "ip")) && Truthy(Get(q, "camera"))
  }

  /** The request handed to `fetch`: no timeout, asking for MJPEG or JPEG. */
  function Upstream(q: Pairs): (r: UpstreamRequest)
    requires HasRequired(q)
    ensures r.url == StreamUrl(Get(q, "ip").value, OrDefault(Get(q, "port"), DefaultPort),
                               Get(q, "camera").value)
    ensures r.verb == "GET" && r.timeoutMs.None?
    ensures Get(r.headers, "Accept") == Some("multipart/x-mixed-replace, image/jpeg")
  {
    var ip := Get(q, "ip").value;
    var port := OrDefault(Get(q, "port"), DefaultPort);
    var camera := Get(q, "camera").value;
    UpstreamRequest(StreamUrl(ip, port, camera), "GET", [("Accept", AcceptTypes)], None)
  }

  /** The reply built from the robot's answer (the `try`/`catch` part of the handler). */
  function Reply(o: Outcome<Bytes>): (r: Response<Bytes>)
    ensures r.status == 200 <==> o.Responded? && IsOk(o.status)
    ensures r.status != 200 ==> r.status == 500 && r.headers == [] && r.body.ErrorJson?
    ensures r.status == 200 ==> r.body == Data(o.body) && |r.headers| == |StreamHeaders| + 1 && r.headers[1..] == StreamHeaders
  {
    match o
    case Responded(status, contentType, body) =>
      if !IsOk(status) then
        Response(500, [], ErrorJson(FailurePrefix + ThrownText(Some(NotOkPrefix + NatToString(status)))))
      else
        Response(200, [("Content-Type", OrDefault(contentType, FallbackContentType))] + StreamHeaders,
                 Data(body))
    case Threw(message) =>
      Response(500, [], ErrorJson(FailurePrefix + ThrownText(message)))
  }

  /** `GET`: validation, then the upstream request and the reply to its outcome.
      `o` is what `fetch` would produce; it is ignored when no request is made. */
  function HandleGet(q: Pairs, o: Outcome<Bytes>): (x: Exchange<Bytes>)
    ensures x.request.None? <==> !HasRequired(q)
    ensures x.request.Some? ==> x.request.value == Upstream(q) && x.response == Reply(o)
  {
    if !HasRequired(q) then
      Exchange(None, Response(400, [], ErrorJson(MissingParamsError)))
    else
      Exchange(Some(Upstream(q)), Reply(o))
  }

  // ---- properties ----

  /** A missing or empty ip or camera is refused with 400, and no request reaches the robot. */
  lemma MissingParamsRejected(q: Pairs, o: Outcome<Bytes>)
    requires !Truthy(Get(q, "ip")) || !Truthy(Get(q, "camera"))
    ensures HandleGet(q, o) == Exchange(None, Response(400, [], ErrorJson("Robot IP and camera ID are required")))
  {
  }

  /** The response status is 400 exactly when ip or camera is missing or empty. */
  lemma BadRequestIffMissing(q: Pairs, o: Outcome<Bytes>)
    ensures HandleGet(q, o).response.status == 400 <==> !Truthy(Get(q, "ip")) || !Truthy(Get(q, "camera"))
  {
  }

  /** The port defaults to "8080" when absent or empty. */
  lemma StreamUrlDefaults(ip: string, camera: string, q: Pairs, o: Outcome<Bytes>)
    requires ip != "" && camera != ""
    requires Get(q, "ip") == Some(ip) && Get(q, "camera") == Some(camera) && !Truthy(Get(q, "port"))
    ensures HandleGet(q, o).request.Some?
    ensures HandleGet(q, o).request.value.url == StreamUrl(ip, "8080", camera)
  {
  }

  /** A given port is used as it is: the URL is `http://{ip}:{port}/camera/{camera}/stream`. */
  lemma StreamUrlGiven(ip: string, port: string, camera: string, q: Pairs, o: Outcome<Bytes>)
    requires ip != "" && port != "" && camera != ""
    requires Get(q, "ip") == Some(ip) && Get(q, "port") == Some(port) && Get(q, "camera") == Some(camera)
    ensures HandleGet(q, o).request.Some?
    ensures HandleGet(q, o).request.value.url == "http://" + ip + ":" + port + "/camera/" + camera + "/stream"
  {
  }

  /** A robot status outside 200-299 becomes a 500 whose error ends with that status
      written in decimal (see `NatToString`). */
  lemma NotOkReported(q: Pairs, status: nat, ct: Option<string>, body: Bytes)
    requires HasRequired(q) && !IsOk(status)
    ensures HandleGet(q, Responded(status, ct, body)).response ==
            Response(500, [], ErrorJson(FailurePrefix + (NotOkPrefix + NatToString(status))))
  {
  }

  /** A value thrown by `fetch` becomes a 500 carrying its message, or "Unknown error"
      when it is not an `Error`. */
  lemma ThrownReported(q: Pairs, message: Option<string>)
    requires HasRequired(q)
    ensures message.Some? ==>
              HandleGet(q, Threw(message)).response ==
              Response(500, [], ErrorJson(FailurePrefix + message.value))
    ensures message.None? ==>
              HandleGet(q, Threw(message)).response ==
              Response(500, [], ErrorJson(FailurePrefix + "Unknown error"))
  {
  }

  /** A robot reply in 200-299 is relayed as 200 with the very same body, its own
      Content-Type when it has a non-empty one (the MJPEG boundary type otherwise),
      and the cross-origin and no-cache headers. Since the body is the robot's own,
      two successful replies relay equal bodies exactly when the robot sent equal ones. */
  lemma OkPassedThrough(q: Pairs, status: nat, ct: Option<string>, body: Bytes)
    requires HasRequired(q) && IsOk(status)
    ensures var r := HandleGet(q, Responded(status, ct, body)).response;
            r.status == 200 && r.body == Data(body) &&
            Get(r.headers, "Content-Type") ==
              Some(if Truthy(ct) then ct.value else "multipart/x-mixed-replace; boundary=frame") &&
            Get(r.headers, "Access-Control-Allow-Origin") == Some("*") &&
            Get(r.headers, "Cache-Control") == Some("no-cache, no-store, must-revalidate") &&
            Get(r.headers, "Pragma") == Some("no-cache") &&
            Get(r.headers, "Expires") == Some("0")
  {
  }

  lemma StatusesOfGet(q: Pairs, o: Outcome<Bytes>)
    ensures HandleGet(q, o).response.status in {200, 400, 500}
    ensures HandleGet(q, o).response.status == 200 <==> HasRequired(q) && o.Responded? && IsOk(o.status)
    ensures HandleGet(q, o).response.status != 200 ==> HandleGet(q, o).response.body.ErrorJson?
  {
  }
}
