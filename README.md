# RobotCam camera viewer: the connection state and the two proxies

This project models the logic of a browser dashboard that shows the four camera
streams of a Unitree G1 humanoid robot. It also models the two server-side
routes that relay requests from the browser to the robot's HTTP server.

- `CameraFeeds.dfy` (module `CameraFeeds`) holds the camera records of the
  viewer page (`app/page.tsx`). It also holds the whole-list transformations
  that the page's handlers apply. Connect phase 1 marks every camera connecting.
  Connect phase 2, the timer callback, marks every camera connected with its
  stream URL. Disconnect marks every camera disconnected and clears its URL.
  Toggle flips the matching camera. The module also holds the status badge
  colour and the "Active Cameras" count. Each transformation states what
  changes per element and what does not: ids, names, resolutions, frame rates,
  length and order.
- `CameraViewer.dfy` (module `CameraViewer`) holds the class `Viewer`. Its
  fields are the page's state: `robotIP`, `isConnected` and `cameras`. A fourth
  field, `pendingTimers`, holds the connect callbacks that have been scheduled
  but have not run yet. Each one carries the robot IP it captured. The handlers
  are methods whose `ensures` tie the new state to the functions above. The
  object invariant says the page always shows the same four cameras in the same
  order, and that every URL is empty or a stream URL for its camera. The
  `setTimeout` callback is an explicit step, `FireConnectTimer`. Like the
  source, it does not look at `isConnected`. The UI guards are methods of their
  own: the Connect/Disconnect button chooses its handler from `isConnected`,
  and the toggle button and the IP input are disabled in one state or the other.
- `StatusProxy.dfy` models `GET /api/robot` and `OPTIONS /api/robot`.
  `StreamProxy.dfy` models `GET /api/stream`. Each handler is a total function
  from the decoded query string and an abstract `fetch` outcome to an
  `Exchange`. An `Exchange` holds the upstream request, or none when the
  handler refuses with 400, and the response: its status, explicit headers and
  body.
- `Http.dfy` holds what the routes share: `URLSearchParams.get` (the first
  match), JavaScript `||` defaulting of a nullable string, `${n}` for a status
  code (decimal, with its round trip back to the number), `response.ok`, and
  the shapes of requests, outcomes and responses.
- `StreamUrls.dfy` proves that the URL the page assigns to a connected camera
  is the URL the stream proxy fetches for that robot and camera on port 8080.

Two behaviours of the page let a camera show as connected while the session is
disconnected, or show as connected without a URL. Both are stated as verified
scenarios. `LateTimerAfterDisconnect`: the 2-second callback scheduled by
`connectToRobot` (app/page.tsx:67-75) is never cancelled. A disconnect before
it fires therefore leaves the session disconnected with all four cameras
connected, each with its stream URL. `ToggleWhileConnecting`: `toggleCameraFeed`
(app/page.tsx:89-95) turns every status other than connected into connected.
So a camera that is still connecting becomes connected with an empty URL.

## Model

| member | source | states |
|---|---|---|
| `Http.Get` | app/api/robot/route.ts:5-7 | a value read for a name comes from a pair of the query with that name |
| `Http.GetFirstMatch` | app/api/robot/route.ts:5-7 | a query parameter reads as null exactly when no pair has that name; otherwise it is the value of the first pair with that name |
| `Http.OrDefault` | app/api/robot/route.ts:6-7 | the defaulting expression gives `v` when `v` is a non-empty string and `d` when it is null or empty |
| `Http.NatToString` | app/api/robot/route.ts:23 | a status renders as a non-empty digit string with no leading zero (0 renders as exactly "0") whose decimal value is the status |
| `Http.NatToStringInjective` | app/api/robot/route.ts:23 | different statuses render as different strings |
| `Http.ThrownText` | app/api/robot/route.ts:39 | the message of a thrown `Error`, or "Unknown error" for any other thrown value |
| `StatusProxy.Upstream` | app/api/robot/route.ts:14-20 | the robot request is a GET to `http://{ip}:{port}{endpoint}` with the defaulted port and endpoint, a JSON Content-Type header and a 5000 ms timeout |
| `StatusProxy.HandleGet` | app/api/robot/route.ts:3-43 | a request reaches the robot exactly when `ip` is present and non-empty, and it is then the upstream request above, answered by the outcome's reply |
| `StatusProxy.MissingIpRejected` | app/api/robot/route.ts:9-11 | a missing or empty ip gives 400 with "Robot IP is required" whatever the other parameters, and no upstream request |
| `StatusProxy.BadRequestIffNoIp` | app/api/robot/route.ts:9-11 | the response is 400 if and only if the ip is missing or empty |
| `StatusProxy.UpstreamUrlDefaults` | app/api/robot/route.ts:6-14 | with port and endpoint absent or empty, the robot URL is `http://{ip}:8080/api/status` |
| `StatusProxy.UpstreamUrlGiven` | app/api/robot/route.ts:14 | with all three given, the robot URL is `http://` + ip + `:` + port + endpoint exactly |
| `StatusProxy.NotOkReported` | app/api/robot/route.ts:22-40 | a robot status outside 200-299 gives 500 with "Failed to connect to robot: Robot responded with status: N" |
| `StatusProxy.ThrownReported` | app/api/robot/route.ts:36-41 | a thrown Error gives 500 with "Failed to connect to robot: " + its message; a thrown non-Error gives "... Unknown error" |
| `StatusProxy.ThrownDistinctFromNotOk` | app/api/robot/route.ts:22-40 | a thrown error's response equals a status failure's response only when its message is word for word "Robot responded with status: N" |
| `StatusProxy.OkRelayed` | app/api/robot/route.ts:26-34 | a 2xx reply gives 200 with the body unchanged, the robot's non-empty Content-Type or else "application/json", and the three CORS headers |
| `StatusProxy.StatusesOfGet` | app/api/robot/route.ts:9-41 | GET answers only 200, 400 or 500; 200 exactly for a 2xx robot reply to a valid query; every other answer has an error body |
| `StatusProxy.Reply` | app/api/robot/route.ts:13-42 | the reply is 200 exactly when the robot answered with a status in 200-299; then the body is the robot's and the Content-Type is followed by exactly the three CORS headers; every other outcome is a 500 with no extra headers and an error body |
| `StatusProxy.HandleOptions` | app/api/robot/route.ts:45-53 | OPTIONS answers 200 with no body and the allow-origin `*`, allow-methods `GET, POST, OPTIONS` and allow-headers `Content-Type` headers |
| `StatusProxy.OptionsMatchesGetCors` | app/api/robot/route.ts:45-53 | OPTIONS gives 200 with no body and exactly the CORS headers that a successful GET carries after its Content-Type |
| `StreamProxy.Upstream` | app/api/stream/route.ts:14-20 | the robot request is a GET to `http://{ip}:{port}/camera/{camera}/stream` with the defaulted port, Accept "multipart/x-mixed-replace, image/jpeg" and no timeout |
| `StreamProxy.Reply` | app/api/stream/route.ts:13-44 | the reply is 200 exactly when the robot answered with a status in 200-299; then the body is the robot's, unchanged, and the Content-Type is followed by exactly the cross-origin and three no-cache headers; every other outcome is a 500 with no extra headers and an error body |
| `StreamProxy.HandleGet` | app/api/stream/route.ts:3-44 | a request reaches the robot exactly when both `ip` and `camera` are present and non-empty, and it is then the upstream request above, answered by the outcome's reply |
| `StreamProxy.MissingParamsRejected` | app/api/stream/route.ts:5-11 | a missing or empty ip or camera gives 400 with "Robot IP and camera ID are required", and no upstream request |
| `StreamProxy.BadRequestIffMissing` | app/api/stream/route.ts:9-11 | the response is 400 if and only if ip or camera is missing or empty |
| `StreamProxy.StreamUrlDefaults` | app/api/stream/route.ts:6-14 | with the port absent or empty, the robot URL is `http://{ip}:8080/camera/{camera}/stream` |
| `StreamProxy.StreamUrlGiven` | app/api/stream/route.ts:14 | with a port given, the robot URL is `http://` + ip + `:` + port + `/camera/` + camera + `/stream` exactly |
| `StreamProxy.NotOkReported` | app/api/stream/route.ts:23-42 | a robot status outside 200-299 gives 500 with "Failed to proxy stream: Stream not available: N" |
| `StreamProxy.ThrownReported` | app/api/stream/route.ts:38-43 | a thrown Error gives 500 with "Failed to proxy stream: " + its message; a thrown non-Error gives "... Unknown error" |
| `StreamProxy.OkPassedThrough` | app/api/stream/route.ts:28-36 | a 2xx reply gives 200 with the same body, the robot's non-empty Content-Type or else "multipart/x-mixed-replace; boundary=frame", and the CORS and no-cache headers |
| `StreamProxy.StatusesOfGet` | app/api/stream/route.ts:9-43 | GET answers only 200, 400 or 500; 200 exactly for a 2xx robot reply to a valid query; every other answer has an error body |
| `CameraFeeds.InitialCameras` | app/page.tsx:24-57 | four cameras with ids head_front, head_left, head_right and depth, all disconnected with an empty url |
| `CameraFeeds.MapFeeds` | app/page.tsx:64 | `prev.map(f)` keeps the length and puts `f` of the i-th camera at position i |
| `CameraFeeds.AllConnecting` | app/page.tsx:61-64 | connect phase 1: every camera connecting; url, id, name, resolution and fps unchanged; length and order kept |
| `CameraFeeds.AllConnected` | app/page.tsx:67-75 | connect phase 2: every camera connected with url `http://{robotIP}:8080/camera/{id}/stream`; its description unchanged |
| `CameraFeeds.AllDisconnected` | app/page.tsx:78-87 | disconnect: every camera disconnected with an empty url; its description unchanged |
| `CameraFeeds.Flip` | app/page.tsx:92 | a connected status becomes disconnected; every other status (disconnected or connecting) becomes connected |
| `CameraFeeds.Toggled` | app/page.tsx:89-95 | a camera whose id does not match is left identical; a matching camera has its status flipped and keeps its url and description |
| `CameraFeeds.StatusColor` | app/page.tsx:97-106 | "connected" is green, "connecting" yellow, and every other string red |
| `CameraFeeds.StatusColorsDistinct` | app/page.tsx:181-182 | the three camera statuses get three different badge colours; disconnected is red |
| `CameraFeeds.ConnectedFeeds` | app/page.tsx:257 | the filtered list is no longer than the cameras and holds exactly the connected cameras: each of its members is a connected camera of the list, and each connected camera of the list is in it |
| `CameraFeeds.ActiveCount` | app/page.tsx:257 | the active count never exceeds the number of cameras |
| `CameraFeeds.ActiveCountIsConnectedPositions` | app/page.tsx:257 | the active count equals the number of positions in the list that hold a connected camera |
| `CameraFeeds.ActiveCountZero` | app/page.tsx:257 | the count is 0 if and only if no camera is connected |
| `CameraFeeds.ActiveCountFull` | app/page.tsx:257 | the count equals the list length if and only if every camera is connected |
| `CameraFeeds.ActiveCountDiffersAt` | app/page.tsx:257 | two lists whose statuses agree except at one position have counts that differ only by that position's contribution |
| `CameraFeeds.ActiveAfterConnect` | app/page.tsx:61-87 | the count is 0 after connect phase 1 and after disconnect, and is the whole list after phase 2 |
| `CameraFeeds.DisconnectIdempotent` | app/page.tsx:78-87 | disconnecting a second time changes nothing |
| `CameraFeeds.DisconnectForgetsHistory` | app/page.tsx:78-87 | two lists of the same cameras, whatever their statuses and urls, disconnect to the same list |
| `CameraFeeds.ToggleUnknownId` | app/page.tsx:89-95 | an id that no camera has leaves the list unchanged |
| `CameraFeeds.ToggleTwice` | app/page.tsx:92 | toggling twice restores every camera except a matching connecting one, which ends disconnected |
| `CameraFeeds.RestoredByToggleTwice` | app/page.tsx:92 | when no matching camera is connecting, toggling twice gives back the list |
| `CameraFeeds.ToggleChangesActiveCountByOne` | app/page.tsx:89-95 | with distinct ids, toggling a present camera lowers the count by one if it was connected and raises it by one otherwise |
| `CameraViewer.Viewer.constructor` | app/page.tsx:22-57 | robot IP "192.168.1.100", not connected, the initial camera list, no callback pending |
| `CameraViewer.Viewer.EditRobotIP` | app/page.tsx:143-146 | editing the IP, allowed only while disconnected, changes only the IP |
| `CameraViewer.Viewer.ConnectToRobot` | app/page.tsx:61-76 | sets isConnected, applies connect phase 1, and schedules one callback that captures the current IP; nothing else changes |
| `CameraViewer.Viewer.FireConnectTimer` | app/page.tsx:67-75 | runs the oldest callback: phase 2 with the IP it captured, whatever isConnected is now; isConnected and the IP unchanged |
| `CameraViewer.Viewer.DisconnectFromRobot` | app/page.tsx:78-87 | clears isConnected and returns the cameras to exactly the initial list; a pending callback stays pending |
| `CameraViewer.Viewer.ToggleCameraFeed` | app/page.tsx:89-95 | applies the toggle to the cameras and changes nothing else |
| `CameraViewer.Viewer.PressConnectButton` | app/page.tsx:150 | the button disconnects when connected and connects otherwise, so isConnected is inverted |
| `CameraViewer.Viewer.PressToggleButton` | app/page.tsx:217-218 | the tile button, enabled only while connected, toggles that camera and leaves the session connected |
| `CameraViewer.InitialIsDisconnected` | app/page.tsx:78-87 | disconnecting the initial list gives the initial list |
| `CameraViewer.DisconnectRestoresInitial` | app/page.tsx:78-87 | disconnecting any list of the page's four cameras, whatever their statuses and urls, gives exactly the initial list |
| `CameraViewer.ConnectedUrlsShaped` | app/page.tsx:72 | after connect phase 2 every url is a stream URL for that camera's own id |
| `CameraViewer.ConnectScenario` | app/page.tsx:61-76 | connecting to an IP and running the callback leaves the session connected, four active cameras, and the four direct stream URLs for that IP |
| `CameraViewer.LateTimerAfterDisconnect` | app/page.tsx:67-87 | a callback that fires after a disconnect leaves the session disconnected with an active count of four, and the four urls are, in order, the stream URLs of head_front, head_left, head_right and depth for the default IP |
| `CameraViewer.ToggleWhileConnecting` | app/page.tsx:89-95 | toggling a camera that is still connecting makes it connected with an empty url |
| `StreamUrls.PageUrlIsProxyUrl` | app/page.tsx:72 | the page's stream URL for an IP and id is the stream proxy's robot URL for that IP, port "8080" and camera |
| `StreamUrls.ProxyFetchesPageUrl` | app/api/stream/route.ts:5-14 | for a non-empty IP and id with no port given, the stream proxy fetches exactly the page's URL for that camera |
| `StreamUrls.ConnectedCamerasMatchProxy` | app/page.tsx:67-75 | after connect phase 2 with a non-empty IP, every camera's url is what the stream proxy would fetch for it |
| `StreamUrls.EmptyIpNotProxied` | app/page.tsx:72 | with an empty IP the page still builds `http://:8080/camera/{id}/stream`, while the proxy would answer 400 |

## Left out

- Rendering, styling, icons and UI components of `app/page.tsx` are presentation only. The model keeps only the three UI guards: the IP input, the Connect/Disconnect button and the per-camera toggle button.
- The real `fetch` is left out. Its result is an input `Outcome`: a status, an optional Content-Type header and a body, or a thrown value with an optional message. The body of the status route is its text. The body of the stream route is its bytes, as one value with no streaming or back-pressure.
- A failure of `response.text()` in the status route is handled by the same `catch`. The model folds it into the `Threw` outcome.
- `AbortSignal.timeout(5000)` is kept only as the `timeoutMs` field of the upstream request. Time is not modelled.
- The 2000 ms delay of the connect callback and React's batching of state updates are not modelled. The callback is the explicit step `FireConnectTimer`, and pending callbacks run oldest first.
- `console.error` logging is a side effect with no observable contract.
- The `videoRefs` handle map is declared and never used.
- The error camera status, network-mode detection, the reachability probe, the choice of a direct or proxied URL and the session error message are not present in this code.
- Parsing and percent-decoding of `request.url` are left out. A query is its decoded list of name/value pairs.
- Header names are compared exactly, not case-insensitively. The Content-Type header that `NextResponse.json` adds by itself is not among the modelled headers: an error body is marked as JSON by its `ErrorJson` shape.
- A response status is any natural number. `fetch` only produces 200-599, so the model is more general there.
