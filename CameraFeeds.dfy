/** The camera records of the viewer page and the whole-list transformations
    its handlers apply (`prev.map(...)`), the status badge colour and the
    active-camera count. */
module CameraFeeds {

  datatype Status = Connected | Disconnected | Connecting

  datatype CameraFeed = CameraFeed(
    id: string,
    name: string,
    url: string,
    status: Status,
    resolution: string,
    fps: nat)

  /** The string the page shows and compares for a status. */
  function StatusName(s: Status): string {
    match s
    case Connected => "connected"
    case Disconnected => "disconnected"
    case Connecting => "connecting"
  }

  /** The fixed list the page starts with. */
  function InitialCameras(): (r: seq<CameraFeed>)
    ensures |r| == 4
    ensures Ids(r) == ["head_front", "head_left", "head_right", "depth"]
    ensures forall i :: 0 <= i < |r| ==> r[i].status == Disconnected && r[i].url == ""
  {
    [ CameraFeed("head_front", "Head Front Camera", "", Disconnected, "1920x1080", 30),
      CameraFeed("head_left", "Head Left Camera", "", Disconnected, "1920x1080", 30),
      CameraFeed("head_right", "Head Right Camera", "", Disconnected, "1920x1080", 30),
      CameraFeed("depth", "Depth Camera", "", Disconnected, "640x480", 15) ]
  }

  function Ids(cams: seq<CameraFeed>): (r: seq<string>)
    ensures |r| == |cams|
    ensures forall i :: 0 <= i < |cams| ==> r[i] == cams[i].id
  {
    if cams == [] then [] else [cams[0].id] + Ids(cams[1..])
  }

  /** Two records describe the same camera: only url and status may differ. */
  predicate SameCamera(a: CameraFeed, b: CameraFeed) {
    a.id == b.id && a.name == b.name && a.resolution == b.resolution && a.fps == b.fps
  }

  /** Two lists describe the same cameras in the same order. */
  predicate SameCameras(xs: seq<CameraFeed>, ys: seq<CameraFeed>) {
    |xs| == |ys| && forall i :: 0 <= i < |xs| ==> SameCamera(xs[i], ys[i])
  }

  /** `prev.map(f)`. */
  function MapFeeds(f: CameraFeed -> CameraFeed, cams: seq<CameraFeed>): (r: seq<CameraFeed>)
    ensures |r| == |cams|
    ensures forall i :: 0 <= i < |cams| ==> r[i] == f(cams[i])
  {
    if cams == [] then [] else [f(cams[0])] + MapFeeds(f, cams[1..])
  }

  /** The stream URL the page assigns to a camera once connected. */
  function StreamUrl(robotIP: string, id: string): string {
    "http://" + robotIP + ":8080/camera/" + id + "/stream"
  }

  /** Connect, first phase: every camera is marked connecting; nothing else changes. */
  function AllConnecting(cams: seq<CameraFeed>): (r: seq<CameraFeed>)
    ensures SameCameras(r, cams)
    ensures forall i :: 0 <= i < |r| ==> r[i].status == Connecting && r[i].url == cams[i].url
  {
    MapFeeds((c: CameraFeed) => c.(status := Connecting), cams)
  }

  /** Connect, second phase (the timer callback): every camera is connected and
      gets the stream URL built from the robot IP and its own id. */
  function AllConnected(cams: seq<CameraFeed>, robotIP: string): (r: seq<CameraFeed>)
    ensures SameCameras(r, cams)
    ensures forall i :: 0 <= i < |r| ==> r[i].status == Connected && r[i].url == StreamUrl(robotIP, cams[i].id)
  {
    MapFeeds((c: CameraFeed) => c.(status := Connected, url := StreamUrl(robotIP, c.id)), cams)
  }

  /** Disconnect: every camera is disconnected and loses its URL. */
  function AllDisconnected(cams: seq<CameraFeed>): (r: seq<CameraFeed>)
    ensures SameCameras(r, cams)
    ensures forall i :: 0 <= i < |r| ==> r[i].status == Disconnected && r[i].url == ""
  {
    MapFeeds((c: CameraFeed) => c.(status := Disconnected, url := ""), cams)
  }

  /** The toggle rule: connected becomes disconnected, anything else connected. */
  function Flip(s: Status): (r: Status)
    ensures s == Connected ==> r == Disconnected
    ensures s != Connected ==> r == Connected
  {
    if s == Connected then Disconnected else Connected
  }

  /** Toggle: the cameras whose id matches have their status flipped; every
      other camera, and every url and description, is left as it was. */
  function Toggled(cams: seq<CameraFeed>, id: string): (r: seq<CameraFeed>)
    ensures SameCameras(r, cams)
    ensures forall i :: 0 <= i < |r| ==> r[i].url == cams[i].url
    ensures forall i :: 0 <= i < |r| && cams[i].id != id ==> r[i] == cams[i]
    ensures forall i :: 0 <= i < |r| && cams[i].id == id ==> r[i].status == Flip(cams[i].status)
  {
    MapFeeds((c: CameraFeed) => ToggledFeed(c, id), cams)
  }

  /** The toggle rule applied to one record. */
  function ToggledFeed(c: CameraFeed, id: string): CameraFeed {
    if c.id == id then c.(status := Flip(c.status)) else c
  }

  /** `getStatusColor`: the badge colour for a status string. */
  function StatusColor(status: string): (r: string)
    ensures status == "connected" ==> r == "bg-green-500"
    ensures status == "connecting" ==> r == "bg-yellow-500"
    ensures status != "connected" && status != "connecting" ==> r == "bg-red-500"
  {
    match status
    case "connected" => "bg-green-500"
    case "connecting" => "bg-yellow-500"
    case _ => "bg-red-500"
  }

  /** The cameras whose status is connected, in their original order. */
  function ConnectedFeeds(cams: seq<CameraFeed>): (r: seq<CameraFeed>)
    ensures |r| <= |cams|
    ensures forall c :: c in r ==> c in cams && c.status == Connected
    ensures forall i :: 0 <= i < |cams| && cams[i].status == Connected ==> cams[i] in r
  {
    if cams == [] then []
    else
      var init := cams[..|cams| - 1];
      var rest := ConnectedFeeds(init);
      assert forall i :: 0 <= i < |init| ==> init[i] == cams[i];
      if cams[|cams| - 1].status == Connected then rest + [cams[|cams| - 1]] else rest
  }

  /** The "Active Cameras" figure: the length of the filtered list. */
  function ActiveCount(cams: seq<CameraFeed>): (n: nat)
    ensures n <= |cams|
  {
    |ConnectedFeeds(cams)|
  }

  /** The positions of the connected cameras: an independent definition of what is counted. */
  ghost function ConnectedPositions(cams: seq<CameraFeed>): set<nat> {
    set i: nat | i < |cams| && cams[i].status == Connected
  }

  // ---- properties ----

  /** The active count is the number of positions holding a connected camera. */
  lemma {:induction false} ActiveCountIsConnectedPositions(cams: seq<CameraFeed>)
    ensures ActiveCount(cams) == |ConnectedPositions(cams)|
  {
    if cams != [] {
      var init := cams[..|cams| - 1];
      ActiveCountIsConnectedPositions(init);
      var last := |cams| - 1;
      assert cams == init + [cams[last]];
      ActiveCountSnoc(init, cams[last]);
      assert forall i: nat :: i < last ==> cams[i] == init[i];
      if cams[last].status == Connected {
        assert ConnectedPositions(cams) == ConnectedPositions(init) + {last};
      } else {
        assert ConnectedPositions(cams) == ConnectedPositions(init);
      }
    }
  }

  /** Appending one camera adds one to the count exactly when that camera is connected. */
  lemma ActiveCountSnoc(init: seq<CameraFeed>, c: CameraFeed)
    ensures ActiveCount(init + [c]) == ActiveCount(init) + (if c.status == Connected then 1 else 0)
  {
    assert (init + [c])[..|init|] == init;
  }

  /** The count is zero exactly when no camera is connected. */
  lemma {:induction false} ActiveCountZero(cams: seq<CameraFeed>)
    ensures ActiveCount(cams) == 0 <==> forall i :: 0 <= i < |cams| ==> cams[i].status != Connected
  {
    if cams != [] {
      var n := |cams| - 1;
      assert cams == cams[..n] + [cams[n]];
      ActiveCountZero(cams[..n]);
      ActiveCountSnoc(cams[..n], cams[n]);
      assert forall i :: 0 <= i < n ==> cams[..n][i] == cams[i];
    }
  }

  /** The count is the whole list exactly when every camera is connected. */
  lemma {:induction false} ActiveCountFull(cams: seq<CameraFeed>)
    ensures ActiveCount(cams) == |cams| <==> forall i :: 0 <= i < |cams| ==> cams[i].status == Connected
  {
    if cams != [] {
      var n := |cams| - 1;
      assert cams == cams[..n] + [cams[n]];
      ActiveCountFull(cams[..n]);
      ActiveCountSnoc(cams[..n], cams[n]);
      assert forall i :: 0 <= i < n ==> cams[..n][i] == cams[i];
    }
  }

  lemma ActiveAfterConnect(cams: seq<CameraFeed>, robotIP: string)
    ensures ActiveCount(AllConnecting(cams)) == 0
    ensures ActiveCount(AllConnected(cams, robotIP)) == |cams|
    ensures ActiveCount(AllDisconnected(cams)) == 0
  {
    ActiveCountZero(AllConnecting(cams));
    ActiveCountFull(AllConnected(cams, robotIP));
    ActiveCountZero(AllDisconnected(cams));
  }

  /** Disconnecting twice is disconnecting once. */
  lemma DisconnectIdempotent(cams: seq<CameraFeed>)
    ensures AllDisconnected(AllDisconnected(cams)) == AllDisconnected(cams)
  {
  }

  /** Whatever the cameras went through, disconnecting leaves the same list:
      it depends only on which cameras there are. */
  lemma DisconnectForgetsHistory(xs: seq<CameraFeed>, ys: seq<CameraFeed>)
    requires SameCameras(xs, ys)
    ensures AllDisconnected(xs) == AllDisconnected(ys)
  {
  }

  /** An id no camera has leaves the list unchanged. */
  lemma ToggleUnknownId(cams: seq<CameraFeed>, id: string)
    requires id !in Ids(cams)
    ensures Toggled(cams, id) == cams
  {
    forall i | 0 <= i < |cams| ensures cams[i].id != id {
      assert Ids(cams)[i] == cams[i].id;
    }
  }

  /** Toggling twice restores every camera that was connected or disconnected;
      a camera that was connecting ends disconnected. */
  lemma ToggleTwice(cams: seq<CameraFeed>, id: string)
    ensures var r := Toggled(Toggled(cams, id), id);
            forall i :: 0 <= i < |cams| ==>
              if cams[i].id == id && cams[i].status == Connecting
              then r[i] == cams[i].(status := Disconnected)
              else r[i] == cams[i]
  {
  }

  lemma RestoredByToggleTwice(cams: seq<CameraFeed>, id: string)
    requires forall i :: 0 <= i < |cams| && cams[i].id == id ==> cams[i].status != Connecting
    ensures Toggled(Toggled(cams, id), id) == cams
  {
    ToggleTwice(cams, id);
  }

  /** Two lists whose statuses agree except at position k have counts that differ
      only by what position k contributes. */
  lemma {:induction false} ActiveCountDiffersAt(xs: seq<CameraFeed>, ys: seq<CameraFeed>, k: nat)
    requires |xs| == |ys| && k < |xs|
    requires forall i :: 0 <= i < |xs| && i != k ==> xs[i].status == ys[i].status
    ensures ActiveCount(xs) + (if ys[k].status == Connected then 1 else 0) ==
            ActiveCount(ys) + (if xs[k].status == Connected then 1 else 0)
  {
    var n := |xs| - 1;
    assert xs == xs[..n] + [xs[n]] && ys == ys[..n] + [ys[n]];
    ActiveCountSnoc(xs[..n], xs[n]);
    ActiveCountSnoc(ys[..n], ys[n]);
    if k == n {
      ActiveCountSameStatuses(xs[..n], ys[..n]);
    } else {
      ActiveCountDiffersAt(xs[..n], ys[..n], k);
    }
  }

  lemma {:induction false} ActiveCountSameStatuses(xs: seq<CameraFeed>, ys: seq<CameraFeed>)
    requires |xs| == |ys|
    requires forall i :: 0 <= i < |xs| ==> xs[i].status == ys[i].status
    ensures ActiveCount(xs) == ActiveCount(ys)
  {
    if xs != [] {
      var n := |xs| - 1;
      assert xs == xs[..n] + [xs[n]] && ys == ys[..n] + [ys[n]];
      ActiveCountSnoc(xs[..n], xs[n]);
      ActiveCountSnoc(ys[..n], ys[n]);
      ActiveCountSameStatuses(xs[..n], ys[..n]);
    }
  }

  /** With distinct ids, toggling a present camera changes the active count by exactly one. */
  lemma ToggleChangesActiveCountByOne(cams: seq<CameraFeed>, k: nat)
    requires k < |cams|
    requires forall i, j :: 0 <= i < j < |cams| ==> cams[i].id != cams[j].id
    ensures cams[k].status == Connected ==> ActiveCount(Toggled(cams, cams[k].id)) + 1 == ActiveCount(cams)
    ensures cams[k].status != Connected ==> ActiveCount(Toggled(cams, cams[k].id)) == ActiveCount(cams) + 1
  {
    var r := Toggled(cams, cams[k].id);
    forall i | 0 <= i < |cams| && i != k ensures cams[i].status == r[i].status {
      assert cams[i].id != cams[k].id by {
        if i < k { assert cams[i].id != cams[k].id; } else { assert cams[k].id != cams[i].id; }
      }
    }
    ActiveCountDiffersAt(cams, r, k);
  }

  /** The three statuses get three different badge colours, as the page shows them. */
  lemma StatusColorsDistinct(s: Status, t: Status)
    ensures StatusColor(StatusName(s)) == StatusColor(StatusName(t)) <==> s == t
    ensures StatusColor(StatusName(Disconnected)) == "bg-red-500"
  {
  }
}
