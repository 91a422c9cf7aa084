/** The state of the camera viewer page and the handlers that change it.
    React's `useState` pairs become fields; each `setX(prev => …)` becomes an
    assignment of the new value. The `setTimeout` callback scheduled by
    connecting is not run after a delay: each scheduled callback is kept, with
    the robot IP it captured, in `pendingTimers` (in the order they were
    scheduled, which is the order equal delays fire in), and
    `FireConnectTimer` runs the oldest one. */
module CameraViewer {
  import opened CameraFeeds

  const DefaultRobotIP := "192.168.1.100"

  /** A camera's url is either empty or a stream URL for that camera on some robot. */
  ghost predicate UrlShaped(c: CameraFeed) {
    c.url == "" || exists ip :: c.url == StreamUrl(ip, c.id)
  }

  class Viewer {
    var robotIP: string
    var isConnected: bool
    var cameras: seq<CameraFeed>
    /** The robot IP captured by each connect callback not yet run, oldest first. */
    var pendingTimers: seq<string>

    /** The page's four cameras are always the same cameras, in the same order,
        and each url has the stream-URL shape. */
    ghost predicate Valid()
      reads this
    {
      SameCameras(cameras, InitialCameras()) &&
      forall i :: 0 <= i < |cameras| ==> UrlShaped(cameras[i])
    }

    constructor ()
      ensures Valid()
      ensures robotIP == DefaultRobotIP && !isConnected
      ensures cameras == InitialCameras() && pendingTimers == []
    {
      robotIP := DefaultRobotIP;
      isConnected := false;
      cameras := InitialCameras();
      pendingTimers := [];
    }

    /** The IP input; it is disabled while connected. */
    method EditRobotIP(ip: string)
      requires Valid() && !isConnected
      modifies this
      ensures Valid()
      ensures robotIP == ip
      ensures isConnected == old(isConnected) && cameras == old(cameras) && pendingTimers == old(pendingTimers)
    {
      robotIP := ip;
    }

    /** `connectToRobot`: the session is marked connected, every camera connecting,
        and the second phase is scheduled with the current robot IP. */
    method ConnectToRobot()
      requires Valid()
      modifies this
      ensures Valid()
      ensures isConnected
      ensures cameras == AllConnecting(old(cameras))
      ensures pendingTimers == old(pendingTimers) + [old(robotIP)]
      ensures robotIP == old(robotIP)
    {
      isConnected := true;
      cameras := AllConnecting(cameras);
      pendingTimers := pendingTimers + [robotIP];
    }

    /** The connect callback: every camera connected, with the stream URL built from
        the IP captured when it was scheduled. It does not look at `isConnected`. */
    method FireConnectTimer()
      requires Valid() && pendingTimers != []
      modifies this
      ensures Valid()
      ensures cameras == AllConnected(old(cameras), old(pendingTimers)[0])
      ensures pendingTimers == old(pendingTimers)[1..]
      ensures isConnected == old(isConnected) && robotIP == old(robotIP)
    {
      var ip := pendingTimers[0];
      ConnectedUrlsShaped(cameras, ip);
      cameras := AllConnected(cameras, ip);
      pendingTimers := pendingTimers[1..];
    }

    /** `disconnectFromRobot`: the session is disconnected and the cameras are back
        to exactly the initial list, however they were toggled. A callback already
        scheduled is not cancelled. */
    method DisconnectFromRobot()
      requires Valid()
      modifies this
      ensures Valid()
      ensures !isConnected
      ensures cameras == AllDisconnected(old(cameras))
      ensures cameras == InitialCameras()
      ensures pendingTimers == old(pendingTimers) && robotIP == old(robotIP)
    {
      DisconnectRestoresInitial(cameras);
      isConnected := false;
      cameras := AllDisconnected(cameras);
    }

    /** `toggleCameraFeed`: only the matching camera's status changes. */
    method ToggleCameraFeed(id: string)
      requires Valid()
      modifies this
      ensures Valid()
      ensures cameras == Toggled(old(cameras), id)
      ensures isConnected == old(isConnected) && pendingTimers == old(pendingTimers) && robotIP == old(robotIP)
    {
      cameras := Toggled(cameras, id);
      assert forall i :: 0 <= i < |cameras| ==> cameras[i].url == old(cameras)[i].url && cameras[i].id == old(cameras)[i].id;
    }

    /** The Connect/Disconnect button: its action depends on `isConnected`. */
    method PressConnectButton()
      requires Valid()
      modifies this
      ensures Valid()
      ensures isConnected == !old(isConnected)
      ensures old(isConnected) ==> cameras == InitialCameras() && pendingTimers == old(pendingTimers)
      ensures !old(isConnected) ==> cameras == AllConnecting(old(cameras)) &&
                                    pendingTimers == old(pendingTimers) + [old(robotIP)]
      ensures robotIP == old(robotIP)
    {
      if isConnected {
        DisconnectFromRobot();
      } else {
        ConnectToRobot();
      }
    }

    /** A camera tile's Show/Hide button; it is disabled while not connected. */
    method PressToggleButton(id: string)
      requires Valid() && isConnected
      modifies this
      ensures Valid()
      ensures cameras == Toggled(old(cameras), id)
      ensures isConnected && pendingTimers == old(pendingTimers) && robotIP == old(robotIP)
    {
      ToggleCameraFeed(id);
    }
  }

  lemma InitialIsDisconnected()
    ensures AllDisconnected(InitialCameras()) == InitialCameras()
  {
  }

  /** Disconnecting any list of the page's cameras gives back the initial list. */
  lemma DisconnectRestoresInitial(cams: seq<CameraFeed>)
    requires SameCameras(cams, InitialCameras())
    ensures AllDisconnected(cams) == InitialCameras()
  {
    DisconnectForgetsHistory(cams, InitialCameras());
    InitialIsDisconnected();
  }

  /** After connect phase 2 every url is the stream URL for that camera's own id,
      so it has the stream-URL shape. */
  lemma ConnectedUrlsShaped(cams: seq<CameraFeed>, ip: string)
    ensures forall i :: 0 <= i < |cams| ==> AllConnected(cams, ip)[i].url == StreamUrl(ip, AllConnected(cams, ip)[i].id)
    ensures forall i :: 0 <= i < |cams| ==> UrlShaped(AllConnected(cams, ip)[i])
  {
    var r := AllConnected(cams, ip);
    forall i | 0 <= i < |cams| ensures UrlShaped(r[i]) {
      assert r[i].url == StreamUrl(ip, r[i].id);
    }
  }

  /** Connect phase 2 on the page's cameras gives each its direct stream URL, in order. */
  lemma ConnectedInitialUrls(cams: seq<CameraFeed>, ip: string)
    requires SameCameras(cams, InitialCameras())
    ensures var r := AllConnected(cams, ip);
            |r| == 4 &&
            [r[0].url, r[1].url, r[2].url, r[3].url] ==
            [StreamUrl(ip, "head_front"), StreamUrl(ip, "head_left"),
             StreamUrl(ip, "head_right"), StreamUrl(ip, "depth")]
  {
    var ids := Ids(InitialCameras());
    assert cams[0].id == ids[0] && cams[1].id == ids[1] && cams[2].id == ids[2] && cams[3].id == ids[3];
  }

  // ---- scenarios ----

  /** Connecting to a robot and letting the callback run gives every camera its
      direct stream URL and the session four active cameras. */
  method ConnectScenario(ip: string) returns (urls: seq<string>, active: nat, connected: bool)
    ensures connected && active == 4
    ensures urls == [StreamUrl(ip, "head_front"), StreamUrl(ip, "head_left"),
                     StreamUrl(ip, "head_right"), StreamUrl(ip, "depth")]
  {
    var v := new Viewer();
    v.EditRobotIP(ip);
    v.PressConnectButton();
    ConnectedInitialUrls(v.cameras, ip);
    v.FireConnectTimer();
    urls := [v.cameras[0].url, v.cameras[1].url, v.cameras[2].url, v.cameras[3].url];
    ActiveAfterConnect(AllConnecting(InitialCameras()), ip);
    active := ActiveCount(v.cameras);
    connected := v.isConnected;
  }

  /** Disconnecting before the callback runs does not stop it: afterwards the
      session is disconnected while all four cameras show as connected, each
      with its stream URL. */
  method LateTimerAfterDisconnect() returns (connected: bool, active: nat, urls: seq<string>)
    ensures !connected && active == 4
    ensures urls == [StreamUrl(DefaultRobotIP, "head_front"), StreamUrl(DefaultRobotIP, "head_left"),
                     StreamUrl(DefaultRobotIP, "head_right"), StreamUrl(DefaultRobotIP, "depth")]
  {
    var v := new Viewer();
    v.PressConnectButton();
    v.PressConnectButton();
    ConnectedInitialUrls(v.cameras, DefaultRobotIP);
    v.FireConnectTimer();
    connected := v.isConnected;
    ActiveAfterConnect(InitialCameras(), DefaultRobotIP);
    active := ActiveCount(v.cameras);
    urls := [v.cameras[0].url, v.cameras[1].url, v.cameras[2].url, v.cameras[3].url];
  }

  /** Toggling a camera while it is still connecting marks it connected although
      no stream URL has been assigned to it yet. */
  method ToggleWhileConnecting() returns (status: Status, url: string)
    ensures status == Connected && url == ""
  {
    var v := new Viewer();
    v.PressConnectButton();
    v.PressToggleButton("head_front");
    status := v.cameras[0].status;
    url := v.cameras[0].url;
  }
}
