/** The viewer page and the stream proxy build the same per-camera URL: the one
    the page assigns once connected is the one the proxy fetches when asked for
    that robot and camera on port 8080. */
module StreamUrls {
  import opened Http
  import CameraFeeds
  import StreamProxy

  lemma PageUrlIsProxyUrl(ip: string, id: string)
    ensures CameraFeeds.StreamUrl(ip, id) == StreamProxy.StreamUrl(ip, "8080", id)
  {
  }

  /** The query the proxy would receive for a camera of the page, with no port given. */
  function ProxyQuery(ip: string, id: string): Pairs {
    [("ip", ip), ("camera", id)]
  }

  /** For a non-empty IP and camera id, the proxy fetches the page's URL for that camera. */
  lemma ProxyFetchesPageUrl(ip: string, id: string, o: Outcome<StreamProxy.Bytes>)
    requires ip != "" && id != ""
    ensures var x := StreamProxy.HandleGet(ProxyQuery(ip, id), o);
            x.request.Some? && x.request.value.url == CameraFeeds.StreamUrl(ip, id)
  {
    var q := ProxyQuery(ip, id);
    assert q[1..] == [("camera", id)] && q[1..][1..] == [];
    assert Get(q, "ip") == Some(ip);
    assert Get(q, "camera") == Get(q[1..], "camera") == Some(id);
    assert Get(q[1..], "port") == Get(q[1..][1..], "port") == None;
    assert StreamProxy.HasRequired(q);
    assert StreamProxy.Upstream(q).url == StreamProxy.StreamUrl(ip, "8080", id);
    PageUrlIsProxyUrl(ip, id);
  }

  /** For a non-empty IP, every camera the page has connected (in the second
      phase of connecting) points at exactly what the stream proxy would fetch for it. */
  lemma ConnectedCamerasMatchProxy(ip: string, o: Outcome<StreamProxy.Bytes>)
    requires ip != ""
    ensures var cams := CameraFeeds.AllConnected(CameraFeeds.InitialCameras(), ip);
            forall i :: 0 <= i < |cams| ==>
              var x := StreamProxy.HandleGet(ProxyQuery(ip, cams[i].id), o);
              x.request.Some? && x.request.value.url == cams[i].url
  {
    var init := CameraFeeds.InitialCameras();
    var cams := CameraFeeds.AllConnected(init, ip);
    forall i | 0 <= i < |cams|
      ensures var x := StreamProxy.HandleGet(ProxyQuery(ip, cams[i].id), o);
              x.request.Some? && x.request.value.url == cams[i].url
    {
      assert cams[i].id == CameraFeeds.Ids(init)[i];
      ProxyFetchesPageUrl(ip, cams[i].id, o);
    }
  }

  /** With an empty IP the page still builds a URL, which the proxy would refuse. */
  lemma EmptyIpNotProxied(id: string, o: Outcome<StreamProxy.Bytes>)
    ensures CameraFeeds.StreamUrl("", id) == "http://:8080/camera/" + id + "/stream"
    ensures StreamProxy.HandleGet(ProxyQuery("", id), o).response.status == 400
  {
    assert Get(ProxyQuery("", id), "ip") == Some("");
  }
}
