/** The device routes, `GET /api/devices` and `GET /api/devices/:deviceId`,
    behind the `requireAuth` middleware. The device calls' outcomes are
    parameters: `None` when the call throws. */
module DevicesRoute {
  import opened Wrappers
  import opened Text
  import opened Cameras
  import opened Http
  import opened Sdm
  import opened Auth

  const NoDevicesMessage := "No devices found. Please link your cameras through the partner connection."
  const ListFailedMessage := "Failed to retrieve devices"
  const GetFailedMessage := "Failed to retrieve device details"
  const PartnerBase := "https://nestservices.google.com/partnerconnections/"
  const PartnerScope := "https://www.googleapis.com/auth/sdm.service"

  /** `type?.includes('CAMERA') || type?.includes('DOORBELL')`. */
  predicate IsCameraType(deviceType: string) {
    Includes(deviceType, "CAMERA") || Includes(deviceType, "DOORBELL")
  }

  /** `devices.filter(...)` with the camera-type test: it keeps exactly the
      camera and doorbell devices. */
  function FilterCameras(devices: seq<Camera>): (r: seq<Camera>)
    ensures |r| <= |devices|
    ensures forall c :: c in r <==> c in devices && IsCameraType(c.deviceType)
  {
    if devices == [] then []
    else if IsCameraType(devices[0].deviceType) then [devices[0]] + FilterCameras(devices[1..])
    else FilterCameras(devices[1..])
  }

  /** The filter keeps the original order: filtering a concatenation is
      concatenating the filtered parts. */
  lemma {:induction false} FilterCamerasAppend(a: seq<Camera>, b: seq<Camera>)
    ensures FilterCameras(a + b) == FilterCameras(a) + FilterCameras(b)
  {
    if a == [] {
      assert a + b == b;
    } else {
      assert (a + b)[0] == a[0];
      assert (a + b)[1..] == a[1..] + b;
      FilterCamerasAppend(a[1..], b);
    }
  }

  /** Every device in the list is a camera or a doorbell. */
  predicate AllCameraTypes(devices: seq<Camera>) {
    forall i :: 0 <= i < |devices| ==> IsCameraType(devices[i].deviceType)
  }

  /** No device in the list is a camera or a doorbell. */
  predicate NoCameraTypes(devices: seq<Camera>) {
    forall i :: 0 <= i < |devices| ==> !IsCameraType(devices[i].deviceType)
  }

  /** A list made only of cameras and doorbells passes through unchanged. */
  lemma {:induction false} FilterCamerasKeepsAll(devices: seq<Camera>)
    requires AllCameraTypes(devices)
    ensures FilterCameras(devices) == devices
  {
    if devices != [] {
      assert AllCameraTypes(devices[1..]) by {
        forall i | 0 <= i < |devices[1..]| ensures IsCameraType(devices[1..][i].deviceType) {
          assert devices[1..][i] == devices[i + 1];
        }
      }
      FilterCamerasKeepsAll(devices[1..]);
      assert IsCameraType(devices[0].deviceType);
      assert devices == [devices[0]] + devices[1..];
    }
  }

  /** A list without any camera or doorbell yields no cameras. */
  lemma {:induction false} FilterCamerasDropsAll(devices: seq<Camera>)
    requires NoCameraTypes(devices)
    ensures FilterCameras(devices) == []
  {
    if devices != [] {
      assert NoCameraTypes(devices[1..]) by {
        forall i | 0 <= i < |devices[1..]| ensures !IsCameraType(devices[1..][i].deviceType) {
          assert devices[1..][i] == devices[i + 1];
        }
      }
      FilterCamerasDropsAll(devices[1..]);
      assert !IsCameraType(devices[0].deviceType);
    }
  }

  /** The partner-connection link: Google's partner-connections page for the
      project, with the frontend as redirect target, offline access with a
      consent prompt, the client id, a code response and the SDM scope. */
  function PartnerConnectionUrl(env: Env): (url: string)
    ensures var n := |PartnerBase| + |Render(env.projectId)|;
      && |url| > n + |PartnerScope|
      && url[..|PartnerBase|] == PartnerBase
      && url[|PartnerBase|..n] == Render(env.projectId)
      && url[n] == '/'
      && url[|url| - |PartnerScope|..] == PartnerScope
  {
    var project := PartnerBase + Render(env.projectId);
    var query := "/auth?redirect_uri=" + Render(env.frontendUrl)
      + "&access_type=offline&prompt=consent&client_id=" + Render(env.clientId)
      + "&response_type=code&scope=";
    AppendParts(PartnerBase, Render(env.projectId));
    AppendParts(project, query + PartnerScope);
    AppendParts(query, PartnerScope);
    project + (query + PartnerScope)
  }

  /** The list handler. `listed` is what `listDevices` resolves to (`None`
      when it throws). An empty list yields no cameras, the partner flag,
      the partner URL and the message; a non-empty one yields only its
      cameras and doorbells, in order, with no other field. */
  function HandleList(env: Env, listed: Option<seq<Camera>>): (h: Handled<DevicesBody>)
    ensures h.command == Some(ListDevices)
    ensures listed.None? ==> h.response == ErrorResponse(500, ListFailedMessage)
    ensures listed.Some? && |listed.value| == 0 ==>
      h.response == Ok(DevicesBody(Some([]), Some(true), Some(PartnerConnectionUrl(env)), Some(NoDevicesMessage)))
    ensures listed.Some? && |listed.value| > 0 ==>
      h.response == Ok(DevicesBody(Some(FilterCameras(listed.value)), None, None, None))
    ensures h.response.Ok? ==>
      && h.response.body.cameras.Some?
      && forall c :: c in h.response.body.cameras.value ==> c in listed.value && IsCameraType(c.deviceType)
  {
    var response :=
      if listed.None? then ErrorResponse(500, ListFailedMessage)
      else if |listed.value| == 0 then
        Ok(DevicesBody(Some([]), Some(true), Some(PartnerConnectionUrl(env)), Some(NoDevicesMessage)))
      else Ok(DevicesBody(Some(FilterCameras(listed.value)), None, None, None));
    Handled(Some(ListDevices), response)
  }

  /** The single-device handler: it asks for `enterprises/{project}/devices/{deviceId}`
      and returns what the call resolves to, or a 500. */
  function HandleGet(env: Env, deviceId: string, fetched: Option<Camera>): (h: Handled<Camera>)
    ensures h.command == Some(GetDevice(DeviceName(env, deviceId)))
    ensures '/' !in deviceId ==> LastSegment(h.command.value.deviceName) == deviceId
    ensures fetched.Some? ==> h.response == Ok(fetched.value)
    ensures fetched.None? ==> h.response == ErrorResponse(500, GetFailedMessage)
  {
    Handled(Some(GetDevice(DeviceName(env, deviceId))),
            if fetched.Some? then Ok(fetched.value) else ErrorResponse(500, GetFailedMessage))
  }

  /** The two routes behind the middleware. */
  function ListRoute(s: Session, now: int, env: Env, listed: Option<seq<Camera>>): (h: Handled<DevicesBody>)
    ensures RequireAuth(s, now).Next? ==> h == HandleList(env, listed)
    ensures !RequireAuth(s, now).Next? ==> h.command == None && h.response.ErrorResponse? && h.response.status == 401
  {
    Guarded(s, now, HandleList(env, listed))
  }

  function GetRoute(s: Session, now: int, env: Env, deviceId: string, fetched: Option<Camera>): (h: Handled<Camera>)
    ensures RequireAuth(s, now).Next? ==> h == HandleGet(env, deviceId, fetched)
    ensures !RequireAuth(s, now).Next? ==> h.command == None && h.response.ErrorResponse? && h.response.status == 401
  {
    Guarded(s, now, HandleGet(env, deviceId, fetched))
  }
}
