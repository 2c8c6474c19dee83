/** The stream routes, `POST /api/stream/:deviceId/{generate,extend,stop}`,
    behind the `requireAuth` middleware. Each issues one device command
    on `enterprises/{project}/devices/{deviceId}`; the command's outcome is
    a parameter, `None` (or `false`) when it throws. */
module StreamRoutes {
  import opened Wrappers
  import opened Text
  import opened Envelope
  import opened Http
  import opened Sdm
  import opened Auth

  const OfferRequired := "offerSdp is required"
  const GenerateFailed := "Failed to generate camera stream"
  const ExtendFailed := "Failed to extend camera stream"
  const StopFailed := "Failed to stop camera stream"

  /** The body of a successful stop. */
  datatype StopBody = StopBody(success: bool)

  /** `generate`: without a truthy `offerSdp` a 400 and no command; otherwise
      the generate command, whose response body is passed on unchanged. */
  function Generate(env: Env, deviceId: string, offerSdp: Option<string>, result: Option<StreamData>)
    : (h: Handled<StreamData>)
    ensures !Truthy(offerSdp) <==> h.command.None?
    ensures !Truthy(offerSdp) ==> h.response == ErrorResponse(400, OfferRequired)
    ensures Truthy(offerSdp) ==>
      && h.command == Some(GenerateWebRtcStream(DeviceName(env, deviceId), offerSdp.value))
      && h.response == (if result.Some? then Ok(result.value) else ErrorResponse(500, GenerateFailed))
  {
    if !Truthy(offerSdp) then Handled(None, ErrorResponse(400, OfferRequired))
    else
      Handled(Some(GenerateWebRtcStream(DeviceName(env, deviceId), offerSdp.value)),
              if result.Some? then Ok(result.value) else ErrorResponse(500, GenerateFailed))
  }

  /** `extend`: the token is passed on unchecked, possibly absent. */
  function Extend(env: Env, deviceId: string, streamExtensionToken: Option<string>, result: Option<StreamData>)
    : (h: Handled<StreamData>)
    ensures h.command == Some(ExtendWebRtcStream(DeviceName(env, deviceId), streamExtensionToken))
    ensures result.Some? ==> h.response == Ok(result.value)
    ensures result.None? ==> h.response == ErrorResponse(500, ExtendFailed)
  {
    Handled(Some(ExtendWebRtcStream(DeviceName(env, deviceId), streamExtensionToken)),
            if result.Some? then Ok(result.value) else ErrorResponse(500, ExtendFailed))
  }

  /** `stop`: the token is passed on unchecked; success is `{ success: true }`. */
  function Stop(env: Env, deviceId: string, streamToken: Option<string>, succeeded: bool)
    : (h: Handled<StopBody>)
    ensures h.command == Some(StopWebRtcStream(DeviceName(env, deviceId), streamToken))
    ensures h.response.Ok? <==> succeeded
    ensures succeeded ==> h.response.body == StopBody(true)
    ensures !succeeded ==> h.response == ErrorResponse(500, StopFailed)
  {
    Handled(Some(StopWebRtcStream(DeviceName(env, deviceId), streamToken)),
            if succeeded then Ok(StopBody(true)) else ErrorResponse(500, StopFailed))
  }

  /** The device name a command addresses. */
  function Target(c: Command): string
    requires !c.ListDevices?
  {
    c.deviceName
  }

  /** Every command a stream route issues addresses the route's device:
      for a `:deviceId` without '/', the last path segment of its target is
      that parameter. The clients derive device ids with `split('/').pop()`,
      which never yields a '/'. An id arriving with an encoded '/' is not
      covered. */
  lemma {:induction false} StreamCommandsTargetDevice(env: Env, deviceId: string, offerSdp: Option<string>,
      token: Option<string>, result: Option<StreamData>, succeeded: bool)
    requires '/' !in deviceId
    ensures var g := Generate(env, deviceId, offerSdp, result);
      g.command.Some? ==> LastSegment(Target(g.command.value)) == deviceId
    ensures LastSegment(Target(Extend(env, deviceId, token, result).command.value)) == deviceId
    ensures LastSegment(Target(Stop(env, deviceId, token, succeeded).command.value)) == deviceId
  {
    var name := DeviceName(env, deviceId);
    assert LastSegment(name) == deviceId;
  }

  /** The three routes behind the middleware. */
  function GenerateRoute(s: Session, now: int, env: Env, deviceId: string, offerSdp: Option<string>,
      result: Option<StreamData>): (h: Handled<StreamData>)
    ensures RequireAuth(s, now).Next? ==> h == Generate(env, deviceId, offerSdp, result)
    ensures !RequireAuth(s, now).Next? ==> h.command == None && h.response.ErrorResponse? && h.response.status == 401
  {
    Guarded(s, now, Generate(env, deviceId, offerSdp, result))
  }

  function ExtendRoute(s: Session, now: int, env: Env, deviceId: string, streamExtensionToken: Option<string>,
      result: Option<StreamData>): (h: Handled<StreamData>)
    ensures RequireAuth(s, now).Next? ==> h == Extend(env, deviceId, streamExtensionToken, result)
    ensures !RequireAuth(s, now).Next? ==> h.command == None && h.response.ErrorResponse? && h.response.status == 401
  {
    Guarded(s, now, Extend(env, deviceId, streamExtensionToken, result))
  }

  function StopRoute(s: Session, now: int, env: Env, deviceId: string, streamToken: Option<string>,
      succeeded: bool): (h: Handled<StopBody>)
    ensures RequireAuth(s, now).Next? ==> h == Stop(env, deviceId, streamToken, succeeded)
    ensures !RequireAuth(s, now).Next? ==> h.command == None && h.response.ErrorResponse? && h.response.status == 401
  {
    Guarded(s, now, Stop(env, deviceId, streamToken, succeeded))
  }
}
