/** The device list end to end: what the server's list route sends, as the
    mobile `getCameras` receives it. */
module DeviceListing {
  import opened Wrappers
  import opened Cameras
  import opened Http
  import opened Sdm
  import opened Auth
  import opened DevicesRoute
  import opened MobileCameraService

  /** A server response as the client sees it: a JSON body with status 200,
      or an error status with `{ error }` as its body. */
  function Received(r: Response<DevicesBody>): (o: Outcome)
    ensures r.Ok? ==> o == Responded(Some(r.body))
    ensures r.ErrorResponse? ==> o == HttpError(r.status, Some(ErrorBody(Some(r.error), None)))
  {
    match r
    case Ok(body) => Responded(Some(body))
    case ErrorResponse(status, error) => HttpError(status, Some(ErrorBody(Some(error), None)))
  }

  /** For an admitted request, the app receives exactly the cameras and
      doorbells of a non-empty device list; an empty list becomes the
      partner-connection error (status 400), and a failed listing the
      server-error message with status 500. A request the middleware
      rejects is an authentication error. */
  lemma {:induction false} ListingReachesApp(s: Session, now: int, env: Env, listed: Option<seq<Camera>>)
    ensures var r := GetCameras(Received(ListRoute(s, now, env, listed).response));
      && (!RequireAuth(s, now).Next? ==> r.Failure? && r.error.isAuthError && r.error.statusCode == 401)
      && (RequireAuth(s, now).Next? && listed.Some? && |listed.value| > 0 ==> r == Success(FilterCameras(listed.value)))
      && (RequireAuth(s, now).Next? && listed.Some? && |listed.value| == 0 ==>
            r == Failure(CameraServiceError(PartnerRequiredMessage, 400, false)))
      && (RequireAuth(s, now).Next? && listed.None? ==>
            r == Failure(CameraServiceError(ServerErrorMessage, 500, false)))
  {
    var h := ListRoute(s, now, env, listed);
    if RequireAuth(s, now).Next? {
      assert h == HandleList(env, listed);
    } else {
      assert h.response.ErrorResponse? && h.response.status == 401;
      assert Received(h.response).HttpError? && Received(h.response).status == 401;
    }
  }
}
