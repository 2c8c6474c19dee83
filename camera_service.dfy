/** The mobile `CameraService.getCameras`: how the device-list response, or
    the way the request failed, becomes a camera list or a
    `CameraServiceError`. The request itself is a parameter. */
module MobileCameraService {
  import opened Wrappers
  import opened Text
  import opened Cameras

  /** `new CameraServiceError(message, statusCode, isAuthError)`; an omitted
      `isAuthError` is `false`. */
  datatype CameraServiceError = CameraServiceError(message: string, statusCode: int, isAuthError: bool)

  /** The body of an error response, absent fields as `None`. */
  datatype ErrorBody = ErrorBody(error: Option<string>, message: Option<string>)

  /** How `axios.get('/api/devices')` ended: a 2xx response (its body
      `None` when there is none to read, which makes the property access
      throw), an error carrying a response, an error carrying only the
      request (nothing came back), or an error with neither. */
  datatype Outcome =
    | Responded(data: Option<DevicesBody>)
    | HttpError(status: int, errorData: Option<ErrorBody>)
    | NoResponse
    | RequestNotMade

  const PartnerRequiredMessage := "Partner connection required. Please set up Google Device Access."
  const SessionExpiredMessage := "Your session has expired. Please log in again."
  const AccessDeniedMessage := "Access denied. Check your Google Device Access permissions."
  const NotFoundMessage := "Camera service not found. Please check your configuration."
  const ServerErrorMessage := "Server error. Please try again later."
  const FailedToLoadPrefix := "Failed to load cameras: "
  const UnreachableMessage := "Unable to connect to server. Please check your internet connection."
  const UnexpectedMessage := "An unexpected error occurred while loading cameras."

  /** `data?.error || data?.message || 'Unknown error'`. */
  function ErrorDetail(data: Option<ErrorBody>): (r: string)
    ensures data.Some? && Truthy(data.value.error) ==> r == data.value.error.value
    ensures data.Some? && !Truthy(data.value.error) && Truthy(data.value.message) ==> r == data.value.message.value
    ensures !(data.Some? && (Truthy(data.value.error) || Truthy(data.value.message))) ==> r == "Unknown error"
    ensures r != ""
  {
    var first := OrElse(if data.Some? then data.value.error else None,
                        if data.Some? then data.value.message else None);
    if Truthy(first) then first.value else "Unknown error"
  }

  /** The error for a response with a non-2xx status. */
  function StatusError(status: int, data: Option<ErrorBody>): (e: CameraServiceError)
    ensures e.statusCode == status
    ensures e.isAuthError <==> status == 401
    ensures status == 401 ==> e.message == SessionExpiredMessage
    ensures status == 403 ==> e.message == AccessDeniedMessage
    ensures status == 404 ==> e.message == NotFoundMessage
    ensures status == 500 ==> e.message == ServerErrorMessage
    ensures status !in {401, 403, 404, 500} ==> e.message == FailedToLoadPrefix + ErrorDetail(data)
  {
    if status == 401 then CameraServiceError(SessionExpiredMessage, 401, true)
    else if status == 403 then CameraServiceError(AccessDeniedMessage, 403, false)
    else if status == 404 then CameraServiceError(NotFoundMessage, 404, false)
    else if status == 500 then CameraServiceError(ServerErrorMessage, 500, false)
    else CameraServiceError(FailedToLoadPrefix + ErrorDetail(data), status, false)
  }

  /** `getCameras`. A body asking for a partner connection is a 400 error
      that the catch block rethrows as it is; otherwise the cameras, `[]`
      when absent. A failed request is classified by its status, or gets
      status 0 when no response came back. */
  function GetCameras(o: Outcome): (r: Result<seq<Camera>, CameraServiceError>)
    ensures r.Success? <==> o.Responded? && o.data.Some? && o.data.value.requiresPartnerConnection != Some(true)
    ensures r.Success? ==> r.value == (if o.data.value.cameras.Some? then o.data.value.cameras.value else [])
    ensures o.Responded? && o.data.Some? && o.data.value.requiresPartnerConnection == Some(true) ==>
      r == Failure(CameraServiceError(PartnerRequiredMessage, 400, false))
    ensures o.HttpError? ==> r == Failure(StatusError(o.status, o.errorData))
    ensures o.NoResponse? ==> r == Failure(CameraServiceError(UnreachableMessage, 0, false))
    ensures o.RequestNotMade? || (o.Responded? && o.data.None?) ==>
      r == Failure(CameraServiceError(UnexpectedMessage, 0, false))
  {
    match o
    case Responded(data) =>
      if data.None? then Failure(CameraServiceError(UnexpectedMessage, 0, false))
      else if data.value.requiresPartnerConnection == Some(true) then
        Failure(CameraServiceError(PartnerRequiredMessage, 400, false))
      else Success(if data.value.cameras.Some? then data.value.cameras.value else [])
    case HttpError(status, errorData) => Failure(StatusError(status, errorData))
    case NoResponse => Failure(CameraServiceError(UnreachableMessage, 0, false))
    case RequestNotMade => Failure(CameraServiceError(UnexpectedMessage, 0, false))
  }

  /** Only an expired session is an authentication error: `isAuthError`
      holds exactly for a 401 response. */
  lemma AuthErrorExactlyFor401(o: Outcome)
    ensures GetCameras(o).Failure? && GetCameras(o).error.isAuthError <==> o.HttpError? && o.status == 401
  {
  }

  /** An HTTP error keeps its status; every other failure carries 400
      (partner connection) or 0 (no response, or an unexpected error). */
  lemma StatusCodeOrigin(o: Outcome)
    requires GetCameras(o).Failure?
    ensures o.HttpError? ==> GetCameras(o).error.statusCode == o.status
    ensures !o.HttpError? ==> GetCameras(o).error.statusCode in {0, 400}
  {
  }
}
