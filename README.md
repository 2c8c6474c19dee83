# camux live-stream core, modelled in Dafny

camux shows Google Nest cameras in a browser and in a React Native app.
A small Express server sits between the clients and the Smart Device
Management (SDM) API. This project models the parts of camux that hold
decisions and state:

- **The per-camera stream session.** This is the web `CameraView`, and on
  mobile the shared `WebRTCService` with each `CameraCard`.
  - A start builds a peer connection: no ICE servers, then receive-only
    audio, receive-only video and one ordered data channel.
  - It sends the offer and reads the answer SDP from `results.answerSdp`,
    falling back to `answerSdp`.
  - It makes sure the answer ends with a newline, and arms a four-minute
    extension timer when the grant carries an extension token.
  - A stop clears the timer and the peer connection. It sends a remote stop
    only when a stream token can be found.
  - The mobile service keeps one extension interval per device. Keep-alive
    starts whenever a generate call answers. Background audio starts only
    when exactly one interval is held afterwards. Both services shut down
    only once no interval is left.
- **The selection context and the grid (web).** This covers the set of
  selected cameras, the two global media flags and the callback registry.
  It also covers the grid's sets of streaming and loading cameras, its
  registry of view handles, and group start/stop over the selection.
- **The mobile guards.** `KeepAliveService` and `BackgroundAudioService` are
  idempotent start/stop services around an `isActive` / `isServiceRunning`
  flag. The mobile context holds the two global flags.
- **The decision functions.**
  - On the server: the `requireAuth` gate, the device-list and device
    routes, and the three stream routes.
  - On mobile: the classification of the device-list outcome into cameras
    or a `CameraServiceError`.

Code that changes state step by step becomes Dafny classes with `modifies`
clauses. Each of their methods states its whole new state. Those states are
written over pure functions (`WithEnabled`, `Lookup`, `NormalizeAnswer`,
`NegotiatedPeer`, `ToggleSelection`, `FilterCameras`, …), and lemmas prove
the functions' properties. Pure code becomes functions and lemmas.

The following become parameters of the operations that use them:

- network calls, WebRTC negotiation steps, native-module calls and the
  current time;
- each success or failure outcome, as a `bool`, or as an `Option` that is
  `None` when the call throws.

Requests the clients send are logged in a `sent` sequence. Device calls the
server issues are returned with each response as a `Handled` value.

React state is read at its current value. A state setter is an assignment.
A JavaScript `a || b` on optional strings is `Text.OrElse`: an empty string
is falsy. An unset environment variable in a template renders as
`undefined`.

Module layout:

- **Shared helpers:**
  - `Wrappers` (Option/Result);
  - `Text` (truthiness, `||`, `includes`, `split('/').pop()`);
  - `Envelope` (the `StreamData` envelope);
  - `Media` (tracks, `MediaStream`, peer-connection record, requests, timer);
  - `Cameras` (the camera record and the device-list body).
- **Web client:** `WebCameraView`, `CameraControl`, `WebCameraGrid`.
- **Mobile app:** `KeepAlive`, `BackgroundAudio`, `MobileWebRtc`,
  `MobileCameraCard`, `MobileCameraControl`, `MobileCameraService`.
- **Server:** `Http`, `Sdm`, `Auth`, `DevicesRoute`, `StreamRoutes`.
- **End to end:** `DeviceListing` (server list route to mobile
  `getCameras`).

## Model

| member | source | states |
|---|---|---|
| `Text.OrElse` | client/src/components/CameraView.tsx:184 | `a \|\| b`: the first operand when it is truthy, otherwise the second whatever it is; truthy exactly when either operand is |
| `Text.OrElseChain` | client/src/components/CameraView.tsx:184 | `\|\|` is associative and drops a falsy first operand, so a chain of fallbacks picks its first truthy value |
| `Text.Includes` | server/src/routes/devices.ts:30-31 | `s.includes(sub)` holds exactly when `sub` occurs in `s` at some index |
| `Text.LastSegment` | client/src/components/CameraView.tsx:46 | the device id taken from a resource name holds no '/' and is never longer than the name |
| `Text.LastSegmentIsSuffix` | mobile/src/components/CameraCard.tsx:29 | the device id is a suffix of the name, and when shorter than the name it follows a '/' |
| `Text.LastSegmentAfterSlash` | client/src/components/CameraView.tsx:46 | the last segment of `prefix/segment` is `segment` whenever `segment` holds no '/' |
| `Envelope.Lookup` | client/src/components/CameraView.tsx:184 | `results?.f \|\| f`: a truthy nested value wins; an absent `results`, nested field or empty nested string falls through to the top-level field; truthy exactly when one of the two is |
| `Envelope.LookupOfTopLevelOnly` | mobile/src/types/index.ts:18-27 | an envelope holding only one top-level field yields that value for it and nothing truthy for any other field |
| `Envelope.ExtensionOnly` | mobile/src/services/WebRTCService.ts:138 | the fallback envelope `{streamExtensionToken}` yields no stream token and no answer, only its extension token |
| `Envelope.NormalizeAnswer` | client/src/components/CameraView.tsx:190-192 | the applied answer always ends in '\n'; it equals the input exactly when the input already does, and otherwise is the input plus '\n' |
| `Envelope.NormalizeAnswerIdempotent` | mobile/src/services/WebRTCService.ts:87-89 | normalising twice is normalising once |
| `Envelope.NormalizeAnswerExtends` | client/src/components/CameraView.tsx:190-192 | normalisation only appends: the input is a prefix and at most one character is added |
| `Media.WithEnabled` | client/src/components/CameraView.tsx:73-76 | the tracks of one kind take the flag; track count, kinds and every track of the other kind are unchanged |
| `Media.WithEnabledCommutes` | client/src/components/CameraView.tsx:71-89 | the video effect and the audio effect are independent: either order gives the same tracks |
| `Media.WithEnabledIdempotent` | mobile/src/components/CameraCard.tsx:39-57 | re-applying an effect with the same flag changes nothing |
| `Media.MediaStream.constructor` | client/src/components/CameraView.tsx:130-132 | a new stream holds no tracks |
| `Media.MediaStream.AddTrack` | client/src/components/CameraView.tsx:134-139 | the track is appended to the stream's tracks |
| `Media.MediaStream.SetEnabled` | client/src/components/CameraView.tsx:73-76 | the `forEach` over one kind's tracks leaves the stream's tracks equal to `WithEnabled` of the old ones |
| `Media.MediaSections` | client/src/components/CameraView.tsx:114-122 | each setup step contributes the m-line of its kind, in order |
| `Media.ConfiguredPeer` | mobile/src/services/WebRTCService.ts:21-30 | no ICE servers; the m-lines are audio, video, application in that order; transceivers are receive-only; the data channel is ordered; nothing negotiated yet |
| `Media.NegotiatedPeer` | client/src/components/CameraView.tsx:170-195 | same configuration as a new peer, with the offer applied locally and the newline-normalised answer applied remotely |
| `Media.Path` | client/src/components/CameraView.tsx:175-179 | a stream request is posted to `/api/stream/{deviceId}/{generate\|extend\|stop}`: its own device id is the segment after the prefix and its endpoint the last segment |
| `Media.PathIdentifiesRequest` | client/src/components/CameraView.tsx:175-179 | two requests posted to the same path are for the same device and the same endpoint, even when a device id contains '/' |
| `Cameras.DisplayName` | client/src/components/CameraView.tsx:47 | the first parent relation's display name when present and non-empty, otherwise the device id |
| `Cameras.CameraNames` | client/src/contexts/CameraControlContext.tsx:80 | `new Set(cameras.map(c => c.name))`: every camera's name is in it, and only cameras' names are |
| `WebCameraView.CameraView.constructor` | client/src/components/CameraView.tsx:34-47 | a mounted view is not streaming, holds no data, peer or timer, has both flags on, and derives its device id and display name from the camera |
| `WebCameraView.CameraView.StartStream` | client/src/components/CameraView.tsx:103-218 | a generate request is sent iff an offer was made; success stores the data and the negotiated peer, sets streaming, reports `true` and arms a 240000 ms timer only with an extension token; any failure sets the error, keeps streaming, data, peer and timer as they were and reports nothing; loading ends false |
| `WebCameraView.CameraView.SettleStart` | client/src/components/CameraView.tsx:201-217 | the success branch, the catch branch and the finally step of `startStream` |
| `WebCameraView.CameraView.StopStream` | client/src/components/CameraView.tsx:237-270 | timer and peer cleared, not streaming, no data, `false` reported; a remote stop is sent exactly when it was streaming with data yielding a stream token |
| `WebCameraView.CameraView.ExtendStream` | client/src/components/CameraView.tsx:222-233 | one timer firing resends the originally captured token; success replaces the data and keeps the timer; failure stops the stream |
| `WebCameraView.CameraView.OnTrack` | client/src/components/CameraView.tsx:127-161 | a track joins the collected stream (created on the first track); the collected stream becomes the remote stream exactly when it holds an audio and a video track; the session, loading, error, flags and requests are unchanged |
| `WebCameraView.CameraView.SyncVideo` | client/src/components/CameraView.tsx:71-79 | only while streaming with a remote stream: video tracks take the global flag; audio tracks, the audio flag and the rest of the session (data, peer, timer, collected stream, loading, error, requests) are untouched |
| `WebCameraView.CameraView.SyncAudio` | client/src/components/CameraView.tsx:81-89 | only while streaming with a remote stream: audio tracks take the global flag; video tracks, the video flag and the rest of the session are untouched |
| `WebCameraView.StopTwice` | client/src/components/CameraView.tsx:252-268 | two stops send at most the first call's remote stop |
| `KeepAlive.KeepAliveService.constructor` | mobile/src/services/KeepAliveService.ts:4-6 | inactive, no interval, no subscription |
| `KeepAlive.KeepAliveService.Start` | mobile/src/services/KeepAliveService.ts:8-24 | a no-op when active; otherwise active with the 30000 ms interval and the app-state subscription, one battery prompt scheduled |
| `KeepAlive.KeepAliveService.Stop` | mobile/src/services/KeepAliveService.ts:26-41 | a no-op when inactive; otherwise inactive with interval and subscription cleared |
| `KeepAlive.KeepAliveService.KeepAlive` | mobile/src/services/KeepAliveService.ts:53-61 | pings only while active |
| `KeepAlive.KeepAliveService.HandleAppStateChange` | mobile/src/services/KeepAliveService.ts:43-51 | pings exactly on a move to `background` while active |
| `KeepAlive.KeepAliveService.IsRunning` | mobile/src/services/KeepAliveService.ts:81-83 | true exactly when the 30000 ms interval and the subscription are held |
| `KeepAlive.StartThenStop` | mobile/src/services/KeepAliveService.ts:8-41 | start then stop from inactive restores every field except the prompt count |
| `BackgroundAudio.BackgroundAudioService.constructor` | mobile/src/services/BackgroundAudioService.ts:12-13 | not running |
| `BackgroundAudio.BackgroundAudioService.StartBackgroundAudio` | mobile/src/services/BackgroundAudioService.ts:15-34 | skipped off Android or when running; otherwise running exactly when the native start succeeds, failing otherwise |
| `BackgroundAudio.BackgroundAudioService.StopBackgroundAudio` | mobile/src/services/BackgroundAudioService.ts:36-55 | skipped off Android or when not running; otherwise stopped exactly when the native stop succeeds |
| `BackgroundAudio.BackgroundAudioService.IsRunning` | mobile/src/services/BackgroundAudioService.ts:57-59 | never true off Android |
| `MobileWebRtc.WebRTCService.constructor` | mobile/src/services/WebRTCService.ts:12-13 | no intervals, nothing sent |
| `MobileWebRtc.WebRTCService.StartStream` | mobile/src/services/WebRTCService.ts:15-125 | succeeds iff the negotiation does; each failure is rethrown with its cause; keep-alive starts once the generate call answers; an interval is stored for the device only with an extension token; background audio is requested only when exactly one interval is held, its failure swallowed |
| `MobileWebRtc.WebRTCService.ExtendStream` | mobile/src/services/WebRTCService.ts:127-140 | sends the captured token; failure removes the device's interval and sends no remote stop |
| `MobileWebRtc.WebRTCService.StopStream` | mobile/src/services/WebRTCService.ts:142-177 | only this device's interval is removed; a remote stop is sent exactly when a stream token is found; keep-alive and background audio stop only when no interval is left and the stop request did not fail; never fails |
| `MobileCameraCard.CameraCard.constructor` | mobile/src/components/CameraCard.tsx:18-30 | not streaming, no refs, both flags on, device id and display name derived from the camera |
| `MobileCameraCard.CameraCard.StartStream` | mobile/src/components/CameraCard.tsx:59-75 | success stores peer and data and the returned stream and sets streaming; failure adds the alert and leaves the session unchanged; loading ends false; the shared service's requests, interval map, keep-alive and background-audio state change exactly as its own `startStream` promises |
| `MobileCameraCard.CameraCard.SettleStart` | mobile/src/components/CameraCard.tsx:64-74 | the try, catch and finally steps after the service call |
| `MobileCameraCard.CameraCard.StopStream` | mobile/src/components/CameraCard.tsx:77-94 | refs and remote stream cleared, not streaming; the service is called only when stream data was held, and then its interval for this device, requests, keep-alive and background audio change as its `stopStream` promises; loading, alerts and flags unchanged |
| `MobileCameraCard.CameraCard.Unmount` | mobile/src/components/CameraCard.tsx:32-36 | unmounting is `stopStream`: the same new state of the card and of the shared service |
| `MobileCameraCard.CameraCard.SyncVideo` | mobile/src/components/CameraCard.tsx:39-47 | while streaming with a stream, video tracks follow the global flag; audio, refs, loading and alerts are untouched |
| `MobileCameraCard.CameraCard.SyncAudio` | mobile/src/components/CameraCard.tsx:49-57 | while streaming with a stream, audio tracks follow the global flag; video, refs, loading and alerts are untouched |
| `MobileCameraCard.StopTwice` | mobile/src/components/CameraCard.tsx:84-87 | a second stop makes no service call |
| `CameraControl.ToggleSelection` | client/src/contexts/CameraControlContext.tsx:68-76 | the id changes membership and no other id does |
| `CameraControl.ToggleTwice` | client/src/contexts/CameraControlContext.tsx:67-77 | toggling twice restores the selection |
| `CameraControl.TogglesCommute` | client/src/contexts/CameraControlContext.tsx:67-77 | toggles of two ids commute |
| `CameraControl.CameraControlProvider.constructor` | client/src/contexts/CameraControlContext.tsx:61-65 | empty selection, both flags true, no callbacks |
| `CameraControl.CameraControlProvider.ToggleCameraSelection` | client/src/contexts/CameraControlContext.tsx:67-77 | the selection becomes its toggle; nothing else changes |
| `CameraControl.CameraControlProvider.SelectAllCameras` | client/src/contexts/CameraControlContext.tsx:79-81 | the selection becomes exactly the cameras' names |
| `CameraControl.CameraControlProvider.DeselectAllCameras` | client/src/contexts/CameraControlContext.tsx:83-85 | the selection is emptied |
| `CameraControl.CameraControlProvider.RegisterCameraCallbacks` | client/src/contexts/CameraControlContext.tsx:87-89 | sets the one entry, other entries unchanged |
| `CameraControl.CameraControlProvider.UnregisterCameraCallbacks` | client/src/contexts/CameraControlContext.tsx:91-93 | deletes the one entry |
| `CameraControl.CameraControlProvider.StopSelectedStreams` | client/src/contexts/CameraControlContext.tsx:107-114 | `onStreamStop` is invoked for exactly the selected ids that registered one |
| `CameraControl.CameraControlProvider.StartSelectedStreams` | client/src/contexts/CameraControlContext.tsx:95-105 | visits every selected camera, but the branch on `onStreamStart` is empty: no callback is invoked and no state changes |
| `CameraControl.CameraControlProvider.ToggleVideo` | client/src/contexts/CameraControlContext.tsx:116-119 | negates only the video flag |
| `CameraControl.CameraControlProvider.ToggleAudio` | client/src/contexts/CameraControlContext.tsx:121-124 | negates only the audio flag |
| `MobileCameraControl.CameraControlProvider.constructor` | mobile/src/contexts/CameraControlContext.tsx:25-26 | both flags start true |
| `MobileCameraControl.CameraControlProvider.ToggleVideo` | mobile/src/contexts/CameraControlContext.tsx:28-30 | negates the video flag, audio unchanged |
| `MobileCameraControl.CameraControlProvider.ToggleAudio` | mobile/src/contexts/CameraControlContext.tsx:32-34 | negates the audio flag, video unchanged |
| `MobileCameraControl.ToggleEachTwice` | mobile/src/contexts/CameraControlContext.tsx:28-34 | toggling each flag twice restores both |
| `WebCameraGrid.CameraGrid.constructor` | client/src/components/CameraGrid.tsx:24-26 | no streaming or loading cameras, no handles |
| `WebCameraGrid.CameraGrid.IsAnyStreaming` | client/src/components/CameraGrid.tsx:82 | true exactly when some camera is streaming |
| `WebCameraGrid.CameraGrid.IsAnyLoading` | client/src/components/CameraGrid.tsx:83 | true exactly when some camera is loading |
| `WebCameraGrid.CameraGrid.SetCameraRef` | client/src/components/CameraGrid.tsx:122-128 | a handle sets the camera's entry, a null ref deletes it |
| `WebCameraGrid.CameraGrid.OnStreamingChange` | client/src/components/CameraGrid.tsx:129-139 | adds or removes that camera's name only |
| `WebCameraGrid.CameraGrid.BeginGroupStart` | client/src/components/CameraGrid.tsx:44-45 | loading becomes exactly the selection |
| `WebCameraGrid.CameraGrid.HandleStartStreaming` | client/src/components/CameraGrid.tsx:43-62 | `startStream` is called on exactly the selected cameras that have a handle (the rest are skipped), in any order; those cameras are added to the streaming set; loading is empty afterwards |
| `WebCameraGrid.CameraGrid.HandleStopStreaming` | client/src/components/CameraGrid.tsx:64-80 | `stopStream` is called on exactly the selected cameras that have a handle; those leave the streaming set and other names keep their mark |
| `MobileCameraService.ErrorDetail` | mobile/src/services/CameraService.ts:39 | `error`, else `message`, else 'Unknown error'; empty strings fall through; never empty |
| `MobileCameraService.StatusError` | mobile/src/services/CameraService.ts:38-51 | keeps the status; 401, 403, 404 and 500 get their fixed messages, any other status 'Failed to load cameras: ' and the detail; only 401 is an auth error |
| `MobileCameraService.GetCameras` | mobile/src/services/CameraService.ts:20-57 | succeeds exactly for a readable body without the partner flag, giving its cameras or `[]`; the partner flag gives the 400 error unchanged; no response gives status 0 with the connect message; anything else the unexpected-error message |
| `MobileCameraService.AuthErrorExactlyFor401` | mobile/src/services/CameraService.ts:41-42 | `isAuthError` holds exactly for a 401 response |
| `MobileCameraService.StatusCodeOrigin` | mobile/src/services/CameraService.ts:37-55 | an HTTP error keeps its status; other failures carry 400 or 0 |
| `Auth.RequireAuth` | server/src/middleware/auth.ts:4-16 | passes exactly with a user id, an access token and an expiry that is absent, 0 or not before now; missing identity gives 401 'Authentication required' before the expiry is looked at, an expired token 401 'Token expired' |
| `Auth.ExpiryIsMonotone` | server/src/middleware/auth.ts:11-13 | admission only shrinks as time passes: expired stays expired |
| `Auth.Guarded` | server/src/routes/stream.ts:8 | behind the middleware a rejected request issues no device call and gets a 401; an admitted one is the handler's outcome |
| `Sdm.Render` | server/src/routes/stream.ts:21 | a value substituted into the template literal: a set variable renders as its value, an unset one as the text `undefined` |
| `Sdm.DeviceName` | server/src/routes/stream.ts:21 | `enterprises/{project}/devices/{deviceId}` starts with the enterprise prefix, ends with the id, and, when the id holds no '/', its last segment is the id |
| `Sdm.DeviceNameInjective` | server/src/routes/devices.ts:48 | distinct device ids give distinct device names |
| `DevicesRoute.FilterCameras` | server/src/routes/devices.ts:29-32 | keeps exactly the devices whose type includes CAMERA or DOORBELL |
| `DevicesRoute.FilterCamerasAppend` | server/src/routes/devices.ts:29-32 | the filter keeps the original order (it distributes over concatenation) |
| `DevicesRoute.FilterCamerasKeepsAll` | server/src/routes/devices.ts:29-34 | a list made only of cameras and doorbells passes through the filter unchanged |
| `DevicesRoute.FilterCamerasDropsAll` | server/src/routes/devices.ts:29-34 | a list without any camera or doorbell yields `[]` |
| `DevicesRoute.PartnerConnectionUrl` | server/src/routes/devices.ts:19 | Google's partner-connections URL for the project id, ending with the SDM scope |
| `DevicesRoute.HandleList` | server/src/routes/devices.ts:10-39 | empty list: no cameras, the partner flag, URL and message; non-empty: only the filtered cameras; failure: 500 'Failed to retrieve devices' |
| `DevicesRoute.HandleGet` | server/src/routes/devices.ts:41-55 | asks for the device's name built from its id and returns the device, or 500 'Failed to retrieve device details' |
| `DevicesRoute.ListRoute` | server/src/routes/devices.ts:8-39 | the list handler behind the middleware |
| `DevicesRoute.GetRoute` | server/src/routes/devices.ts:8-55 | the device handler behind the middleware |
| `StreamRoutes.Generate` | server/src/routes/stream.ts:10-32 | no truthy offer: 400 'offerSdp is required' and no device command; otherwise the generate command on the device name, its body passed on unchanged, or 500 |
| `StreamRoutes.Extend` | server/src/routes/stream.ts:34-48 | the extend command with the token unchecked; its body passed on, or 500 |
| `StreamRoutes.Stop` | server/src/routes/stream.ts:50-64 | the stop command with the token unchecked; `{success: true}` exactly when it succeeds, else 500 |
| `StreamRoutes.StreamCommandsTargetDevice` | server/src/routes/stream.ts:21-57 | when the device id holds no '/', every stream command targets a name whose last segment is that id |
| `StreamRoutes.GenerateRoute` | server/src/routes/stream.ts:8-32 | generate behind the middleware |
| `StreamRoutes.ExtendRoute` | server/src/routes/stream.ts:8-48 | extend behind the middleware |
| `StreamRoutes.StopRoute` | server/src/routes/stream.ts:8-64 | stop behind the middleware |
| `DeviceListing.Received` | mobile/src/services/CameraService.ts:37-39 | a 200 body reaches the client as a response; an error as its status with `{error}` |
| `DeviceListing.ListingReachesApp` | server/src/routes/devices.ts:10-39 | through the list route and `getCameras`: a rejected session is an auth error; a non-empty list gives exactly its filtered cameras; an empty one the partner error; a failed listing the server-error message |

## Left out

- Real WebRTC is replaced by a record of the setup calls and the applied
  descriptions: SDP content, ICE and the media flowing. On the web, a track
  arrives as an explicit event (`OnTrack`) on the latest session. On mobile,
  `StartStream` takes the collected stream as it stands when the call
  returns (`null` when no track has arrived).
- HTTP, axios (including the axios-retry configuration) and the
  googleapis client are replaced by parameters: an outcome that succeeds
  with a body or fails.
- Timers are fields that are armed or cleared. Each firing is a method call
  (`ExtendStream`, `KeepAlive`). The five-second delay of the battery
  prompt is kept only as a count of scheduled prompts.
- Promise concurrency is not modelled. Group start and stop run their steps
  one at a time, in an arbitrary order. A stop that arrives while a start is
  still pending is not modelled, and the code has no guard for it.
- React semantics are not modelled. State is read at its current value, so
  stale closures are not captured: the handle exposed with `[]` deps in
  client/src/components/CameraView.tsx:51-54, and interval callbacks that
  capture old state. Three stops in the source run a closure from a render
  where `streaming` is false and `streamData` is null, so none of them sends
  the remote stop:
  - the group stop through that handle;
  - the unmount cleanup (client/src/components/CameraView.tsx:64-67);
  - the stop after a failed extension (client/src/components/CameraView.tsx:230-232).

  The model's `StopStream` reads the current state and does send the remote
  stop in all three cases.
- Rendering, the video element (its `srcObject`, `muted` and the volume),
  logging and `Alert` dialogs are left out. The card's alert is recorded as
  the text shown.
- The web view's own callback registration (client/src/components/CameraView.tsx:57-68)
  is not modelled. The context's registry is.
- Closing a peer connection is modelled only as dropping it. A failed web
  or mobile start does not close the connection it created, and leaves
  `streaming`, the data and any previous timer as they were. The model
  follows the code here.
- `WebCameraView.CameraView.StartStream`: a start on a view whose
  extension timer is still armed overwrites the timer's ref without
  clearing it (client/src/components/CameraView.tsx:209). In the source the
  orphaned interval keeps extending with the old token. After a later stop
  it can store data while not streaming, or run the stop again. The model
  replaces the timer and does not represent the orphan. The view's own
  Start button shows only while the view is not streaming, and the group
  Start only while the grid marks no camera streaming
  (client/src/components/CameraView.tsx:334,
  client/src/components/MultiCameraControls.tsx:99). That keeps this path
  out of normal use, but `startStream` itself has no guard.
- `MobileWebRtc.WebRTCService.StartStream`: restarting a device that already holds an
  interval overwrites its map entry. The old interval is then never cleared
  but keeps firing. The model keeps only the map entry, so that timer is not
  represented.
- `mobile/src/services/AudioService.ts` (audio configuration) only logs, so
  it is left out. The native Android services, OAuth and session routes,
  cookie and navigation helpers, screens, the Pulumi setup and the server
  bootstrap are outside this model.
- `StreamRoutes.StreamCommandsTargetDevice`: covers only device ids
  without '/'. Express decodes an encoded '/' (`%2F`) in a path parameter,
  so a request can carry such an id, and the last segment of its target is
  then not the id.
- Device `traits` and other JSON fields that no core code reads are left
  out. A device type absent from the JSON is not modelled: the record's
  `type` is a string.
- `WebCameraGrid.CameraGrid.HandleStartStreaming`: the view's
  `startStream` never rejects, because it catches every error. So every
  selected camera with a handle is marked streaming, even one whose start
  failed, and the `catch` of the group start cannot run.
