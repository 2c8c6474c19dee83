/** The mobile per-camera card (`CameraCard`): it starts and stops its
    camera through the shared `WebRTCService`, holds the peer connection and
    stream data in refs, and applies the global flags to the live tracks.
    State is read as its current value; the service calls' outcomes are
    parameters. */
module MobileCameraCard {
  import opened Wrappers
  import opened Text
  import opened Envelope
  import opened Media
  import opened Cameras
  import opened MobileWebRtc

  const StreamErrorAlert := "Failed to start camera stream"

  class CameraCard {
    const service: WebRTCService
    const cameraName: string
    const deviceId: string
    const displayName: string
    var streaming: bool
    var loading: bool
    var remoteStream: MediaStream?
    var videoEnabled: bool
    var audioEnabled: bool
    /** `peerConnectionRef.current`, `null` as `None`. */
    var peerConnectionRef: Option<PeerConnection>
    /** `streamDataRef.current`, `null` as `None`. */
    var streamDataRef: Option<StreamData>
    /** Alert messages shown so far, in order. */
    var alerts: seq<string>

    /** Both refs are held exactly while streaming, and the shared service
        keeps its own invariant. */
    ghost predicate Valid()
      reads this, service, service.keepAlive, service.backgroundAudio
    {
      && service.Valid()
      && (peerConnectionRef.Some? <==> streaming)
      && (streamDataRef.Some? <==> streaming)
    }

    constructor (camera: Camera, s: WebRTCService)
      requires s.Valid()
      ensures Valid() && service == s
      ensures cameraName == camera.name && deviceId == LastSegment(camera.name)
      ensures displayName == DisplayName(camera, deviceId)
      ensures !streaming && !loading && remoteStream == null
      ensures videoEnabled && audioEnabled
      ensures peerConnectionRef == None && streamDataRef == None && alerts == []
    {
      var id := LastSegment(camera.name);
      var shown := DisplayName(camera, id);
      service, cameraName, deviceId, displayName := s, camera.name, id, shown;
      streaming, loading, remoteStream := false, false, null;
      videoEnabled, audioEnabled := true, true;
      peerConnectionRef, streamDataRef, alerts := None, None, [];
    }

    /** `startStream`: the service's result fills both refs and the remote
        stream and sets `streaming`; its rejection raises the alert and
        leaves the session as it was. `loading` ends false either way. */
    method StartStream(offer: Option<string>, response: Option<StreamData>, answerAccepted: bool,
                       nativeStartOk: bool, stream: MediaStream?)
      requires Valid()
      modifies this, service, service.keepAlive, service.backgroundAudio
      ensures Valid() && !loading
      ensures service.sent == old(service.sent) + (if offer.Some? then [Generate(deviceId, offer.value)] else [])
      ensures NegotiationSucceeds(offer, response, answerAccepted) ==>
        && streaming && remoteStream == stream
        && peerConnectionRef == Some(NegotiatedPeer(offer.value, response.value))
        && streamDataRef == response && alerts == old(alerts)
      ensures !NegotiationSucceeds(offer, response, answerAccepted) ==>
        && streaming == old(streaming) && remoteStream == old(remoteStream)
        && peerConnectionRef == old(peerConnectionRef) && streamDataRef == old(streamDataRef)
        && alerts == old(alerts) + [StreamErrorAlert]
      ensures videoEnabled == old(videoEnabled) && audioEnabled == old(audioEnabled)
      ensures service.streamExtensionIntervals ==
        if NegotiationSucceeds(offer, response, answerAccepted) && Truthy(Lookup(response.value, StreamExtensionToken))
        then old(service.streamExtensionIntervals)[deviceId := Interval(ExtensionPeriodMs, Lookup(response.value, StreamExtensionToken).value)]
        else old(service.streamExtensionIntervals)
      ensures offer.Some? && response.Some? ==>
        && service.keepAlive.isActive && service.keepAlive.pings == old(service.keepAlive.pings)
        && service.keepAlive.batteryPrompts == old(service.keepAlive.batteryPrompts) + (if old(service.keepAlive.isActive) then 0 else 1)
      ensures !(offer.Some? && response.Some?) ==> unchanged(service.keepAlive)
      ensures service.backgroundAudio.isServiceRunning ==
        if NegotiationSucceeds(offer, response, answerAccepted) && |service.streamExtensionIntervals| == 1
           && service.backgroundAudio.isAndroid && !old(service.backgroundAudio.isServiceRunning)
        then nativeStartOk else old(service.backgroundAudio.isServiceRunning)
    {
      loading := true;
      var r := service.StartStream(deviceId, offer, response, answerAccepted, nativeStartOk, stream);
      SettleStart(r);
    }

    /** What follows the service call: a result fills the refs and the
        remote stream and sets `streaming` (the `try` block), a rejection
        raises the alert (`catch`), and `loading` ends false (`finally`). */
    method SettleStart(r: Result<Started, StartError>)
      requires peerConnectionRef.Some? <==> streaming
      requires streamDataRef.Some? <==> streaming
      modifies this
      ensures peerConnectionRef.Some? <==> streaming
      ensures streamDataRef.Some? <==> streaming
      ensures !loading
      ensures r.Success? ==>
        && streaming && remoteStream == r.value.stream
        && peerConnectionRef == Some(r.value.peerConnection) && streamDataRef == Some(r.value.streamData)
        && alerts == old(alerts)
      ensures r.Failure? ==>
        && streaming == old(streaming) && remoteStream == old(remoteStream)
        && peerConnectionRef == old(peerConnectionRef) && streamDataRef == old(streamDataRef)
        && alerts == old(alerts) + [StreamErrorAlert]
      ensures videoEnabled == old(videoEnabled) && audioEnabled == old(audioEnabled)
    {
      if r.Success? {
        peerConnectionRef := Some(r.value.peerConnection);
        streamDataRef := Some(r.value.streamData);
        remoteStream := r.value.stream;
        streaming := true;
      } else {
        alerts := alerts + [StreamErrorAlert];
      }
      loading := false;
    }

    /** `stopStream`: the peer-connection ref is cleared, the service is
        asked to stop only while stream data is held (and that call never
        fails), then the remote stream is dropped and `streaming` ends false. */
    method StopStream(stopRequestOk: bool, nativeStopOk: bool)
      requires Valid()
      modifies this, service, service.keepAlive, service.backgroundAudio
      ensures Valid()
      ensures peerConnectionRef == None && streamDataRef == None
      ensures remoteStream == null && !streaming
      ensures old(streamDataRef).None? ==>
        unchanged(service) && unchanged(service.keepAlive) && unchanged(service.backgroundAudio)
      ensures old(streamDataRef).Some? ==>
        && service.streamExtensionIntervals == old(service.streamExtensionIntervals) - {deviceId}
        && service.sent == old(service.sent) +
             (var t := Lookup(old(streamDataRef).value, StreamToken);
              if Truthy(t) then [Stop(deviceId, t.value)] else [])
      ensures old(streamDataRef).Some? ==>
        var shutdown := (!Truthy(Lookup(old(streamDataRef).value, StreamToken)) || stopRequestOk)
                        && |service.streamExtensionIntervals| == 0;
        && (shutdown ==> !service.keepAlive.isActive)
        && (!shutdown ==> unchanged(service.keepAlive) && unchanged(service.backgroundAudio))
        && service.keepAlive.pings == old(service.keepAlive.pings)
        && service.keepAlive.batteryPrompts == old(service.keepAlive.batteryPrompts)
        && service.backgroundAudio.isServiceRunning ==
             (old(service.backgroundAudio.isServiceRunning) && !(shutdown && nativeStopOk))
      ensures loading == old(loading) && alerts == old(alerts)
      ensures videoEnabled == old(videoEnabled) && audioEnabled == old(audioEnabled)
    {
      if peerConnectionRef.Some? {
        peerConnectionRef := None;
      }
      if streamDataRef.Some? {
        service.StopStream(deviceId, streamDataRef.value, stopRequestOk, nativeStopOk);
        streamDataRef := None;
      }
      remoteStream := null;
      streaming := false;
    }

    /** The unmount cleanup: `stopStream`. */
    method Unmount(stopRequestOk: bool, nativeStopOk: bool)
      requires Valid()
      modifies this, service, service.keepAlive, service.backgroundAudio
      ensures Valid()
      ensures peerConnectionRef == None && streamDataRef == None
      ensures remoteStream == null && !streaming
      ensures old(streamDataRef).None? ==>
        unchanged(service) && unchanged(service.keepAlive) && unchanged(service.backgroundAudio)
      ensures old(streamDataRef).Some? ==>
        && service.streamExtensionIntervals == old(service.streamExtensionIntervals) - {deviceId}
        && service.sent == old(service.sent) +
             (var t := Lookup(old(streamDataRef).value, StreamToken);
              if Truthy(t) then [Stop(deviceId, t.value)] else [])
      ensures old(streamDataRef).Some? ==>
        var shutdown := (!Truthy(Lookup(old(streamDataRef).value, StreamToken)) || stopRequestOk)
                        && |service.streamExtensionIntervals| == 0;
        && (shutdown ==> !service.keepAlive.isActive)
        && (!shutdown ==> unchanged(service.keepAlive) && unchanged(service.backgroundAudio))
        && service.keepAlive.pings == old(service.keepAlive.pings)
        && service.keepAlive.batteryPrompts == old(service.keepAlive.batteryPrompts)
        && service.backgroundAudio.isServiceRunning ==
             (old(service.backgroundAudio.isServiceRunning) && !(shutdown && nativeStopOk))
      ensures loading == old(loading) && alerts == old(alerts)
      ensures videoEnabled == old(videoEnabled) && audioEnabled == old(audioEnabled)
    {
      StopStream(stopRequestOk, nativeStopOk);
    }

    /** The global video effect: while streaming with a remote stream, the
        video tracks take the global flag and the audio tracks are left alone. */
    method SyncVideo(globalVideoEnabled: bool)
      requires Valid()
      modifies this, remoteStream
      ensures Valid()
      ensures remoteStream == old(remoteStream)
      ensures old(remoteStream != null && streaming) ==>
        && remoteStream.tracks == WithEnabled(old(remoteStream.tracks), Video, globalVideoEnabled)
        && videoEnabled == globalVideoEnabled
      ensures !old(remoteStream != null && streaming) ==>
        && videoEnabled == old(videoEnabled)
        && (remoteStream != null ==> remoteStream.tracks == old(remoteStream.tracks))
      ensures audioEnabled == old(audioEnabled) && streaming == old(streaming)
      ensures streamDataRef == old(streamDataRef) && peerConnectionRef == old(peerConnectionRef)
      ensures loading == old(loading) && alerts == old(alerts)
    {
      if remoteStream != null && streaming {
        remoteStream.SetEnabled(Video, globalVideoEnabled);
        videoEnabled := globalVideoEnabled;
      }
    }

    /** The global audio effect, symmetric to `SyncVideo`. */
    method SyncAudio(globalAudioEnabled: bool)
      requires Valid()
      modifies this, remoteStream
      ensures Valid()
      ensures remoteStream == old(remoteStream)
      ensures old(remoteStream != null && streaming) ==>
        && remoteStream.tracks == WithEnabled(old(remoteStream.tracks), Audio, globalAudioEnabled)
        && audioEnabled == globalAudioEnabled
      ensures !old(remoteStream != null && streaming) ==>
        && audioEnabled == old(audioEnabled)
        && (remoteStream != null ==> remoteStream.tracks == old(remoteStream.tracks))
      ensures videoEnabled == old(videoEnabled) && streaming == old(streaming)
      ensures streamDataRef == old(streamDataRef) && peerConnectionRef == old(peerConnectionRef)
      ensures loading == old(loading) && alerts == old(alerts)
    {
      if remoteStream != null && streaming {
        remoteStream.SetEnabled(Audio, globalAudioEnabled);
        audioEnabled := globalAudioEnabled;
      }
    }
  }

  /** A second `stopStream` makes no service call: the first one has
      already cleared the stream-data ref. */
  method StopTwice(c: CameraCard, stopRequestOk: bool, nativeStopOk: bool)
    requires c.Valid()
    modifies c, c.service, c.service.keepAlive, c.service.backgroundAudio
    ensures c.Valid() && !c.streaming
    ensures old(c.streamDataRef).None? ==>
      unchanged(c.service) && unchanged(c.service.keepAlive) && unchanged(c.service.backgroundAudio)
    ensures old(c.streamDataRef).Some? ==>
      && c.service.streamExtensionIntervals == old(c.service.streamExtensionIntervals) - {c.deviceId}
      && c.service.sent == old(c.service.sent) +
           (var t := Lookup(old(c.streamDataRef).value, StreamToken);
            if Truthy(t) then [Stop(c.deviceId, t.value)] else [])
  {
    c.StopStream(stopRequestOk, nativeStopOk);
    label afterFirst:
    c.StopStream(stopRequestOk, nativeStopOk);
    assert unchanged@afterFirst(c.service);
  }
}
