/** The web client's per-camera stream session (`CameraView`): start,
    timer-driven extension, stop, track collection and the two effects that
    apply the global video and audio flags to the live tracks.

    React state is read as its current value; the network calls, the offer
    and setRemoteDescription are parameters that either succeed or fail. */
module WebCameraView {
  import opened Wrappers
  import opened Text
  import opened Envelope
  import opened Media
  import opened Cameras

  const StartFailedMessage := "Failed to start camera stream"

  class CameraView {
    const cameraName: string
    const deviceId: string
    const displayName: string
    var streaming: bool
    var loading: bool
    var error: Option<string>
    /** The generate (or last extend) response, `null` as `None`. */
    var streamData: Option<StreamData>
    /** `peerConnectionRef.current`. */
    var peerConnection: Option<PeerConnection>
    /** `streamExtensionIntervalRef.current`. */
    var extensionTimer: Option<Interval>
    /** The stream the current peer connection's track handler collects into. */
    var collected: MediaStream?
    var remoteStream: MediaStream?
    /** The view's own copies of the flags, shown in its status line. */
    var videoEnabled: bool
    var audioEnabled: bool
    /** Stream-control requests sent so far, in order. */
    var sent: seq<Request>

    /** The session invariant: stream data and a peer connection are held
        exactly while streaming, and the extension timer is armed only
        while streaming, always with the four-minute period. */
    ghost predicate Valid()
      reads this
    {
      && (streamData.Some? <==> streaming)
      && (peerConnection.Some? <==> streaming)
      && (extensionTimer.Some? ==> streaming && extensionTimer.value.periodMs == ExtensionPeriodMs)
    }

    /** A mounted view: nothing streaming, both flags on, the device id the
        last path segment of the camera name. */
    constructor (camera: Camera)
      ensures Valid()
      ensures cameraName == camera.name && deviceId == LastSegment(camera.name)
      ensures displayName == DisplayName(camera, deviceId)
      ensures !streaming && !loading && error == None && streamData == None
      ensures peerConnection == None && extensionTimer == None
      ensures collected == null && remoteStream == null
      ensures videoEnabled && audioEnabled && sent == []
    {
      cameraName := camera.name;
      var id := LastSegment(camera.name);
      deviceId := id;
      displayName := DisplayName(camera, id);
      streaming, loading, error, streamData := false, false, None, None;
      peerConnection, extensionTimer := None, None;
      collected, remoteStream := null, null;
      videoEnabled, audioEnabled := true, true;
      sent := [];
    }

    /** `startStream`. `offer` is the local offer (`None` when creating or
        applying it fails), `response` the generate call's body (`None` when
        the call fails), `answerAccepted` whether setRemoteDescription
        accepts the normalised answer. The result is the argument passed to
        `onStreamingChange`, if it is called. */
    method StartStream(offer: Option<string>, response: Option<StreamData>, answerAccepted: bool)
      returns (streamingChange: Option<bool>)
      requires Valid()
      modifies this
      ensures Valid()
      ensures !loading
      ensures sent == old(sent) + (if offer.Some? then [Generate(deviceId, offer.value)] else [])
      ensures collected == null
      ensures NegotiationSucceeds(offer, response, answerAccepted) ==>
        && streaming && error == None && streamData == response
        && peerConnection == Some(NegotiatedPeer(offer.value, response.value))
        && extensionTimer == (var t := Lookup(response.value, StreamExtensionToken);
                              if Truthy(t) then Some(Interval(ExtensionPeriodMs, t.value)) else old(extensionTimer))
        && streamingChange == Some(true)
      ensures !NegotiationSucceeds(offer, response, answerAccepted) ==>
        && streaming == old(streaming) && error == Some(StartFailedMessage)
        && streamData == old(streamData) && peerConnection == old(peerConnection)
        && extensionTimer == old(extensionTimer) && streamingChange == None
      ensures remoteStream == old(remoteStream)
      ensures videoEnabled == old(videoEnabled) && audioEnabled == old(audioEnabled)
    {
      loading, error := true, None;
      var pc := ConfiguredPeer();
      collected := null;
      var succeeded := false;
      if offer.Some? {
        pc := pc.(localOffer := offer);
        sent := sent + [Generate(deviceId, offer.value)];
        if response.Some? {
          var answer := Lookup(response.value, AnswerSdp);
          if Truthy(answer) {
            var sdp := NormalizeAnswer(answer.value);
            if answerAccepted {
              pc := pc.(remoteAnswer := Some(sdp));
              succeeded := true;
            }
          }
        }
      }
      streamingChange := SettleStart(succeeded, pc, response);
    }

    /** What follows the negotiation: on success the data and the peer
        connection are stored, `streaming` is set and the extension timer is
        armed when the data yields an extension token; on failure the error
        is set. `loading` ends false either way (`finally`). */
    method SettleStart(succeeded: bool, pc: PeerConnection, response: Option<StreamData>)
      returns (streamingChange: Option<bool>)
      requires Valid() && (succeeded ==> response.Some?)
      modifies this
      ensures Valid() && !loading
      ensures succeeded ==>
        && streaming && error == old(error) && streamData == response && peerConnection == Some(pc)
        && extensionTimer == (var t := Lookup(response.value, StreamExtensionToken);
                              if Truthy(t) then Some(Interval(ExtensionPeriodMs, t.value)) else old(extensionTimer))
        && streamingChange == Some(true)
      ensures !succeeded ==>
        && streaming == old(streaming) && error == Some(StartFailedMessage)
        && streamData == old(streamData) && peerConnection == old(peerConnection)
        && extensionTimer == old(extensionTimer) && streamingChange == None
      ensures sent == old(sent) && collected == old(collected) && remoteStream == old(remoteStream)
      ensures videoEnabled == old(videoEnabled) && audioEnabled == old(audioEnabled)
    {
      if succeeded {
        streamData := response;
        peerConnection := Some(pc);
        streaming := true;
        streamingChange := Some(true);
        var token := Lookup(response.value, StreamExtensionToken);
        if Truthy(token) {
          extensionTimer := Some(Interval(ExtensionPeriodMs, token.value));
        }
      } else {
        error := Some(StartFailedMessage);
        streamingChange := None;
      }
      loading := false;
    }

    /** `stopStream`: clears the timer and the peer connection, sends a
        remote stop only when streaming with stream data that yields a
        stream token (a failure of that call is swallowed), and ends not
        streaming with no stream data. */
    method StopStream() returns (streamingChange: Option<bool>)
      requires Valid()
      modifies this
      ensures Valid()
      ensures extensionTimer == None && peerConnection == None
      ensures !streaming && streamData == None && streamingChange == Some(false)
      ensures sent == old(sent) +
        (if old(streaming) && old(streamData).Some? && Truthy(Lookup(old(streamData).value, StreamToken))
         then [Stop(deviceId, Lookup(old(streamData).value, StreamToken).value)] else [])
      ensures loading == old(loading) && error == old(error)
      ensures collected == old(collected) && remoteStream == old(remoteStream)
      ensures videoEnabled == old(videoEnabled) && audioEnabled == old(audioEnabled)
    {
      extensionTimer := None;
      peerConnection := None;
      if streaming && streamData.Some? {
        var token := Lookup(streamData.value, StreamToken);
        if Truthy(token) {
          sent := sent + [Stop(deviceId, token.value)];
        }
      }
      streaming := false;
      streamData := None;
      streamingChange := Some(false);
    }

    /** One firing of the extension timer: `extendStream` with the token the
        timer captured when it was armed. A successful extend replaces the
        stream data (the timer keeps resending the original token); a failed
        one stops the stream. `response` is the extend call's body, `None`
        when it fails. */
    method ExtendStream(response: Option<StreamData>) returns (streamingChange: Option<bool>)
      requires Valid() && extensionTimer.Some?
      modifies this
      ensures Valid()
      ensures response.Some? ==>
        && sent == old(sent) + [Extend(deviceId, old(extensionTimer).value.token)]
        && streamData == response && streaming
        && extensionTimer == old(extensionTimer) && peerConnection == old(peerConnection)
        && streamingChange == None
      ensures response.None? ==>
        && sent == old(sent) + [Extend(deviceId, old(extensionTimer).value.token)] +
             (if Truthy(Lookup(old(streamData).value, StreamToken))
              then [Stop(deviceId, Lookup(old(streamData).value, StreamToken).value)] else [])
        && !streaming && streamData == None && extensionTimer == None && peerConnection == None
        && streamingChange == Some(false)
      ensures loading == old(loading) && error == old(error)
      ensures collected == old(collected) && remoteStream == old(remoteStream)
      ensures videoEnabled == old(videoEnabled) && audioEnabled == old(audioEnabled)
    {
      var token := extensionTimer.value.token;
      sent := sent + [Extend(deviceId, token)];
      if response.Some? {
        streamData := response;
        streamingChange := None;
      } else {
        streamingChange := StopStream();
      }
    }

    /** The track handler of the current peer connection: a track is added
        to the collected stream (created on the first track), and the
        collected stream becomes the remote stream once it holds both an
        audio and a video track. */
    method OnTrack(t: Track) returns (published: bool)
      requires Valid()
      modifies this, collected
      ensures Valid()
      ensures collected != null
      ensures old(collected) == null ==> fresh(collected) && collected.tracks == [t]
      ensures old(collected) != null ==> collected == old(collected) && collected.tracks == old(collected.tracks) + [t]
      ensures published <==> Playable(collected.tracks)
      ensures remoteStream == if published then collected else old(remoteStream)
      ensures streaming == old(streaming) && streamData == old(streamData)
      ensures peerConnection == old(peerConnection) && extensionTimer == old(extensionTimer)
      ensures sent == old(sent) && videoEnabled == old(videoEnabled) && audioEnabled == old(audioEnabled)
      ensures loading == old(loading) && error == old(error)
    {
      if collected == null {
        collected := new MediaStream();
      }
      collected.AddTrack(t);
      published := Playable(collected.tracks);
      if published {
        remoteStream := collected;
      }
    }

    /** The global video effect: only when streaming with a remote stream,
        every video track takes the global flag; audio tracks are untouched. */
    method SyncVideo(globalVideoEnabled: bool)
      requires Valid()
      modifies this, remoteStream
      ensures Valid()
      ensures remoteStream == old(remoteStream)
      ensures old(remoteStream != null && streaming) ==>
        && remoteStream.tracks == WithEnabled(old(remoteStream.tracks), Video, globalVideoEnabled)
        && videoEnabled == globalVideoEnabled
      ensures !old(remoteStream != null && streaming) ==>
        && videoEnabled == old(videoEnabled)
        && (remoteStream != null ==> remoteStream.tracks == old(remoteStream.tracks))
      ensures audioEnabled == old(audioEnabled) && streaming == old(streaming) && sent == old(sent)
      ensures streamData == old(streamData) && extensionTimer == old(extensionTimer)
      ensures peerConnection == old(peerConnection) && collected == old(collected)
      ensures loading == old(loading) && error == old(error)
    {
      if remoteStream != null && streaming {
        remoteStream.SetEnabled(Video, globalVideoEnabled);
        videoEnabled := globalVideoEnabled;
      }
    }

    /** The global audio effect, symmetric to `SyncVideo`. */
    method SyncAudio(globalAudioEnabled: bool)
      requires Valid()
      modifies this, remoteStream
      ensures Valid()
      ensures remoteStream == old(remoteStream)
      ensures old(remoteStream != null && streaming) ==>
        && remoteStream.tracks == WithEnabled(old(remoteStream.tracks), Audio, globalAudioEnabled)
        && audioEnabled == globalAudioEnabled
      ensures !old(remoteStream != null && streaming) ==>
        && audioEnabled == old(audioEnabled)
        && (remoteStream != null ==> remoteStream.tracks == old(remoteStream.tracks))
      ensures videoEnabled == old(videoEnabled) && streaming == old(streaming) && sent == old(sent)
      ensures streamData == old(streamData) && extensionTimer == old(extensionTimer)
      ensures peerConnection == old(peerConnection) && collected == old(collected)
      ensures loading == old(loading) && error == old(error)
    {
      if remoteStream != null && streaming {
        remoteStream.SetEnabled(Audio, globalAudioEnabled);
        audioEnabled := globalAudioEnabled;
      }
    }
  }

  /** Stopping twice sends at most the one remote stop of the first call:
      the second finds nothing streaming. */
  method StopTwice(v: CameraView)
    requires v.Valid()
    modifies v
    ensures v.Valid() && !v.streaming && v.extensionTimer == None && v.peerConnection == None
    ensures v.sent == old(v.sent) +
      (if old(v.streaming) && Truthy(Lookup(old(v.streamData).value, StreamToken))
       then [Stop(v.deviceId, Lookup(old(v.streamData).value, StreamToken).value)] else [])
  {
    var _ := v.StopStream();
    var _ := v.StopStream();
  }
}
