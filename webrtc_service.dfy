/** The mobile `WebRTCService`: one instance serves every camera card. It
    keeps the extension intervals by device id, and the number of entries
    in that map decides when the keep-alive and background-audio services
    are started and stopped. */
module MobileWebRtc {
  import opened Wrappers
  import opened Text
  import opened Envelope
  import opened Media
  import opened KeepAlive
  import opened BackgroundAudio

  /** Why `startStream` rethrew. */
  datatype StartError = OfferFailed | GenerateFailed | NoAnswerSdp | RemoteDescriptionFailed

  /** What `startStream` resolves to. `stream` is the collected stream as
      it stood when the call returned: `null` when no track had arrived. */
  datatype Started = Started(peerConnection: PeerConnection, stream: MediaStream?, streamData: StreamData)

  class WebRTCService {
    const keepAlive: KeepAliveService
    const backgroundAudio: BackgroundAudioService
    /** `streamExtensionIntervals`: device id to its armed extension interval. */
    var streamExtensionIntervals: map<string, Interval>
    /** Stream-control requests sent so far, in order. */
    var sent: seq<Request>

    /** While any extension interval is held the keep-alive service is
        active, and every interval has the four-minute period. */
    ghost predicate Valid()
      reads this, keepAlive, backgroundAudio
    {
      && keepAlive.Valid() && backgroundAudio.Valid()
      && (|streamExtensionIntervals| > 0 ==> keepAlive.isActive)
      && forall d :: d in streamExtensionIntervals ==> streamExtensionIntervals[d].periodMs == ExtensionPeriodMs
    }

    constructor (k: KeepAliveService, b: BackgroundAudioService)
      requires k.Valid() && b.Valid()
      ensures Valid() && keepAlive == k && backgroundAudio == b
      ensures streamExtensionIntervals == map[] && sent == []
    {
      keepAlive, backgroundAudio := k, b;
      streamExtensionIntervals, sent := map[], [];
    }

    /** `startStream(deviceId)`. The offer, the generate call, the
        remote-description step and the native background-audio start are
        parameters that succeed or fail. Keep-alive is started as soon as the
        generate call answers, before the answer is checked; background
        audio is requested when exactly one interval is held afterwards, and
        its failure is swallowed. Any other failure is rethrown. */
    method StartStream(deviceId: string, offer: Option<string>, response: Option<StreamData>,
                       answerAccepted: bool, nativeStartOk: bool, stream: MediaStream?)
      returns (r: Result<Started, StartError>)
      requires Valid()
      modifies this, keepAlive, backgroundAudio
      ensures Valid()
      ensures sent == old(sent) + (if offer.Some? then [Generate(deviceId, offer.value)] else [])
      ensures r.Success? <==> NegotiationSucceeds(offer, response, answerAccepted)
      ensures r.Success? ==> r.value == Started(NegotiatedPeer(offer.value, response.value), stream, response.value)
      ensures offer.None? ==> r == Failure(OfferFailed)
      ensures offer.Some? && response.None? ==> r == Failure(GenerateFailed)
      ensures offer.Some? && response.Some? && !Truthy(Lookup(response.value, AnswerSdp)) ==> r == Failure(NoAnswerSdp)
      ensures r.Failure? && offer.Some? && response.Some? && Truthy(Lookup(response.value, AnswerSdp)) ==>
        r.error == RemoteDescriptionFailed
      ensures offer.Some? && response.Some? ==>
        && keepAlive.isActive && keepAlive.pings == old(keepAlive.pings)
        && keepAlive.batteryPrompts == old(keepAlive.batteryPrompts) + (if old(keepAlive.isActive) then 0 else 1)
      ensures !(offer.Some? && response.Some?) ==> unchanged(keepAlive)
      ensures streamExtensionIntervals ==
        if r.Success? && Truthy(Lookup(response.value, StreamExtensionToken))
        then old(streamExtensionIntervals)[deviceId := Interval(ExtensionPeriodMs, Lookup(response.value, StreamExtensionToken).value)]
        else old(streamExtensionIntervals)
      ensures backgroundAudio.isServiceRunning ==
        if r.Success? && |streamExtensionIntervals| == 1 && backgroundAudio.isAndroid && !old(backgroundAudio.isServiceRunning)
        then nativeStartOk else old(backgroundAudio.isServiceRunning)
    {
      var pc := ConfiguredPeer();
      if offer.None? {
        return Failure(OfferFailed);
      }
      pc := pc.(localOffer := offer);
      sent := sent + [Generate(deviceId, offer.value)];
      if response.None? {
        return Failure(GenerateFailed);
      }
      keepAlive.Start();
      var answer := Lookup(response.value, AnswerSdp);
      if !Truthy(answer) {
        return Failure(NoAnswerSdp);
      }
      var sdp := NormalizeAnswer(answer.value);
      if !answerAccepted {
        return Failure(RemoteDescriptionFailed);
      }
      pc := pc.(remoteAnswer := Some(sdp));
      var token := Lookup(response.value, StreamExtensionToken);
      if Truthy(token) {
        streamExtensionIntervals := streamExtensionIntervals[deviceId := Interval(ExtensionPeriodMs, token.value)];
      }
      if |streamExtensionIntervals| == 1 {
        var _ := backgroundAudio.StartBackgroundAudio(nativeStartOk);
      }
      r := Success(Started(pc, stream, response.value));
    }

    /** One firing of `deviceId`'s extension interval: `extendStream` with
        the token captured when it was armed. Success resolves to the new
        data, which nothing stores; failure calls `stopStream` with an
        envelope holding only the extension token, so the interval is
        removed but no remote stop is sent. */
    method ExtendStream(deviceId: string, response: Option<StreamData>, nativeStopOk: bool)
      returns (r: Option<StreamData>)
      requires Valid() && deviceId in streamExtensionIntervals
      modifies this, keepAlive, backgroundAudio
      ensures Valid()
      ensures sent == old(sent) + [Extend(deviceId, old(streamExtensionIntervals)[deviceId].token)]
      ensures r == response
      ensures response.Some? ==>
        && streamExtensionIntervals == old(streamExtensionIntervals)
        && unchanged(keepAlive) && unchanged(backgroundAudio)
      ensures response.None? ==>
        && streamExtensionIntervals == old(streamExtensionIntervals) - {deviceId}
        && (|streamExtensionIntervals| == 0 ==> !keepAlive.isActive)
        && keepAlive.pings == old(keepAlive.pings) && keepAlive.batteryPrompts == old(keepAlive.batteryPrompts)
        && (|streamExtensionIntervals| > 0 ==> unchanged(keepAlive) && unchanged(backgroundAudio))
        && backgroundAudio.isServiceRunning ==
             (old(backgroundAudio.isServiceRunning) && !(|streamExtensionIntervals| == 0 && nativeStopOk))
    {
      var token := streamExtensionIntervals[deviceId].token;
      sent := sent + [Extend(deviceId, token)];
      if response.Some? {
        return response;
      }
      StopStream(deviceId, ExtensionOnly(token), true, nativeStopOk);
      r := None;
    }

    /** `stopStream(deviceId, streamData)`, which never throws. The device's
        interval is removed (other devices' entries stay); a remote stop is
        sent when the data yields a stream token; and once no interval is
        left keep-alive and background audio are stopped, unless the stop
        request failed, since its error skips that step. */
    method StopStream(deviceId: string, data: StreamData, stopRequestOk: bool, nativeStopOk: bool)
      requires Valid()
      modifies this, keepAlive, backgroundAudio
      ensures Valid()
      ensures streamExtensionIntervals == old(streamExtensionIntervals) - {deviceId}
      ensures sent == old(sent) +
        (if Truthy(Lookup(data, StreamToken)) then [Stop(deviceId, Lookup(data, StreamToken).value)] else [])
      ensures var shutdown := (!Truthy(Lookup(data, StreamToken)) || stopRequestOk) && |streamExtensionIntervals| == 0;
        && (shutdown ==> !keepAlive.isActive)
        && keepAlive.pings == old(keepAlive.pings) && keepAlive.batteryPrompts == old(keepAlive.batteryPrompts)
        && (!shutdown ==> unchanged(keepAlive) && unchanged(backgroundAudio))
        && backgroundAudio.isServiceRunning == (old(backgroundAudio.isServiceRunning) && !(shutdown && nativeStopOk))
    {
      if deviceId in streamExtensionIntervals {
        streamExtensionIntervals := streamExtensionIntervals - {deviceId};
      }
      var token := Lookup(data, StreamToken);
      if Truthy(token) {
        sent := sent + [Stop(deviceId, token.value)];
        if !stopRequestOk {
          return;
        }
      }
      if |streamExtensionIntervals| == 0 {
        keepAlive.Stop();
        var _ := backgroundAudio.StopBackgroundAudio(nativeStopOk);
      }
    }
  }
}
