/** What both stream sessions (web and mobile) share: media tracks and the
    stream object that collects them, the record of how a peer connection
    was set up, the three stream-control requests and the extension timer. */
module Media {
  import opened Wrappers
  import opened Text
  import opened Envelope

  datatype Kind = Audio | Video

  /** A media track: its kind and whether it is enabled. */
  datatype Track = Track(kind: Kind, enabled: bool)

  predicate HasKind(ts: seq<Track>, k: Kind) {
    exists i :: 0 <= i < |ts| && ts[i].kind == k
  }

  /** A collected stream is published once it holds at least one audio and
      at least one video track. */
  predicate Playable(ts: seq<Track>) {
    HasKind(ts, Audio) && HasKind(ts, Video)
  }

  /** `track.enabled = value` for a track of kind `k`; other tracks are left alone. */
  function Enable(t: Track, k: Kind, value: bool): Track {
    if t.kind == k then t.(enabled := value) else t
  }

  /** Every track of kind `k` with its `enabled` flag set to `value`. */
  function WithEnabled(ts: seq<Track>, k: Kind, value: bool): (r: seq<Track>)
    ensures |r| == |ts|
    ensures forall i :: 0 <= i < |ts| ==> r[i].kind == ts[i].kind
    ensures forall i :: 0 <= i < |ts| && ts[i].kind == k ==> r[i].enabled == value
    ensures forall i :: 0 <= i < |ts| && ts[i].kind != k ==> r[i] == ts[i]
  {
    if ts == [] then [] else [Enable(ts[0], k, value)] + WithEnabled(ts[1..], k, value)
  }

  /** Setting video tracks and setting audio tracks are independent of each
      other: either order gives the same tracks. */
  lemma {:induction false} WithEnabledCommutes(ts: seq<Track>, video: bool, audio: bool)
    ensures WithEnabled(WithEnabled(ts, Video, video), Audio, audio)
         == WithEnabled(WithEnabled(ts, Audio, audio), Video, video)
  {
    var a := WithEnabled(WithEnabled(ts, Video, video), Audio, audio);
    var b := WithEnabled(WithEnabled(ts, Audio, audio), Video, video);
    assert |a| == |b|;
    forall i | 0 <= i < |a| ensures a[i] == b[i] {
      assert a[i] == Enable(Enable(ts[i], Video, video), Audio, audio);
      assert b[i] == Enable(Enable(ts[i], Audio, audio), Video, video);
    }
  }

  /** Setting a kind to the flag it already has, again, changes nothing. */
  lemma WithEnabledIdempotent(ts: seq<Track>, k: Kind, value: bool)
    ensures WithEnabled(WithEnabled(ts, k, value), k, value) == WithEnabled(ts, k, value)
  {
    var once := WithEnabled(ts, k, value);
    var twice := WithEnabled(once, k, value);
    assert |twice| == |once|;
    forall i | 0 <= i < |once| ensures twice[i] == once[i] {
      if ts[i].kind == k {
        assert once[i] == ts[i].(enabled := value);
      }
    }
  }

  /** A `MediaStream`: its tracks are updated in place. */
  class MediaStream {
    var tracks: seq<Track>

    constructor ()
      ensures tracks == []
    {
      tracks := [];
    }

    method AddTrack(t: Track)
      modifies this
      ensures tracks == old(tracks) + [t]
    {
      tracks := tracks + [t];
    }

    /** `getTracksOfKind(k).forEach(track => track.enabled = value)`. */
    method SetEnabled(k: Kind, value: bool)
      modifies this
      ensures tracks == WithEnabled(old(tracks), k, value)
    {
      var i := 0;
      while i < |tracks|
        invariant 0 <= i <= |tracks| == |old(tracks)|
        invariant forall j :: 0 <= j < i ==> tracks[j] == Enable(old(tracks)[j], k, value)
        invariant forall j :: i <= j < |tracks| ==> tracks[j] == old(tracks)[j]
      {
        if tracks[i].kind == k {
          tracks := tracks[i := tracks[i].(enabled := value)];
        }
        i := i + 1;
      }
      ghost var expected := WithEnabled(old(tracks), k, value);
      assert |tracks| == |expected|;
      forall j | 0 <= j < |tracks| ensures tracks[j] == expected[j] {
      }
    }
  }

  datatype Direction = RecvOnly

  /** One setup call on a new peer connection, in the order it was made. */
  datatype SetupStep =
    | AddTransceiver(kind: Kind, direction: Direction)
    | CreateDataChannel(channel: string, ordered: bool)

  /** A peer connection as the model sees it: its ICE configuration, its
      setup calls, and the local offer and remote answer applied to it. */
  datatype PeerConnection = PeerConnection(
    iceServers: seq<string>,
    setup: seq<SetupStep>,
    localOffer: Option<string>,
    remoteAnswer: Option<string>)

  /** The m-line that a setup step contributes to the SDP offer. */
  function MediaSection(s: SetupStep): string {
    match s
    case AddTransceiver(Audio, _) => "audio"
    case AddTransceiver(Video, _) => "video"
    case CreateDataChannel(_, _) => "application"
  }

  function MediaSections(steps: seq<SetupStep>): (r: seq<string>)
    ensures |r| == |steps| && forall i :: 0 <= i < |steps| ==> r[i] == MediaSection(steps[i])
  {
    if steps == [] then [] else [MediaSection(steps[0])] + MediaSections(steps[1..])
  }

  const DataChannelLabel := "dataSendChannel"

  /** A new peer connection as both sessions build it: no ICE servers, a
      receive-only audio transceiver, then a receive-only video one, then one
      ordered data channel, and nothing negotiated yet. */
  function ConfiguredPeer(): (pc: PeerConnection)
    ensures pc.iceServers == []
    ensures MediaSections(pc.setup) == ["audio", "video", "application"]
    ensures forall i :: 0 <= i < |pc.setup| && pc.setup[i].AddTransceiver? ==> pc.setup[i].direction == RecvOnly
    ensures forall i :: 0 <= i < |pc.setup| && pc.setup[i].CreateDataChannel? ==> pc.setup[i].ordered
    ensures pc.localOffer == None && pc.remoteAnswer == None
  {
    PeerConnection([],
      [AddTransceiver(Audio, RecvOnly), AddTransceiver(Video, RecvOnly), CreateDataChannel(DataChannelLabel, true)],
      None, None)
  }

  /** A negotiation attempt succeeds when an offer was made and applied
      locally, the generate call answered, the answer held a truthy answer
      SDP, and the normalised answer was accepted as remote description. */
  predicate NegotiationSucceeds(offer: Option<string>, response: Option<StreamData>, answerAccepted: bool) {
    offer.Some? && response.Some? && Truthy(Lookup(response.value, AnswerSdp)) && answerAccepted
  }

  /** The peer connection after a successful negotiation. */
  function NegotiatedPeer(offer: string, data: StreamData): (pc: PeerConnection)
    requires Truthy(Lookup(data, AnswerSdp))
    ensures pc.iceServers == ConfiguredPeer().iceServers && pc.setup == ConfiguredPeer().setup
    ensures pc.localOffer == Some(offer)
    ensures pc.remoteAnswer.Some? && EndsWithNewline(pc.remoteAnswer.value)
    ensures NormalizeAnswer(Lookup(data, AnswerSdp).value) == pc.remoteAnswer.value
  {
    ConfiguredPeer().(localOffer := Some(offer), remoteAnswer := Some(NormalizeAnswer(Lookup(data, AnswerSdp).value)))
  }

  /** The three stream-control requests, `POST /api/stream/{deviceId}/…`. */
  datatype Request =
    | Generate(deviceId: string, offerSdp: string)
    | Extend(deviceId: string, streamExtensionToken: string)
    | Stop(deviceId: string, streamToken: string)

  /** The endpoint a stream-control request is posted to. */
  function Action(r: Request): (a: string)
    ensures '/' !in a && |a| > 0
  {
    match r
    case Generate(_, _) => "generate"
    case Extend(_, _) => "extend"
    case Stop(_, _) => "stop"
  }

  /** The request path of a stream-control request: the stream API prefix,
      the request's own device id as the next segment, and the endpoint as
      the last segment. */
  function Path(r: Request): (p: string)
    ensures |p| == 13 + |r.deviceId| + |Action(r)| && p[..12] == "/api/stream/"
    ensures p[12..12 + |r.deviceId|] == r.deviceId && p[12 + |r.deviceId|] == '/'
    ensures LastSegment(p) == Action(r)
  {
    var head := "/api/stream/" + r.deviceId;
    var p := head + "/" + Action(r);
    PathParts(head, Action(r));
    AppendParts("/api/stream/", r.deviceId);
    LastSegmentAfterSlash(head, Action(r));
    p
  }

  /** `head/tail` begins with `head`, followed by the '/'. */
  lemma PathParts(head: string, tail: string)
    ensures var p := head + "/" + tail; |p| == |head| + 1 + |tail| && p[..|head|] == head && p[|head|] == '/'
  {
  }

  /** Two requests posted to the same path are for the same device and the
      same endpoint, even when device ids contain '/'. */
  lemma {:induction false} PathIdentifiesRequest(a: Request, b: Request)
    requires Path(a) == Path(b)
    ensures a.deviceId == b.deviceId && Action(a) == Action(b)
  {
    assert Action(a) == LastSegment(Path(a)) == LastSegment(Path(b)) == Action(b);
    assert |a.deviceId| == |b.deviceId|;
    assert a.deviceId == Path(a)[12..12 + |a.deviceId|] == Path(b)[12..12 + |b.deviceId|] == b.deviceId;
  }

  /** Four minutes: the extension timer period (a grant lasts five). */
  const ExtensionPeriodMs: nat := 4 * 60 * 1000

  /** An armed `setInterval` that resends the extension token it captured. */
  datatype Interval = Interval(periodMs: nat, token: string)
}
