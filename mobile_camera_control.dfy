/** The mobile `CameraControlContext`: two global flags, each negated by
    its own toggle. */
module MobileCameraControl {

  class CameraControlProvider {
    var videoEnabled: bool
    var audioEnabled: bool

    constructor ()
      ensures videoEnabled && audioEnabled
    {
      videoEnabled, audioEnabled := true, true;
    }

    method ToggleVideo()
      modifies this
      ensures videoEnabled == !old(videoEnabled) && audioEnabled == old(audioEnabled)
    {
      videoEnabled := !videoEnabled;
    }

    method ToggleAudio()
      modifies this
      ensures audioEnabled == !old(audioEnabled) && videoEnabled == old(videoEnabled)
    {
      audioEnabled := !audioEnabled;
    }
  }

  /** Toggling either flag twice restores both flags. */
  method ToggleEachTwice(p: CameraControlProvider)
    modifies p
    ensures p.videoEnabled == old(p.videoEnabled) && p.audioEnabled == old(p.audioEnabled)
  {
    p.ToggleVideo();
    p.ToggleVideo();
    p.ToggleAudio();
    p.ToggleAudio();
  }
}
