/** The web client's `CameraGrid`: the sets of streaming and loading camera
    names, the registry of per-camera view handles, and the group start and
    stop over the current selection. A camera's own start and stop happen
    in its view; here each is one step, and the steps of a group operation
    run in an arbitrary order. */
module WebCameraGrid {
  import opened Wrappers

  /** A `CameraViewHandle` registered by a mounted view. */
  datatype ViewHandle = ViewHandle(cameraName: string)

  class CameraGrid {
    var streamingCameras: set<string>
    var loadingCameras: set<string>
    /** `cameraRefs.current`. */
    var cameraRefs: map<string, ViewHandle>

    constructor ()
      ensures streamingCameras == {} && loadingCameras == {} && cameraRefs == map[]
    {
      streamingCameras, loadingCameras, cameraRefs := {}, {}, map[];
    }

    /** `isAnyStreaming`. */
    function IsAnyStreaming(): (r: bool)
      reads this
      ensures r <==> streamingCameras != {}
    {
      |streamingCameras| > 0
    }

    /** `isAnyLoading`. */
    function IsAnyLoading(): (r: bool)
      reads this
      ensures r <==> loadingCameras != {}
    {
      |loadingCameras| > 0
    }

    /** The ref callback of a view: a handle is registered under the
        camera's name, a `null` ref removes the entry. */
    method SetCameraRef(cameraName: string, ref: Option<ViewHandle>)
      modifies this
      ensures ref.Some? ==> cameraRefs == old(cameraRefs)[cameraName := ref.value]
      ensures ref.None? ==> cameraRefs == old(cameraRefs) - {cameraName}
      ensures streamingCameras == old(streamingCameras) && loadingCameras == old(loadingCameras)
    {
      if ref.Some? {
        cameraRefs := cameraRefs[cameraName := ref.value];
      } else {
        cameraRefs := cameraRefs - {cameraName};
      }
    }

    /** A view's `onStreamingChange`: adds or removes that camera's name only. */
    method OnStreamingChange(cameraName: string, streaming: bool)
      modifies this
      ensures streamingCameras == if streaming then old(streamingCameras) + {cameraName} else old(streamingCameras) - {cameraName}
      ensures loadingCameras == old(loadingCameras) && cameraRefs == old(cameraRefs)
    {
      if streaming {
        streamingCameras := streamingCameras + {cameraName};
      } else {
        streamingCameras := streamingCameras - {cameraName};
      }
    }

    /** `handleStartStreaming`: the selection is marked loading, every
        selected camera with a handle has its `startStream` called (`started`
        are those cameras; one without a handle is skipped) and is then
        marked streaming (a view's start never rejects, so no step fails),
        and loading is cleared at the end. */
    method HandleStartStreaming(selected: set<string>) returns (started: set<string>)
      modifies this
      ensures started == selected * old(cameraRefs).Keys
      ensures streamingCameras == old(streamingCameras) + started
      ensures loadingCameras == {} && cameraRefs == old(cameraRefs)
    {
      BeginGroupStart(selected);
      started := {};
      var pending := selected;
      while pending != {}
        invariant pending <= selected && cameraRefs == old(cameraRefs)
        invariant forall n :: n in started <==> n in selected && n !in pending && n in cameraRefs
        invariant forall n :: n in streamingCameras <==> n in old(streamingCameras) || n in started
        decreases |pending|
      {
        var cameraName :| cameraName in pending;
        if cameraName in cameraRefs {
          started := started + {cameraName};
          streamingCameras := streamingCameras + {cameraName};
        }
        pending := pending - {cameraName};
      }
      loadingCameras := {};
    }

    /** The first step of a group start: exactly the selection is loading. */
    method BeginGroupStart(selected: set<string>)
      modifies this
      ensures loadingCameras == selected
      ensures streamingCameras == old(streamingCameras) && cameraRefs == old(cameraRefs)
    {
      loadingCameras := selected;
    }

    /** `handleStopStreaming`: every selected camera with a handle has its
        `stopStream` called (`stopped` are those cameras) and is then no
        longer marked streaming; other names keep their mark. */
    method HandleStopStreaming(selected: set<string>) returns (stopped: set<string>)
      modifies this
      ensures stopped == selected * old(cameraRefs).Keys
      ensures streamingCameras == old(streamingCameras) - stopped
      ensures loadingCameras == old(loadingCameras) && cameraRefs == old(cameraRefs)
    {
      stopped := {};
      var pending := selected;
      while pending != {}
        invariant pending <= selected
        invariant cameraRefs == old(cameraRefs) && loadingCameras == old(loadingCameras)
        invariant forall n :: n in stopped <==> n in selected && n !in pending && n in cameraRefs
        invariant forall n :: n in streamingCameras <==> n in old(streamingCameras) && n !in stopped
        decreases |pending|
      {
        var cameraName :| cameraName in pending;
        if cameraName in cameraRefs {
          stopped := stopped + {cameraName};
          streamingCameras := streamingCameras - {cameraName};
        }
        pending := pending - {cameraName};
      }
    }
  }
}
