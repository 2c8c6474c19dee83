/** The web client's `CameraControlContext`: the camera selection, the two
    global media flags and the registry of per-camera callbacks. The
    selection edits are whole-value functions; the flags and the registry
    are state the provider updates in place. */
module CameraControl {
  import opened Wrappers
  import opened Cameras

  /** Which of the optional callbacks a camera registered. */
  datatype CameraCallbacks = CameraCallbacks(onStreamStart: bool, onStreamStop: bool, onError: bool)

  /** The updater passed to `setSelectedCameras` by `toggleCameraSelection`:
      `id` changes membership and no other id does. */
  function ToggleSelection(selected: set<string>, id: string): (r: set<string>)
    ensures id in r <==> id !in selected
    ensures forall x :: x in r && x != id ==> x in selected
    ensures forall x :: x in selected && x != id ==> x in r
  {
    if id in selected then selected - {id} else selected + {id}
  }

  /** Toggling the same id twice restores the selection. */
  lemma {:induction false} ToggleTwice(selected: set<string>, id: string)
    ensures ToggleSelection(ToggleSelection(selected, id), id) == selected
  {
    var once := ToggleSelection(selected, id);
    var twice := ToggleSelection(once, id);
    assert forall x :: x in twice <==> x in selected;
  }

  /** Toggles of two different ids can be made in either order. */
  lemma {:induction false} TogglesCommute(selected: set<string>, a: string, b: string)
    ensures ToggleSelection(ToggleSelection(selected, a), b) == ToggleSelection(ToggleSelection(selected, b), a)
  {
    var ab := ToggleSelection(ToggleSelection(selected, a), b);
    var ba := ToggleSelection(ToggleSelection(selected, b), a);
    assert forall x :: x in ab <==> x in ba;
  }

  class CameraControlProvider {
    /** The `cameras` prop. */
    const cameras: seq<Camera>
    var selectedCameras: set<string>
    var videoEnabled: bool
    var audioEnabled: bool
    /** `cameraCallbacks.current`. */
    var cameraCallbacks: map<string, CameraCallbacks>

    /** A new provider: nothing selected, both flags on, no callbacks. */
    constructor (cs: seq<Camera>)
      ensures cameras == cs && selectedCameras == {} && videoEnabled && audioEnabled
      ensures cameraCallbacks == map[]
    {
      cameras := cs;
      selectedCameras, videoEnabled, audioEnabled := {}, true, true;
      cameraCallbacks := map[];
    }

    method ToggleCameraSelection(cameraId: string)
      modifies this
      ensures selectedCameras == ToggleSelection(old(selectedCameras), cameraId)
      ensures videoEnabled == old(videoEnabled) && audioEnabled == old(audioEnabled)
      ensures cameraCallbacks == old(cameraCallbacks)
    {
      selectedCameras := ToggleSelection(selectedCameras, cameraId);
    }

    /** `selectAllCameras`: the selection becomes exactly the set of the
      cameras' names. */
    method SelectAllCameras()
      modifies this
      ensures selectedCameras == CameraNames(cameras)
      ensures forall n :: n in selectedCameras <==> exists i :: 0 <= i < |cameras| && cameras[i].name == n
      ensures videoEnabled == old(videoEnabled) && audioEnabled == old(audioEnabled)
      ensures cameraCallbacks == old(cameraCallbacks)
    {
      selectedCameras := CameraNames(cameras);
    }

    method DeselectAllCameras()
      modifies this
      ensures selectedCameras == {}
      ensures videoEnabled == old(videoEnabled) && audioEnabled == old(audioEnabled)
      ensures cameraCallbacks == old(cameraCallbacks)
    {
      selectedCameras := {};
    }

    /** `registerCameraCallbacks`: sets the entry of `cameraId` only. */
    method RegisterCameraCallbacks(cameraId: string, callbacks: CameraCallbacks)
      modifies this
      ensures cameraCallbacks == old(cameraCallbacks)[cameraId := callbacks]
      ensures forall id :: id != cameraId ==> (id in cameraCallbacks <==> id in old(cameraCallbacks))
      ensures selectedCameras == old(selectedCameras)
      ensures videoEnabled == old(videoEnabled) && audioEnabled == old(audioEnabled)
    {
      cameraCallbacks := cameraCallbacks[cameraId := callbacks];
    }

    /** `unregisterCameraCallbacks`: deletes the entry of `cameraId` only. */
    method UnregisterCameraCallbacks(cameraId: string)
      modifies this
      ensures cameraCallbacks == old(cameraCallbacks) - {cameraId}
      ensures cameraId !in cameraCallbacks
      ensures selectedCameras == old(selectedCameras)
      ensures videoEnabled == old(videoEnabled) && audioEnabled == old(audioEnabled)
    {
      cameraCallbacks := cameraCallbacks - {cameraId};
    }

    /** `stopSelectedStreams`: the ids whose `onStreamStop` is invoked, which
      are exactly the selected ids with one registered. */
    method StopSelectedStreams() returns (invoked: set<string>)
      ensures invoked == set id | id in selectedCameras && id in cameraCallbacks && cameraCallbacks[id].onStreamStop
    {
      invoked := {};
      var pending := selectedCameras;
      while pending != {}
        invariant pending <= selectedCameras
        invariant invoked == set id | id in selectedCameras - pending && id in cameraCallbacks && cameraCallbacks[id].onStreamStop
        decreases |pending|
      {
        var cameraId :| cameraId in pending;
        if cameraId in cameraCallbacks && cameraCallbacks[cameraId].onStreamStop {
          invoked := invoked + {cameraId};
        }
        pending := pending - {cameraId};
      }
    }

    /** `startSelectedStreams`: the loop visits every selected camera and
      tests its `onStreamStart`, but the branch taken is empty, so no
      callback is invoked and nothing changes. */
    method StartSelectedStreams() returns (invoked: set<string>)
      ensures invoked == {}
    {
      invoked := {};
      var pending := selectedCameras;
      while pending != {}
        invariant invoked == {}
        decreases |pending|
      {
        var cameraId :| cameraId in pending;
        pending := pending - {cameraId};
      }
    }

    method ToggleVideo()
      modifies this
      ensures videoEnabled == !old(videoEnabled) && audioEnabled == old(audioEnabled)
      ensures selectedCameras == old(selectedCameras) && cameraCallbacks == old(cameraCallbacks)
    {
      videoEnabled := !videoEnabled;
    }

    method ToggleAudio()
      modifies this
      ensures audioEnabled == !old(audioEnabled) && videoEnabled == old(videoEnabled)
      ensures selectedCameras == old(selectedCameras) && cameraCallbacks == old(cameraCallbacks)
    {
      audioEnabled := !audioEnabled;
    }
  }
}
