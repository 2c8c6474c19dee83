/** The mobile background-audio service: a guarded flag around the native
    module's start and stop calls, which do something only on Android. */
module BackgroundAudio {

  /** What an operation did with the native module: returned early without
      calling it, called it successfully, or called it and rethrew its error. */
  datatype NativeCall = Skipped | Succeeded | Failed

  class BackgroundAudioService {
    /** `Platform.OS === 'android'`. */
    const isAndroid: bool
    var isServiceRunning: bool

    /** Off Android the service never runs. */
    ghost predicate Valid()
      reads this
    {
      !isAndroid ==> !isServiceRunning
    }

    constructor (android: bool)
      ensures Valid() && isAndroid == android && !isServiceRunning
    {
      isAndroid := android;
      isServiceRunning := false;
    }

    /** `startBackgroundAudio`. `nativeOk` is whether the native start succeeds. */
    method StartBackgroundAudio(nativeOk: bool) returns (r: NativeCall)
      requires Valid()
      modifies this
      ensures Valid()
      ensures !isAndroid || old(isServiceRunning) ==> r == Skipped && isServiceRunning == old(isServiceRunning)
      ensures isAndroid && !old(isServiceRunning) ==>
        r == (if nativeOk then Succeeded else Failed) && isServiceRunning == nativeOk
    {
      if !isAndroid {
        return Skipped;
      }
      if isServiceRunning {
        return Skipped;
      }
      if nativeOk {
        isServiceRunning := true;
        r := Succeeded;
      } else {
        r := Failed;
      }
    }

    /** `stopBackgroundAudio`. `nativeOk` is whether the native stop succeeds. */
    method StopBackgroundAudio(nativeOk: bool) returns (r: NativeCall)
      requires Valid()
      modifies this
      ensures Valid()
      ensures !isAndroid || !old(isServiceRunning) ==> r == Skipped && isServiceRunning == old(isServiceRunning)
      ensures isAndroid && old(isServiceRunning) ==>
        r == (if nativeOk then Succeeded else Failed) && isServiceRunning == !nativeOk
    {
      if !isAndroid {
        return Skipped;
      }
      if !isServiceRunning {
        return Skipped;
      }
      if nativeOk {
        isServiceRunning := false;
        r := Succeeded;
      } else {
        r := Failed;
      }
    }

    /** `isRunning`; never true off Android. */
    function IsRunning(): (r: bool)
      reads this
      requires Valid()
      ensures r ==> isAndroid
    {
      isServiceRunning
    }
  }
}
