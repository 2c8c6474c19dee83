/** The camera record the device list delivers, and what the views derive
    from it: the device id used in stream paths and the displayed name. */
module Cameras {
  import opened Wrappers
  import opened Text

  datatype ParentRelation = ParentRelation(parent: string, displayName: string)

  /** A device as listed (`traits` is not modelled). */
  datatype Camera = Camera(name: string, deviceType: string, parentRelations: seq<ParentRelation>)

  /** The JSON body of `GET /api/devices`, each field absent as `None`. */
  datatype DevicesBody = DevicesBody(
    cameras: Option<seq<Camera>>,
    requiresPartnerConnection: Option<bool>,
    partnerConnectionUrl: Option<string>,
    message: Option<string>)

  /** `camera.parentRelations[0]?.displayName || deviceId`: the first parent
      relation's display name when there is one and it is not empty,
      otherwise the fallback. */
  function DisplayName(c: Camera, fallback: string): (r: string)
    ensures |c.parentRelations| == 0 ==> r == fallback
    ensures |c.parentRelations| > 0 && c.parentRelations[0].displayName != "" ==> r == c.parentRelations[0].displayName
    ensures r == fallback || (|c.parentRelations| > 0 && r == c.parentRelations[0].displayName && r != "")
  {
    if |c.parentRelations| > 0 && c.parentRelations[0].displayName != "" then c.parentRelations[0].displayName
    else fallback
  }

  /** `new Set(cameras.map(cam => cam.name))`. */
  function CameraNames(cameras: seq<Camera>): (r: set<string>)
    ensures forall i :: 0 <= i < |cameras| ==> cameras[i].name in r
    ensures forall n :: n in r ==> exists i :: 0 <= i < |cameras| && cameras[i].name == n
    ensures |r| <= |cameras|
  {
    if cameras == [] then {}
    else
      var rest := CameraNames(cameras[1..]);
      assert forall n :: n in rest ==> exists i :: 0 <= i < |cameras| && cameras[i].name == n by {
        forall n | n in rest ensures exists i :: 0 <= i < |cameras| && cameras[i].name == n {
          var j :| 0 <= j < |cameras[1..]| && cameras[1..][j].name == n;
          assert cameras[j + 1].name == n;
        }
      }
      assert forall i :: 1 <= i < |cameras| ==> cameras[i].name in rest by {
        forall i | 1 <= i < |cameras| ensures cameras[i].name in rest {
          assert cameras[1..][i - 1] == cameras[i];
        }
      }
      assert |{cameras[0].name} + rest| <= |{cameras[0].name}| + |rest|;
      {cameras[0].name} + rest
  }
}
