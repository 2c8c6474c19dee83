/** The server's view of the Smart Device Management API: the environment
    it reads, the device resource names it builds, and the calls it makes
    through the client wrapper. */
module Sdm {
  import opened Wrappers
  import opened Text
  import opened Envelope
  import opened Cameras
  import opened Http

  /** `process.env` as far as the routes read it; unset variables are `None`. */
  datatype Env = Env(projectId: Option<string>, frontendUrl: Option<string>, clientId: Option<string>)

  /** A value substituted into a template literal: an unset variable
      renders as the text "undefined". */
  function Render(v: Option<string>): (r: string)
    ensures v.Some? ==> r == v.value
    ensures v.None? ==> r == "undefined"
  {
    if v.Some? then v.value else "undefined"
  }

  const DeviceNamePrefix := "enterprises/"
  const DevicesInfix := "/devices/"

  /** `enterprises/${GOOGLE_PROJECT_ID}/devices/${deviceId}`: it starts with
      the enterprise prefix, ends with the device id, and when the id holds
      no '/' its last path segment gives the id back, which is how the
      clients derive device ids from these names. */
  function DeviceName(env: Env, deviceId: string): (r: string)
    ensures |r| >= |DeviceNamePrefix| + |deviceId| && r[..|DeviceNamePrefix|] == DeviceNamePrefix
    ensures r[|r| - |deviceId|..] == deviceId
    ensures '/' !in deviceId ==> LastSegment(r) == deviceId
  {
    var head := DeviceNamePrefix + Render(env.projectId) + "/devices";
    var r := head + "/" + deviceId;
    assert r == DeviceNamePrefix + Render(env.projectId) + DevicesInfix + deviceId;
    assert r[|r| - |deviceId|..] == deviceId;
    assert r[..|DeviceNamePrefix|] == DeviceNamePrefix;
    if '/' !in deviceId then
      LastSegmentAfterSlash(head, deviceId);
      r
    else
      r
  }

  /** Under one environment, distinct device ids are addressed by distinct
      device names. */
  lemma {:induction false} DeviceNameInjective(env: Env, a: string, b: string)
    requires DeviceName(env, a) == DeviceName(env, b)
    ensures a == b
  {
    var p := DeviceNamePrefix + Render(env.projectId) + DevicesInfix;
    assert DeviceName(env, a) == p + a;
    assert DeviceName(env, b) == p + b;
    assert a == (p + a)[|p|..];
    assert b == (p + b)[|p|..];
  }

  /** The device calls the routes make through the client wrapper. */
  datatype Command =
    | ListDevices
    | GetDevice(deviceName: string)
    | GenerateWebRtcStream(deviceName: string, offerSdp: string)
    | ExtendWebRtcStream(deviceName: string, streamExtensionToken: Option<string>)
    | StopWebRtcStream(deviceName: string, streamToken: Option<string>)

  /** What one request did: the device call it issued, if any, and the
      response it sent. */
  datatype Handled<+B> = Handled(command: Option<Command>, response: Response<B>)
}
