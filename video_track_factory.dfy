/**
 * The video track factory: it turns a descriptor into a local video track.
 * Camera capture is the platform's `createLocalVideoTrack`, passed in as
 * `capture` (`None` when capture fails or throws); the factory records the
 * capture request it makes so callers can see whether the camera was asked.
 */
module VideoTrackFactory {
  import opened Optional
  import opened AppConfig
  import opened Platform

  /** The options object given to the platform's capture call. */
  datatype CaptureOptions = DeviceId(deviceId: string) | FacingMode(mode: string)

  /** A factory result: the track (`null` is `None`) and the capture request made, if any. */
  datatype Creation = Creation(track: Option<LocalTrack>, request: Option<CaptureOptions>)

  /** The capture options for an optional device id: the device when one is given, else the front camera. */
  function CaptureRequest(deviceId: Option<string>): (o: CaptureOptions)
    ensures o.DeviceId? <==> deviceId.Some? && deviceId.value != ""
    ensures o.DeviceId? ==> o.deviceId == deviceId.value
    ensures o.FacingMode? ==> o.mode == "user"
  {
    if deviceId.Some? && deviceId.value != "" then DeviceId(deviceId.value) else FacingMode("user")
  }

  /** `createSystemCameraTrack(deviceId)`: one capture call; a failed capture yields no track. */
  function CreateSystemCameraTrack(deviceId: Option<string>, capture: CaptureOptions -> Option<LocalTrack>)
    : (c: Creation)
    ensures c.request.Some?
    ensures c.track == capture(c.request.value)
    ensures deviceId.None? ==> c.request == Some(FacingMode("user"))
  {
    var options := CaptureRequest(deviceId);
    Creation(capture(options), Some(options))
  }

  /**
   * `createLivekitTrack(config, existingTrack)`: the existing track is
   * returned as it is, whatever its name; without one there is no track.
   */
  function CreateLivekitTrack(config: VideoTrackConfig, existingTrack: Option<LocalTrack>): (r: Option<LocalTrack>)
    ensures r.Some? <==> existingTrack.Some?
    ensures r.Some? ==> r.value == existingTrack.value
  {
    if existingTrack.Some? then existingTrack else None
  }

  /** `createTrackFromConfig(config, existingTrack)`: dispatch on the descriptor's type. */
  function CreateTrackFromConfig(config: VideoTrackConfig, existingTrack: Option<LocalTrack>,
                                 capture: CaptureOptions -> Option<LocalTrack>): (c: Creation)
    ensures !config.enabled || config.kind.Unrecognised? ==> c == Creation(None, None)
    ensures c.track.Some? ==> config.enabled
    ensures config.enabled && config.kind == Livekit ==> c.request.None? && c.track == existingTrack
    ensures config.enabled && config.kind == System ==>
              c.request == Some(FacingMode("user")) && c.track == capture(FacingMode("user"))
    ensures c.request.Some? ==> config.kind == System
  {
    if !config.enabled then Creation(None, None)
    else match config.kind
      case System => CreateSystemCameraTrack(None, capture)
      case Livekit => Creation(CreateLivekitTrack(config, existingTrack), None)
      case Unrecognised(_) => Creation(None, None)
  }

  /** A system descriptor never looks at the existing track it is offered. */
  lemma SystemIgnoresExistingTrack(config: VideoTrackConfig, a: Option<LocalTrack>, b: Option<LocalTrack>,
                                   capture: CaptureOptions -> Option<LocalTrack>)
    requires config.kind == System
    ensures CreateTrackFromConfig(config, a, capture) == CreateTrackFromConfig(config, b, capture)
  {
  }

  /** A LiveKit descriptor never reaches the camera, so its result does not depend on capture. */
  lemma LivekitNeverCaptures(config: VideoTrackConfig, existingTrack: Option<LocalTrack>,
                             f: CaptureOptions -> Option<LocalTrack>, g: CaptureOptions -> Option<LocalTrack>)
    requires config.kind == Livekit
    ensures CreateTrackFromConfig(config, existingTrack, f) == CreateTrackFromConfig(config, existingTrack, g)
  {
  }
}
