/**
 * The static configuration the media core reads: the video track descriptor
 * and the default values it is shipped with. It has no behaviour of its own.
 */
module AppConfig {
  import opened Optional
  import opened JsStrings

  /** `type: 'system' | 'livekit'`; any other tag read at run time is `Unrecognised`. */
  datatype TrackType = System | Livekit | Unrecognised(tag: string)

  /** One selectable video source. `icon` and `description` are display metadata. */
  datatype VideoTrackConfig = VideoTrackConfig(
    id: string,
    displayLabel: string,  // `label`
    kind: TrackType,
    livekitTrackName: Option<string>,
    enabled: bool,
    icon: Option<string>,
    description: Option<string>)

  /** The LiveKit track name a descriptor stands for: `livekitTrackName || id`. */
  function TrackKey(c: VideoTrackConfig): (k: string)
    ensures c.livekitTrackName.Some? && c.livekitTrackName.value != "" ==> k == c.livekitTrackName.value
    ensures c.livekitTrackName.None? || c.livekitTrackName.value == "" ==> k == c.id
  {
    OrElse(c.livekitTrackName.GetOr(""), c.id)
  }

  /** Default audio exclusion patterns. */
  const ExcludeAudioTracks: seq<string> := ["xunfei_audio_track"]

  /** Default identities whose transcriptions belong to the local user. */
  const UserTranscriptionIdentities: seq<string> := ["xunfei_service_agent"]

  /** Default for smart participant matching of unattributed messages. */
  const EnableSmartParticipantMatching: bool := true

  /** Default for showing participant names in the transcript. */
  const ShowParticipantNames: bool := false

  /** The id of the built-in system camera descriptor. */
  const SystemCameraId: string := "system_camera_default"

  /** The default video descriptors: the system camera and the face-detection channel. */
  const AvailableVideoTracks: seq<VideoTrackConfig> := [
    VideoTrackConfig(SystemCameraId, "系统默认摄像头", System, None, true,
                     Some("📹"), Some("系统默认摄像头设备")),
    VideoTrackConfig("xunfei_video_track", "人脸检测频道", Livekit, Some("xunfei_video_track"), true,
                     Some("📡"), Some("讯飞人脸检测预览"))
  ]

  /** The descriptor selected by default. */
  const DefaultVideoTrack: Option<string> := Some("xunfei_video_track")
}
