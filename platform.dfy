/**
 * The real-time media platform as plain values: participants, their track
 * publications and the track handles the platform hands out. What the
 * platform does (subscribe, publish, capture) is modelled where it is called,
 * as recorded calls and as success or failure outcomes chosen by the caller.
 */
module Platform {
  import opened Optional
  import opened JsStrings

  /** Identity of one live media track object. */
  type Handle = nat

  datatype Kind = Audio | Video

  /** A participant's advertisement of a track; `track` is present once media is delivered. */
  datatype Publication = Publication(
    sid: string,
    trackName: string,
    kind: Kind,
    isSubscribed: bool,
    track: Option<Handle>)

  /** A participant of the room with its publications (audio and video, in the platform's order). */
  datatype Participant = Participant(
    identity: string,
    name: string,
    isLocal: bool,
    isAgent: bool,
    publications: seq<Publication>)

  /** The name every component keys a publication by: `trackName || trackSid`. */
  function PublicationName(p: Publication): (n: string)
    ensures p.trackName != "" ==> n == p.trackName
    ensures p.trackName == "" ==> n == p.sid
  {
    OrElse(p.trackName, p.sid)
  }

  /** A camera track captured on this device. `name` is the name LiveKit gave it. */
  datatype LocalTrack = LocalTrack(handle: Handle, name: string)

  /** A camera publication of the local participant. */
  datatype CameraPublication = CameraPublication(track: LocalTrack, name: string)

  /**
   * What the video components pass around as "the track": the source probes
   * it by shape (`'kind' in x`); here it is a tagged union.
   *  - `LocalVideo`: a local capture track object;
   *  - `RemoteReference`: a reference to a remote participant's publication;
   *  - `LocalCameraReference`: a reference to the local camera publication.
   */
  datatype TrackOrReference =
    | LocalVideo(track: LocalTrack)
    | RemoteReference(participantIdentity: string, publicationSid: string)
    | LocalCameraReference(publication: CameraPublication)
}
