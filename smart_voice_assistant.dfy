/**
 * The avatar track choice: the voice assistant's own video track when its
 * name is not one of the configured video channels, otherwise the first
 * suitable video publication of an agent participant.
 */
module SmartVoiceAssistant {
  import opened Optional
  import opened Platform
  import ExcludedVideoTracks

  /** A reference to a participant's video publication. */
  datatype AvatarTrack = AvatarTrack(participantIdentity: string, publication: Publication)

  /** Not one of the configured channels (`shouldExcludeTrack(trackName || trackSid)` is false). */
  predicate Allowed(excludedTrackNames: seq<string>, pub: Publication) {
    !ExcludedVideoTracks.ShouldExcludeTrack(excludedTrackNames, PublicationName(pub))
  }

  /** A publication the fallback search accepts: an agent's subscribed video with media, not excluded. */
  predicate IsCandidate(excludedTrackNames: seq<string>, p: Participant, pub: Publication) {
    p.isAgent && pub.kind == Video && pub.isSubscribed && pub.track.Some? && Allowed(excludedTrackNames, pub)
  }

  /** The first candidate among one participant's publications from position `j` on. */
  function CandidateFrom(excludedTrackNames: seq<string>, p: Participant, j: nat): (r: Option<nat>)
    requires j <= |p.publications|
    decreases |p.publications| - j
    ensures r.Some? ==> j <= r.value < |p.publications| && IsCandidate(excludedTrackNames, p, p.publications[r.value])
    ensures r.Some? ==> forall k :: j <= k < r.value ==> !IsCandidate(excludedTrackNames, p, p.publications[k])
    ensures r.None? ==> forall k :: j <= k < |p.publications| ==> !IsCandidate(excludedTrackNames, p, p.publications[k])
  {
    if j == |p.publications| then None
    else if IsCandidate(excludedTrackNames, p, p.publications[j]) then Some(j)
    else CandidateFrom(excludedTrackNames, p, j + 1)
  }

  /**
   * The first candidate from participant `i` on, in participant order and
   * then publication order, as a pair of positions.
   */
  function FirstCandidateFrom(excludedTrackNames: seq<string>, ps: seq<Participant>, i: nat): (r: Option<(nat, nat)>)
    requires i <= |ps|
    decreases |ps| - i
    ensures r.Some? ==> i <= r.value.0 < |ps| && r.value.1 < |ps[r.value.0].publications| &&
                        IsCandidate(excludedTrackNames, ps[r.value.0], ps[r.value.0].publications[r.value.1])
    ensures r.Some? ==> forall a, b :: i <= a < |ps| && 0 <= b < |ps[a].publications| &&
                                       (a < r.value.0 || (a == r.value.0 && b < r.value.1)) ==>
                                       !IsCandidate(excludedTrackNames, ps[a], ps[a].publications[b])
    ensures r.None? ==> forall a, b :: i <= a < |ps| && 0 <= b < |ps[a].publications| ==>
                                       !IsCandidate(excludedTrackNames, ps[a], ps[a].publications[b])
  {
    if i == |ps| then None
    else
      var j := CandidateFrom(excludedTrackNames, ps[i], 0);
      if j.Some? then Some((i, j.value)) else FirstCandidateFrom(excludedTrackNames, ps, i + 1)
  }

  /**
   * `smartVideoTrack`: the assistant's own track if it is allowed,
   * otherwise the first candidate of the remote participants, otherwise
   * nothing.
   */
  function SmartVideoTrack(excludedTrackNames: seq<string>, assistantTrack: Option<AvatarTrack>,
                           remoteParticipants: seq<Participant>): (r: Option<AvatarTrack>)
    ensures assistantTrack.Some? && Allowed(excludedTrackNames, assistantTrack.value.publication) ==> r == assistantTrack
    // the chosen track is never one of the configured channels
    ensures r.Some? ==> Allowed(excludedTrackNames, r.value.publication)
    // otherwise the fallback is the first candidate, in participant order and then publication order
    ensures r.Some? && !(assistantTrack.Some? && Allowed(excludedTrackNames, assistantTrack.value.publication)) ==>
              exists a, b :: 0 <= a < |remoteParticipants| && 0 <= b < |remoteParticipants[a].publications| &&
                             IsCandidate(excludedTrackNames, remoteParticipants[a], remoteParticipants[a].publications[b]) &&
                             r.value == AvatarTrack(remoteParticipants[a].identity, remoteParticipants[a].publications[b]) &&
                             forall a2, b2 :: 0 <= a2 < |remoteParticipants| && 0 <= b2 < |remoteParticipants[a2].publications| &&
                                              (a2 < a || (a2 == a && b2 < b)) ==>
                                              !IsCandidate(excludedTrackNames, remoteParticipants[a2],
                                                           remoteParticipants[a2].publications[b2])
    ensures r.None? ==>
              (assistantTrack.None? || !Allowed(excludedTrackNames, assistantTrack.value.publication)) &&
              forall a, b :: 0 <= a < |remoteParticipants| && 0 <= b < |remoteParticipants[a].publications| ==>
                             !IsCandidate(excludedTrackNames, remoteParticipants[a], remoteParticipants[a].publications[b])
  {
    if assistantTrack.Some? && Allowed(excludedTrackNames, assistantTrack.value.publication) then assistantTrack
    else
      var found := FirstCandidateFrom(excludedTrackNames, remoteParticipants, 0);
      if found.Some? then
        var (a, b) := found.value;
        Some(AvatarTrack(remoteParticipants[a].identity, remoteParticipants[a].publications[b]))
      else None
  }
}
