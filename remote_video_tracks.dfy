/**
 * The registry of remote video tracks: a map from track name to a snapshot
 * of the publication, rebuilt from scratch on every refresh, and the
 * subscribe/unsubscribe operations that short-circuit on the cached flag.
 */
module RemoteVideoTracks {
  import opened Optional
  import opened JsStrings
  import opened Platform

  /** One registry entry: a copy of the publication's fields at refresh time. */
  datatype RemoteTrackInfo = RemoteTrackInfo(
    trackName: string,
    trackSid: string,
    participantIdentity: string,
    track: Option<Handle>,
    isSubscribed: bool)

  /** A `setSubscribed(subscribed)` call that reached the platform for this publication. */
  datatype SubscriptionCall = SetSubscribed(participantIdentity: string, trackSid: string, subscribed: bool)

  /** The entry refresh builds for one video publication. */
  function TrackInfo(identity: string, pub: Publication): (e: RemoteTrackInfo)
    ensures e.trackName == PublicationName(pub) && e.trackSid == pub.sid && e.participantIdentity == identity
    ensures e.track == pub.track && e.isSubscribed == pub.isSubscribed
  {
    RemoteTrackInfo(PublicationName(pub), pub.sid, identity, pub.track, pub.isSubscribed)
  }

  /** The entries of one participant's video publications, in publication order. */
  function EntriesOf(identity: string, pubs: seq<Publication>): seq<RemoteTrackInfo> {
    if pubs == [] then []
    else
      var pub := pubs[|pubs| - 1];
      EntriesOf(identity, pubs[..|pubs| - 1]) + (if pub.kind == Video then [TrackInfo(identity, pub)] else [])
  }

  /** The entries of all participants, participant by participant. */
  function Entries(ps: seq<Participant>): seq<RemoteTrackInfo> {
    if ps == [] then []
    else
      var p := ps[|ps| - 1];
      Entries(ps[..|ps| - 1]) + EntriesOf(p.identity, p.publications)
  }

  /** `tracks.set(trackName, info)` for each entry in turn: the last writer wins. */
  function IndexOf(es: seq<RemoteTrackInfo>): (m: map<string, RemoteTrackInfo>)
    ensures forall k :: k in m ==> m[k].trackName == k
  {
    if es == [] then map[]
    else
      var e := es[|es| - 1];
      IndexOf(es[..|es| - 1])[e.trackName := e]
  }

  /** A name is a key exactly when some entry carries it. */
  lemma {:induction false} IndexOfKeys(es: seq<RemoteTrackInfo>, name: string)
    ensures name in IndexOf(es) <==> exists j :: 0 <= j < |es| && es[j].trackName == name
  {
    if es != [] {
      var init := es[..|es| - 1];
      IndexOfKeys(init, name);
      if name in IndexOf(init) {
        var j :| 0 <= j < |init| && init[j].trackName == name;
        assert es[j] == init[j];
      }
      if j :| 0 <= j < |es| && es[j].trackName == name {
        if j < |init| {
          assert init[j] == es[j];
        }
      }
    }
  }

  /** When several entries share a name, the one stored is the last of them. */
  lemma {:induction false} IndexOfLastWins(es: seq<RemoteTrackInfo>, j: nat)
    requires j < |es|
    requires forall k :: j < k < |es| ==> es[k].trackName != es[j].trackName
    ensures es[j].trackName in IndexOf(es) && IndexOf(es)[es[j].trackName] == es[j]
  {
    if j < |es| - 1 {
      var init := es[..|es| - 1];
      forall k | j < k < |init|
        ensures init[k].trackName != init[j].trackName
      {
        assert init[k] == es[k];
      }
      IndexOfLastWins(init, j);
    }
  }

  /** Every stored entry is one of the entries, so it copies the fields of a real publication. */
  lemma {:induction false} IndexOfValuesAreEntries(es: seq<RemoteTrackInfo>, name: string)
    requires name in IndexOf(es)
    ensures IndexOf(es)[name] in es
  {
    var init := es[..|es| - 1];
    if es[|es| - 1].trackName != name {
      IndexOfValuesAreEntries(init, name);
    }
  }

  /** An entry comes from exactly one video publication of some participant. */
  lemma {:induction false} EntriesMembership(ps: seq<Participant>, e: RemoteTrackInfo)
    ensures e in Entries(ps) <==>
            exists i, j :: 0 <= i < |ps| && 0 <= j < |ps[i].publications| && ps[i].publications[j].kind == Video &&
                           e == TrackInfo(ps[i].identity, ps[i].publications[j])
  {
    if ps != [] {
      var init := ps[..|ps| - 1];
      var last := ps[|ps| - 1];
      EntriesMembership(init, e);
      EntriesOfMembership(last.identity, last.publications, e);
      if e in Entries(init) {
        var i, j :| 0 <= i < |init| && 0 <= j < |init[i].publications| && init[i].publications[j].kind == Video &&
                    e == TrackInfo(init[i].identity, init[i].publications[j]);
        assert ps[i] == init[i];
      }
      if e in EntriesOf(last.identity, last.publications) {
        var j :| 0 <= j < |last.publications| && last.publications[j].kind == Video &&
                 e == TrackInfo(last.identity, last.publications[j]);
        assert ps[|ps| - 1] == last;
      }
      if i, j :| 0 <= i < |ps| && 0 <= j < |ps[i].publications| && ps[i].publications[j].kind == Video &&
                 e == TrackInfo(ps[i].identity, ps[i].publications[j]) {
        if i < |init| {
          assert init[i] == ps[i];
        }
      }
    }
  }

  lemma {:induction false} EntriesOfMembership(identity: string, pubs: seq<Publication>, e: RemoteTrackInfo)
    ensures e in EntriesOf(identity, pubs) <==>
            exists j :: 0 <= j < |pubs| && pubs[j].kind == Video && e == TrackInfo(identity, pubs[j])
  {
    if pubs != [] {
      var init := pubs[..|pubs| - 1];
      EntriesOfMembership(identity, init, e);
      if e in EntriesOf(identity, init) {
        var j :| 0 <= j < |init| && init[j].kind == Video && e == TrackInfo(identity, init[j]);
        assert pubs[j] == init[j];
      }
      if j :| 0 <= j < |pubs| && pubs[j].kind == Video && e == TrackInfo(identity, pubs[j]) {
        if j < |init| {
          assert init[j] == pubs[j];
        }
      }
    }
  }

  /** After a refresh, the names in the map are exactly the names of the participants' video publications. */
  lemma RefreshedNames(ps: seq<Participant>, name: string)
    ensures name in IndexOf(Entries(ps)) <==>
            exists i, j :: 0 <= i < |ps| && 0 <= j < |ps[i].publications| && ps[i].publications[j].kind == Video &&
                           PublicationName(ps[i].publications[j]) == name
  {
    var es := Entries(ps);
    IndexOfKeys(es, name);
    if name in IndexOf(es) {
      var k :| 0 <= k < |es| && es[k].trackName == name;
      EntriesMembership(ps, es[k]);
    }
    if i, j :| 0 <= i < |ps| && 0 <= j < |ps[i].publications| && ps[i].publications[j].kind == Video &&
               PublicationName(ps[i].publications[j]) == name {
      var e := TrackInfo(ps[i].identity, ps[i].publications[j]);
      EntriesMembership(ps, e);
      var k :| 0 <= k < |es| && es[k] == e;
    }
  }

  /**
   * The outcome of `subscribeToTrack(name)` (`subscribe`) and of its mirror
   * `unsubscribeFromTrack(name)` (`!subscribe`) against the cached map: the
   * result, and the platform call made, if any. `fails` says `setSubscribed`
   * throws.
   */
  function SetSubscription(tracks: map<string, RemoteTrackInfo>, name: string, subscribe: bool, fails: bool)
    : (r: (bool, Option<SubscriptionCall>))
    ensures r.0 <==> name in tracks && (tracks[name].isSubscribed == subscribe || !fails)
    ensures r.1.Some? <==> name in tracks && tracks[name].isSubscribed != subscribe && !fails
    ensures r.1.Some? ==> r.1.value == SetSubscribed(tracks[name].participantIdentity, tracks[name].trackSid, subscribe)
  {
    if name !in tracks then (false, None)
    else if tracks[name].isSubscribed == subscribe then (true, None)
    else if fails then (false, None)
    else (true, Some(SetSubscribed(tracks[name].participantIdentity, tracks[name].trackSid, subscribe)))
  }

  function CallList(c: Option<SubscriptionCall>): seq<SubscriptionCall> {
    if c.Some? then [c.value] else []
  }

  /** The room events the hook listens to; a track event carries its track's kind. */
  datatype RoomEvent = TrackEvent(kind: Kind) | ParticipantEvent

  /** The hook's state: the cached map, and the `setSubscribed` calls it has issued. */
  class Registry {
    var remoteVideoTracks: map<string, RemoteTrackInfo>
    var calls: seq<SubscriptionCall>

    /** Every entry sits under its own name. */
    ghost predicate Valid()
      reads this
    {
      forall k :: k in remoteVideoTracks ==> remoteVideoTracks[k].trackName == k
    }

    constructor ()
      ensures Valid() && remoteVideoTracks == map[] && calls == []
    {
      remoteVideoTracks := map[];
      calls := [];
    }

    /** `refreshTracks`: a fresh map from the participants' video publications replaces the old one. */
    method RefreshTracks(participants: seq<Participant>)
      modifies this
      ensures Valid()
      ensures remoteVideoTracks == IndexOf(Entries(participants))
      ensures calls == old(calls)
    {
      var tracks: map<string, RemoteTrackInfo> := map[];
      var i := 0;
      while i < |participants|
        invariant 0 <= i <= |participants|
        invariant tracks == IndexOf(Entries(participants[..i]))
      {
        var participant := participants[i];
        assert participant.publications[..0] == [];
        assert Entries(participants[..i]) + EntriesOf(participant.identity, participant.publications[..0])
            == Entries(participants[..i]);
        var j := 0;
        while j < |participant.publications|
          invariant 0 <= j <= |participant.publications|
          invariant tracks == IndexOf(Entries(participants[..i]) + EntriesOf(participant.identity, participant.publications[..j]))
        {
          var publication := participant.publications[j];
          ghost var before := Entries(participants[..i]) + EntriesOf(participant.identity, participant.publications[..j]);
          assert participant.publications[..j + 1][..j] == participant.publications[..j];
          if publication.kind == Video {
            var info := TrackInfo(participant.identity, publication);
            assert (before + [info])[..|before|] == before;
            assert Entries(participants[..i]) + EntriesOf(participant.identity, participant.publications[..j + 1])
                == before + [info];
            tracks := tracks[info.trackName := info];
          } else {
            assert Entries(participants[..i]) + EntriesOf(participant.identity, participant.publications[..j + 1])
                == before;
          }
          j := j + 1;
        }
        assert participant.publications[..j] == participant.publications;
        assert participants[..i + 1][..i] == participants[..i];
        i := i + 1;
      }
      assert participants[..i] == participants;
      remoteVideoTracks := tracks;
    }

    /**
     * A room event: a track subscribed, unsubscribed, published or
     * unpublished refreshes the map only when the track is video; a
     * participant connecting or disconnecting always does.
     */
    method HandleRoomEvent(event: RoomEvent, participants: seq<Participant>)
      modifies this
      requires Valid()
      ensures Valid()
      ensures event.ParticipantEvent? || event.kind == Video ==> remoteVideoTracks == IndexOf(Entries(participants))
      ensures event.TrackEvent? && event.kind == Audio ==> remoteVideoTracks == old(remoteVideoTracks)
      ensures calls == old(calls)
    {
      if event.ParticipantEvent? || event.kind == Video {
        RefreshTracks(participants);
      }
    }

    /** `subscribeToTrack(trackName)`; the cached map itself is never updated. */
    method SubscribeToTrack(trackName: string, fails: bool) returns (ok: bool)
      modifies this
      ensures remoteVideoTracks == old(remoteVideoTracks)
      ensures var (result, call) := SetSubscription(old(remoteVideoTracks), trackName, true, fails);
              ok == result && calls == old(calls) + CallList(call)
    {
      if trackName !in remoteVideoTracks {
        return false;
      }
      var trackInfo := remoteVideoTracks[trackName];
      if trackInfo.isSubscribed {
        return true;
      }
      if fails {
        return false;
      }
      calls := calls + [SetSubscribed(trackInfo.participantIdentity, trackInfo.trackSid, true)];
      return true;
    }

    /** `unsubscribeFromTrack(trackName)`, the mirror of `SubscribeToTrack`. */
    method UnsubscribeFromTrack(trackName: string, fails: bool) returns (ok: bool)
      modifies this
      ensures remoteVideoTracks == old(remoteVideoTracks)
      ensures var (result, call) := SetSubscription(old(remoteVideoTracks), trackName, false, fails);
              ok == result && calls == old(calls) + CallList(call)
    {
      if trackName !in remoteVideoTracks {
        return false;
      }
      var trackInfo := remoteVideoTracks[trackName];
      if !trackInfo.isSubscribed {
        return true;
      }
      if fails {
        return false;
      }
      calls := calls + [SetSubscribed(trackInfo.participantIdentity, trackInfo.trackSid, false)];
      return true;
    }

    /** `getTrackByName(trackName)`: a lookup in the current map. */
    function GetTrackByName(trackName: string): (r: Option<RemoteTrackInfo>)
      reads this
      requires Valid()
      ensures r.Some? <==> trackName in remoteVideoTracks
      ensures r.Some? ==> r.value.trackName == trackName && r.value == remoteVideoTracks[trackName]
    {
      Get(remoteVideoTracks, trackName)
    }
  }

  /**
   * Because the short-circuit reads the cached flag and subscribing does not
   * refresh the cache, two subscriptions of a cached unsubscribed track issue
   * two platform calls.
   */
  method SubscribeTwiceWithoutRefresh(registry: Registry, trackName: string) returns (first: bool, second: bool)
    requires trackName in registry.remoteVideoTracks && !registry.remoteVideoTracks[trackName].isSubscribed
    modifies registry
    ensures first && second
    ensures var info := old(registry.remoteVideoTracks)[trackName];
            var call := SetSubscribed(info.participantIdentity, info.trackSid, true);
            registry.calls == old(registry.calls) + [call, call]
  {
    first := registry.SubscribeToTrack(trackName, false);
    second := registry.SubscribeToTrack(trackName, false);
  }
}
