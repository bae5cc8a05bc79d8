/**
 * Audio track filtering: the name-pattern exclusion rule, and the controller
 * that subscribes and unsubscribes remote audio publications by hand or
 * automatically when they are excluded.
 */
module AudioTrackFilter {
  import opened Optional
  import opened JsStrings
  import opened Platform

  // ---------------------------------------------------------------------------
  // The exclusion rule

  /** One pattern against one publication: the name includes it, equals it, or the SID equals it. */
  predicate PatternMatches(pub: Publication, pattern: string) {
    var name := PublicationName(pub);
    Contains(name, pattern) || name == pattern || pub.sid == pattern
  }

  /** `shouldExcludeTrack`: some configured pattern matches the publication. */
  function ShouldExcludeTrack(patterns: seq<string>, pub: Publication): (r: bool)
    ensures r <==> exists i :: 0 <= i < |patterns| && PatternMatches(pub, patterns[i])
    ensures patterns == [] ==> !r
    ensures "" in patterns ==> r
    ensures PublicationName(pub) in patterns ==> r
    ensures pub.sid in patterns ==> r
  {
    exists i :: 0 <= i < |patterns| && PatternMatches(pub, patterns[i])
  }

  /**
   * The `name === pattern` disjunct adds nothing: dropping it gives the same
   * verdict, because every string includes itself.
   */
  lemma EqualityDisjunctRedundant(patterns: seq<string>, pub: Publication)
    ensures ShouldExcludeTrack(patterns, pub) <==>
            exists i :: 0 <= i < |patterns| &&
                        (Contains(PublicationName(pub), patterns[i]) || pub.sid == patterns[i])
  {
    forall i | 0 <= i < |patterns| && PublicationName(pub) == patterns[i]
      ensures Contains(PublicationName(pub), patterns[i])
    {
      ContainsSelf(patterns[i]);
    }
  }

  /**
   * Matching is one-directional: a pattern longer than the name that neither
   * equals the SID nor the name never matches, even when it contains the name.
   */
  lemma PatternContainingNameDoesNotMatch(pub: Publication, pattern: string)
    requires |pattern| > |PublicationName(pub)| && pattern != pub.sid
    ensures !PatternMatches(pub, pattern)
  {
    if Contains(PublicationName(pub), pattern) {
      ContainsLength(PublicationName(pub), pattern);
    }
  }

  /** With the shipped pattern, `xunfei_audio_track_2` is excluded and `other_track` is not. */
  lemma DefaultPatternExamples()
    ensures ShouldExcludeTrack(["xunfei_audio_track"],
                               Publication("TR_a", "xunfei_audio_track_2", Audio, true, Some(1)))
    ensures !ShouldExcludeTrack(["xunfei_audio_track"],
                                Publication("TR_b", "other_track", Audio, true, Some(2)))
  {
    var excluded := Publication("TR_a", "xunfei_audio_track_2", Audio, true, Some(1));
    assert StartsWith("xunfei_audio_track_2", "xunfei_audio_track");
    assert PatternMatches(excluded, ["xunfei_audio_track"][0]);
    PatternContainingNameDoesNotMatch(Publication("TR_b", "other_track", Audio, true, Some(2)),
                                      "xunfei_audio_track");
  }

  // ---------------------------------------------------------------------------
  // Locating audio publications

  predicate IsAudioWithSid(pub: Publication, sid: string) {
    pub.kind == Audio && pub.sid == sid
  }

  /** `audioTrackPublications.get(sid)`: the position of the first audio publication with that SID, from `from` on. */
  function AudioIndexFrom(pubs: seq<Publication>, sid: string, from: nat): (r: Option<nat>)
    ensures r.Some? ==> from <= r.value < |pubs| && IsAudioWithSid(pubs[r.value], sid)
    ensures r.Some? ==> forall k :: from <= k < r.value ==> !IsAudioWithSid(pubs[k], sid)
    ensures r.None? ==> forall k :: from <= k < |pubs| ==> !IsAudioWithSid(pubs[k], sid)
    decreases |pubs| - from
  {
    if from >= |pubs| then None
    else if IsAudioWithSid(pubs[from], sid) then Some(from)
    else AudioIndexFrom(pubs, sid, from + 1)
  }

  function AudioPublicationIndex(p: Participant, sid: string): Option<nat> {
    AudioIndexFrom(p.publications, sid, 0)
  }

  /** The participant's audio publication with that SID exists and its subscription flag is `subscribed`. */
  predicate HoldsAudio(p: Participant, sid: string, subscribed: bool) {
    var j := AudioPublicationIndex(p, sid);
    j.Some? && p.publications[j.value].isSubscribed == subscribed
  }

  /** The first participant, from `from` on, that holds such a publication. */
  function FindHolder(ps: seq<Participant>, sid: string, subscribed: bool, from: nat): (r: Option<nat>)
    ensures r.Some? ==> from <= r.value < |ps| && HoldsAudio(ps[r.value], sid, subscribed)
    ensures r.Some? ==> forall k :: from <= k < r.value ==> !HoldsAudio(ps[k], sid, subscribed)
    ensures r.None? ==> forall k :: from <= k < |ps| ==> !HoldsAudio(ps[k], sid, subscribed)
    decreases |ps| - from
  {
    if from >= |ps| then None
    else if HoldsAudio(ps[from], sid, subscribed) then Some(from)
    else FindHolder(ps, sid, subscribed, from + 1)
  }

  /** The platform's `setSubscribed(value)` on publication `j` of participant `i`. */
  function SetSubscription(ps: seq<Participant>, i: nat, j: nat, value: bool): (r: seq<Participant>)
    requires i < |ps| && j < |ps[i].publications|
    ensures |r| == |ps| && |r[i].publications| == |ps[i].publications|
    ensures r[i].publications[j] == ps[i].publications[j].(isSubscribed := value)
    ensures forall k :: 0 <= k < |ps| && k != i ==> r[k] == ps[k]
    ensures forall k :: 0 <= k < |ps[i].publications| && k != j ==>
              r[i].publications[k] == ps[i].publications[k]
    ensures r[i] == ps[i].(publications := r[i].publications)
  {
    var p := ps[i];
    ps[i := p.(publications := p.publications[j := p.publications[j].(isSubscribed := value)])]
  }

  // ---------------------------------------------------------------------------
  // Manual subscription control

  /**
   * The outcome of `subscribeTrack` (`subscribe`) or `unsubscribeTrack`
   * (`!subscribe`): with a room, the first participant whose audio
   * publication with that SID is in the opposite state gets it flipped;
   * `fails` says the platform call throws, which is reported as `false`.
   */
  function ManualSubscription(hasRoom: bool, ps: seq<Participant>, sid: string, subscribe: bool, fails: bool)
    : (r: (bool, seq<Participant>))
    ensures !hasRoom ==> r == (false, ps)
    ensures fails ==> r == (false, ps)
    ensures !r.0 ==> r.1 == ps
    ensures r.0 <==> hasRoom && !fails && FindHolder(ps, sid, !subscribe, 0).Some?
    ensures r.0 ==> var i := FindHolder(ps, sid, !subscribe, 0).value;
                    r.1 == SetSubscription(ps, i, AudioPublicationIndex(ps[i], sid).value, subscribe)
    ensures (forall k :: 0 <= k < |ps| ==> !HoldsAudio(ps[k], sid, !subscribe)) ==> r == (false, ps)
  {
    if !hasRoom then (false, ps)
    else match FindHolder(ps, sid, !subscribe, 0)
      case None => (false, ps)
      case Some(i) =>
        if fails then (false, ps)
        else (true, SetSubscription(ps, i, AudioPublicationIndex(ps[i], sid).value, subscribe))
  }

  /** A manual flip lands on an audio publication with that SID and changes only its flag. */
  lemma ManualSubscriptionTarget(hasRoom: bool, ps: seq<Participant>, sid: string, subscribe: bool, fails: bool)
    requires ManualSubscription(hasRoom, ps, sid, subscribe, fails).0
    ensures var r := ManualSubscription(hasRoom, ps, sid, subscribe, fails).1;
            exists i, j :: 0 <= i < |ps| && 0 <= j < |ps[i].publications| &&
              IsAudioWithSid(ps[i].publications[j], sid) && ps[i].publications[j].isSubscribed == !subscribe &&
              r == SetSubscription(ps, i, j, subscribe)
  {
    var i := FindHolder(ps, sid, !subscribe, 0).value;
    var j := AudioPublicationIndex(ps[i], sid).value;
    assert IsAudioWithSid(ps[i].publications[j], sid);
  }

  /**
   * The hook's state: the remote participants it sees (whose publications the
   * platform lets it flip), the pattern list, the `autoUnsubscribe` option,
   * and whether there is a room at all.
   */
  class FilterHook {
    const excludeTrackNames: seq<string>
    const autoUnsubscribe: bool
    const hasRoom: bool
    var participants: seq<Participant>

    constructor (excludeTrackNames: seq<string>, autoUnsubscribe: bool, hasRoom: bool, participants: seq<Participant>)
      ensures this.excludeTrackNames == excludeTrackNames && this.autoUnsubscribe == autoUnsubscribe
      ensures this.hasRoom == hasRoom && this.participants == participants
    {
      this.excludeTrackNames := excludeTrackNames;
      this.autoUnsubscribe := autoUnsubscribe;
      this.hasRoom := hasRoom;
      this.participants := participants;
    }

    /** `unsubscribeTrack(trackSid)`; `fails` says `setSubscribed(false)` throws. */
    method UnsubscribeTrack(trackSid: string, fails: bool) returns (ok: bool)
      modifies this
      ensures (ok, participants) == ManualSubscription(hasRoom, old(participants), trackSid, false, fails)
    {
      ok := SetFirst(trackSid, false, fails);
    }

    /** `subscribeTrack(trackSid)`; `fails` says `setSubscribed(true)` throws. */
    method SubscribeTrack(trackSid: string, fails: bool) returns (ok: bool)
      modifies this
      ensures (ok, participants) == ManualSubscription(hasRoom, old(participants), trackSid, true, fails)
    {
      ok := SetFirst(trackSid, true, fails);
    }

    /** The loop both manual operations share: stop at the first participant whose publication needs the flip. */
    method SetFirst(trackSid: string, subscribe: bool, fails: bool) returns (ok: bool)
      modifies this
      ensures (ok, participants) == ManualSubscription(hasRoom, old(participants), trackSid, subscribe, fails)
    {
      if !hasRoom {
        return false;
      }
      var i := 0;
      while i < |participants|
        invariant 0 <= i <= |participants|
        invariant participants == old(participants)
        invariant FindHolder(participants, trackSid, !subscribe, 0) == FindHolder(participants, trackSid, !subscribe, i)
      {
        var j := AudioPublicationIndex(participants[i], trackSid);
        if j.Some? && participants[i].publications[j.value].isSubscribed == !subscribe {
          if fails {
            return false;
          }
          participants := SetSubscription(participants, i, j.value, subscribe);
          return true;
        }
        i := i + 1;
      }
      return false;
    }

    /** `getFilteredTracks()`: reads the participants, changes nothing. */
    method GetFilteredTracks() returns (filtered: seq<FilteredTrack>)
      ensures filtered == FilteredTracks(participants, excludeTrackNames)
    {
      filtered := [];
      var i := 0;
      while i < |participants|
        invariant 0 <= i <= |participants|
        invariant filtered == FilteredTracks(participants[..i], excludeTrackNames)
      {
        var p := participants[i];
        var j := 0;
        while j < |p.publications|
          invariant 0 <= j <= |p.publications|
          invariant filtered == FilteredTracks(participants[..i], excludeTrackNames) +
                                FilteredOf(p.identity, p.publications[..j], excludeTrackNames)
        {
          var pub := p.publications[j];
          if pub.kind == Audio && ShouldExcludeTrack(excludeTrackNames, pub) {
            filtered := filtered + [FilteredInfo(p.identity, pub)];
          }
          assert p.publications[..j + 1][..j] == p.publications[..j];
          j := j + 1;
        }
        assert p.publications[..j] == p.publications;
        assert participants[..i + 1][..i] == participants[..i];
        i := i + 1;
      }
      assert participants[..i] == participants;
    }

    /**
     * The auto-unsubscribe effect body: without a room or with the option off it
     * does nothing; otherwise every subscribed, excluded audio publication is
     * unsubscribed. `rejected` holds the SIDs whose `setSubscribed(false)` throws
     * (logged and ignored by the source).
     */
    method AutoUnsubscribeEffect(rejected: set<string>)
      modifies this
      ensures participants == AutoUnsubscribeAll(hasRoom && autoUnsubscribe, old(participants), excludeTrackNames, rejected)
    {
      if !hasRoom || !autoUnsubscribe {
        return;
      }
      var i := 0;
      while i < |participants|
        invariant 0 <= i <= |participants| && |participants| == |old(participants)|
        invariant forall k :: i <= k < |participants| ==> participants[k] == old(participants)[k]
        invariant forall k :: 0 <= k < i ==>
                    participants[k] == AutoUnsubscribeAll(true, old(participants), excludeTrackNames, rejected)[k]
      {
        var j := 0;
        while j < |participants[i].publications|
          invariant |participants| == |old(participants)|
          invariant 0 <= j <= |participants[i].publications|
          invariant forall k :: 0 <= k < i ==>
                      participants[k] == AutoUnsubscribeAll(true, old(participants), excludeTrackNames, rejected)[k]
          invariant forall k :: i < k < |participants| ==> participants[k] == old(participants)[k]
          invariant participants[i] == old(participants)[i].(publications := participants[i].publications)
          invariant |participants[i].publications| == |old(participants)[i].publications|
          invariant forall m :: 0 <= m < j ==>
                      participants[i].publications[m] ==
                      AutoUnsubscribed(old(participants)[i].publications[m], excludeTrackNames, rejected)
          invariant forall m :: j <= m < |participants[i].publications| ==>
                      participants[i].publications[m] == old(participants)[i].publications[m]
        {
          var pub := participants[i].publications[j];
          if pub.kind == Audio && pub.isSubscribed && ShouldExcludeTrack(excludeTrackNames, pub) {
            if pub.sid !in rejected {
              participants := SetSubscription(participants, i, j, false);
            }
          }
          j := j + 1;
        }
        assert participants[i] == AutoUnsubscribeAll(true, old(participants), excludeTrackNames, rejected)[i];
        i := i + 1;
      }
      assert participants == AutoUnsubscribeAll(true, old(participants), excludeTrackNames, rejected);
    }

    /**
     * The `trackPublished` listener the effect registers: publication `j` of
     * participant `i` has just been published. Only with a room and the option
     * on is a listener registered; it unsubscribes an excluded audio publication
     * whatever its current flag, unless `setSubscribed(false)` throws (`fails`).
     */
    method HandleTrackPublished(i: nat, j: nat, fails: bool)
      requires i < |participants| && j < |participants[i].publications|
      modifies this
      ensures var pub := old(participants)[i].publications[j];
              participants == if hasRoom && autoUnsubscribe && pub.kind == Audio &&
                                 ShouldExcludeTrack(excludeTrackNames, pub) && !fails
                              then SetSubscription(old(participants), i, j, false)
                              else old(participants)
    {
      if !hasRoom || !autoUnsubscribe {
        return;
      }
      var pub := participants[i].publications[j];
      if pub.kind == Audio && ShouldExcludeTrack(excludeTrackNames, pub) {
        if !fails {
          participants := SetSubscription(participants, i, j, false);
        }
      }
    }
  }

  // ---------------------------------------------------------------------------
  // The filtered list and the automatic unsubscription, as values

  datatype FilteredTrack = FilteredTrack(participantIdentity: string, trackSid: string, trackName: string, isSubscribed: bool)

  function FilteredInfo(identity: string, pub: Publication): FilteredTrack {
    FilteredTrack(identity, pub.sid, PublicationName(pub), pub.isSubscribed)
  }

  /** The excluded audio publications of one participant, in publication order. */
  function FilteredOf(identity: string, pubs: seq<Publication>, patterns: seq<string>): seq<FilteredTrack> {
    if pubs == [] then []
    else
      var pub := pubs[|pubs| - 1];
      FilteredOf(identity, pubs[..|pubs| - 1], patterns) +
      (if pub.kind == Audio && ShouldExcludeTrack(patterns, pub) then [FilteredInfo(identity, pub)] else [])
  }

  /** The excluded audio publications of all participants, participant by participant. */
  function FilteredTracks(ps: seq<Participant>, patterns: seq<string>): seq<FilteredTrack> {
    if ps == [] then []
    else
      var p := ps[|ps| - 1];
      FilteredTracks(ps[..|ps| - 1], patterns) + FilteredOf(p.identity, p.publications, patterns)
  }

  /** An entry is in a participant's filtered list exactly when it describes one of its excluded audio publications. */
  lemma {:induction false} FilteredOfMembership(identity: string, pubs: seq<Publication>, patterns: seq<string>, t: FilteredTrack)
    ensures t in FilteredOf(identity, pubs, patterns) <==>
            exists j :: 0 <= j < |pubs| && pubs[j].kind == Audio && ShouldExcludeTrack(patterns, pubs[j]) &&
                        t == FilteredInfo(identity, pubs[j])
  {
    if pubs != [] {
      var init := pubs[..|pubs| - 1];
      FilteredOfMembership(identity, init, patterns, t);
      if t in FilteredOf(identity, init, patterns) {
        var j :| 0 <= j < |init| && init[j].kind == Audio && ShouldExcludeTrack(patterns, init[j]) &&
                 t == FilteredInfo(identity, init[j]);
        assert pubs[j] == init[j];
      }
      if j :| 0 <= j < |pubs| && pubs[j].kind == Audio && ShouldExcludeTrack(patterns, pubs[j]) &&
              t == FilteredInfo(identity, pubs[j]) {
        if j < |init| {
          assert init[j] == pubs[j];
        }
      }
    }
  }

  /**
   * `getFilteredTracks` lists exactly the excluded audio publications: an entry
   * is present iff it describes an excluded audio publication of some participant.
   */
  lemma {:induction false} FilteredTracksMembership(ps: seq<Participant>, patterns: seq<string>, t: FilteredTrack)
    ensures t in FilteredTracks(ps, patterns) <==>
            exists i, j :: 0 <= i < |ps| && 0 <= j < |ps[i].publications| &&
                           ps[i].publications[j].kind == Audio && ShouldExcludeTrack(patterns, ps[i].publications[j]) &&
                           t == FilteredInfo(ps[i].identity, ps[i].publications[j])
  {
    if ps != [] {
      var init := ps[..|ps| - 1];
      var last := ps[|ps| - 1];
      FilteredTracksMembership(init, patterns, t);
      FilteredOfMembership(last.identity, last.publications, patterns, t);
      if t in FilteredTracks(init, patterns) {
        var i, j :| 0 <= i < |init| && 0 <= j < |init[i].publications| &&
                    init[i].publications[j].kind == Audio && ShouldExcludeTrack(patterns, init[i].publications[j]) &&
                    t == FilteredInfo(init[i].identity, init[i].publications[j]);
        assert ps[i] == init[i];
      }
      if t in FilteredOf(last.identity, last.publications, patterns) {
        var j :| 0 <= j < |last.publications| && last.publications[j].kind == Audio &&
                 ShouldExcludeTrack(patterns, last.publications[j]) && t == FilteredInfo(last.identity, last.publications[j]);
        assert ps[|ps| - 1] == last;
      }
      if i, j :| 0 <= i < |ps| && 0 <= j < |ps[i].publications| &&
                 ps[i].publications[j].kind == Audio && ShouldExcludeTrack(patterns, ps[i].publications[j]) &&
                 t == FilteredInfo(ps[i].identity, ps[i].publications[j]) {
        if i < |init| {
          assert init[i] == ps[i];
        }
      }
    }
  }

  /** The list follows participant order: the entries of earlier participants come first. */
  lemma {:induction false} FilteredTracksAppend(a: seq<Participant>, b: seq<Participant>, patterns: seq<string>)
    ensures FilteredTracks(a + b, patterns) == FilteredTracks(a, patterns) + FilteredTracks(b, patterns)
    decreases |b|
  {
    if b == [] {
      assert a + b == a;
    } else {
      var binit := b[..|b| - 1];
      assert (a + b)[..|a + b| - 1] == a + binit;
      assert (a + b)[|a + b| - 1] == b[|b| - 1];
      FilteredTracksAppend(a, binit, patterns);
    }
  }

  /** What the effect leaves of one publication. */
  function AutoUnsubscribed(pub: Publication, patterns: seq<string>, rejected: set<string>): (r: Publication)
    ensures r.isSubscribed <==>
              pub.isSubscribed && !(pub.kind == Audio && ShouldExcludeTrack(patterns, pub) && pub.sid !in rejected)
    ensures r == pub.(isSubscribed := r.isSubscribed)
  {
    if pub.kind == Audio && pub.isSubscribed && ShouldExcludeTrack(patterns, pub) && pub.sid !in rejected
    then pub.(isSubscribed := false)
    else pub
  }

  /**
   * The auto-unsubscribe effect over all participants. When `active` (room
   * present and option on): a publication ends subscribed iff it was subscribed
   * and it is not an excluded audio publication whose call went through, and
   * nothing but that flag changes. When not active, nothing changes.
   */
  function AutoUnsubscribeAll(active: bool, ps: seq<Participant>, patterns: seq<string>, rejected: set<string>)
    : (r: seq<Participant>)
    ensures !active ==> r == ps
    ensures |r| == |ps|
    ensures forall i :: 0 <= i < |ps| ==>
              |r[i].publications| == |ps[i].publications| && r[i] == ps[i].(publications := r[i].publications)
    ensures forall i, j :: 0 <= i < |ps| && 0 <= j < |ps[i].publications| ==>
              var p, q := ps[i].publications[j], r[i].publications[j];
              q == p.(isSubscribed := q.isSubscribed) &&
              (q.isSubscribed <==> p.isSubscribed && !(active && p.kind == Audio &&
                                   ShouldExcludeTrack(patterns, p) && p.sid !in rejected))
  {
    if !active then ps
    else seq(|ps|, i requires 0 <= i < |ps| =>
           ps[i].(publications := seq(|ps[i].publications|, j requires 0 <= j < |ps[i].publications| =>
                                        AutoUnsubscribed(ps[i].publications[j], patterns, rejected))))
  }

  /** When no call is rejected, no excluded audio publication is left subscribed. */
  lemma AutoUnsubscribeLeavesNoExcludedSubscribed(ps: seq<Participant>, patterns: seq<string>)
    ensures var r := AutoUnsubscribeAll(true, ps, patterns, {});
            forall i, j :: 0 <= i < |r| && 0 <= j < |r[i].publications| &&
                           r[i].publications[j].kind == Audio && ShouldExcludeTrack(patterns, r[i].publications[j])
                           ==> !r[i].publications[j].isSubscribed
  {
    var r := AutoUnsubscribeAll(true, ps, patterns, {});
    forall i, j | 0 <= i < |r| && 0 <= j < |r[i].publications| &&
                  r[i].publications[j].kind == Audio && ShouldExcludeTrack(patterns, r[i].publications[j])
      ensures !r[i].publications[j].isSubscribed
    {
      var p := ps[i].publications[j];
      assert PublicationName(r[i].publications[j]) == PublicationName(p);
      assert ShouldExcludeTrack(patterns, p);
    }
  }
}
