/**
 * The audio renderer: a map from `identity-name` keys to audio output
 * elements, updated in place by track-subscribed, track-unsubscribed and
 * participant-disconnected events and emptied on teardown. Excluded tracks
 * never get an element.
 */
module FilteredAudioRenderer {
  import opened Optional
  import opened JsStrings
  import opened Platform
  import opened AudioTrackFilter

  /** `${participantIdentity}-${trackName || trackSid}`. */
  function ElementKey(identity: string, pub: Publication): (k: string)
    ensures StartsWith(k, identity + "-")
  {
    identity + "-" + PublicationName(pub)
  }

  /** An `<audio>` element: `serial` is its identity in the page, `source` the track it plays. */
  datatype AudioElement = AudioElement(serial: nat, source: Handle)

  /** The element map and the serial the next created element gets. */
  datatype Sinks = Sinks(elements: map<string, AudioElement>, nextSerial: nat) {
    /**
     * Every element was created before `nextSerial` was handed out, and no
     * element sits under two keys.
     */
    ghost predicate Valid() {
      (forall k :: k in elements ==> elements[k].serial < nextSerial) &&
      (forall k1, k2 :: k1 in elements && k2 in elements && k1 != k2 ==> elements[k1].serial != elements[k2].serial)
    }
  }

  /**
   * `handleAudioTrack(publication, identity)`. Non-audio and track-less
   * publications change nothing; an excluded track loses any element under its
   * key and never gets one; any other track gets an element under its key,
   * created only when the key is absent, and plays its track.
   */
  function OnAudioTrack(s: Sinks, patterns: seq<string>, pub: Publication, identity: string): (r: Sinks)
    ensures pub.kind != Audio || pub.track.None? ==> r == s
    ensures pub.kind == Audio && pub.track.Some? && ShouldExcludeTrack(patterns, pub) ==>
              r == s.(elements := s.elements - {ElementKey(identity, pub)})
    ensures pub.kind == Audio && pub.track.Some? && !ShouldExcludeTrack(patterns, pub) ==>
              var key := ElementKey(identity, pub);
              key in r.elements && r.elements[key].source == pub.track.value &&
              (key in s.elements ==> r.elements[key].serial == s.elements[key].serial && r.nextSerial == s.nextSerial) &&
              (key !in s.elements ==> r.elements[key].serial == s.nextSerial && r.nextSerial == s.nextSerial + 1) &&
              forall k :: k != key ==> (k in r.elements <==> k in s.elements) && (k in s.elements ==> r.elements[k] == s.elements[k])
    ensures s.Valid() ==> r.Valid()
  {
    if pub.kind != Audio || pub.track.None? then s
    else
      var key := ElementKey(identity, pub);
      if ShouldExcludeTrack(patterns, pub) then
        s.(elements := s.elements - {key})
      else if key in s.elements then
        s.(elements := s.elements[key := s.elements[key].(source := pub.track.value)])
      else
        Sinks(s.elements[key := AudioElement(s.nextSerial, pub.track.value)], s.nextSerial + 1)
  }

  /**
   * An element created for a subscription is a new `<audio>` element: its
   * serial differs from that of every element that survives beside it.
   */
  lemma CreatedElementIsFresh(s: Sinks, patterns: seq<string>, pub: Publication, identity: string)
    requires s.Valid()
    requires pub.kind == Audio && pub.track.Some? && !ShouldExcludeTrack(patterns, pub)
    requires ElementKey(identity, pub) !in s.elements
    ensures var r := OnAudioTrack(s, patterns, pub, identity);
            var key := ElementKey(identity, pub);
            forall k :: k in r.elements && k != key ==> r.elements[k].serial != r.elements[key].serial
  {
  }

  /** Repeating a subscription event changes nothing more: the renderer is idempotent per event. */
  lemma OnAudioTrackIdempotent(s: Sinks, patterns: seq<string>, pub: Publication, identity: string)
    ensures var once := OnAudioTrack(s, patterns, pub, identity);
            OnAudioTrack(once, patterns, pub, identity) == once
  {
    var once := OnAudioTrack(s, patterns, pub, identity);
    var key := ElementKey(identity, pub);
    if pub.kind == Audio && pub.track.Some? && !ShouldExcludeTrack(patterns, pub) {
      assert key in once.elements;
      assert once.elements[key := once.elements[key].(source := pub.track.value)] == once.elements;
    }
  }

  /** `handleTrackUnsubscribed`: the element under the same key is removed if present; nothing else changes. */
  function OnTrackUnsubscribed(s: Sinks, pub: Publication, identity: string): (r: Sinks)
    ensures pub.kind != Audio ==> r == s
    ensures pub.kind == Audio ==> ElementKey(identity, pub) !in r.elements && r.nextSerial == s.nextSerial
    ensures pub.kind == Audio ==> forall k :: k != ElementKey(identity, pub) ==>
              (k in r.elements <==> k in s.elements) && (k in s.elements ==> r.elements[k] == s.elements[k])
    ensures ElementKey(identity, pub) !in s.elements ==> r == s
    ensures s.Valid() ==> r.Valid()
  {
    if pub.kind != Audio then s
    else s.(elements := s.elements - {ElementKey(identity, pub)})
  }

  /**
   * Subscribing then unsubscribing the same audio track restores the map it
   * started from when no element was there before.
   */
  lemma SubscribeThenUnsubscribe(s: Sinks, patterns: seq<string>, pub: Publication, identity: string)
    requires pub.kind == Audio && ElementKey(identity, pub) !in s.elements
    ensures OnTrackUnsubscribed(OnAudioTrack(s, patterns, pub, identity), pub, identity).elements == s.elements
  {
    var r := OnTrackUnsubscribed(OnAudioTrack(s, patterns, pub, identity), pub, identity);
    assert r.elements.Keys == s.elements.Keys;
  }

  /** `onParticipantDisconnected`: exactly the keys that start with `identity + "-"` go. */
  function ParticipantDisconnected(s: Sinks, identity: string): (r: Sinks)
    ensures r.nextSerial == s.nextSerial
    ensures forall k :: k in r.elements <==> k in s.elements && !StartsWith(k, identity + "-")
    ensures forall k :: k in r.elements ==> r.elements[k] == s.elements[k]
    ensures s.Valid() ==> r.Valid()
  {
    s.(elements := map k | k in s.elements && !StartsWith(k, identity + "-") :: s.elements[k])
  }

  /**
   * The prefix test is on strings, not identities: when participant `a`
   * leaves, the element of participant `a-b` goes too.
   */
  lemma DisconnectRemovesLongerIdentity(s: Sinks, pub: Publication)
    requires ElementKey("a-b", pub) in s.elements
    ensures ElementKey("a-b", pub) !in ParticipantDisconnected(s, "a").elements
  {
    var key := ElementKey("a-b", pub);
    assert key[..2] == "a-";
  }

  /** Two different (identity, name) pairs can share one key: `a-b` with `c` and `a` with `b-c`. */
  lemma ElementKeysCollide(p: Publication, q: Publication)
    requires p.trackName == "c" && q.trackName == "b-c"
    ensures ElementKey("a-b", p) == ElementKey("a", q)
  {
  }

  /** Teardown (`cleanup`): every element is released and the map is empty. */
  function TornDown(s: Sinks): (r: Sinks)
    ensures r.elements == map[] && r.nextSerial == s.nextSerial
    ensures r.Valid()
  {
    s.(elements := map[])
  }

  /** Attaching the subscribed, track-carrying audio publications of one participant, in order. */
  function AttachParticipant(s: Sinks, patterns: seq<string>, identity: string, pubs: seq<Publication>): (r: Sinks)
    ensures s.Valid() ==> r.Valid()
  {
    if pubs == [] then s
    else
      var s' := AttachParticipant(s, patterns, identity, pubs[..|pubs| - 1]);
      var pub := pubs[|pubs| - 1];
      if pub.isSubscribed && pub.track.Some? then OnAudioTrack(s', patterns, pub, identity) else s'
  }

  /** Attaching for every participant present when the renderer mounts, in participant order. */
  function AttachAll(s: Sinks, patterns: seq<string>, ps: seq<Participant>): (r: Sinks)
    ensures s.Valid() ==> r.Valid()
  {
    if ps == [] then s
    else
      var p := ps[|ps| - 1];
      AttachParticipant(AttachAll(s, patterns, ps[..|ps| - 1]), patterns, p.identity, p.publications)
  }

  /** An excluded key never appears among the elements after attaching, when it was absent before. */
  lemma {:induction false} AttachParticipantNeverAddsExcluded(s: Sinks, patterns: seq<string>, identity: string,
                                                              pubs: seq<Publication>, key: string)
    requires key !in s.elements
    requires forall j :: 0 <= j < |pubs| && ElementKey(identity, pubs[j]) == key ==>
               pubs[j].kind == Audio && ShouldExcludeTrack(patterns, pubs[j])
    ensures key !in AttachParticipant(s, patterns, identity, pubs).elements
  {
    if pubs != [] {
      var init := pubs[..|pubs| - 1];
      forall j | 0 <= j < |init| && ElementKey(identity, init[j]) == key
        ensures init[j].kind == Audio && ShouldExcludeTrack(patterns, init[j])
      {
        assert init[j] == pubs[j];
      }
      AttachParticipantNeverAddsExcluded(s, patterns, identity, init, key);
    }
  }

  /** A publication the attach loop hands to `handleAudioTrack` and that it then acts on. */
  predicate Attached(pub: Publication) {
    pub.kind == Audio && pub.isSubscribed && pub.track.Some?
  }

  /** Attaching leaves the element under a key alone when none of the attached publications maps to it. */
  lemma {:induction false} AttachParticipantKeepsOtherKeys(s: Sinks, patterns: seq<string>, identity: string,
                                                           pubs: seq<Publication>, key: string)
    requires forall j :: 0 <= j < |pubs| && ElementKey(identity, pubs[j]) == key ==> !Attached(pubs[j])
    ensures var r := AttachParticipant(s, patterns, identity, pubs);
            (key in r.elements <==> key in s.elements) && (key in s.elements ==> r.elements[key] == s.elements[key])
  {
    if pubs != [] {
      var init := pubs[..|pubs| - 1];
      forall j | 0 <= j < |init| && ElementKey(identity, init[j]) == key
        ensures !Attached(init[j])
      {
        assert init[j] == pubs[j];
      }
      AttachParticipantKeepsOtherKeys(s, patterns, identity, init, key);
    }
  }

  /**
   * A kept publication that is attached gets an element under its key that
   * plays its track, unless a later attached publication maps to the same key.
   */
  lemma {:induction false} AttachParticipantPlaysLastKept(s: Sinks, patterns: seq<string>, identity: string,
                                                          pubs: seq<Publication>, k: nat)
    requires k < |pubs| && Attached(pubs[k]) && !ShouldExcludeTrack(patterns, pubs[k])
    requires forall j :: k < j < |pubs| && ElementKey(identity, pubs[j]) == ElementKey(identity, pubs[k]) ==>
               !Attached(pubs[j])
    ensures var key := ElementKey(identity, pubs[k]);
            var r := AttachParticipant(s, patterns, identity, pubs);
            key in r.elements && r.elements[key].source == pubs[k].track.value
  {
    var init := pubs[..|pubs| - 1];
    if k < |pubs| - 1 {
      assert init[k] == pubs[k];
      forall j | k < j < |init| && ElementKey(identity, init[j]) == ElementKey(identity, init[k])
        ensures !Attached(init[j])
      {
        assert init[j] == pubs[j];
      }
      AttachParticipantPlaysLastKept(s, patterns, identity, init, k);
    }
  }

  /**
   * On mount, a kept, attached publication of participant `i` plays under
   * its key unless a later attached publication, of the same participant
   * or a later one, maps to the same key.
   */
  lemma {:induction false} AttachAllPlaysLastKept(s: Sinks, patterns: seq<string>, ps: seq<Participant>, i: nat, k: nat)
    requires i < |ps| && k < |ps[i].publications|
    requires Attached(ps[i].publications[k]) && !ShouldExcludeTrack(patterns, ps[i].publications[k])
    requires forall j :: k < j < |ps[i].publications| &&
                         ElementKey(ps[i].identity, ps[i].publications[j]) == ElementKey(ps[i].identity, ps[i].publications[k])
                         ==> !Attached(ps[i].publications[j])
    requires forall i2, j :: i < i2 < |ps| && 0 <= j < |ps[i2].publications| &&
                             ElementKey(ps[i2].identity, ps[i2].publications[j]) == ElementKey(ps[i].identity, ps[i].publications[k])
                             ==> !Attached(ps[i2].publications[j])
    ensures var key := ElementKey(ps[i].identity, ps[i].publications[k]);
            var r := AttachAll(s, patterns, ps);
            key in r.elements && r.elements[key].source == ps[i].publications[k].track.value
  {
    var init := ps[..|ps| - 1];
    var last := ps[|ps| - 1];
    var key := ElementKey(ps[i].identity, ps[i].publications[k]);
    if i == |ps| - 1 {
      AttachParticipantPlaysLastKept(AttachAll(s, patterns, init), patterns, last.identity, last.publications, k);
    } else {
      assert init[i] == ps[i];
      forall i2, j | i < i2 < |init| && 0 <= j < |init[i2].publications| &&
                     ElementKey(init[i2].identity, init[i2].publications[j]) == key
        ensures !Attached(init[i2].publications[j])
      {
        assert init[i2] == ps[i2];
      }
      AttachAllPlaysLastKept(s, patterns, init, i, k);
      AttachParticipantKeepsOtherKeys(AttachAll(s, patterns, init), patterns, last.identity, last.publications, key);
    }
  }

  /** The renderer component: its element map lives across events until teardown. */
  class Renderer {
    const excludeTrackNames: seq<string>
    var audioElements: map<string, AudioElement>
    var nextSerial: nat

    function State(): Sinks
      reads this
    {
      Sinks(audioElements, nextSerial)
    }

    constructor (excludeTrackNames: seq<string>)
      ensures this.excludeTrackNames == excludeTrackNames
      ensures State() == Sinks(map[], 0) && State().Valid()
    {
      this.excludeTrackNames := excludeTrackNames;
      audioElements := map[];
      nextSerial := 0;
    }

    method HandleAudioTrack(pub: Publication, participantIdentity: string)
      modifies this
      ensures State() == OnAudioTrack(old(State()), excludeTrackNames, pub, participantIdentity)
    {
      if pub.kind != Audio || pub.track.None? {
        return;
      }
      var elementKey := ElementKey(participantIdentity, pub);
      if ShouldExcludeTrack(excludeTrackNames, pub) {
        if elementKey in audioElements {
          audioElements := audioElements - {elementKey};
        }
        return;
      }
      var element: AudioElement;
      if elementKey in audioElements {
        element := audioElements[elementKey];
      } else {
        element := AudioElement(nextSerial, pub.track.value);
        nextSerial := nextSerial + 1;
      }
      audioElements := audioElements[elementKey := element.(source := pub.track.value)];
    }

    method HandleTrackUnsubscribed(pub: Publication, participantIdentity: string)
      modifies this
      ensures State() == OnTrackUnsubscribed(old(State()), pub, participantIdentity)
    {
      if pub.kind != Audio {
        return;
      }
      var elementKey := ElementKey(participantIdentity, pub);
      if elementKey in audioElements {
        audioElements := audioElements - {elementKey};
      }
    }

    /** Collects the keys with the participant's prefix, then deletes them. */
    method OnParticipantDisconnected(identity: string)
      modifies this
      ensures State() == ParticipantDisconnected(old(State()), identity)
    {
      var prefix := identity + "-";
      var keysToRemove: seq<string> := [];
      var unvisited := audioElements.Keys;
      while unvisited != {}
        invariant unvisited <= audioElements.Keys
        invariant audioElements == old(audioElements)
        invariant forall k :: k in keysToRemove <==> k in audioElements && k !in unvisited && StartsWith(k, prefix)
        decreases unvisited
      {
        var key :| key in unvisited;
        if StartsWith(key, prefix) {
          keysToRemove := keysToRemove + [key];
        }
        unvisited := unvisited - {key};
      }
      var i := 0;
      while i < |keysToRemove|
        invariant 0 <= i <= |keysToRemove|
        invariant forall k :: k in audioElements <==> k in old(audioElements) && k !in keysToRemove[..i]
        invariant forall k :: k in audioElements ==> audioElements[k] == old(audioElements)[k]
        invariant nextSerial == old(nextSerial)
      {
        audioElements := audioElements - {keysToRemove[i]};
        assert keysToRemove[..i + 1] == keysToRemove[..i] + [keysToRemove[i]];
        i := i + 1;
      }
      assert keysToRemove[..i] == keysToRemove;
      assert forall k :: k in audioElements <==> k in old(audioElements) && !StartsWith(k, prefix);
      assert audioElements == map k | k in old(audioElements) && !StartsWith(k, prefix) :: old(audioElements)[k];
    }

    /** Mount, and a participant connecting: attach its subscribed audio publications. */
    method AttachExisting(participants: seq<Participant>)
      modifies this
      ensures State() == AttachAll(old(State()), excludeTrackNames, participants)
    {
      var i := 0;
      while i < |participants|
        invariant 0 <= i <= |participants|
        invariant State() == AttachAll(old(State()), excludeTrackNames, participants[..i])
      {
        var p := participants[i];
        var j := 0;
        while j < |p.publications|
          invariant 0 <= j <= |p.publications|
          invariant State() == AttachParticipant(AttachAll(old(State()), excludeTrackNames, participants[..i]),
                                                 excludeTrackNames, p.identity, p.publications[..j])
        {
          var pub := p.publications[j];
          if pub.isSubscribed && pub.track.Some? {
            HandleAudioTrack(pub, p.identity);
          }
          assert p.publications[..j + 1][..j] == p.publications[..j];
          j := j + 1;
        }
        assert p.publications[..j] == p.publications;
        assert participants[..i + 1][..i] == participants[..i];
        i := i + 1;
      }
      assert participants[..i] == participants;
    }

    /** Teardown: release every element, then clear the map. */
    method Cleanup()
      modifies this
      ensures State() == TornDown(old(State()))
    {
      audioElements := map[];
    }
  }
}
