/**
 * The video track names kept out of the avatar view: the LiveKit names of the
 * enabled `livekit` descriptors, matched in both directions of containment.
 */
module ExcludedVideoTracks {
  import opened JsStrings
  import opened AppConfig

  predicate IsExcludedConfig(c: VideoTrackConfig) {
    c.kind == Livekit && c.enabled
  }

  /** The excluded names: `livekitTrackName || id` of each enabled `livekit` descriptor, in descriptor order. */
  function ExcludedNames(configs: seq<VideoTrackConfig>): seq<string> {
    if configs == [] then []
    else
      var c := configs[|configs| - 1];
      ExcludedNames(configs[..|configs| - 1]) + (if IsExcludedConfig(c) then [TrackKey(c)] else [])
  }

  /** The names of a concatenation are the names of its parts, in order. */
  lemma {:induction false} ExcludedNamesAppend(a: seq<VideoTrackConfig>, b: seq<VideoTrackConfig>)
    ensures ExcludedNames(a + b) == ExcludedNames(a) + ExcludedNames(b)
    decreases |b|
  {
    if b == [] {
      assert a + b == a;
    } else {
      var binit := b[..|b| - 1];
      assert (a + b)[..|a + b| - 1] == a + binit;
      assert (a + b)[|a + b| - 1] == b[|b| - 1];
      ExcludedNamesAppend(a, binit);
    }
  }

  /** A name is excluded exactly when it is the key of some enabled `livekit` descriptor. */
  lemma {:induction false} ExcludedNamesMembership(configs: seq<VideoTrackConfig>, name: string)
    ensures name in ExcludedNames(configs) <==>
            exists i :: 0 <= i < |configs| && IsExcludedConfig(configs[i]) && TrackKey(configs[i]) == name
  {
    if configs != [] {
      var init := configs[..|configs| - 1];
      ExcludedNamesMembership(init, name);
      if name in ExcludedNames(init) {
        var i :| 0 <= i < |init| && IsExcludedConfig(init[i]) && TrackKey(init[i]) == name;
        assert configs[i] == init[i];
      }
      if i :| 0 <= i < |configs| && IsExcludedConfig(configs[i]) && TrackKey(configs[i]) == name {
        if i < |init| {
          assert init[i] == configs[i];
        }
      }
    }
  }

  /** `system` and disabled descriptors contribute nothing: with none else, the list is empty. */
  lemma {:induction false} NoLivekitNoNames(configs: seq<VideoTrackConfig>)
    requires forall i :: 0 <= i < |configs| ==> !IsExcludedConfig(configs[i])
    ensures ExcludedNames(configs) == []
  {
    if configs != [] {
      NoLivekitNoNames(configs[..|configs| - 1]);
    }
  }

  /** The shipped descriptors exclude exactly `xunfei_video_track`. */
  lemma DefaultExcludedNames()
    ensures ExcludedNames(AvailableVideoTracks) == ["xunfei_video_track"]
  {
    var configs := AvailableVideoTracks;
    assert configs[..1][..0] == [];
    assert !IsExcludedConfig(configs[..1][0]);
    assert ExcludedNames(configs[..1]) == [];
    assert configs[..2][..1] == configs[..1] && configs[..2] == configs;
    assert IsExcludedConfig(configs[1]) && TrackKey(configs[1]) == "xunfei_video_track";
  }

  /** The `excludedTrackNames` computation: push the key of each enabled `livekit` descriptor. */
  method ExcludedTrackNames(videoTrackConfigs: seq<VideoTrackConfig>) returns (trackNames: seq<string>)
    ensures trackNames == ExcludedNames(videoTrackConfigs)
  {
    trackNames := [];
    var i := 0;
    while i < |videoTrackConfigs|
      invariant 0 <= i <= |videoTrackConfigs|
      invariant trackNames == ExcludedNames(videoTrackConfigs[..i])
    {
      var config := videoTrackConfigs[i];
      if config.kind == Livekit && config.enabled {
        trackNames := trackNames + [TrackKey(config)];
      }
      assert videoTrackConfigs[..i + 1][..i] == videoTrackConfigs[..i];
      i := i + 1;
    }
    assert videoTrackConfigs[..i] == videoTrackConfigs;
  }

  /** One name against one excluded name: equal, or either contains the other. */
  predicate NamesOverlap(trackName: string, excludeName: string) {
    trackName == excludeName || Contains(trackName, excludeName) || Contains(excludeName, trackName)
  }

  /** `shouldExcludeTrack(trackName)`. */
  function ShouldExcludeTrack(excludedTrackNames: seq<string>, trackName: string): (r: bool)
    ensures r <==> exists i :: 0 <= i < |excludedTrackNames| && NamesOverlap(trackName, excludedTrackNames[i])
    ensures excludedTrackNames == [] ==> !r
    ensures trackName in excludedTrackNames ==> r
  {
    exists i :: 0 <= i < |excludedTrackNames| && NamesOverlap(trackName, excludedTrackNames[i])
  }

  /** The relation is symmetric: `t` is excluded by `[n]` iff `n` is excluded by `[t]`. */
  lemma ShouldExcludeSymmetric(t: string, n: string)
    ensures ShouldExcludeTrack([n], t) <==> ShouldExcludeTrack([t], n)
  {
    assert [n][0] == n && [t][0] == t;
  }

  /** An empty track name is excluded by every non-empty list, since every name contains it. */
  lemma EmptyNameExcluded(excludedTrackNames: seq<string>)
    requires excludedTrackNames != []
    ensures ShouldExcludeTrack(excludedTrackNames, "")
  {
    ContainsEmpty(excludedTrackNames[0]);
    assert NamesOverlap("", excludedTrackNames[0]);
  }

  /** The `trackName === excludeName` disjunct is implied by containment. */
  lemma EqualityDisjunctRedundant(trackName: string, excludeName: string)
    ensures NamesOverlap(trackName, excludeName) <==> Contains(trackName, excludeName) || Contains(excludeName, trackName)
  {
    ContainsSelf(trackName);
  }

  /** Any name that shares no containment with an excluded name, in either direction, is kept. */
  lemma {:induction false} UnrelatedNameKept(excludedTrackNames: seq<string>, trackName: string)
    requires forall i :: 0 <= i < |excludedTrackNames| ==>
               !Contains(trackName, excludedTrackNames[i]) && !Contains(excludedTrackNames[i], trackName)
    ensures !ShouldExcludeTrack(excludedTrackNames, trackName)
  {
    forall i | 0 <= i < |excludedTrackNames|
      ensures !NamesOverlap(trackName, excludedTrackNames[i])
    {
      if trackName == excludedTrackNames[i] {
        ContainsSelf(trackName);
      }
    }
  }
}
