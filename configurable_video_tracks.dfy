/**
 * The configurable video track hook: a table of options built from the
 * descriptors, a default selection, and `switchToTrack`, which stops the
 * previous track and connects the chosen one through an existing local
 * track, a remote subscription, or the factory.
 */
module ConfigurableVideoTracks {
  import opened Optional
  import opened AppConfig
  import opened Platform
  import opened RemoteVideoTracks
  import opened VideoTrackFactory

  /** What `enumerateDevices` reports per device. */
  datatype DeviceKind = VideoInput | AudioInput | AudioOutput

  /** The track held by an option or as the current track: a local track, or a remote one from the registry. */
  datatype VideoSource = Local(track: LocalTrack) | Remote(handle: Handle)

  /** The error kinds `switchToTrack` sets, with the value each message names. */
  datatype ErrorKind =
    | UnknownTrack(trackId: string)
    | NotFound(optionLabel: string)
    | SubscribeFailed(optionLabel: string)
    | SystemUnavailable(optionLabel: string)
    | CreateFailed(optionLabel: string)
    | Exception

  /** One entry of the option table. */
  datatype VideoTrackOption = VideoTrackOption(
    id: string,
    displayLabel: string,  // `label`
    kind: TrackType,
    icon: Option<string>,
    description: Option<string>,
    config: VideoTrackConfig,
    available: bool,
    track: Option<VideoSource>,
    trackReference: Option<TrackOrReference>)

  /** JavaScript truthiness of an optional string. */
  predicate Truthy(s: Option<string>) {
    s.Some? && s.value != ""
  }

  // ---------------------------------------------------------------------
  // The option table

  /**
   * Whether a descriptor is available: a system camera needs some video
   * input (`devices` is `None` when enumeration throws); a LiveKit track
   * needs its key among the existing local tracks or the remote registry.
   */
  function Availability(config: VideoTrackConfig, existing: map<string, LocalTrack>,
                        remote: map<string, RemoteTrackInfo>, devices: Option<seq<DeviceKind>>): (a: bool)
    ensures config.kind == System ==> (a <==> devices.Some? && VideoInput in devices.value)
    ensures config.kind == Livekit ==> (a <==> TrackKey(config) in existing || TrackKey(config) in remote)
    ensures config.kind.Unrecognised? ==> !a
  {
    match config.kind
      case System => devices.Some? && VideoInput in devices.value
      case Livekit => TrackKey(config) in existing || TrackKey(config) in remote
      case Unrecognised(_) => false
  }

  /** The option made for a descriptor, with its fields copied and no track yet. */
  function NewOption(config: VideoTrackConfig, available: bool): (o: VideoTrackOption)
    ensures o.id == config.id && o.displayLabel == config.displayLabel && o.kind == config.kind
    ensures o.icon == config.icon && o.description == config.description && o.config == config
    ensures o.available == available && o.track.None? && o.trackReference.None?
  {
    VideoTrackOption(config.id, config.displayLabel, config.kind, config.icon, config.description,
                     config, available, None, None)
  }

  /** The enabled descriptors, in order. */
  function EnabledConfigs(configs: seq<VideoTrackConfig>): seq<VideoTrackConfig> {
    if configs == [] then []
    else
      var last := configs[|configs| - 1];
      EnabledConfigs(configs[..|configs| - 1]) + (if last.enabled then [last] else [])
  }

  /** A descriptor is kept exactly when it is in the list and enabled. */
  lemma {:induction false} EnabledConfigsMembership(configs: seq<VideoTrackConfig>, c: VideoTrackConfig)
    ensures c in EnabledConfigs(configs) <==> c in configs && c.enabled
  {
    if configs != [] {
      var init := configs[..|configs| - 1];
      EnabledConfigsMembership(init, c);
      assert configs == init + [configs[|configs| - 1]];
    }
  }

  /** The table `initializeVideoOptions` builds: one option per enabled descriptor, in order. */
  function BuildOptions(configs: seq<VideoTrackConfig>, existing: map<string, LocalTrack>,
                        remote: map<string, RemoteTrackInfo>, devices: Option<seq<DeviceKind>>)
    : (r: seq<VideoTrackOption>)
    ensures |r| == |EnabledConfigs(configs)|
    ensures forall k :: 0 <= k < |r| ==>
              var c := EnabledConfigs(configs)[k];
              r[k] == NewOption(c, Availability(c, existing, remote, devices))
  {
    if configs == [] then []
    else
      var last := configs[|configs| - 1];
      BuildOptions(configs[..|configs| - 1], existing, remote, devices) +
      (if last.enabled then [NewOption(last, Availability(last, existing, remote, devices))] else [])
  }

  /** The first index of an option with the given id (`find`). */
  function FindIndex(options: seq<VideoTrackOption>, id: string): (r: Option<nat>)
    ensures r.Some? ==> r.value < |options| && options[r.value].id == id
    ensures r.Some? ==> forall k :: 0 <= k < r.value ==> options[k].id != id
    ensures r.None? ==> forall k :: 0 <= k < |options| ==> options[k].id != id
  {
    if options == [] then None
    else if options[0].id == id then Some(0)
    else
      var rest := FindIndex(options[1..], id);
      if rest.Some? then Some(rest.value + 1) else None
  }

  /** The first available option's index. */
  function FirstAvailable(options: seq<VideoTrackOption>): (r: Option<nat>)
    ensures r.Some? ==> r.value < |options| && options[r.value].available
    ensures r.Some? ==> forall k :: 0 <= k < r.value ==> !options[k].available
    ensures r.None? ==> forall k :: 0 <= k < |options| ==> !options[k].available
  {
    if options == [] then None
    else if options[0].available then Some(0)
    else
      var rest := FirstAvailable(options[1..]);
      if rest.Some? then Some(rest.value + 1) else None
  }

  /**
   * The default rule, applied only while no track id is set: the default id
   * when some option has it (available or not), else the first available
   * option, else no change.
   */
  function DefaultSelection(current: Option<string>, defaultTrackId: Option<string>,
                            options: seq<VideoTrackOption>): (r: Option<string>)
    ensures !Truthy(defaultTrackId) || Truthy(current) ==> r == current
    ensures (Truthy(defaultTrackId) && !Truthy(current) &&
             exists k :: 0 <= k < |options| && options[k].id == defaultTrackId.value) ==> r == defaultTrackId
    ensures (Truthy(defaultTrackId) && !Truthy(current) &&
             forall k :: 0 <= k < |options| ==> options[k].id != defaultTrackId.value) ==>
              if exists k :: 0 <= k < |options| && options[k].available then
                exists k :: 0 <= k < |options| && options[k].available && r == Some(options[k].id) &&
                            forall j :: 0 <= j < k ==> !options[j].available
              else r == current
  {
    if Truthy(defaultTrackId) && !Truthy(current) then
      if FindIndex(options, defaultTrackId.value).Some? then defaultTrackId
      else
        var first := FirstAvailable(options);
        if first.Some? then Some(options[first.value].id) else current
    else current
  }

  // ---------------------------------------------------------------------
  // switchToTrack

  /** The hook's state cells. */
  datatype TracksState = TracksState(
    videoOptions: seq<VideoTrackOption>,
    currentTrackId: Option<string>,
    currentTrack: Option<VideoSource>,
    isLoading: bool,
    error: Option<ErrorKind>)

  /**
   * What one `switchToTrack` call leaves behind: the new state, the track
   * `stop()` was called on, the subscription call that reached the
   * platform, the capture request made, whether `onError` was called, and
   * the `onTrackChange(trackId, track)` notification.
   */
  datatype SwitchOutcome = SwitchOutcome(
    state: TracksState,
    stopped: Option<VideoSource>,
    call: Option<SubscriptionCall>,
    request: Option<CaptureOptions>,
    reportedError: bool,
    notification: Option<(string, TrackOrReference)>)

  /**
   * The functional update of the options after a connection: the chosen
   * option gets the new track (and the reference, when one is given); the
   * option of the previously selected id loses its track.
   */
  function AttachOne(o: VideoTrackOption, trackId: string, previousId: Option<string>,
                     source: VideoSource, reference: Option<TrackOrReference>): VideoTrackOption {
    if o.id == trackId then
      o.(track := Some(source), trackReference := if reference.Some? then reference else o.trackReference)
    else
      o.(track := if previousId == Some(o.id) then None else o.track)
  }

  function AttachTrack(options: seq<VideoTrackOption>, trackId: string, previousId: Option<string>,
                       source: VideoSource, reference: Option<TrackOrReference>): (r: seq<VideoTrackOption>)
    ensures |r| == |options|
    ensures forall k :: 0 <= k < |r| ==>
              r[k].id == options[k].id && r[k].config == options[k].config && r[k].available == options[k].available
    ensures forall k :: 0 <= k < |r| && options[k].id == trackId ==> r[k].track == Some(source)
    ensures forall k :: 0 <= k < |r| && options[k].id != trackId ==>
              r[k].track == (if previousId == Some(options[k].id) then None else options[k].track)
    ensures forall k :: 0 <= k < |r| && (options[k].id != trackId || reference.None?) ==>
              r[k].trackReference == options[k].trackReference
    ensures forall k :: 0 <= k < |r| && options[k].id == trackId && reference.Some? ==>
              r[k].trackReference == reference
  {
    seq(|options|, k requires 0 <= k < |options| => AttachOne(options[k], trackId, previousId, source, reference))
  }

  function Fail(s: TracksState, e: ErrorKind, call: Option<SubscriptionCall>, request: Option<CaptureOptions>)
    : SwitchOutcome
  {
    SwitchOutcome(s.(error := Some(e)), None, call, request, false, None)
  }

  /**
   * The connection part of `switchToTrack`, after the id is set and the
   * previous track is stopped and cleared. `previousId` is the id the
   * handler's closure captured.
   */
  function Connect(s: TracksState, previousId: Option<string>, trackId: string, option: VideoTrackOption,
                   remote: map<string, RemoteTrackInfo>, existing: map<string, LocalTrack>,
                   capture: CaptureOptions -> Option<LocalTrack>, subscribeFails: bool): (r: SwitchOutcome)
    requires option.id == trackId && s.error.None?
    ensures r.stopped.None? && !r.reportedError
    ensures r.state.currentTrackId == s.currentTrackId && r.state.isLoading == s.isLoading
    ensures r.notification.Some? <==> r.state.error.None?
    ensures r.notification.None? ==> r.state.currentTrack == s.currentTrack && r.state.videoOptions == s.videoOptions
    ensures r.notification.Some? ==> r.notification.value.0 == trackId && r.state.currentTrack.Some?
    ensures r.notification.Some? ==>
              r.state.videoOptions == AttachTrack(s.videoOptions, trackId, previousId, r.state.currentTrack.value,
                                                  if r.notification.value.1.RemoteReference? then Some(r.notification.value.1) else None)
    ensures r.call.Some? ==> option.config.kind == Livekit && TrackKey(option.config) !in existing
    ensures r.request.Some? ==> option.config.kind == System && option.available
    // a LiveKit option with an existing local track installs that track, with no call and no capture
    ensures option.config.kind == Livekit && TrackKey(option.config) in existing ==>
              r.call.None? && r.request.None? &&
              (option.config.enabled ==>
                 r.state.currentTrack == Some(Local(existing[TrackKey(option.config)])) &&
                 r.notification == Some((trackId, LocalVideo(existing[TrackKey(option.config)])))) &&
              (!option.config.enabled ==> r.state.error == Some(CreateFailed(option.displayLabel)))
    // an unavailable system camera is reported without asking the factory
    ensures option.config.kind == System && !option.available ==>
              r.state.error == Some(SystemUnavailable(option.displayLabel)) && r.request.None? && r.call.None?
    // an available system camera asks for the front camera and installs what the capture gives
    ensures option.config.kind == System && option.available ==>
              r.call.None? &&
              r.request == (if option.config.enabled then Some(FacingMode("user")) else None) &&
              (option.config.enabled && capture(FacingMode("user")).Some? ==>
                 r.state.currentTrack == Some(Local(capture(FacingMode("user")).value)) &&
                 r.notification == Some((trackId, LocalVideo(capture(FacingMode("user")).value)))) &&
              (!option.config.enabled || capture(FacingMode("user")).None? ==>
                 r.state.error == Some(CreateFailed(option.displayLabel)))
    // a descriptor of unrecognised type yields no track
    ensures option.config.kind.Unrecognised? ==>
              r.state.error == Some(CreateFailed(option.displayLabel)) && r.request.None? && r.call.None?
  {
    var config := option.config;
    var key := TrackKey(config);
    var existingTrack := if config.kind == Livekit then Get(existing, key) else None;
    if config.kind == Livekit && existingTrack.None? then
      if key !in remote then Fail(s, NotFound(option.displayLabel), None, None)
      else
        var info := remote[key];
        var (subscribed, call) := SetSubscription(remote, key, true, subscribeFails);
        if subscribed && info.track.Some? then
          var reference := RemoteReference(info.participantIdentity, info.trackSid);
          var source := Remote(info.track.value);
          SwitchOutcome(
            s.(currentTrack := Some(source),
               videoOptions := AttachTrack(s.videoOptions, trackId, previousId, source, Some(reference))),
            None, call, None, false, Some((trackId, reference)))
        else Fail(s, SubscribeFailed(option.displayLabel), call, None)
    else if config.kind == System && !option.available then
      Fail(s, SystemUnavailable(option.displayLabel), None, None)
    else
      var creation := CreateTrackFromConfig(config, existingTrack, capture);
      if creation.track.Some? then
        var source := Local(creation.track.value);
        SwitchOutcome(
          s.(currentTrack := Some(source),
             videoOptions := AttachTrack(s.videoOptions, trackId, previousId, source, None)),
          None, None, creation.request, false, Some((trackId, LocalVideo(creation.track.value))))
      else Fail(s, CreateFailed(option.displayLabel), None, creation.request)
  }

  /**
   * One `switchToTrack(trackId)` call against a state, the registry's map
   * and the existing local tracks. `subscribeFails` says `setSubscribed`
   * throws, `stopFails` that the previous track's `stop()` throws (the one
   * call inside the `try` whose exception reaches its `catch`).
   */
  function SwitchStep(s: TracksState, remote: map<string, RemoteTrackInfo>, existing: map<string, LocalTrack>,
                      trackId: string, capture: CaptureOptions -> Option<LocalTrack>,
                      subscribeFails: bool, stopFails: bool): (r: SwitchOutcome)
    // every exit leaves isLoading false (`finally`)
    ensures !r.state.isLoading
    // an unknown id only sets the error
    ensures FindIndex(s.videoOptions, trackId).None? ==>
              r == SwitchOutcome(s.(isLoading := false, error := Some(UnknownTrack(trackId))), None, None, None, false, None)
    // a known id is selected before any connection attempt and stays selected on every branch
    ensures FindIndex(s.videoOptions, trackId).Some? ==> r.state.currentTrackId == Some(trackId)
    // the previous track is stopped first
    ensures FindIndex(s.videoOptions, trackId).Some? ==> r.stopped == s.currentTrack
    // only a throwing stop() reaches the catch, and then onError is called
    ensures r.reportedError <==> FindIndex(s.videoOptions, trackId).Some? && s.currentTrack.Some? && stopFails
    ensures r.reportedError ==> r.state.error == Some(Exception) && r.state.currentTrack == s.currentTrack
    // success is exactly the absence of an error, and it is announced
    ensures r.notification.Some? <==> r.state.error.None?
    ensures r.notification.Some? ==>
              r.notification.value.0 == trackId && r.state.currentTrack.Some? &&
              exists k :: 0 <= k < |r.state.videoOptions| && r.state.videoOptions[k].id == trackId &&
                          r.state.videoOptions[k].track == r.state.currentTrack
    // a failed connection after a successful stop leaves no current track
    ensures FindIndex(s.videoOptions, trackId).Some? && r.state.error.Some? && !r.reportedError ==>
              r.state.currentTrack.None?
    // the options keep their ids, descriptors and availability
    ensures |r.state.videoOptions| == |s.videoOptions|
    ensures forall k :: 0 <= k < |s.videoOptions| ==>
              r.state.videoOptions[k].id == s.videoOptions[k].id &&
              r.state.videoOptions[k].config == s.videoOptions[k].config &&
              r.state.videoOptions[k].available == s.videoOptions[k].available
  {
    var entry := s.(isLoading := true, error := None);
    var index := FindIndex(s.videoOptions, trackId);
    if index.None? then
      SwitchOutcome(entry.(isLoading := false, error := Some(UnknownTrack(trackId))), None, None, None, false, None)
    else
      var option := s.videoOptions[index.value];
      var selected := entry.(currentTrackId := Some(trackId));
      if s.currentTrack.Some? && stopFails then
        SwitchOutcome(selected.(isLoading := false, error := Some(Exception)), s.currentTrack, None, None, true, None)
      else
        var outcome := Connect(selected.(currentTrack := None), s.currentTrackId, trackId, option,
                               remote, existing, capture, subscribeFails);
        assert outcome.notification.Some? ==> outcome.state.videoOptions[index.value].id == trackId;
        outcome.(state := outcome.state.(isLoading := false), stopped := s.currentTrack)
  }

  /**
   * A remote switch succeeds only when the registry's snapshot already has
   * the entry with a track, and the subscription did not throw (or was
   * already in place); a missing entry is reported as not found.
   */
  lemma RemoteSuccessNeedsSnapshotTrack(s: TracksState, remote: map<string, RemoteTrackInfo>,
                                        existing: map<string, LocalTrack>, trackId: string,
                                        capture: CaptureOptions -> Option<LocalTrack>, subscribeFails: bool, stopFails: bool)
    requires FindIndex(s.videoOptions, trackId).Some?
    requires var o := s.videoOptions[FindIndex(s.videoOptions, trackId).value];
             o.config.kind == Livekit && TrackKey(o.config) !in existing
    ensures var o := s.videoOptions[FindIndex(s.videoOptions, trackId).value];
            var key := TrackKey(o.config);
            var r := SwitchStep(s, remote, existing, trackId, capture, subscribeFails, stopFails);
            (r.notification.Some? ==>
               key in remote && remote[key].track.Some? && (remote[key].isSubscribed || !subscribeFails) &&
               r.notification.value.1 == RemoteReference(remote[key].participantIdentity, remote[key].trackSid) &&
               r.state.currentTrack == Some(Remote(remote[key].track.value))) &&
            (key !in remote && !r.reportedError ==> r.state.error == Some(NotFound(o.displayLabel))) &&
            (key in remote && !r.reportedError && r.notification.None? ==> r.state.error == Some(SubscribeFailed(o.displayLabel)))
  {
  }

  /** An unavailable system camera is reported without asking the factory, so nothing is captured. */
  lemma UnavailableSystemNeverCaptures(s: TracksState, remote: map<string, RemoteTrackInfo>,
                                       existing: map<string, LocalTrack>, trackId: string,
                                       capture: CaptureOptions -> Option<LocalTrack>, subscribeFails: bool, stopFails: bool)
    requires FindIndex(s.videoOptions, trackId).Some?
    requires var o := s.videoOptions[FindIndex(s.videoOptions, trackId).value];
             o.config.kind == System && !o.available
    ensures var o := s.videoOptions[FindIndex(s.videoOptions, trackId).value];
            var r := SwitchStep(s, remote, existing, trackId, capture, subscribeFails, stopFails);
            r.request.None? && r.notification.None? && r.call.None? &&
            (!r.reportedError ==> r.state.error == Some(SystemUnavailable(o.displayLabel)))
  {
  }

  /**
   * A LiveKit option whose name is among the existing local tracks installs
   * that track and announces it, without a subscription or a capture.
   */
  lemma LocalLivekitSwitchInstallsExistingTrack(s: TracksState, remote: map<string, RemoteTrackInfo>,
                                                existing: map<string, LocalTrack>, trackId: string,
                                                capture: CaptureOptions -> Option<LocalTrack>,
                                                subscribeFails: bool, stopFails: bool)
    requires FindIndex(s.videoOptions, trackId).Some?
    requires var o := s.videoOptions[FindIndex(s.videoOptions, trackId).value];
             o.config.kind == Livekit && TrackKey(o.config) in existing
    ensures var o := s.videoOptions[FindIndex(s.videoOptions, trackId).value];
            var t := existing[TrackKey(o.config)];
            var r := SwitchStep(s, remote, existing, trackId, capture, subscribeFails, stopFails);
            r.call.None? && r.request.None? &&
            (!r.reportedError && o.config.enabled ==>
               r.state.error.None? && r.state.currentTrack == Some(Local(t)) &&
               r.notification == Some((trackId, LocalVideo(t)))) &&
            (!r.reportedError && !o.config.enabled ==> r.state.error == Some(CreateFailed(o.displayLabel)))
  {
  }

  /** An available system camera asks for the front camera; a capture that yields nothing is a creation failure. */
  lemma SystemCaptureFailureIsCreateFailed(s: TracksState, remote: map<string, RemoteTrackInfo>,
                                           existing: map<string, LocalTrack>, trackId: string,
                                           capture: CaptureOptions -> Option<LocalTrack>,
                                           subscribeFails: bool, stopFails: bool)
    requires FindIndex(s.videoOptions, trackId).Some?
    requires var o := s.videoOptions[FindIndex(s.videoOptions, trackId).value];
             o.config.kind == System && o.available && o.config.enabled
    ensures var o := s.videoOptions[FindIndex(s.videoOptions, trackId).value];
            var r := SwitchStep(s, remote, existing, trackId, capture, subscribeFails, stopFails);
            !r.reportedError ==>
              r.call.None? && r.request == Some(FacingMode("user")) &&
              (capture(FacingMode("user")).None? ==>
                 r.state.error == Some(CreateFailed(o.displayLabel)) && r.notification.None?) &&
              (capture(FacingMode("user")).Some? ==>
                 r.state.currentTrack == Some(Local(capture(FacingMode("user")).value)) &&
                 r.notification == Some((trackId, LocalVideo(capture(FacingMode("user")).value))))
  {
  }

  // ---------------------------------------------------------------------
  // The hook

  /** The hook's state cells and what it has asked of the platform. */
  class ConfigurableTracks {
    const availableConfigs: seq<VideoTrackConfig>
    const defaultTrackId: Option<string>
    const existingLivekitTracks: map<string, LocalTrack>
    /** This hook's own remote registry instance. */
    const registry: Registry

    var videoOptions: seq<VideoTrackOption>
    var currentTrackId: Option<string>
    var currentTrack: Option<VideoSource>
    var isLoading: bool
    var error: Option<ErrorKind>

    /** Tracks whose `stop()` was called. */
    var stopped: seq<VideoSource>
    /** Capture requests made through the factory. */
    var captureRequests: seq<CaptureOptions>
    /** Number of `onError` calls. */
    var errorsReported: nat

    function State(): TracksState
      reads this
    {
      TracksState(videoOptions, currentTrackId, currentTrack, isLoading, error)
    }

    ghost predicate Valid()
      reads this, registry
    {
      registry.Valid()
    }

    constructor (availableConfigs: seq<VideoTrackConfig>, defaultTrackId: Option<string>,
                 existingLivekitTracks: map<string, LocalTrack>, registry: Registry)
      requires registry.Valid()
      ensures Valid()
      ensures this.availableConfigs == availableConfigs && this.defaultTrackId == defaultTrackId
      ensures this.existingLivekitTracks == existingLivekitTracks && this.registry == registry
      ensures State() == TracksState([], None, None, false, None)
      ensures stopped == [] && captureRequests == [] && errorsReported == 0
    {
      this.availableConfigs := availableConfigs;
      this.defaultTrackId := defaultTrackId;
      this.existingLivekitTracks := existingLivekitTracks;
      this.registry := registry;
      videoOptions := [];
      currentTrackId := None;
      currentTrack := None;
      isLoading := false;
      error := None;
      stopped := [];
      captureRequests := [];
      errorsReported := 0;
    }

    /** `initializeVideoOptions`: rebuild the table, then apply the default rule. */
    method InitializeVideoOptions(devices: Option<seq<DeviceKind>>)
      requires Valid()
      modifies this
      ensures videoOptions == BuildOptions(availableConfigs, existingLivekitTracks, registry.remoteVideoTracks, devices)
      ensures currentTrackId == DefaultSelection(old(currentTrackId), defaultTrackId, videoOptions)
      ensures !isLoading
      ensures currentTrack == old(currentTrack) && error == old(error)
      ensures stopped == old(stopped) && captureRequests == old(captureRequests) && errorsReported == old(errorsReported)
    {
      isLoading := true;
      var options: seq<VideoTrackOption> := [];
      for i := 0 to |availableConfigs|
        invariant options == BuildOptions(availableConfigs[..i], existingLivekitTracks, registry.remoteVideoTracks, devices)
      {
        var config := availableConfigs[i];
        assert availableConfigs[..i + 1][..i] == availableConfigs[..i];
        if config.enabled {
          var available := false;
          if config.kind == System {
            available := devices.Some? && VideoInput in devices.value;
          } else if config.kind == Livekit {
            var trackKey := TrackKey(config);
            if trackKey in existingLivekitTracks {
              available := true;
            } else {
              var remoteTrackInfo := registry.GetTrackByName(trackKey);
              available := remoteTrackInfo.Some?;
            }
          }
          options := options + [NewOption(config, available)];
        }
      }
      assert availableConfigs[..|availableConfigs|] == availableConfigs;
      videoOptions := options;
      isLoading := false;

      if Truthy(defaultTrackId) && !Truthy(currentTrackId) {
        var defaultOption := FindIndex(options, defaultTrackId.value);
        if defaultOption.Some? {
          currentTrackId := defaultTrackId;
        } else {
          var firstAvailable := FirstAvailable(options);
          if firstAvailable.Some? {
            currentTrackId := Some(options[firstAvailable.value].id);
          }
        }
      }
    }

    /** The effect that re-runs initialisation whenever the registry holds some track. */
    method OnRemoteTracksChanged(devices: Option<seq<DeviceKind>>)
      requires Valid()
      modifies this
      ensures |registry.remoteVideoTracks| > 0 ==>
                videoOptions == BuildOptions(availableConfigs, existingLivekitTracks, registry.remoteVideoTracks, devices) &&
                currentTrackId == DefaultSelection(old(currentTrackId), defaultTrackId, videoOptions) && !isLoading
      ensures |registry.remoteVideoTracks| == 0 ==> State() == old(State())
      ensures currentTrack == old(currentTrack) && error == old(error)
      ensures stopped == old(stopped) && captureRequests == old(captureRequests) && errorsReported == old(errorsReported)
    {
      if |registry.remoteVideoTracks| > 0 {
        InitializeVideoOptions(devices);
      }
    }

    /**
     * `switchToTrack(trackId)`. It returns the `onTrackChange` notification
     * the caller's handler then receives.
     */
    method SwitchToTrack(trackId: string, capture: CaptureOptions -> Option<LocalTrack>,
                         subscribeFails: bool, stopFails: bool)
      returns (notification: Option<(string, TrackOrReference)>)
      requires Valid()
      modifies this, registry
      ensures Valid()
      ensures var r := SwitchStep(old(State()), old(registry.remoteVideoTracks), existingLivekitTracks,
                                  trackId, capture, subscribeFails, stopFails);
              State() == r.state && notification == r.notification &&
              stopped == old(stopped) + (if r.stopped.Some? then [r.stopped.value] else []) &&
              registry.calls == old(registry.calls) + CallList(r.call) &&
              captureRequests == old(captureRequests) + (if r.request.Some? then [r.request.value] else []) &&
              errorsReported == old(errorsReported) + (if r.reportedError then 1 else 0)
      ensures registry.remoteVideoTracks == old(registry.remoteVideoTracks)
    {
      var previousId := currentTrackId;
      var previousTrack := currentTrack;
      var options := videoOptions;
      notification := None;

      isLoading := true;
      error := None;

      var index := FindIndex(options, trackId);
      if index.None? {
        error := Some(UnknownTrack(trackId));
        isLoading := false;
        return;
      }
      var option := options[index.value];
      currentTrackId := Some(trackId);

      if previousTrack.Some? {
        stopped := stopped + [previousTrack.value];
        if stopFails {
          error := Some(Exception);
          errorsReported := errorsReported + 1;
          isLoading := false;
          return;
        }
        currentTrack := None;
      }
      notification := ConnectOption(trackId, option, previousId, capture, subscribeFails);
      isLoading := false;
    }

    /** The connection part of `switchToTrack`, after the previous track is stopped. */
    method ConnectOption(trackId: string, option: VideoTrackOption, previousId: Option<string>,
                         capture: CaptureOptions -> Option<LocalTrack>, subscribeFails: bool)
      returns (notification: Option<(string, TrackOrReference)>)
      requires Valid() && option.id == trackId && error.None?
      modifies this, registry
      ensures Valid()
      ensures var r := Connect(old(State()), previousId, trackId, option, old(registry.remoteVideoTracks),
                               existingLivekitTracks, capture, subscribeFails);
              State() == r.state && notification == r.notification &&
              registry.calls == old(registry.calls) + CallList(r.call) &&
              captureRequests == old(captureRequests) + (if r.request.Some? then [r.request.value] else [])
      ensures stopped == old(stopped) && errorsReported == old(errorsReported)
      ensures registry.remoteVideoTracks == old(registry.remoteVideoTracks)
    {
      notification := None;
      var existingTrack: Option<LocalTrack> := None;
      var config := option.config;
      if config.kind == Livekit {
        var trackKey := TrackKey(config);
        existingTrack := Get(existingLivekitTracks, trackKey);
        if existingTrack.None? {
          var remoteTrackInfo := registry.GetTrackByName(trackKey);
          if remoteTrackInfo.Some? {
            var info := remoteTrackInfo.value;
            var subscribed := registry.SubscribeToTrack(trackKey, subscribeFails);
            if subscribed && info.track.Some? {
              var reference := RemoteReference(info.participantIdentity, info.trackSid);
              currentTrack := Some(Remote(info.track.value));
              videoOptions := AttachTrack(videoOptions, trackId, previousId, Remote(info.track.value), Some(reference));
              notification := Some((trackId, reference));
            } else {
              error := Some(SubscribeFailed(option.displayLabel));
            }
          } else {
            error := Some(NotFound(option.displayLabel));
          }
          return;
        }
      }

      if config.kind == System && !option.available {
        error := Some(SystemUnavailable(option.displayLabel));
        return;
      }

      var creation := CreateTrackFromConfig(config, existingTrack, capture);
      if creation.request.Some? {
        captureRequests := captureRequests + [creation.request.value];
      }
      if creation.track.Some? {
        var newTrack := creation.track.value;
        currentTrack := Some(Local(newTrack));
        videoOptions := AttachTrack(videoOptions, trackId, previousId, Local(newTrack), None);
        notification := Some((trackId, LocalVideo(newTrack)));
      } else {
        error := Some(CreateFailed(option.displayLabel));
      }
    }

    /** `getTrackById`: the first option with that id. */
    function GetTrackById(trackId: string): (r: Option<VideoTrackOption>)
      reads this
      ensures r.Some? ==> r.value in videoOptions && r.value.id == trackId
      ensures r.Some? ==> exists k :: 0 <= k < |videoOptions| && videoOptions[k] == r.value &&
                                      forall j :: 0 <= j < k ==> videoOptions[j].id != trackId
      ensures r.None? ==> forall o :: o in videoOptions ==> o.id != trackId
    {
      var index := FindIndex(videoOptions, trackId);
      if index.Some? then Some(videoOptions[index.value]) else None
    }

    /** `clearError`: only the error is reset. */
    method ClearError()
      modifies this
      ensures State() == old(State()).(error := None)
      ensures stopped == old(stopped) && captureRequests == old(captureRequests) && errorsReported == old(errorsReported)
    {
      error := None;
    }
  }
}
