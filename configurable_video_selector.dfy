/**
 * The video source selector: it owns the enable flags and the selected id,
 * publishes the system camera on the local participant, previews remote
 * tracks, and writes what is shown into the selected-track store. Its
 * handlers read the values their closures captured when the user acted.
 */
module ConfigurableVideoSelector {
  import opened Optional
  import opened AppConfig
  import opened Platform
  import opened RemoteVideoTracks
  import opened VideoTrackFactory
  import opened ConfigurableVideoTracks
  import opened SelectedVideoTrack

  /** `videoOptions.filter(opt => opt.available)`. */
  function AvailableOptions(options: seq<VideoTrackOption>): (r: seq<VideoTrackOption>)
    ensures |r| <= |options|
    ensures forall o :: o in r ==> o in options && o.available
  {
    if options == [] then []
    else
      var last := options[|options| - 1];
      AvailableOptions(options[..|options| - 1]) + (if last.available then [last] else [])
  }

  /** Every available option is kept, and nothing else. */
  lemma {:induction false} AvailableOptionsMembership(options: seq<VideoTrackOption>, o: VideoTrackOption)
    ensures o in AvailableOptions(options) <==> o in options && o.available
  {
    if options != [] {
      var init := options[..|options| - 1];
      AvailableOptionsMembership(init, o);
      assert options == init + [options[|options| - 1]];
    }
  }

  /** `selectedTrackId || defaultTrackId`. */
  function TrackToUse(selected: Option<string>, defaultTrackId: Option<string>): (r: Option<string>)
    ensures Truthy(selected) ==> r == selected
    ensures !Truthy(selected) ==> r == defaultTrackId
  {
    if Truthy(selected) then selected else defaultTrackId
  }

  /** The descriptor type of the first option with the given id, as `getTrackById(id)?.config.type` reads it. */
  function OptionKind(options: seq<VideoTrackOption>, id: string): (r: Option<TrackType>)
    ensures r.Some? <==> exists k :: 0 <= k < |options| && options[k].id == id
    ensures r.Some? ==> exists k :: 0 <= k < |options| && options[k].id == id && options[k].config.kind == r.value &&
                                    forall j :: 0 <= j < k ==> options[j].id != id
  {
    var index := FindIndex(options, id);
    if index.Some? then Some(options[index.value].config.kind) else None
  }

  /** The same for an id that is looked up only when truthy (`id ? getTrackById(id) : null`). */
  function KindOf(options: seq<VideoTrackOption>, id: Option<string>): (r: Option<TrackType>)
    ensures !Truthy(id) ==> r.None?
    ensures Truthy(id) ==> r == OptionKind(options, id.value)
  {
    if Truthy(id) then OptionKind(options, id.value) else None
  }

  /** The descriptor of the first option with the given id. */
  function FindConfig(options: seq<VideoTrackOption>, id: string): (r: Option<VideoTrackConfig>)
    ensures r.Some? <==> OptionKind(options, id).Some?
    ensures r.Some? ==> exists k :: 0 <= k < |options| && options[k].id == id && options[k].config == r.value &&
                                    forall j :: 0 <= j < k ==> options[j].id != id
    ensures r.Some? ==> r.value.kind == OptionKind(options, id).value
  {
    var index := FindIndex(options, id);
    if index.Some? then Some(options[index.value].config) else None
  }

  /**
   * The reference a direct LiveKit preview stores: present only when the
   * registry's snapshot has the entry, the subscription does not fail, and
   * the snapshot entry already carries a track.
   */
  function RemotePreview(tracksMap: map<string, RemoteTrackInfo>, key: string, subscribeFails: bool)
    : (r: Option<TrackOrReference>)
    ensures r.Some? <==> key in tracksMap && tracksMap[key].track.Some? &&
                         (tracksMap[key].isSubscribed || !subscribeFails)
    ensures r.Some? ==> r.value == RemoteReference(tracksMap[key].participantIdentity, tracksMap[key].trackSid)
  {
    if SetSubscription(tracksMap, key, true, subscribeFails).0 && tracksMap[key].track.Some? then
      Some(RemoteReference(tracksMap[key].participantIdentity, tracksMap[key].trackSid))
    else None
  }


  /** The platform's answers during one user action. */
  datatype Outcomes = Outcomes(
    capture: CaptureOptions -> Option<LocalTrack>,
    subscribeFails: bool,
    stopFails: bool,
    publishFails: bool)

  // ---------------------------------------------------------------------
  // The selector's handlers as functions on a value

  /**
   * Everything one user action can change: the selector's cells and logs,
   * the two cells of the selected-track store, and the hook's state, its
   * `stop()` calls, capture requests, `onError` calls and the subscription
   * calls of both registry instances.
   */
  datatype SelectorState = SelectorState(
    selectedTrackId: Option<string>,
    isSystemCameraEnabled: bool,
    isTrackPreviewEnabled: bool,
    cameraPublications: seq<CameraPublication>,
    stopped: seq<VideoSource>,
    pressedChanges: seq<bool>,
    deviceErrors: nat,
    trackChanges: seq<(string, TrackOrReference)>,
    shownTrackId: Option<string>,
    shownReference: Option<TrackOrReference>,
    hook: TracksState,
    hookStopped: seq<VideoSource>,
    captureRequests: seq<CaptureOptions>,
    errorsReported: nat,
    hookCalls: seq<SubscriptionCall>,
    previewCalls: seq<SubscriptionCall>)

  /**
   * What no handler changes: whether a store provider is mounted, the
   * default id, the existing local tracks, and the snapshots of the hook's
   * and the selector's registry instances.
   */
  datatype Context = Context(
    hasProvider: bool,
    defaultTrackId: Option<string>,
    existing: map<string, LocalTrack>,
    hookTracks: map<string, RemoteTrackInfo>,
    previewTracks: map<string, RemoteTrackInfo>)

  /** `setSelectedTrack(id, reference)`: both store cells, or nothing without a provider. */
  function Shown(s: SelectorState, c: Context, id: string, reference: Option<TrackOrReference>): SelectorState {
    if c.hasProvider then s.(shownTrackId := Some(id), shownReference := reference) else s
  }

  /**
   * Unpublish the camera, stop the hook's current track (which the hook goes
   * on holding) and `setSelectedTrack('', null)`: the steps every clean-up
   * shares.
   */
  function Cleared(s: SelectorState, c: Context): (r: SelectorState)
    ensures r.cameraPublications == [] && r.stopped == s.stopped + s.hook.currentTrack.ToSeq()
    ensures c.hasProvider ==> r.shownTrackId == Some("") && r.shownReference.None?
    ensures !c.hasProvider ==> r.shownTrackId == s.shownTrackId && r.shownReference == s.shownReference
    ensures r == s.(cameraPublications := [], stopped := r.stopped, shownTrackId := r.shownTrackId,
                    shownReference := r.shownReference)
  {
    Shown(s.(cameraPublications := [], stopped := s.stopped + s.hook.currentTrack.ToSeq()), c, "", None)
  }

  /** `cleanupAllResources`. */
  function AllCleaned(s: SelectorState, c: Context): (r: SelectorState)
    ensures r.cameraPublications == [] && !r.isSystemCameraEnabled && !r.isTrackPreviewEnabled
    ensures r.stopped == s.stopped + s.hook.currentTrack.ToSeq()
    // the hook keeps the track it stopped, and the selection is kept
    ensures r.hook == s.hook && r.selectedTrackId == s.selectedTrackId && r.pressedChanges == s.pressedChanges
  {
    Cleared(s, c).(isSystemCameraEnabled := false, isTrackPreviewEnabled := false)
  }

  /** `cleanupSystemCameraResources`: as the full clean-up, but the preview flag is kept. */
  function SystemCameraCleaned(s: SelectorState, c: Context): (r: SelectorState)
    ensures r.cameraPublications == [] && !r.isSystemCameraEnabled
    ensures r.isTrackPreviewEnabled == s.isTrackPreviewEnabled
    ensures r.stopped == s.stopped + s.hook.currentTrack.ToSeq()
    ensures r.hook == s.hook && r.selectedTrackId == s.selectedTrackId && r.pressedChanges == s.pressedChanges
  {
    Cleared(s, c).(isSystemCameraEnabled := false)
  }

  /** `cleanupTrackPreviewResources`: nothing is stopped and the system flag is kept. */
  function TrackPreviewCleaned(s: SelectorState, c: Context): (r: SelectorState)
    ensures r.cameraPublications == [] && !r.isTrackPreviewEnabled
    ensures r.isSystemCameraEnabled == s.isSystemCameraEnabled
    ensures r.stopped == s.stopped && r.hook == s.hook && r.selectedTrackId == s.selectedTrackId
    ensures c.hasProvider ==> r.shownTrackId == Some("") && r.shownReference.None?
  {
    Shown(s.(cameraPublications := []), c, "", None).(isTrackPreviewEnabled := false)
  }

  /**
   * The `onTrackChange` handler the selector gives the hook. A system
   * track replaces the camera publication, or is reported through
   * `onMediaDeviceError` when publishing throws; a LiveKit track or
   * reference goes to the store as it is; the parent is told unless
   * publishing threw.
   */
  function TrackChanged(s: SelectorState, c: Context, trackId: string, trackOrRef: TrackOrReference,
                        publishFails: bool): SelectorState
  {
    var kind := OptionKind(s.hook.videoOptions, trackId);
    if kind.None? then s
    else if kind == Some(System) && trackOrRef.LocalVideo? then
      if publishFails then s.(cameraPublications := [], deviceErrors := s.deviceErrors + 1)
      else
        var publication := CameraPublication(trackOrRef.track, trackId);
        Shown(s.(cameraPublications := [publication]), c, trackId, Some(LocalCameraReference(publication)))
          .(isSystemCameraEnabled := true, trackChanges := s.trackChanges + [(trackId, trackOrRef)])
    else if kind == Some(Livekit) then
      Shown(s, c, trackId, Some(trackOrRef)).(isTrackPreviewEnabled := true, trackChanges := s.trackChanges + [(trackId, trackOrRef)])
    else
      s.(trackChanges := s.trackChanges + [(trackId, trackOrRef)])
  }

  /** `switchToTrack(trackId)` on the hook, then the handler above for its notification. */
  function Switched(s: SelectorState, c: Context, trackId: string, env: Outcomes): SelectorState {
    var r := SwitchStep(s.hook, c.hookTracks, c.existing, trackId, env.capture, env.subscribeFails, env.stopFails);
    var after := s.(hook := r.state, hookStopped := s.hookStopped + r.stopped.ToSeq(),
                    captureRequests := s.captureRequests + r.request.ToSeq(),
                    errorsReported := s.errorsReported + (if r.reportedError then 1 else 0),
                    hookCalls := s.hookCalls + CallList(r.call));
    if r.notification.Some? then TrackChanged(after, c, r.notification.value.0, r.notification.value.1, env.publishFails)
    else after
  }

  /** `handleSystemCameraToggle(enabled)`. */
  function SystemCameraToggled(s: SelectorState, c: Context, enabled: Option<bool>, env: Outcomes): SelectorState {
    var shouldEnable := if enabled.Some? then enabled.value else !s.isSystemCameraEnabled;
    if shouldEnable then
      var switched := Switched(AllCleaned(s, c).(selectedTrackId := Some(SystemCameraId)), c, SystemCameraId, env);
      switched.(isSystemCameraEnabled := true, pressedChanges := switched.pressedChanges + [true])
    else
      var cleaned := SystemCameraCleaned(s, c);
      cleaned.(pressedChanges := cleaned.pressedChanges + [false])
  }

  /** The direct LiveKit preview: subscribe through the selector's registry, and show the reference only on success. */
  function RemotePreviewed(s: SelectorState, c: Context, trackToUse: string, config: VideoTrackConfig,
                           subscribeFails: bool): SelectorState
  {
    var key := TrackKey(config);
    var subscribed := s.(previewCalls := s.previewCalls + CallList(SetSubscription(c.previewTracks, key, true, subscribeFails).1));
    var reference := RemotePreview(c.previewTracks, key, subscribeFails);
    if reference.Some? then
      var shown := Shown(subscribed, c, trackToUse, reference);
      shown.(isTrackPreviewEnabled := true, pressedChanges := shown.pressedChanges + [true])
    else subscribed
  }

  /** The clean-up at the start of enabling a preview, skipped when the captured id names a LiveKit option. */
  function PreviewCleaned(s: SelectorState, c: Context, captured: Option<string>): (r: SelectorState)
    ensures KindOf(s.hook.videoOptions, captured) == Some(Livekit) ==> r == s
    ensures KindOf(s.hook.videoOptions, captured) != Some(Livekit) ==>
              r.cameraPublications == [] && r.stopped == s.stopped + s.hook.currentTrack.ToSeq() && r.hook == s.hook
  {
    if KindOf(s.hook.videoOptions, captured) != Some(Livekit) then Cleared(s, c) else s
  }

  /** Previewing `trackToUse`: a LiveKit option directly, anything else through `switchToTrack`. */
  function Previewed(s: SelectorState, c: Context, trackToUse: string, env: Outcomes): SelectorState {
    var config := FindConfig(s.hook.videoOptions, trackToUse);
    if config.Some? && config.value.kind == Livekit then
      RemotePreviewed(s, c, trackToUse, config.value, env.subscribeFails)
    else
      var switched := Switched(s, c, trackToUse, env);
      switched.(isTrackPreviewEnabled := true, pressedChanges := switched.pressedChanges + [true])
  }

  /** `handleTrackPreviewToggle(enabled)` whose closure holds `captured` as `selectedTrackId`. */
  function PreviewToggled(s: SelectorState, c: Context, enabled: Option<bool>, captured: Option<string>,
                          env: Outcomes): SelectorState
  {
    var shouldEnable := if enabled.Some? then enabled.value else !s.isTrackPreviewEnabled;
    if shouldEnable then
      var cleaned := PreviewCleaned(s, c, captured);
      var trackToUse := TrackToUse(captured, c.defaultTrackId);
      if Truthy(trackToUse) then Previewed(cleaned, c, trackToUse.value, env) else cleaned
    else
      var released := Cleared(s, c);
      released.(isTrackPreviewEnabled := false, pressedChanges := released.pressedChanges + [false])
  }

  /** `handleToggleVideo(enabled)`, given the `pressed` prop. */
  function VideoToggled(s: SelectorState, c: Context, enabled: Option<bool>, pressed: bool, env: Outcomes): SelectorState {
    var shouldEnable := if enabled.Some? then enabled.value else !pressed;
    if shouldEnable then
      var kind := KindOf(s.hook.videoOptions, TrackToUse(s.selectedTrackId, c.defaultTrackId));
      if kind == Some(System) then SystemCameraToggled(s, c, Some(true), env)
      else if kind == Some(Livekit) then PreviewToggled(s, c, Some(true), s.selectedTrackId, env)
      else s
    else
      var cleaned := AllCleaned(s, c);
      cleaned.(pressedChanges := cleaned.pressedChanges + [false])
  }

  /**
   * `handleTrackChange(trackId)`, given the `pressed` prop: the full
   * clean-up, the new selection, then the enable path of the new option's
   * type. The preview toggle it calls was created in the same render, so it
   * still holds the selection from before the change.
   */
  function TrackChangeHandled(s: SelectorState, c: Context, trackId: string, pressed: bool, env: Outcomes): SelectorState {
    var cleaned := AllCleaned(s, c).(selectedTrackId := Some(trackId));
    if pressed then
      var kind := OptionKind(s.hook.videoOptions, trackId);
      if kind == Some(System) then SystemCameraToggled(cleaned, c, Some(true), env)
      else if kind == Some(Livekit) then PreviewToggled(cleaned, c, Some(true), s.selectedTrackId, env)
      else cleaned
    else cleaned
  }

  // ---------------------------------------------------------------------
  // The selector component

  class Selector {
    const defaultTrackId: Option<string>
    /** The configurable-tracks hook this selector drives. */
    const tracks: ConfigurableTracks
    const store: SelectedTrackStore
    /** The selector's own remote registry instance, separate from the hook's. */
    const remote: Registry

    var selectedTrackId: Option<string>
    var isSystemCameraEnabled: bool
    var isTrackPreviewEnabled: bool

    /** The local participant's camera publications; the first is what `getTrackPublication(Camera)` returns. */
    var cameraPublications: seq<CameraPublication>
    /** Tracks whose `stop()` the selector called. */
    var stopped: seq<VideoSource>
    /** `onPressedChange` calls. */
    var pressedChanges: seq<bool>
    /** `onMediaDeviceError` calls from the track-change handler. */
    var deviceErrors: nat
    /** The parent's `onTrackChange` calls. */
    var trackChanges: seq<(string, TrackOrReference)>

    ghost predicate Valid()
      reads this, tracks, tracks.registry, store, remote
    {
      tracks.Valid() && remote.Valid() && store.Valid() && remote != tracks.registry &&
      |cameraPublications| <= 1
    }

    function State(): SelectorState
      reads this, tracks, tracks.registry, store, remote
    {
      SelectorState(selectedTrackId, isSystemCameraEnabled, isTrackPreviewEnabled, cameraPublications, stopped,
                    pressedChanges, deviceErrors, trackChanges, store.trackId, store.trackReference,
                    tracks.State(), tracks.stopped, tracks.captureRequests, tracks.errorsReported,
                    tracks.registry.calls, remote.calls)
    }

    function Ctx(): Context
      reads this, tracks, tracks.registry, store, remote
    {
      Context(store.hasProvider, defaultTrackId, tracks.existingLivekitTracks,
              tracks.registry.remoteVideoTracks, remote.remoteVideoTracks)
    }

    constructor (defaultTrackId: Option<string>, tracks: ConfigurableTracks, store: SelectedTrackStore,
                 remote: Registry, cameraPublications: seq<CameraPublication>)
      requires tracks.Valid() && remote.Valid() && store.Valid() && remote != tracks.registry
      requires |cameraPublications| <= 1
      ensures Valid()
      ensures this.defaultTrackId == defaultTrackId && this.tracks == tracks && this.store == store && this.remote == remote
      ensures selectedTrackId == (if Truthy(defaultTrackId) then defaultTrackId else None)
      ensures !isSystemCameraEnabled && !isTrackPreviewEnabled
      ensures this.cameraPublications == cameraPublications
      ensures stopped == [] && pressedChanges == [] && deviceErrors == 0 && trackChanges == []
    {
      this.defaultTrackId := defaultTrackId;
      this.tracks := tracks;
      this.store := store;
      this.remote := remote;
      selectedTrackId := if Truthy(defaultTrackId) then defaultTrackId else None;
      isSystemCameraEnabled := false;
      isTrackPreviewEnabled := false;
      this.cameraPublications := cameraPublications;
      stopped := [];
      pressedChanges := [];
      deviceErrors := 0;
      trackChanges := [];
    }

    /** Unpublish the local camera publication, if there is one. */
    method UnpublishCamera()
      requires Valid()
      modifies this
      ensures Valid() && Ctx() == old(Ctx())
      ensures State() == old(State()).(cameraPublications := [])
    {
      if cameraPublications != [] {
        cameraPublications := cameraPublications[1..];
      }
    }

    /** Stop the hook's current track, if there is one; the hook itself keeps holding it. */
    method StopCurrentTrack()
      requires Valid()
      modifies this
      ensures Valid() && Ctx() == old(Ctx())
      ensures State() == old(State()).(stopped := old(stopped) + tracks.currentTrack.ToSeq())
    {
      if tracks.currentTrack.Some? {
        stopped := stopped + [tracks.currentTrack.value];
      }
    }

    method CleanupAllResources()
      requires Valid()
      modifies this, store
      ensures Valid() && Ctx() == old(Ctx())
      ensures State() == AllCleaned(old(State()), old(Ctx()))
    {
      UnpublishCamera();
      StopCurrentTrack();
      store.SetSelectedTrack("", None);
      isSystemCameraEnabled := false;
      isTrackPreviewEnabled := false;
    }

    method CleanupSystemCameraResources()
      requires Valid()
      modifies this, store
      ensures Valid() && Ctx() == old(Ctx())
      ensures State() == SystemCameraCleaned(old(State()), old(Ctx()))
    {
      UnpublishCamera();
      StopCurrentTrack();
      store.SetSelectedTrack("", None);
      isSystemCameraEnabled := false;
    }

    method CleanupTrackPreviewResources()
      requires Valid()
      modifies this, store
      ensures Valid() && Ctx() == old(Ctx())
      ensures State() == TrackPreviewCleaned(old(State()), old(Ctx()))
    {
      UnpublishCamera();
      store.SetSelectedTrack("", None);
      isTrackPreviewEnabled := false;
    }

    method OnTrackChange(trackId: string, trackOrRef: TrackOrReference, publishFails: bool)
      requires Valid()
      modifies this, store
      ensures Valid() && Ctx() == old(Ctx())
      ensures State() == TrackChanged(old(State()), old(Ctx()), trackId, trackOrRef, publishFails)
    {
      var option := tracks.GetTrackById(trackId);
      if option.None? {
        return;
      }
      var kind := option.value.config.kind;
      if kind == System && trackOrRef.LocalVideo? {
        UnpublishCamera();
        if publishFails {
          deviceErrors := deviceErrors + 1;
          return;
        }
        cameraPublications := cameraPublications + [CameraPublication(trackOrRef.track, trackId)];
        var trackRef := LocalCameraReference(cameraPublications[0]);
        store.SetSelectedTrack(trackId, Some(trackRef));
        isSystemCameraEnabled := true;
      } else if kind == Livekit {
        store.SetSelectedTrack(trackId, Some(trackOrRef));
        isTrackPreviewEnabled := true;
      }
      trackChanges := trackChanges + [(trackId, trackOrRef)];
    }

    method SwitchAndHandle(trackId: string, env: Outcomes)
      requires Valid()
      modifies this, store, tracks, tracks.registry
      ensures Valid() && Ctx() == old(Ctx())
      ensures State() == Switched(old(State()), old(Ctx()), trackId, env)
    {
      var notification := tracks.SwitchToTrack(trackId, env.capture, env.subscribeFails, env.stopFails);
      if notification.Some? {
        var (id, trackOrRef) := notification.value;
        OnTrackChange(id, trackOrRef, env.publishFails);
      }
    }

    method HandleSystemCameraToggle(enabled: Option<bool>, env: Outcomes)
      requires Valid()
      modifies this, store, tracks, tracks.registry
      ensures Valid() && Ctx() == old(Ctx())
      ensures State() == SystemCameraToggled(old(State()), old(Ctx()), enabled, env)
    {
      var shouldEnable := if enabled.Some? then enabled.value else !isSystemCameraEnabled;
      if shouldEnable {
        CleanupAllResources();
        selectedTrackId := Some(SystemCameraId);
        SwitchAndHandle(SystemCameraId, env);
        isSystemCameraEnabled := true;
        pressedChanges := pressedChanges + [true];
      } else {
        CleanupSystemCameraResources();
        isSystemCameraEnabled := false;
        pressedChanges := pressedChanges + [false];
      }
    }

    method PreviewRemoteTrack(trackToUse: string, config: VideoTrackConfig, subscribeFails: bool)
      requires Valid()
      modifies this, store, remote
      ensures Valid() && Ctx() == old(Ctx())
      ensures State() == RemotePreviewed(old(State()), old(Ctx()), trackToUse, config, subscribeFails)
    {
      var trackKey := TrackKey(config);
      var remoteTrackInfo := remote.GetTrackByName(trackKey);
      if remoteTrackInfo.Some? {
        var info := remoteTrackInfo.value;
        var subscribed := remote.SubscribeToTrack(trackKey, subscribeFails);
        if subscribed && info.track.Some? {
          var reference := RemoteReference(info.participantIdentity, info.trackSid);
          store.SetSelectedTrack(trackToUse, Some(reference));
          isTrackPreviewEnabled := true;
          pressedChanges := pressedChanges + [true];
        }
      }
    }

    method PreviewCleanup(capturedSelectedId: Option<string>)
      requires Valid()
      modifies this, store
      ensures Valid() && Ctx() == old(Ctx())
      ensures State() == PreviewCleaned(old(State()), old(Ctx()), capturedSelectedId)
    {
      if KindOf(tracks.videoOptions, capturedSelectedId) != Some(Livekit) {
        UnpublishCamera();
        StopCurrentTrack();
        store.SetSelectedTrack("", None);
      }
    }

    method PreviewTrack(trackToUse: string, env: Outcomes)
      requires Valid()
      modifies this, store, tracks, tracks.registry, remote
      ensures Valid() && Ctx() == old(Ctx())
      ensures State() == Previewed(old(State()), old(Ctx()), trackToUse, env)
    {
      var option := tracks.GetTrackById(trackToUse);
      if option.Some? && option.value.config.kind == Livekit {
        PreviewRemoteTrack(trackToUse, option.value.config, env.subscribeFails);
      } else {
        SwitchAndHandle(trackToUse, env);
        isTrackPreviewEnabled := true;
        pressedChanges := pressedChanges + [true];
      }
    }

    /**
     * `capturedSelectedId` is the `selectedTrackId` the handler's closure
     * holds: the current one when the user presses the toggle, the one from
     * before the change when it runs inside `handleTrackChange`.
     */
    method HandleTrackPreviewToggle(enabled: Option<bool>, capturedSelectedId: Option<string>, env: Outcomes)
      requires Valid()
      modifies this, store, tracks, tracks.registry, remote
      ensures Valid() && Ctx() == old(Ctx())
      ensures State() == PreviewToggled(old(State()), old(Ctx()), enabled, capturedSelectedId, env)
    {
      var shouldEnable := if enabled.Some? then enabled.value else !isTrackPreviewEnabled;
      if shouldEnable {
        PreviewCleanup(capturedSelectedId);
        var trackToUse := TrackToUse(capturedSelectedId, defaultTrackId);
        if Truthy(trackToUse) {
          PreviewTrack(trackToUse.value, env);
        }
      } else {
        UnpublishCamera();
        StopCurrentTrack();
        store.SetSelectedTrack("", None);
        isTrackPreviewEnabled := false;
        pressedChanges := pressedChanges + [false];
      }
    }

    method HandleToggleVideo(enabled: Option<bool>, pressed: bool, env: Outcomes)
      requires Valid()
      modifies this, store, tracks, tracks.registry, remote
      ensures Valid() && Ctx() == old(Ctx())
      ensures State() == VideoToggled(old(State()), old(Ctx()), enabled, pressed, env)
    {
      var shouldEnable := if enabled.Some? then enabled.value else !pressed;
      if shouldEnable {
        var trackToUse := TrackToUse(selectedTrackId, defaultTrackId);
        var kind := KindOf(tracks.videoOptions, trackToUse);
        if kind == Some(System) {
          HandleSystemCameraToggle(Some(true), env);
        } else if kind == Some(Livekit) {
          HandleTrackPreviewToggle(Some(true), selectedTrackId, env);
        }
      } else {
        CleanupAllResources();
        pressedChanges := pressedChanges + [false];
      }
    }

    method HandleTrackChange(trackId: string, pressed: bool, env: Outcomes)
      requires Valid()
      modifies this, store, tracks, tracks.registry, remote
      ensures Valid() && Ctx() == old(Ctx())
      ensures State() == TrackChangeHandled(old(State()), old(Ctx()), trackId, pressed, env)
    {
      var capturedSelectedId := selectedTrackId;
      CleanupAllResources();
      selectedTrackId := Some(trackId);
      if pressed {
        var kind := OptionKind(tracks.videoOptions, trackId);
        if kind == Some(System) {
          HandleSystemCameraToggle(Some(true), env);
        } else if kind == Some(Livekit) {
          HandleTrackPreviewToggle(Some(true), capturedSelectedId, env);
        }
      }
    }
  }

  // ---------------------------------------------------------------------
  // Properties of the handlers

  /** The option for `id` is an enabled, available system descriptor, the one `switchToTrack` captures for. */
  predicate CapturableSystem(options: seq<VideoTrackOption>, id: string) {
    var index := FindIndex(options, id);
    index.Some? && options[index.value].config.kind == System &&
    options[index.value].config.enabled && options[index.value].available
  }

  /** An id's type depends only on the options' ids and descriptors, which a switch keeps. */
  lemma OptionKindKept(a: seq<VideoTrackOption>, b: seq<VideoTrackOption>, id: string)
    requires |a| == |b|
    requires forall k :: 0 <= k < |a| ==> a[k].id == b[k].id && a[k].config == b[k].config
    ensures OptionKind(a, id) == OptionKind(b, id)
  {
    var i, j := FindIndex(a, id), FindIndex(b, id);
    if i.Some? {
      assert b[i.value].id == id;
    }
    if j.Some? {
      assert a[j.value].id == id;
    }
  }

  /**
   * A switch to a capturable system option whose capture and publish
   * succeed publishes the captured track as the only camera publication,
   * shows it, turns the system flag on and tells the parent; the hook
   * stops its previous track and records one capture request.
   */
  lemma SwitchedPublishesCapturedCamera(s: SelectorState, c: Context, id: string, env: Outcomes, t: LocalTrack)
    requires CapturableSystem(s.hook.videoOptions, id)
    requires env.capture(FacingMode("user")) == Some(t)
    requires !(s.hook.currentTrack.Some? && env.stopFails) && !env.publishFails
    ensures var r := Switched(s, c, id, env);
            var publication := CameraPublication(t, id);
            r.cameraPublications == [publication] && r.isSystemCameraEnabled &&
            r.isTrackPreviewEnabled == s.isTrackPreviewEnabled &&
            (c.hasProvider ==> r.shownTrackId == Some(id) && r.shownReference == Some(LocalCameraReference(publication))) &&
            r.trackChanges == s.trackChanges + [(id, LocalVideo(t))] && r.deviceErrors == s.deviceErrors &&
            r.hook.currentTrackId == Some(id) && r.hook.currentTrack == Some(Local(t)) && r.hook.error.None? &&
            r.hookStopped == s.hookStopped + s.hook.currentTrack.ToSeq() &&
            r.captureRequests == s.captureRequests + [FacingMode("user")] &&
            r.selectedTrackId == s.selectedTrackId && r.stopped == s.stopped && r.pressedChanges == s.pressedChanges
  {
    var step := SwitchStep(s.hook, c.hookTracks, c.existing, id, env.capture, env.subscribeFails, env.stopFails);
    OptionKindKept(s.hook.videoOptions, step.state.videoOptions, id);
  }

  /**
   * A publish that throws is reported through `onMediaDeviceError`: the
   * camera is left unpublished, the parent is not told, and the flags and
   * the store keep their values.
   */
  lemma SwitchedPublishFailureIsReported(s: SelectorState, c: Context, id: string, env: Outcomes, t: LocalTrack)
    requires CapturableSystem(s.hook.videoOptions, id)
    requires env.capture(FacingMode("user")) == Some(t)
    requires !(s.hook.currentTrack.Some? && env.stopFails) && env.publishFails
    ensures var r := Switched(s, c, id, env);
            r.cameraPublications == [] && r.deviceErrors == s.deviceErrors + 1 && r.trackChanges == s.trackChanges &&
            r.isSystemCameraEnabled == s.isSystemCameraEnabled && r.isTrackPreviewEnabled == s.isTrackPreviewEnabled &&
            r.shownTrackId == s.shownTrackId && r.shownReference == s.shownReference &&
            r.hook.currentTrack == Some(Local(t))
  {
    var step := SwitchStep(s.hook, c.hookTracks, c.existing, id, env.capture, env.subscribeFails, env.stopFails);
    OptionKindKept(s.hook.videoOptions, step.state.videoOptions, id);
  }

  /** A switch that does not connect changes only the hook's side. */
  lemma SwitchedWithoutNotificationKeepsSelector(s: SelectorState, c: Context, id: string, env: Outcomes)
    requires SwitchStep(s.hook, c.hookTracks, c.existing, id, env.capture, env.subscribeFails, env.stopFails).notification.None?
    ensures var r := Switched(s, c, id, env);
            r.hook.error.Some? &&
            r.cameraPublications == s.cameraPublications && r.trackChanges == s.trackChanges &&
            r.isSystemCameraEnabled == s.isSystemCameraEnabled && r.isTrackPreviewEnabled == s.isTrackPreviewEnabled &&
            r.shownTrackId == s.shownTrackId && r.shownReference == s.shownReference &&
            r.deviceErrors == s.deviceErrors && r.stopped == s.stopped && r.previewCalls == s.previewCalls
  {
  }

  /**
   * Enabling the system camera when capture and publish succeed: the
   * captured track is the one camera publication and is shown, the system
   * flag is on and the preview flag off, `system_camera_default` is
   * selected, the parent is told and pressed is reported; the selector
   * stopped the hook's previous track once, and the hook stopped it again.
   */
  lemma EnableSystemCameraPublishes(s: SelectorState, c: Context, env: Outcomes, t: LocalTrack)
    requires CapturableSystem(s.hook.videoOptions, SystemCameraId)
    requires env.capture(FacingMode("user")) == Some(t)
    requires !(s.hook.currentTrack.Some? && env.stopFails) && !env.publishFails
    ensures var r := SystemCameraToggled(s, c, Some(true), env);
            var publication := CameraPublication(t, SystemCameraId);
            r.cameraPublications == [publication] && r.isSystemCameraEnabled && !r.isTrackPreviewEnabled &&
            r.selectedTrackId == Some(SystemCameraId) &&
            (c.hasProvider ==> r.shownTrackId == Some(SystemCameraId) &&
                               r.shownReference == Some(LocalCameraReference(publication))) &&
            r.trackChanges == s.trackChanges + [(SystemCameraId, LocalVideo(t))] &&
            r.pressedChanges == s.pressedChanges + [true] &&
            r.stopped == s.stopped + s.hook.currentTrack.ToSeq() &&
            r.hookStopped == s.hookStopped + s.hook.currentTrack.ToSeq() &&
            r.hook.currentTrackId == Some(SystemCameraId) && r.hook.currentTrack == Some(Local(t)) &&
            r.captureRequests == s.captureRequests + [FacingMode("user")]
  {
    var cleaned := AllCleaned(s, c).(selectedTrackId := Some(SystemCameraId));
    SwitchedPublishesCapturedCamera(cleaned, c, SystemCameraId, env, t);
  }

  /**
   * Enabling the system camera when the switch does not connect still
   * turns the system flag on and reports pressed, with nothing published
   * and the store cleared.
   */
  lemma EnableSystemCameraWithoutTrack(s: SelectorState, c: Context, env: Outcomes)
    requires SwitchStep(s.hook, c.hookTracks, c.existing, SystemCameraId, env.capture, env.subscribeFails,
                        env.stopFails).notification.None?
    ensures var r := SystemCameraToggled(s, c, Some(true), env);
            r.cameraPublications == [] && r.isSystemCameraEnabled && !r.isTrackPreviewEnabled &&
            r.selectedTrackId == Some(SystemCameraId) && r.pressedChanges == s.pressedChanges + [true] &&
            (c.hasProvider ==> r.shownTrackId == Some("") && r.shownReference.None?) &&
            r.trackChanges == s.trackChanges && r.hook.error.Some? &&
            r.stopped == s.stopped + s.hook.currentTrack.ToSeq()
  {
    var cleaned := AllCleaned(s, c).(selectedTrackId := Some(SystemCameraId));
    SwitchedWithoutNotificationKeepsSelector(cleaned, c, SystemCameraId, env);
  }

  /**
   * Every disable path unpublishes the camera, stops the hook's current
   * track, clears the store and reports not pressed, and leaves the hook
   * and the selection alone; each turns off its own flags.
   */
  lemma DisablingReleasesCamera(s: SelectorState, c: Context, captured: Option<string>, pressed: bool, env: Outcomes)
    ensures var r := SystemCameraToggled(s, c, Some(false), env);
            Released(s, r, c) && !r.isSystemCameraEnabled && r.isTrackPreviewEnabled == s.isTrackPreviewEnabled
    ensures var r := PreviewToggled(s, c, Some(false), captured, env);
            Released(s, r, c) && !r.isTrackPreviewEnabled && r.isSystemCameraEnabled == s.isSystemCameraEnabled
    ensures var r := VideoToggled(s, c, Some(false), pressed, env);
            Released(s, r, c) && !r.isSystemCameraEnabled && !r.isTrackPreviewEnabled
  {
  }

  /** What a disable leaves behind, flags apart. */
  predicate Released(s: SelectorState, r: SelectorState, c: Context) {
    r.cameraPublications == [] && r.stopped == s.stopped + s.hook.currentTrack.ToSeq() &&
    (c.hasProvider ==> r.shownTrackId == Some("") && r.shownReference.None?) &&
    r.pressedChanges == s.pressedChanges + [false] &&
    r.hook == s.hook && r.selectedTrackId == s.selectedTrackId && r.hookStopped == s.hookStopped &&
    r.trackChanges == s.trackChanges && r.previewCalls == s.previewCalls
  }

  /**
   * Enabling the preview of a LiveKit option subscribes through the
   * selector's registry and leaves the hook, the camera and the stopped
   * tracks alone; pressed is reported exactly when the reference could be
   * shown, and then the store shows the option's id and the reference.
   */
  lemma PreviewOfLivekitOption(s: SelectorState, c: Context, captured: Option<string>, env: Outcomes)
    requires Truthy(captured) && OptionKind(s.hook.videoOptions, captured.value) == Some(Livekit)
    ensures var r := PreviewToggled(s, c, Some(true), captured, env);
            var key := TrackKey(FindConfig(s.hook.videoOptions, captured.value).value);
            var reference := RemotePreview(c.previewTracks, key, env.subscribeFails);
            r.hook == s.hook && r.cameraPublications == s.cameraPublications && r.stopped == s.stopped &&
            r.previewCalls == s.previewCalls + CallList(SetSubscription(c.previewTracks, key, true, env.subscribeFails).1) &&
            (r.pressedChanges == s.pressedChanges + [true] <==> reference.Some?) &&
            (reference.Some? ==> r.isTrackPreviewEnabled &&
                                 (c.hasProvider ==> r.shownTrackId == captured && r.shownReference == reference)) &&
            (reference.None? ==> r.pressedChanges == s.pressedChanges && r.isTrackPreviewEnabled == s.isTrackPreviewEnabled &&
                                 r.shownTrackId == s.shownTrackId && r.shownReference == s.shownReference)
  {
  }

  /** The store's cells change only when a provider is mounted, and then to exactly the given pair. */
  lemma ShownNeedsProvider(s: SelectorState, c: Context, id: string, reference: Option<TrackOrReference>)
    ensures var r := Shown(s, c, id, reference);
            (c.hasProvider ==> r.shownTrackId == Some(id) && r.shownReference == reference) &&
            (!c.hasProvider ==> r == s) &&
            r.hook == s.hook && r.cameraPublications == s.cameraPublications && r.stopped == s.stopped
  {
  }

  /**
   * Previewing an option that is not LiveKit goes through `switchToTrack`:
   * the hook takes the switch's state, and the preview flag and "pressed"
   * are set whether or not the switch connected.
   */
  lemma PreviewOfOtherOptionSwitches(s: SelectorState, c: Context, trackToUse: string, env: Outcomes)
    requires var config := FindConfig(s.hook.videoOptions, trackToUse);
             !(config.Some? && config.value.kind == Livekit)
    ensures var r := Previewed(s, c, trackToUse, env);
            r.hook == SwitchStep(s.hook, c.hookTracks, c.existing, trackToUse, env.capture,
                                 env.subscribeFails, env.stopFails).state &&
            r.isTrackPreviewEnabled && r.pressedChanges == s.pressedChanges + [true] &&
            r.stopped == s.stopped && r.previewCalls == s.previewCalls
  {
    SwitchedHookSide(s, c, trackToUse, env);
  }

  /** `handleToggleVideo(true)` with no known option to use does nothing. */
  lemma ToggleVideoWithoutOptionDoesNothing(s: SelectorState, c: Context, pressed: bool, env: Outcomes)
    requires KindOf(s.hook.videoOptions, TrackToUse(s.selectedTrackId, c.defaultTrackId)).None?
    ensures VideoToggled(s, c, Some(true), pressed, env) == s
  {
  }

  /** The track-change handler touches the camera, the flags, the store and its two reports, and nothing else. */
  lemma TrackChangedFrame(s: SelectorState, c: Context, trackId: string, trackOrRef: TrackOrReference, publishFails: bool)
    ensures var r := TrackChanged(s, c, trackId, trackOrRef, publishFails);
            r.selectedTrackId == s.selectedTrackId && r.stopped == s.stopped && r.pressedChanges == s.pressedChanges &&
            r.hook == s.hook && r.hookStopped == s.hookStopped && r.previewCalls == s.previewCalls
  {
  }

  /**
   * What a switch leaves on the hook's side, and what it never touches on
   * the selector's: the selection, the selector's stopped tracks and its
   * pressed reports.
   */
  lemma SwitchedHookSide(s: SelectorState, c: Context, id: string, env: Outcomes)
    ensures var r := Switched(s, c, id, env);
            var step := SwitchStep(s.hook, c.hookTracks, c.existing, id, env.capture, env.subscribeFails, env.stopFails);
            r.hook == step.state && r.hookStopped == s.hookStopped + step.stopped.ToSeq() &&
            r.selectedTrackId == s.selectedTrackId && r.stopped == s.stopped &&
            r.pressedChanges == s.pressedChanges && r.previewCalls == s.previewCalls
  {
    var step := SwitchStep(s.hook, c.hookTracks, c.existing, id, env.capture, env.subscribeFails, env.stopFails);
    var after := s.(hook := step.state, hookStopped := s.hookStopped + step.stopped.ToSeq(),
                    captureRequests := s.captureRequests + step.request.ToSeq(),
                    errorsReported := s.errorsReported + (if step.reportedError then 1 else 0),
                    hookCalls := s.hookCalls + CallList(step.call));
    if step.notification.Some? {
      TrackChangedFrame(after, c, step.notification.value.0, step.notification.value.1, env.publishFails);
    }
    assert Switched(s, c, id, env) ==
           if step.notification.Some? then
             TrackChanged(after, c, step.notification.value.0, step.notification.value.1, env.publishFails)
           else after;
  }

  /**
   * Changing to a system option while pressed cleans up, then enables
   * the system camera: the hook's current track is stopped twice by the
   * selector, `system_camera_default` is selected whatever system id was
   * chosen, and the hook switches to it.
   */
  lemma TrackChangeToSystemOption(s: SelectorState, c: Context, trackId: string, env: Outcomes)
    requires OptionKind(s.hook.videoOptions, trackId) == Some(System)
    ensures var r := TrackChangeHandled(s, c, trackId, true, env);
            var step := SwitchStep(s.hook, c.hookTracks, c.existing, SystemCameraId, env.capture,
                                   env.subscribeFails, env.stopFails);
            r.stopped == s.stopped + s.hook.currentTrack.ToSeq() + s.hook.currentTrack.ToSeq() &&
            r.selectedTrackId == Some(SystemCameraId) && r.isSystemCameraEnabled &&
            r.pressedChanges == s.pressedChanges + [true] &&
            r.hook == step.state && r.hookStopped == s.hookStopped + step.stopped.ToSeq()
  {
    var cleaned := AllCleaned(s, c).(selectedTrackId := Some(trackId));
    var again := AllCleaned(cleaned, c).(selectedTrackId := Some(SystemCameraId));
    assert again.hook == s.hook && again.stopped == s.stopped + s.hook.currentTrack.ToSeq() + s.hook.currentTrack.ToSeq();
    SwitchedHookSide(again, c, SystemCameraId, env);
    var switched := Switched(again, c, SystemCameraId, env);
    assert TrackChangeHandled(s, c, trackId, true, env) ==
           switched.(isSystemCameraEnabled := true, pressedChanges := switched.pressedChanges + [true]);
  }

  /**
   * Changing to a LiveKit option while pressed previews the selection
   * from before the change: when that was not a LiveKit option, the hook
   * switches to it (the old id), the new id stays selected, the preview
   * flag is on, pressed is reported, and the selector stopped the hook's
   * current track twice.
   */
  lemma TrackChangeToLivekitSwitchesOldSelection(s: SelectorState, c: Context, trackId: string, env: Outcomes)
    requires OptionKind(s.hook.videoOptions, trackId) == Some(Livekit)
    requires Truthy(s.selectedTrackId) && OptionKind(s.hook.videoOptions, s.selectedTrackId.value) != Some(Livekit)
    ensures var r := TrackChangeHandled(s, c, trackId, true, env);
            var step := SwitchStep(s.hook, c.hookTracks, c.existing, s.selectedTrackId.value, env.capture,
                                   env.subscribeFails, env.stopFails);
            r.hook == step.state && r.hookStopped == s.hookStopped + step.stopped.ToSeq() &&
            r.selectedTrackId == Some(trackId) && r.isTrackPreviewEnabled &&
            r.pressedChanges == s.pressedChanges + [true] &&
            r.stopped == s.stopped + s.hook.currentTrack.ToSeq() + s.hook.currentTrack.ToSeq()
  {
    var previous := s.selectedTrackId.value;
    var cleaned := AllCleaned(s, c).(selectedTrackId := Some(trackId));
    var again := Cleared(cleaned, c);
    assert PreviewCleaned(cleaned, c, s.selectedTrackId) == again;
    assert TrackToUse(s.selectedTrackId, c.defaultTrackId) == s.selectedTrackId;
    assert again.hook == s.hook && again.stopped == s.stopped + s.hook.currentTrack.ToSeq() + s.hook.currentTrack.ToSeq();
    SwitchedHookSide(again, c, previous, env);
    var switched := Switched(again, c, previous, env);
    assert Previewed(again, c, previous, env) ==
           switched.(isTrackPreviewEnabled := true, pressedChanges := switched.pressedChanges + [true]);
    assert TrackChangeHandled(s, c, trackId, true, env) == PreviewToggled(cleaned, c, Some(true), s.selectedTrackId, env);
  }

  /**
   * In particular, changing from the system camera to a LiveKit option
   * while pressed captures and publishes the system camera again and
   * shows it under `system_camera_default`, while the LiveKit id is the
   * one selected.
   */
  lemma TrackChangeFromSystemCameraRepublishes(s: SelectorState, c: Context, trackId: string, env: Outcomes,
                                              t: LocalTrack)
    requires OptionKind(s.hook.videoOptions, trackId) == Some(Livekit)
    requires s.selectedTrackId == Some(SystemCameraId) && CapturableSystem(s.hook.videoOptions, SystemCameraId)
    requires env.capture(FacingMode("user")) == Some(t)
    requires !(s.hook.currentTrack.Some? && env.stopFails) && !env.publishFails
    ensures var r := TrackChangeHandled(s, c, trackId, true, env);
            var publication := CameraPublication(t, SystemCameraId);
            r.selectedTrackId == Some(trackId) && r.cameraPublications == [publication] &&
            (c.hasProvider ==> r.shownTrackId == Some(SystemCameraId) &&
                               r.shownReference == Some(LocalCameraReference(publication))) &&
            r.isSystemCameraEnabled && r.isTrackPreviewEnabled &&
            r.trackChanges == s.trackChanges + [(SystemCameraId, LocalVideo(t))]
  {
    var cleaned := AllCleaned(s, c).(selectedTrackId := Some(trackId));
    var again := Cleared(cleaned, c);
    assert PreviewCleaned(cleaned, c, s.selectedTrackId) == again;
    SwitchedPublishesCapturedCamera(again, c, SystemCameraId, env, t);
    var switched := Switched(again, c, SystemCameraId, env);
    assert Previewed(again, c, SystemCameraId, env) ==
           switched.(isTrackPreviewEnabled := true, pressedChanges := switched.pressedChanges + [true]);
    assert TrackChangeHandled(s, c, trackId, true, env) == PreviewToggled(cleaned, c, Some(true), s.selectedTrackId, env);
  }

  /**
   * Changing to a LiveKit option while pressed, from a LiveKit selection,
   * previews the old LiveKit option: the hook is not touched, the
   * selector stopped the hook's current track once, and a shown reference
   * is shown under the old id.
   */
  lemma TrackChangeToLivekitPreviewsOldLivekit(s: SelectorState, c: Context, trackId: string, env: Outcomes)
    requires OptionKind(s.hook.videoOptions, trackId) == Some(Livekit)
    requires Truthy(s.selectedTrackId) && OptionKind(s.hook.videoOptions, s.selectedTrackId.value) == Some(Livekit)
    ensures var r := TrackChangeHandled(s, c, trackId, true, env);
            var key := TrackKey(FindConfig(s.hook.videoOptions, s.selectedTrackId.value).value);
            r.hook == s.hook && r.selectedTrackId == Some(trackId) &&
            r.stopped == s.stopped + s.hook.currentTrack.ToSeq() &&
            (c.hasProvider && RemotePreview(c.previewTracks, key, env.subscribeFails).Some? ==>
               r.shownTrackId == s.selectedTrackId)
  {
    var cleaned := AllCleaned(s, c).(selectedTrackId := Some(trackId));
    PreviewOfLivekitOption(cleaned, c, s.selectedTrackId, env);
  }
}
