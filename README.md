# Media and transcript core of the agent-starter-react client

This project models the decision logic of a React client for a LiveKit voice
and video agent. The media platform is treated as plain values:
participants, their track publications and the track handles they carry.
Whatever the platform answers (a subscription that throws, a camera capture
that fails, a publish that is rejected) is a parameter chosen by the caller.

The model has one Dafny module per source file of the core, plus four
shared modules:

- `Optional`: the absent-or-present value.
- `JsStrings`: JavaScript `||`, `startsWith`, `includes` and an ASCII
  `toLowerCase` on strings.
- `AppConfig`: the video track descriptor and the shipped defaults.
- `Platform`: participants, publications, local tracks and track references.

The core, leaves first:

- **Track-name exclusion.**
  - Audio tracks are excluded when their name contains, or equals, a
    configured pattern, or their SID equals it (`AudioTrackFilter`).
  - Video names are excluded by containment in either direction against
    the LiveKit names of the enabled `livekit` descriptors
    (`ExcludedVideoTracks`).
- **Audio.**
  - The audio renderer keeps a map from `identity-name` keys to audio
    elements. Track events, participant disconnection and teardown change
    it in place (`FilteredAudioRenderer.Renderer`).
  - The audio filter hook flips subscriptions by hand, or automatically for
    excluded tracks (`AudioTrackFilter.FilterHook`).
- **Remote video registry** (`RemoteVideoTracks.Registry`). It maps a track
  name to a snapshot of its publication and is rebuilt wholesale on every
  refresh. Subscribe and unsubscribe short-circuit on the cached flag.
- **Factory and option table.**
  - The factory turns a descriptor into a track (`VideoTrackFactory`).
  - The configurable-tracks hook builds the option table, picks a default,
    and switches tracks with explicit error kinds
    (`ConfigurableVideoTracks.ConfigurableTracks`).
- **Selection.**
  - The selected-track store holds two cells, shared through a provider
    (`SelectedVideoTrack.SelectedTrackStore`).
  - The video selector runs the toggles, the clean-ups and the track change
    over the hook and the store (`ConfigurableVideoSelector.Selector`).
- **Avatar track choice** (`SmartVoiceAssistant`). It takes the
  assistant's own track unless it is excluded, else the first suitable
  track of an agent.
- **Transcript.**
  - Transcriptions are attributed to participants. Unattributed chat
    messages may be re-attributed. Both are merged and sorted by timestamp
    with a stable sort (`ChatMessages`).
  - The transcript view decides each entry's side, name and edited mark
    (`ChatTranscript`).

Modelling conventions:

- React state cells are fields of a class. Each handler is a method whose
  `ensures` gives the whole new state.
- The video selector's state includes the store and the hook it drives. It
  is one `SelectorState` value, and each selector handler's new state is a
  function of the old one (`TrackChanged`, `Switched`,
  `SystemCameraToggled`, `PreviewToggled`, `VideoToggled`,
  `TrackChangeHandled`). A `Context` value holds what no handler changes.
- Most state changes are specified by a pure function. Examples are
  `OnAudioTrack`, `SwitchStep`, `IndexOf(Entries(...))`, `ManualSubscription`
  and `AutoUnsubscribeAll`. The properties are proved about these functions.
- Handlers read the values their closure captured when the user acted.
  `handleTrackChange` calls the preview toggle of the same render, and that
  toggle still holds the selection from before the change.
  `TrackChangeToLivekitSwitchesOldSelection` and
  `TrackChangeFromSystemCameraRepublishes` state the consequence: a change
  to a LiveKit option while pressed, from a truthy selection that is not a
  LiveKit option, switches the hook to the old selection. From an old
  LiveKit selection the hook is left alone and the old remote track is
  previewed (`TrackChangeToLivekitPreviewsOldLivekit`); from a falsy one the
  preview falls back to the default id.
- Each platform call that the source makes is recorded in a log field:
  - `calls`: `setSubscribed` calls;
  - `stopped`: `stop()` calls;
  - `captureRequests`: capture options;
  - `pressedChanges`, `trackChanges`, `deviceErrors`, `errorsReported`:
    the callbacks the source invokes. `deviceErrors` (the selector's
    `onMediaDeviceError` call when publishing throws) and `errorsReported`
    (the hook's `onError`, which the selector also wires to
    `onMediaDeviceError`) count calls of the same parent callback. Keeping
    them apart records who reported, but not the order of the two kinds.

Facts about the code that shape the model:

- **No generation token.** The code has no generation token, so a switch
  that completes late is never discarded. Only sequential executions are
  modelled, and nothing about stale switches is claimed.
- **Subscribe is not idempotent.** The remote subscribe short-circuits only
  on the cached flag, so two subscribes with no refresh in between both
  reach the platform (`RemoteVideoTracks.SubscribeTwiceWithoutRefresh`).
- **Audio matching is one-way.** The audio pattern rule tests "name
  contains pattern", never "pattern contains name"
  (`AudioTrackFilter.PatternContainingNameDoesNotMatch`).
- **The default can be unavailable.** When nothing truthy is selected, the
  default track id is selected whenever an option has it, available or not
  (`DefaultSelection`).
- **Remote success needs the snapshot.** A remote switch succeeds only when
  the registry snapshot already carries the track
  (`ConfigurableVideoTracks.RemoteSuccessNeedsSnapshotTrack`).

## Model

| member | source | states |
|---|---|---|
| AppConfig.TrackKey | hooks/useExcludedVideoTracks.ts:29 | the LiveKit name of a descriptor is `livekitTrackName` when it is non-empty, else its `id` |
| Platform.PublicationName | hooks/useAudioTrackFilter.ts:25 | a publication is named by `trackName`, or by its SID when the name is empty |
| AudioTrackFilter.ShouldExcludeTrack | hooks/useAudioTrackFilter.ts:24-31 | excluded iff some pattern is contained in the name, equals it, or equals the SID; an empty list never excludes; an empty pattern, the name or the SID in the list always excludes |
| AudioTrackFilter.EqualityDisjunctRedundant | hooks/useAudioTrackFilter.ts:27-28 | dropping the `name === pattern` test gives the same verdict for every list and publication |
| AudioTrackFilter.PatternContainingNameDoesNotMatch | hooks/useAudioTrackFilter.ts:26-30 | matching is one-way: a pattern longer than the name that is not the SID never matches, even if it contains the name |
| AudioTrackFilter.DefaultPatternExamples | app-config.ts:70-72 | with the shipped pattern, `xunfei_audio_track_2` is excluded and `other_track` is kept |
| AudioTrackFilter.AudioIndexFrom | hooks/useAudioTrackFilter.ts:39 | finds the first audio publication with the SID, or reports that there is none |
| AudioTrackFilter.FindHolder | hooks/useAudioTrackFilter.ts:37-40 | finds the first participant whose audio publication with that SID has the given flag, or reports that none has |
| AudioTrackFilter.SetSubscription | hooks/useAudioTrackFilter.ts:42 | `setSubscribed(v)` changes that one publication's flag and nothing else in any participant |
| AudioTrackFilter.ManualSubscription | hooks/useAudioTrackFilter.ts:34-73 | false with no room or when the call throws, and then nothing changes; true iff some participant holds the audio SID in the opposite state, and then the first such one is flipped |
| AudioTrackFilter.ManualSubscriptionTarget | hooks/useAudioTrackFilter.ts:37-44 | a successful manual call flips an audio publication with that SID that was in the opposite state, and only its flag |
| AudioTrackFilter.FilterHook.constructor | hooks/useAudioTrackFilter.ts:16-21 | the hook starts from its options, the room's presence and the remote participants |
| AudioTrackFilter.FilterHook.UnsubscribeTrack | hooks/useAudioTrackFilter.ts:34-52 | result and new participants are those of `ManualSubscription` with subscribe false |
| AudioTrackFilter.FilterHook.SubscribeTrack | hooks/useAudioTrackFilter.ts:55-73 | result and new participants are those of `ManualSubscription` with subscribe true; a subscribed SID gives false and no change |
| AudioTrackFilter.FilterHook.SetFirst | hooks/useAudioTrackFilter.ts:37-51 | the participant loop stops at the first holder, exactly as `ManualSubscription` describes |
| AudioTrackFilter.FilterHook.GetFilteredTracks | hooks/useAudioTrackFilter.ts:76-98 | the nested loops return `FilteredTracks` of the participants and change nothing |
| AudioTrackFilter.FilterHook.AutoUnsubscribeEffect | hooks/useAudioTrackFilter.ts:101-127 | the participants become `AutoUnsubscribeAll`: unchanged without a room or with the option off |
| AudioTrackFilter.FilterHook.HandleTrackPublished | hooks/useAudioTrackFilter.ts:104-113 | with a room and the option on, a new excluded audio publication is unsubscribed unless the call throws; otherwise nothing changes |
| AudioTrackFilter.FilteredOf | hooks/useAudioTrackFilter.ts:85-94 | one participant's excluded audio publications in order; membership is stated by `FilteredOfMembership` |
| AudioTrackFilter.FilteredTracks | hooks/useAudioTrackFilter.ts:76-98 | the excluded audio publications of all participants, participant by participant; stated by `FilteredTracksMembership` and `FilteredTracksAppend` |
| AudioTrackFilter.AutoUnsubscribed | hooks/useAudioTrackFilter.ts:117-125 | a publication ends subscribed iff it was subscribed and is not an excluded audio publication whose unsubscribe went through; nothing but its flag changes |
| AudioTrackFilter.FilteredOfMembership | hooks/useAudioTrackFilter.ts:85-94 | an entry is in one participant's list iff it describes one of its excluded audio publications |
| AudioTrackFilter.FilteredTracksMembership | hooks/useAudioTrackFilter.ts:76-98 | an entry is in the filtered list iff it describes an excluded audio publication of some participant |
| AudioTrackFilter.FilteredTracksAppend | hooks/useAudioTrackFilter.ts:84-95 | the list follows participant order: the list for `a + b` is the list for `a` followed by the list for `b` |
| AudioTrackFilter.AutoUnsubscribeAll | hooks/useAudioTrackFilter.ts:115-126 | when inactive nothing changes; when active a flag ends true iff it was true and the publication is not an excluded audio one whose call went through; nothing else changes |
| AudioTrackFilter.AutoUnsubscribeLeavesNoExcludedSubscribed | hooks/useAudioTrackFilter.ts:116-126 | when no call throws, no excluded audio publication stays subscribed |
| FilteredAudioRenderer.ElementKey | components/livekit/filtered-audio-renderer.tsx:45-46 | the key starts with `identity + "-"` |
| FilteredAudioRenderer.OnAudioTrack | components/livekit/filtered-audio-renderer.tsx:40-88 | non-audio or track-less events change nothing; an excluded track removes its key and adds nothing; any other track has an element under its key that plays it, created only if absent; other keys are untouched |
| FilteredAudioRenderer.CreatedElementIsFresh | components/livekit/filtered-audio-renderer.tsx:70-77 | an element created for a new key is a new `<audio>` element: its serial differs from that of every other element in the map |
| FilteredAudioRenderer.OnAudioTrackIdempotent | components/livekit/filtered-audio-renderer.tsx:69-80 | repeating a subscription event leaves the map as the first event left it |
| FilteredAudioRenderer.OnTrackUnsubscribed | components/livekit/filtered-audio-renderer.tsx:91-106 | an audio event removes exactly its key, with the same key rule; others are untouched; an absent key means no change |
| FilteredAudioRenderer.SubscribeThenUnsubscribe | components/livekit/filtered-audio-renderer.tsx:40-106 | subscribing then unsubscribing a track whose key was absent restores the original map |
| FilteredAudioRenderer.ParticipantDisconnected | components/livekit/filtered-audio-renderer.tsx:157-169 | a key survives iff it does not start with `identity + "-"`, with its element unchanged |
| FilteredAudioRenderer.DisconnectRemovesLongerIdentity | components/livekit/filtered-audio-renderer.tsx:161 | when `a` disconnects, the elements of participant `a-b` go too |
| FilteredAudioRenderer.ElementKeysCollide | components/livekit/filtered-audio-renderer.tsx:46 | two different identity and name pairs can share one key |
| FilteredAudioRenderer.TornDown | components/livekit/filtered-audio-renderer.tsx:30-37 | teardown leaves the map empty |
| FilteredAudioRenderer.AttachParticipant | components/livekit/filtered-audio-renderer.tsx:109-114 | attaching one participant's subscribed publications keeps the element invariant: every serial is below the next one and no element sits under two keys; what plays is stated by the attach lemmas |
| FilteredAudioRenderer.AttachAll | components/livekit/filtered-audio-renderer.tsx:108-114 | attaching every present participant keeps the same invariant, so elements are never aliased across keys after mount |
| FilteredAudioRenderer.AttachParticipantKeepsOtherKeys | components/livekit/filtered-audio-renderer.tsx:109-114 | attaching leaves a key's element alone when no attached publication maps to that key |
| FilteredAudioRenderer.AttachParticipantPlaysLastKept | components/livekit/filtered-audio-renderer.tsx:69-114 | a subscribed, kept audio publication with a track ends with an element under its key that plays its track, unless a later attached publication has the same key |
| FilteredAudioRenderer.AttachAllPlaysLastKept | components/livekit/filtered-audio-renderer.tsx:108-114 | on mount, the same holds across participants: the last attached publication under a key is the one playing |
| FilteredAudioRenderer.AttachParticipantNeverAddsExcluded | components/livekit/filtered-audio-renderer.tsx:49-66 | a key used only by excluded audio publications never appears when attaching |
| FilteredAudioRenderer.Renderer.constructor | components/livekit/filtered-audio-renderer.tsx:22 | the element map starts empty |
| FilteredAudioRenderer.Renderer.HandleAudioTrack | components/livekit/filtered-audio-renderer.tsx:40-88 | the new map is `OnAudioTrack` of the old one |
| FilteredAudioRenderer.Renderer.HandleTrackUnsubscribed | components/livekit/filtered-audio-renderer.tsx:91-106 | the new map is `OnTrackUnsubscribed` of the old one |
| FilteredAudioRenderer.Renderer.OnParticipantDisconnected | components/livekit/filtered-audio-renderer.tsx:157-169 | collecting the prefixed keys and then deleting them gives `ParticipantDisconnected` of the old map |
| FilteredAudioRenderer.Renderer.AttachExisting | components/livekit/filtered-audio-renderer.tsx:108-114 | handling every subscribed publication with a track, in order, gives `AttachAll` of the old map |
| FilteredAudioRenderer.Renderer.Cleanup | components/livekit/filtered-audio-renderer.tsx:174-175 | the new map is `TornDown` of the old one |
| ExcludedVideoTracks.ExcludedNamesAppend | hooks/useExcludedVideoTracks.ts:26-32 | the names of concatenated descriptor lists are concatenated in order |
| ExcludedVideoTracks.ExcludedNames | hooks/useExcludedVideoTracks.ts:23-36 | the key of each enabled `livekit` descriptor, in descriptor order; stated by `ExcludedNamesMembership`, `ExcludedNamesAppend` and `NoLivekitNoNames` |
| ExcludedVideoTracks.ExcludedNamesMembership | hooks/useExcludedVideoTracks.ts:23-36 | a name is excluded iff it is the key of some enabled `livekit` descriptor |
| ExcludedVideoTracks.NoLivekitNoNames | hooks/useExcludedVideoTracks.ts:27 | `system` and disabled descriptors contribute no names |
| ExcludedVideoTracks.DefaultExcludedNames | app-config.ts:88-106 | the shipped descriptors exclude exactly `xunfei_video_track` |
| ExcludedVideoTracks.ExcludedTrackNames | hooks/useExcludedVideoTracks.ts:23-36 | the push loop yields the keys of the enabled `livekit` descriptors in descriptor order |
| ExcludedVideoTracks.ShouldExcludeTrack | hooks/useExcludedVideoTracks.ts:39-48 | excluded iff for some name they are equal or either contains the other; an empty list excludes nothing; a listed name is excluded |
| ExcludedVideoTracks.ShouldExcludeSymmetric | hooks/useExcludedVideoTracks.ts:41-46 | `t` is excluded by `[n]` iff `n` is excluded by `[t]` |
| ExcludedVideoTracks.EmptyNameExcluded | hooks/useExcludedVideoTracks.ts:41-46 | an empty name is excluded by every non-empty list |
| ExcludedVideoTracks.EqualityDisjunctRedundant | hooks/useExcludedVideoTracks.ts:43-45 | the equality test is implied by containment |
| ExcludedVideoTracks.UnrelatedNameKept | hooks/useExcludedVideoTracks.ts:41-46 | a name not related by containment to any listed name is kept |
| RemoteVideoTracks.TrackInfo | hooks/useRemoteVideoTracks.ts:41-49 | an entry copies name, SID, owner identity, track and subscription flag from its publication |
| RemoteVideoTracks.IndexOf | hooks/useRemoteVideoTracks.ts:50 | every stored entry sits under its own name |
| RemoteVideoTracks.IndexOfKeys | hooks/useRemoteVideoTracks.ts:37-52 | a name is a key iff some entry carries it |
| RemoteVideoTracks.IndexOfLastWins | hooks/useRemoteVideoTracks.ts:50 | among entries sharing a name, the last one is stored |
| RemoteVideoTracks.IndexOfValuesAreEntries | hooks/useRemoteVideoTracks.ts:42-50 | every stored value is one of the built entries |
| RemoteVideoTracks.EntriesMembership | hooks/useRemoteVideoTracks.ts:39-52 | an entry is built iff it describes a video publication of some participant |
| RemoteVideoTracks.EntriesOfMembership | hooks/useRemoteVideoTracks.ts:40-51 | the same for one participant's publications |
| RemoteVideoTracks.EntriesOf | hooks/useRemoteVideoTracks.ts:40-51 | one entry per video publication of one participant, in order; stated by `EntriesOfMembership` |
| RemoteVideoTracks.Entries | hooks/useRemoteVideoTracks.ts:39-52 | the entries of all participants, participant by participant; stated by `EntriesMembership` and `RefreshedNames` |
| RemoteVideoTracks.RefreshedNames | hooks/useRemoteVideoTracks.ts:36-54 | after a refresh, the keys are exactly the names of the current video publications, so nothing survives from the old snapshot |
| RemoteVideoTracks.SetSubscription | hooks/useRemoteVideoTracks.ts:62-114 | true iff the name is known and either already in the target state or the call does not throw; a platform call is made iff known, in the other state and not throwing, and it targets that publication |
| RemoteVideoTracks.Registry.constructor | hooks/useRemoteVideoTracks.ts:31-33 | the map starts empty |
| RemoteVideoTracks.Registry.RefreshTracks | hooks/useRemoteVideoTracks.ts:36-59 | the nested loops replace the map with `IndexOf(Entries(participants))` |
| RemoteVideoTracks.Registry.HandleRoomEvent | hooks/useRemoteVideoTracks.ts:131-189 | participant events and video track events refresh; audio track events leave the map as it was |
| RemoteVideoTracks.Registry.SubscribeToTrack | hooks/useRemoteVideoTracks.ts:62-85 | result and logged call are `SetSubscription` with subscribe true; the cached map is never updated |
| RemoteVideoTracks.Registry.UnsubscribeFromTrack | hooks/useRemoteVideoTracks.ts:88-114 | the mirror of `SubscribeToTrack` |
| RemoteVideoTracks.Registry.GetTrackByName | hooks/useRemoteVideoTracks.ts:117-122 | present iff the name is a key, and then it is that key's entry |
| RemoteVideoTracks.SubscribeTwiceWithoutRefresh | hooks/useRemoteVideoTracks.ts:64-76 | two subscribes of a cached unsubscribed track both succeed and both reach the platform |
| VideoTrackFactory.CaptureRequest | hooks/useVideoTrackFactory.ts:55-61 | a non-empty device id is requested by id; otherwise the front camera (`facingMode: 'user'`) is requested |
| VideoTrackFactory.CreateSystemCameraTrack | hooks/useVideoTrackFactory.ts:52-71 | one capture request is made and its answer is the result; without a device id it asks for `facingMode: 'user'` |
| VideoTrackFactory.CreateLivekitTrack | hooks/useVideoTrackFactory.ts:74-105 | the existing track is returned as it is, whatever its name; without one there is no track |
| VideoTrackFactory.CreateTrackFromConfig | hooks/useVideoTrackFactory.ts:22-49 | a disabled or unknown descriptor gives no track and no capture; `livekit` gives the existing track without capture; `system` captures the front camera; only `system` captures |
| VideoTrackFactory.SystemIgnoresExistingTrack | hooks/useVideoTrackFactory.ts:33-34 | the system path does not depend on the offered existing track |
| VideoTrackFactory.LivekitNeverCaptures | hooks/useVideoTrackFactory.ts:36-37 | the LiveKit path does not depend on the capture answer |
| ConfigurableVideoTracks.Availability | hooks/useConfigurableVideoTracks.ts:78-106 | a system camera is available iff enumeration succeeds and lists a video input; a LiveKit track iff its key is a local track or in the registry; anything else is unavailable |
| ConfigurableVideoTracks.NewOption | hooks/useConfigurableVideoTracks.ts:67-76 | an option copies id, label, type, icon, description and descriptor, and starts without a track |
| ConfigurableVideoTracks.EnabledConfigsMembership | hooks/useConfigurableVideoTracks.ts:64-65 | a descriptor gets an option iff it is listed and enabled |
| ConfigurableVideoTracks.BuildOptions | hooks/useConfigurableVideoTracks.ts:62-111 | exactly one option per enabled descriptor, in descriptor order, with its availability |
| ConfigurableVideoTracks.FindIndex | hooks/useConfigurableVideoTracks.ts:145 | finds the first option with the id, or reports that there is none |
| ConfigurableVideoTracks.FirstAvailable | hooks/useConfigurableVideoTracks.ts:122 | finds the first available option, or reports that there is none |
| ConfigurableVideoTracks.DefaultSelection | hooks/useConfigurableVideoTracks.ts:114-128 | applied only while no id is set: the default id if some option has it (available or not), else the first available option's id, else unchanged |
| ConfigurableVideoTracks.AttachTrack | hooks/useConfigurableVideoTracks.ts:205-211 | the chosen option gets the new track and, for a remote one, the reference; the previously selected option loses its track; ids, descriptors and availability are kept |
| ConfigurableVideoTracks.Connect | hooks/useConfigurableVideoTracks.ts:170-269 | a notification is given iff no error is set, and then the current track is attached; a failure leaves the current track and the options as they were; a subscription happens only for a LiveKit key with no local track; a capture only for an available system camera. A LiveKit option with an existing local track installs that track and announces it as a local video track, with no call and no capture. An unavailable system camera fails as system-unavailable with its label. An available one requests the front camera and installs the captured track, or fails as create-failed when the capture gives nothing. An unrecognised type fails as create-failed |
| ConfigurableVideoTracks.SwitchStep | hooks/useConfigurableVideoTracks.ts:132-292 | loading ends false on every exit; an unknown id only sets the error; a known id is selected before connecting and stays selected; the previous track is stopped; only a throwing stop reaches `onError`; success iff no error; a failed connection leaves no current track |
| ConfigurableVideoTracks.RemoteSuccessNeedsSnapshotTrack | hooks/useConfigurableVideoTracks.ts:179-233 | a remote switch succeeds only when the snapshot entry exists with a track and subscribing did not fail; a missing entry is not-found, a failed one is subscribe-failed |
| ConfigurableVideoTracks.UnavailableSystemNeverCaptures | hooks/useConfigurableVideoTracks.ts:237-243 | an unavailable system camera fails without capture, subscription or notification, and unless the stop threw, the error is system-unavailable with the option's label |
| ConfigurableVideoTracks.LocalLivekitSwitchInstallsExistingTrack | hooks/useConfigurableVideoTracks.ts:170-269 | a switch to a LiveKit option whose name is an existing local track makes no subscription and no capture. It installs that track as the current track and announces it, or fails as create-failed for a disabled descriptor |
| ConfigurableVideoTracks.SystemCaptureFailureIsCreateFailed | hooks/useConfigurableVideoTracks.ts:237-269 | a switch to an available, enabled system camera requests the front camera. A capture that gives nothing fails as create-failed with no notification. A capture that gives a track installs and announces it |
| ConfigurableVideoTracks.ConfigurableTracks.constructor | hooks/useConfigurableVideoTracks.ts:49-53 | the state cells start empty, null and not loading |
| ConfigurableVideoTracks.ConfigurableTracks.InitializeVideoOptions | hooks/useConfigurableVideoTracks.ts:59-129 | the loop builds `BuildOptions`, then the id becomes `DefaultSelection` of the old id; loading ends false |
| ConfigurableVideoTracks.ConfigurableTracks.OnRemoteTracksChanged | hooks/useConfigurableVideoTracks.ts:316-321 | re-initialises only when the registry holds some track; otherwise the state is unchanged |
| ConfigurableVideoTracks.ConfigurableTracks.SwitchToTrack | hooks/useConfigurableVideoTracks.ts:132-292 | the new state, notification, stopped tracks, subscription calls, capture requests and error reports are those of `SwitchStep` |
| ConfigurableVideoTracks.ConfigurableTracks.ConnectOption | hooks/useConfigurableVideoTracks.ts:170-269 | the connection part leaves the state and logs that `Connect` describes |
| ConfigurableVideoTracks.ConfigurableTracks.GetTrackById | hooks/useConfigurableVideoTracks.ts:298-303 | returns the first option with that id, or none when no option has it |
| ConfigurableVideoTracks.ConfigurableTracks.ClearError | hooks/useConfigurableVideoTracks.ts:306-308 | only the error is reset |
| SelectedVideoTrack.SelectedTrackStore.constructor | hooks/useSelectedVideoTrack.tsx:16-17 | both cells start null |
| SelectedVideoTrack.SelectedTrackStore.SetSelectedTrack | hooks/useSelectedVideoTrack.tsx:19-22 | with a provider both cells are set together; without one nothing changes |
| SelectedVideoTrack.SelectedTrackStore.ClearSelectedTrack | hooks/useSelectedVideoTrack.tsx:24-27 | both cells become null |
| SelectedVideoTrack.SelectorClearDiffersFromClear | components/livekit/agent-control-bar/configurable-video-selector.tsx:348 | the selector's clear, `setSelectedTrack('', null)`, leaves the id `''`, not null |
| ConfigurableVideoSelector.AvailableOptions | components/livekit/agent-control-bar/configurable-video-selector.tsx:378 | the filter keeps only available options from the table |
| ConfigurableVideoSelector.AvailableOptionsMembership | components/livekit/agent-control-bar/configurable-video-selector.tsx:378 | an option is kept iff it is in the table and available |
| ConfigurableVideoSelector.TrackToUse | components/livekit/agent-control-bar/configurable-video-selector.tsx:195 | the selected id when truthy, else the default id |
| ConfigurableVideoSelector.OptionKind | components/livekit/agent-control-bar/configurable-video-selector.tsx:73 | present iff some option has the id, and then it is the descriptor type of the first such option |
| ConfigurableVideoSelector.KindOf | components/livekit/agent-control-bar/configurable-video-selector.tsx:177 | a falsy id finds nothing; a truthy one is looked up |
| ConfigurableVideoSelector.FindConfig | components/livekit/agent-control-bar/configurable-video-selector.tsx:197 | present iff some option has the id, and then it is the whole descriptor of the first such option |
| ConfigurableVideoSelector.RemotePreview | components/livekit/agent-control-bar/configurable-video-selector.tsx:203-219 | a reference is produced iff the snapshot has the entry with a track and subscribing did not fail, and it points at that publication |
| ConfigurableVideoSelector.Cleared | components/livekit/agent-control-bar/configurable-video-selector.tsx:341-348 | the steps every clean-up shares: no camera publication, the hook's current track stopped, the store `('', null)` when a provider is mounted; nothing else changes |
| ConfigurableVideoSelector.Shown | components/livekit/agent-control-bar/configurable-video-selector.tsx:106 | `setSelectedTrack(id, reference)`: with a provider the store holds exactly that pair, without one nothing changes; stated by `ShownNeedsProvider` |
| ConfigurableVideoSelector.AllCleaned | components/livekit/agent-control-bar/configurable-video-selector.tsx:337-351 | no camera publication, both flags off, the hook's current track stopped but still held by the hook, the selection and pressed reports kept |
| ConfigurableVideoSelector.SystemCameraCleaned | components/livekit/agent-control-bar/configurable-video-selector.tsx:295-313 | no camera publication, the system flag off, the preview flag kept, the hook's current track stopped but still held, the selection kept |
| ConfigurableVideoSelector.TrackPreviewCleaned | components/livekit/agent-control-bar/configurable-video-selector.tsx:316-334 | no camera publication, the preview flag off, the system flag kept, nothing stopped, the hook and the selection kept, the store cleared when a provider is mounted |
| ConfigurableVideoSelector.PreviewCleaned | components/livekit/agent-control-bar/configurable-video-selector.tsx:176-192 | nothing changes when the captured id names a LiveKit option; otherwise no camera publication remains and the hook's current track is stopped |
| ConfigurableVideoSelector.TrackChanged | components/livekit/agent-control-bar/configurable-video-selector.tsx:68-133 | the `onTrackChange` handler; stated by `TrackChangedFrame`, `SwitchedPublishesCapturedCamera` and `SwitchedPublishFailureIsReported` |
| ConfigurableVideoSelector.Switched | components/livekit/agent-control-bar/configurable-video-selector.tsx:68-135 | `switchToTrack` followed by the handler for its notification; stated by `SwitchedHookSide` and `SwitchedWithoutNotificationKeepsSelector` |
| ConfigurableVideoSelector.SystemCameraToggled | components/livekit/agent-control-bar/configurable-video-selector.tsx:138-166 | `handleSystemCameraToggle`; stated by `EnableSystemCameraPublishes`, `EnableSystemCameraWithoutTrack` and `DisablingReleasesCamera` |
| ConfigurableVideoSelector.RemotePreviewed | components/livekit/agent-control-bar/configurable-video-selector.tsx:199-232 | the direct LiveKit preview; stated by `PreviewOfLivekitOption` |
| ConfigurableVideoSelector.Previewed | components/livekit/agent-control-bar/configurable-video-selector.tsx:195-249 | the enable branch after the clean-up; stated by `PreviewOfLivekitOption` and `PreviewOfOtherOptionSwitches` |
| ConfigurableVideoSelector.PreviewToggled | components/livekit/agent-control-bar/configurable-video-selector.tsx:169-268 | `handleTrackPreviewToggle` with the selection its closure captured; stated by `PreviewOfLivekitOption` and `DisablingReleasesCamera` |
| ConfigurableVideoSelector.VideoToggled | components/livekit/agent-control-bar/configurable-video-selector.tsx:271-292 | `handleToggleVideo`; stated by `ToggleVideoWithoutOptionDoesNothing` and `DisablingReleasesCamera` |
| ConfigurableVideoSelector.TrackChangeHandled | components/livekit/agent-control-bar/configurable-video-selector.tsx:354-375 | `handleTrackChange`; stated by `TrackChangeToSystemOption`, `TrackChangeToLivekitSwitchesOldSelection`, `TrackChangeFromSystemCameraRepublishes` and `TrackChangeToLivekitPreviewsOldLivekit` |
| ConfigurableVideoSelector.ShownNeedsProvider | components/livekit/agent-control-bar/configurable-video-selector.tsx:106 | the store's cells change only with a provider, and then to exactly the given pair; the hook, the camera and the stopped tracks are kept |
| ConfigurableVideoSelector.PreviewOfOtherOptionSwitches | components/livekit/agent-control-bar/configurable-video-selector.tsx:233-248 | previewing an option that is not LiveKit leaves the hook as `SwitchStep` says, turns the preview flag on and reports pressed whether or not the switch connected, and stops nothing in the selector |
| ConfigurableVideoSelector.Selector.constructor | components/livekit/agent-control-bar/configurable-video-selector.tsx:51-53 | the selection starts at the default id when it is truthy, else null; both flags start false |
| ConfigurableVideoSelector.Selector.UnpublishCamera | components/livekit/agent-control-bar/configurable-video-selector.tsx:341-344 | afterwards no camera publication remains; nothing else changes |
| ConfigurableVideoSelector.Selector.StopCurrentTrack | components/livekit/agent-control-bar/configurable-video-selector.tsx:345-347 | the hook's current track, if any, is stopped; nothing else changes |
| ConfigurableVideoSelector.Selector.CleanupAllResources | components/livekit/agent-control-bar/configurable-video-selector.tsx:337-351 | the whole new state is `AllCleaned`: `Cleared` with both flags off, the selection kept |
| ConfigurableVideoSelector.Selector.CleanupSystemCameraResources | components/livekit/agent-control-bar/configurable-video-selector.tsx:295-313 | the whole new state is `SystemCameraCleaned`: as the full clean-up, but the preview flag is kept |
| ConfigurableVideoSelector.Selector.CleanupTrackPreviewResources | components/livekit/agent-control-bar/configurable-video-selector.tsx:316-334 | the whole new state is `TrackPreviewCleaned`: unpublished and store cleared, nothing stopped, selection and system flag kept |
| ConfigurableVideoSelector.Selector.OnTrackChange | components/livekit/agent-control-bar/configurable-video-selector.tsx:68-133 | the whole new state is `TrackChanged` of the old one |
| ConfigurableVideoSelector.TrackChangedFrame | components/livekit/agent-control-bar/configurable-video-selector.tsx:68-133 | the track-change handler changes only the camera, the flags, the store and its two reports |
| ConfigurableVideoSelector.Selector.SwitchAndHandle | components/livekit/agent-control-bar/configurable-video-selector.tsx:68-135 | the whole new state, hook included, is `Switched`: `SwitchStep` on the hook, then `TrackChanged` for its notification |
| ConfigurableVideoSelector.OptionKindKept | components/livekit/agent-control-bar/configurable-video-selector.tsx:73 | an id's type depends only on the options' ids and descriptors, so it is the same before and after a switch |
| ConfigurableVideoSelector.SwitchedHookSide | components/livekit/agent-control-bar/configurable-video-selector.tsx:68-135 | a switch leaves the hook as `SwitchStep` says and never touches the selection, the selector's stopped tracks or its pressed reports |
| ConfigurableVideoSelector.SwitchedPublishesCapturedCamera | components/livekit/agent-control-bar/configurable-video-selector.tsx:86-107 | a switch to an available system option whose capture and publish succeed publishes the captured track as the only camera publication, shows it, turns the system flag on and tells the parent |
| ConfigurableVideoSelector.SwitchedPublishFailureIsReported | components/livekit/agent-control-bar/configurable-video-selector.tsx:85-131 | a throwing publish leaves no camera published, reports one device error, does not tell the parent and keeps the flags and the store |
| ConfigurableVideoSelector.SwitchedWithoutNotificationKeepsSelector | components/livekit/agent-control-bar/configurable-video-selector.tsx:68-135 | a switch that does not connect sets the hook's error and changes nothing on the selector's side |
| ConfigurableVideoSelector.Selector.HandleSystemCameraToggle | components/livekit/agent-control-bar/configurable-video-selector.tsx:138-166 | the whole new state is `SystemCameraToggled` of the old one |
| ConfigurableVideoSelector.EnableSystemCameraPublishes | components/livekit/agent-control-bar/configurable-video-selector.tsx:138-154 | enabling with a successful capture and publish: the captured track is the one camera publication and is shown, the system flag is on, the preview flag off, `system_camera_default` selected, the parent told, pressed reported; the previous track is stopped once by the selector and once by the hook |
| ConfigurableVideoSelector.EnableSystemCameraWithoutTrack | components/livekit/agent-control-bar/configurable-video-selector.tsx:142-154 | enabling when the switch does not connect still turns the system flag on and reports pressed, with nothing published and the store cleared |
| ConfigurableVideoSelector.DisablingReleasesCamera | components/livekit/agent-control-bar/configurable-video-selector.tsx:155-289 | each disable path (system camera, preview, whole video) unpublishes, stops the hook's current track, clears the store, reports not pressed and leaves the hook and the selection alone, turning off its own flags |
| ConfigurableVideoSelector.Selector.PreviewRemoteTrack | components/livekit/agent-control-bar/configurable-video-selector.tsx:199-232 | the whole new state is `RemotePreviewed`: only a `RemotePreview` reference sets the store and the flag and reports pressed; the subscription call is logged only when one reaches the platform (none for a key missing from the snapshot, an already-subscribed track or a throwing call) |
| ConfigurableVideoSelector.Selector.PreviewCleanup | components/livekit/agent-control-bar/configurable-video-selector.tsx:176-192 | the whole new state is `PreviewCleaned`: `Cleared` unless the captured id names a LiveKit option |
| ConfigurableVideoSelector.Selector.PreviewTrack | components/livekit/agent-control-bar/configurable-video-selector.tsx:195-249 | the whole new state is `Previewed`: a LiveKit option directly, anything else through `Switched`, then the preview flag on and pressed reported |
| ConfigurableVideoSelector.Selector.HandleTrackPreviewToggle | components/livekit/agent-control-bar/configurable-video-selector.tsx:169-268 | the whole new state is `PreviewToggled` of the old one and the captured id |
| ConfigurableVideoSelector.PreviewOfLivekitOption | components/livekit/agent-control-bar/configurable-video-selector.tsx:176-232 | enabling the preview of a LiveKit option leaves the hook, the camera and the stopped tracks alone and logs the subscription call only when one reaches the platform (none for a key missing from the snapshot, an already-subscribed track or a throwing call); pressed is reported iff the reference could be shown, and then the store shows the option's id and the reference |
| ConfigurableVideoSelector.Selector.HandleToggleVideo | components/livekit/agent-control-bar/configurable-video-selector.tsx:271-292 | the whole new state is `VideoToggled` of the old one |
| ConfigurableVideoSelector.ToggleVideoWithoutOptionDoesNothing | components/livekit/agent-control-bar/configurable-video-selector.tsx:275-284 | enabling with no known option to use changes nothing |
| ConfigurableVideoSelector.Selector.HandleTrackChange | components/livekit/agent-control-bar/configurable-video-selector.tsx:354-375 | the whole new state is `TrackChangeHandled` of the old one |
| ConfigurableVideoSelector.TrackChangeToSystemOption | components/livekit/agent-control-bar/configurable-video-selector.tsx:354-372 | a change to a system option while pressed stops the hook's current track twice in the selector, selects `system_camera_default` whatever system id was chosen, turns the flag on, reports pressed, and the hook switches to `system_camera_default` |
| ConfigurableVideoSelector.TrackChangeToLivekitSwitchesOldSelection | components/livekit/agent-control-bar/configurable-video-selector.tsx:354-372 | a change to a LiveKit option while pressed, from a selection that is not LiveKit, switches the hook to the old selection, keeps the new id selected, turns the preview flag on, reports pressed and stops the hook's current track twice |
| ConfigurableVideoSelector.TrackChangeFromSystemCameraRepublishes | components/livekit/agent-control-bar/configurable-video-selector.tsx:354-372 | in particular, from `system_camera_default` the camera is captured and published again and shown under `system_camera_default`, while the LiveKit id is selected |
| ConfigurableVideoSelector.TrackChangeToLivekitPreviewsOldLivekit | components/livekit/agent-control-bar/configurable-video-selector.tsx:176-232 | from a LiveKit selection, the old LiveKit option is previewed: the hook is untouched, the current track stopped once, and a shown reference is shown under the old id |
| SmartVoiceAssistant.CandidateFrom | hooks/useSmartVoiceAssistant.ts:41-61 | finds the first suitable publication of one participant, or reports that there is none |
| SmartVoiceAssistant.FirstCandidateFrom | hooks/useSmartVoiceAssistant.ts:38-62 | finds the first suitable publication in participant order, then publication order, or reports that there is none |
| SmartVoiceAssistant.SmartVideoTrack | hooks/useSmartVoiceAssistant.ts:23-66 | the assistant's own track when it is not excluded; the result is never excluded; otherwise the first agent's subscribed video with a track, in participant order and then publication order; none only when no candidate exists |
| ChatMessages.FindByIdentity | hooks/useChatMessages.ts:28-30 | finds the first remote with an equal identity, or reports that there is none |
| ChatMessages.FindAgentLike | hooks/useChatMessages.ts:38-42 | finds the first remote whose lower-cased identity contains `agent`, `assistant` or `bot`, or reports that there is none |
| ChatMessages.SmartMatch | hooks/useChatMessages.ts:35-44 | none iff there is no remote; an agent-like result is the first agent-like remote; a non-agent-like result is the first remote, and only when no remote is agent-like |
| ChatMessages.ResolveSender | hooks/useChatMessages.ts:17-45 | a configured user identity maps to local even if a remote shares it; then the local identity; then the first equal remote; only if unresolved, smart matching when it is on |
| ChatMessages.UnresolvedStaysAnonymous | hooks/useChatMessages.ts:34 | with matching off or no remotes, an unresolved transcription has no sender |
| ChatMessages.TranscriptionToChatMessage | hooks/useChatMessages.ts:57-62 | id, timestamp and text come from the stream; the sender is `ResolveSender`; no edit time |
| ChatMessages.ProcessChatMessage | hooks/useChatMessages.ts:77-95 | a message with a sender, or with matching off or no remotes, is unchanged; otherwise it gets the smart-matched sender |
| ChatMessages.WithTimestampAppend | hooks/useChatMessages.ts:97-100 | selecting one timestamp distributes over concatenation |
| ChatMessages.WithTimestampAbove | hooks/useChatMessages.ts:102 | a sorted list starting above `t` holds nothing at `t` |
| ChatMessages.Insert | hooks/useChatMessages.ts:102 | one insertion step adds exactly the message |
| ChatMessages.InsertSorted | hooks/useChatMessages.ts:102 | inserting into a sorted list keeps it sorted |
| ChatMessages.InsertStable | hooks/useChatMessages.ts:102 | the inserted message goes after those already there with its timestamp |
| ChatMessages.SortByTimestamp | hooks/useChatMessages.ts:102 | the sort is a permutation of its input |
| ChatMessages.SortByTimestampSorted | hooks/useChatMessages.ts:102 | the sort's output is non-decreasing by timestamp |
| ChatMessages.SortByTimestampStable | hooks/useChatMessages.ts:102 | for every timestamp, the messages carrying it keep their input order |
| ChatMessages.TranscriptionMessages | hooks/useChatMessages.ts:72-74 | one message per transcription, in order |
| ChatMessages.ProcessedChatMessages | hooks/useChatMessages.ts:77-95 | one processed message per chat message, in order |
| ChatMessages.MergedMessages | hooks/useChatMessages.ts:70-103 | the result is a permutation of transcriptions followed by chats: nothing is dropped or merged |
| ChatMessages.MergedMessagesOrder | hooks/useChatMessages.ts:97-102 | the result is sorted; at each timestamp, every transcription precedes every chat message, each in input order |
| ChatTranscript.RenderMessage | components/app/chat-transcript.tsx:67-91 | with a sender the side is local iff it is local; without one it is remote iff the text is longer than 100; names are empty unless shown, then `name \|\| identity \|\| 'Unknown'` or Assistant/User; edited iff an edit time other than 0 is present |
| ChatTranscript.RenderTranscript | components/app/chat-transcript.tsx:65-67 | nothing while hidden; otherwise one entry per message, in order |
| ChatTranscript.TranscriptionSides | components/app/chat-transcript.tsx:74-79 | a transcription from a user alias or the local identity is drawn local, unnamed and not edited by default |

## Left out

- Platform primitives are parameters or logs, not behaviour. This covers
  `setSubscribed`, `publishTrack`/`unpublishTrack`, `createLocalVideoTrack`,
  `enumerateDevices`, `MediaStream`, the audio element and the DOM.
- Event-listener registration and removal are left out, and so are React
  effect scheduling and re-render timing. Events are method calls.
- Interleaving of overlapping asynchronous handlers is not modelled. Only
  sequential executions are modelled, and no claim is made about stale
  switches.
- Volume handling, console logging, the debug flags and the wording of the
  error messages are left out. Errors are tagged kinds.
- Floating-point timestamps are left out. Timestamps are integers, and the
  comparator `a.timestamp - b.timestamp` is taken as integer order.
- The track references the source builds carry participant and publication
  objects. Here they are an identity and a SID, so the lookup
  `room.remoteParticipants.get` is not modelled.
- Message lengths are counted in characters, not UTF-16 code units.
  `toLowerCase` is modelled for ASCII letters only.
- A missing chat configuration is modelled as matching off with no user
  identities, which is how the source reads it.
- `ConfigurableVideoTracks.ConfigurableTracks.InitializeVideoOptions`: one
  device enumeration answers for every system descriptor, so two system
  descriptors never see different answers.
- `ConfigurableVideoSelector.Selector.OnTrackChange`: a failing unpublish
  and a failing `stop()` in the clean-ups are not modelled. Only a failing
  publish is, and the source catches it.
- The local participant's camera publication is at most one, and its
  initial value is a constructor argument.
- `components/app/tile-layout.tsx`, `components/livekit/audio-filter-debug.tsx`,
  `components/livekit/scroll-area/hooks/useAutoScroll.ts`,
  `scripts/toggle-debug.js` and `components/app/app.tsx` are presentation,
  debugging, UI timing, file I/O or wiring. They are not part of this model.
