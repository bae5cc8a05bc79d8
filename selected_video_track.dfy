/**
 * The selected-video-track store: two state cells, the track id and the
 * track reference, shared through a context provider. Without a provider
 * the hook hands out empty values and setters that do nothing.
 */
module SelectedVideoTrack {
  import opened Optional
  import opened Platform

  class SelectedTrackStore {
    /** Whether a provider is mounted above the consumer. */
    const hasProvider: bool
    var trackId: Option<string>
    var trackReference: Option<TrackOrReference>

    /** Without a provider both cells read as null, always. */
    ghost predicate Valid()
      reads this
    {
      !hasProvider ==> trackId.None? && trackReference.None?
    }

    constructor (hasProvider: bool)
      ensures Valid()
      ensures this.hasProvider == hasProvider
      ensures trackId.None? && trackReference.None?
    {
      this.hasProvider := hasProvider;
      trackId := None;
      trackReference := None;
    }

    /** `setSelectedTrack(id, reference)`: both cells together, or nothing without a provider. */
    method SetSelectedTrack(newTrackId: string, newTrackReference: Option<TrackOrReference>)
      requires Valid()
      modifies this
      ensures Valid()
      ensures hasProvider ==> trackId == Some(newTrackId) && trackReference == newTrackReference
      ensures !hasProvider ==> trackId == old(trackId) && trackReference == old(trackReference)
    {
      if hasProvider {
        trackId := Some(newTrackId);
        trackReference := newTrackReference;
      }
    }

    /** `clearSelectedTrack`: both cells back to null. */
    method ClearSelectedTrack()
      requires Valid()
      modifies this
      ensures Valid()
      ensures trackId.None? && trackReference.None?
    {
      if hasProvider {
        trackId := None;
        trackReference := None;
      }
    }
  }

  /**
   * The selector "clears" the store with `setSelectedTrack('', null)`, which
   * leaves an empty id rather than the null that `clearSelectedTrack` leaves.
   */
  method SelectorClearDiffersFromClear(store: SelectedTrackStore)
    requires store.Valid() && store.hasProvider
    modifies store
    ensures store.trackId == Some("") && store.trackId != None
    ensures store.trackReference.None?
  {
    store.SetSelectedTrack("", None);
  }
}
