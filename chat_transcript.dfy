/**
 * How the transcript renders each chat message: which side it is drawn on,
 * the name shown above it and whether it is marked as edited.
 */
module ChatTranscript {
  import opened Optional
  import opened JsStrings
  import opened ChatMessages

  datatype Origin = Local | Remote

  /** What one rendered entry shows, besides the message text and timestamp it copies. */
  datatype EntryView = EntryView(
    key: string,
    timestamp: int,
    message: string,
    origin: Origin,
    name: string,
    hasBeenEdited: bool)

  /** Messages longer than this, without a sender, are drawn as the assistant's. */
  const LongMessageLength: nat := 100

  /** One entry of the transcript. */
  function RenderMessage(m: ChatMessage, showParticipantNames: bool): (v: EntryView)
    ensures v.key == m.id && v.timestamp == m.timestamp && v.message == m.message
    ensures m.from.Some? ==> (v.origin == Local <==> m.from.value.isLocal)
    ensures m.from.None? ==> (v.origin == Remote <==> |m.message| > LongMessageLength)
    ensures !showParticipantNames ==> v.name == ""
    ensures showParticipantNames && m.from.Some? ==>
              v.name != "" &&
              (m.from.value.name != "" ==> v.name == m.from.value.name) &&
              (m.from.value.name == "" && m.from.value.identity != "" ==> v.name == m.from.value.identity) &&
              (m.from.value.name == "" && m.from.value.identity == "" ==> v.name == "Unknown")
    ensures showParticipantNames && m.from.None? ==> v.name == (if v.origin == Remote then "Assistant" else "User")
    ensures v.hasBeenEdited <==> m.editTimestamp.Some? && m.editTimestamp.value != 0
  {
    var origin :=
      if m.from.Some? then (if m.from.value.isLocal then Local else Remote)
      else if |m.message| > LongMessageLength then Remote
      else Local;
    var name :=
      if !showParticipantNames then ""
      else if m.from.Some? then OrElse(OrElse(m.from.value.name, m.from.value.identity), "Unknown")
      else if origin == Remote then "Assistant"
      else "User";
    var edited := m.editTimestamp.Some? && m.editTimestamp.value != 0;
    EntryView(m.id, m.timestamp, m.message, origin, name, edited)
  }

  /** The transcript: nothing while hidden, otherwise one entry per message in order. */
  function RenderTranscript(hidden: bool, messages: seq<ChatMessage>, showParticipantNames: bool): (r: seq<EntryView>)
    ensures hidden ==> r == []
    ensures !hidden ==> (|r| == |messages| &&
                         forall i :: 0 <= i < |r| ==> r[i] == RenderMessage(messages[i], showParticipantNames))
  {
    if hidden then []
    else seq(|messages|, i requires 0 <= i < |messages| => RenderMessage(messages[i], showParticipantNames))
  }

  /**
   * With names hidden (the default), a transcription from a configured user
   * identity or the local identity is drawn on the local side, unnamed and
   * not marked as edited.
   */
  lemma TranscriptionSides(stream: TextStream, room: Room, config: ChatConfig)
    requires stream.participantIdentity in config.userTranscriptionIdentities ||
             stream.participantIdentity == room.localParticipant.identity
    requires room.localParticipant.isLocal
    ensures RenderMessage(TranscriptionToChatMessage(stream, room, config), false).origin == Local
    ensures RenderMessage(TranscriptionToChatMessage(stream, room, config), false).name == ""
    ensures !RenderMessage(TranscriptionToChatMessage(stream, room, config), false).hasBeenEdited
  {
  }
}
