/**
 * The chat message list: transcriptions become chat messages attributed to
 * a participant, unattributed chat messages may be re-attributed, and the
 * two lists are merged and sorted by timestamp with a stable sort.
 */
module ChatMessages {
  import opened Optional
  import opened JsStrings
  import opened Platform

  /** One transcription stream: who spoke (as reported), the stream id, its timestamp and the text. */
  datatype TextStream = TextStream(participantIdentity: string, streamId: string, timestamp: int, text: string)

  /** A received chat message; `from` is absent when the sender is unknown. */
  datatype ChatMessage = ChatMessage(
    id: string,
    timestamp: int,
    message: string,
    from: Option<Participant>,
    editTimestamp: Option<int>)

  /** The room as the merge sees it. */
  datatype Room = Room(localParticipant: Participant, remoteParticipants: seq<Participant>)

  /** The two settings attribution reads; a missing configuration reads as matching off and no identities. */
  datatype ChatConfig = ChatConfig(enableSmartParticipantMatching: bool, userTranscriptionIdentities: seq<string>)

  // ---------------------------------------------------------------------
  // Attribution

  /** The keyword rule: the lower-cased identity contains `agent`, `assistant` or `bot`. */
  predicate IsAgentLike(p: Participant) {
    var id := ToLower(p.identity);
    Contains(id, "agent") || Contains(id, "assistant") || Contains(id, "bot")
  }

  /** The first remote participant with the given identity. */
  function FindByIdentity(remotes: seq<Participant>, identity: string): (r: Option<Participant>)
    ensures r.Some? ==> exists k :: 0 <= k < |remotes| && remotes[k] == r.value && r.value.identity == identity &&
                                    forall j :: 0 <= j < k ==> remotes[j].identity != identity
    ensures r.None? ==> forall k :: 0 <= k < |remotes| ==> remotes[k].identity != identity
  {
    if remotes == [] then None
    else if remotes[0].identity == identity then Some(remotes[0])
    else
      var r := FindByIdentity(remotes[1..], identity);
      assert r.Some? ==> exists k :: 1 <= k < |remotes| && remotes[k] == r.value && r.value.identity == identity &&
                                     forall j :: 0 <= j < k ==> remotes[j].identity != identity by {
        if r.Some? {
          var k :| 0 <= k < |remotes[1..]| && remotes[1..][k] == r.value && r.value.identity == identity &&
                   forall j :: 0 <= j < k ==> remotes[1..][j].identity != identity;
          assert remotes[k + 1] == r.value;
          forall j | 0 <= j < k + 1
            ensures remotes[j].identity != identity
          {
            if j > 0 {
              assert remotes[j] == remotes[1..][j - 1];
            }
          }
        }
      }
      r
  }

  /** The first agent-like remote participant. */
  function FindAgentLike(remotes: seq<Participant>): (r: Option<Participant>)
    ensures r.Some? ==> exists k :: 0 <= k < |remotes| && remotes[k] == r.value && IsAgentLike(r.value) &&
                                    forall j :: 0 <= j < k ==> !IsAgentLike(remotes[j])
    ensures r.None? ==> forall k :: 0 <= k < |remotes| ==> !IsAgentLike(remotes[k])
  {
    if remotes == [] then None
    else if IsAgentLike(remotes[0]) then Some(remotes[0])
    else
      var r := FindAgentLike(remotes[1..]);
      assert r.Some? ==> exists k :: 1 <= k < |remotes| && remotes[k] == r.value && IsAgentLike(r.value) &&
                                     forall j :: 0 <= j < k ==> !IsAgentLike(remotes[j]) by {
        if r.Some? {
          var k :| 0 <= k < |remotes[1..]| && remotes[1..][k] == r.value && IsAgentLike(r.value) &&
                   forall j :: 0 <= j < k ==> !IsAgentLike(remotes[1..][j]);
          assert remotes[k + 1] == r.value;
          forall j | 0 <= j < k + 1
            ensures !IsAgentLike(remotes[j])
          {
            if j > 0 {
              assert remotes[j] == remotes[1..][j - 1];
            }
          }
        }
      }
      r
  }

  /** Smart matching: with some remote, the first agent-like one, else the first one. */
  function SmartMatch(remotes: seq<Participant>): (r: Option<Participant>)
    ensures remotes == [] <==> r.None?
    ensures r.Some? ==> r.value in remotes
    ensures r.Some? && !IsAgentLike(r.value) ==> r.value == remotes[0] && forall k :: 0 <= k < |remotes| ==> !IsAgentLike(remotes[k])
    ensures r.Some? && IsAgentLike(r.value) ==>
              exists k :: 0 <= k < |remotes| && remotes[k] == r.value && forall j :: 0 <= j < k ==> !IsAgentLike(remotes[j])
  {
    if remotes == [] then None
    else
      var agent := FindAgentLike(remotes);
      if agent.Some? then agent else Some(remotes[0])
  }

  /**
   * The participant a transcription is attributed to: a configured user
   * identity or the local identity means the local participant, then a
   * remote with that identity; if none, smart matching when it is on.
   */
  function ResolveSender(room: Room, config: ChatConfig, identity: string): (r: Option<Participant>)
    ensures identity in config.userTranscriptionIdentities ==> r == Some(room.localParticipant)
    ensures identity !in config.userTranscriptionIdentities && identity == room.localParticipant.identity ==>
              r == Some(room.localParticipant)
    ensures identity !in config.userTranscriptionIdentities && identity != room.localParticipant.identity &&
            FindByIdentity(room.remoteParticipants, identity).Some? ==>
              r == FindByIdentity(room.remoteParticipants, identity)
    ensures identity !in config.userTranscriptionIdentities && identity != room.localParticipant.identity &&
            FindByIdentity(room.remoteParticipants, identity).None? ==>
              r == (if config.enableSmartParticipantMatching then SmartMatch(room.remoteParticipants) else None)
  {
    var matched :=
      if identity in config.userTranscriptionIdentities then Some(room.localParticipant)
      else if identity == room.localParticipant.identity then Some(room.localParticipant)
      else FindByIdentity(room.remoteParticipants, identity);
    if matched.None? && config.enableSmartParticipantMatching then SmartMatch(room.remoteParticipants)
    else matched
  }

  /** An unresolved transcription stays without a sender when matching is off or there is no remote. */
  lemma UnresolvedStaysAnonymous(room: Room, config: ChatConfig, identity: string)
    requires identity !in config.userTranscriptionIdentities && identity != room.localParticipant.identity
    requires forall k :: 0 <= k < |room.remoteParticipants| ==> room.remoteParticipants[k].identity != identity
    requires !config.enableSmartParticipantMatching || room.remoteParticipants == []
    ensures ResolveSender(room, config, identity).None?
  {
  }

  /** `transcriptionToChatMessage`: the stream's id, timestamp and text, attributed by `ResolveSender`. */
  function TranscriptionToChatMessage(stream: TextStream, room: Room, config: ChatConfig): (m: ChatMessage)
    ensures m.id == stream.streamId && m.timestamp == stream.timestamp && m.message == stream.text
    ensures m.from == ResolveSender(room, config, stream.participantIdentity) && m.editTimestamp.None?
  {
    ChatMessage(stream.streamId, stream.timestamp, stream.text, ResolveSender(room, config, stream.participantIdentity), None)
  }

  /** A chat message without a sender gets one by smart matching, when it is on and there is a remote. */
  function ProcessChatMessage(m: ChatMessage, room: Room, config: ChatConfig): (r: ChatMessage)
    ensures m.from.Some? || !config.enableSmartParticipantMatching || room.remoteParticipants == [] ==> r == m
    ensures m.from.None? && config.enableSmartParticipantMatching && room.remoteParticipants != [] ==>
              r == m.(from := SmartMatch(room.remoteParticipants)) && r.from.Some?
  {
    if m.from.None? && config.enableSmartParticipantMatching && room.remoteParticipants != [] then
      m.(from := SmartMatch(room.remoteParticipants))
    else m
  }

  // ---------------------------------------------------------------------
  // Stable sort by timestamp

  predicate Sorted(s: seq<ChatMessage>) {
    forall i, j :: 0 <= i < j < |s| ==> s[i].timestamp <= s[j].timestamp
  }

  /** The messages of `s` with timestamp `t`, in order. */
  function WithTimestamp(s: seq<ChatMessage>, t: int): seq<ChatMessage> {
    if s == [] then []
    else (if s[0].timestamp == t then [s[0]] else []) + WithTimestamp(s[1..], t)
  }

  lemma {:induction false} WithTimestampAppend(a: seq<ChatMessage>, b: seq<ChatMessage>, t: int)
    ensures WithTimestamp(a + b, t) == WithTimestamp(a, t) + WithTimestamp(b, t)
  {
    if a == [] {
      assert a + b == b;
    } else {
      assert (a + b)[0] == a[0];
      assert (a + b)[1..] == a[1..] + b;
      WithTimestampAppend(a[1..], b, t);
    }
  }

  /** In a sorted list whose first timestamp is above `t`, nothing has timestamp `t`. */
  lemma {:induction false} WithTimestampAbove(s: seq<ChatMessage>, t: int)
    requires Sorted(s) && s != [] && s[0].timestamp > t
    ensures WithTimestamp(s, t) == []
  {
    if |s| > 1 {
      WithTimestampAbove(s[1..], t);
    }
  }

  /** Insert `m` after every element whose timestamp is not above its own. */
  function Insert(s: seq<ChatMessage>, m: ChatMessage): (r: seq<ChatMessage>)
    ensures |r| == |s| + 1
    ensures multiset(r) == multiset(s) + multiset{m}
  {
    if s == [] then [m]
    else if s[0].timestamp > m.timestamp then [m] + s
    else
      assert s == [s[0]] + s[1..];
      [s[0]] + Insert(s[1..], m)
  }

  lemma {:induction false} InsertSorted(s: seq<ChatMessage>, m: ChatMessage)
    requires Sorted(s)
    ensures Sorted(Insert(s, m))
  {
    if s != [] && s[0].timestamp <= m.timestamp {
      InsertSorted(s[1..], m);
      var r := Insert(s[1..], m);
      forall x | x in r
        ensures s[0].timestamp <= x.timestamp
      {
        assert x in multiset(r);
        assert x in multiset(s[1..]) || x == m;
      }
      assert Insert(s, m) == [s[0]] + r;
    }
  }

  /** Insertion keeps the order among equal timestamps: `m` goes after the ones already there. */
  lemma {:induction false} InsertStable(s: seq<ChatMessage>, m: ChatMessage, t: int)
    requires Sorted(s)
    ensures WithTimestamp(Insert(s, m), t) == WithTimestamp(s, t) + (if m.timestamp == t then [m] else [])
  {
    if s == [] {
    } else if s[0].timestamp > m.timestamp {
      assert ([m] + s)[1..] == s;
      if m.timestamp == t {
        WithTimestampAbove(s, t);
      }
    } else {
      InsertStable(s[1..], m, t);
      assert ([s[0]] + Insert(s[1..], m))[1..] == Insert(s[1..], m);
    }
  }

  /** `merged.sort((a, b) => a.timestamp - b.timestamp)` with a stable sort, as insertion from the left. */
  function SortByTimestamp(s: seq<ChatMessage>): (r: seq<ChatMessage>)
    ensures |r| == |s|
    ensures multiset(r) == multiset(s)
  {
    if s == [] then []
    else
      var init := s[..|s| - 1];
      assert s == init + [s[|s| - 1]];
      Insert(SortByTimestamp(init), s[|s| - 1])
  }

  lemma {:induction false} SortByTimestampSorted(s: seq<ChatMessage>)
    ensures Sorted(SortByTimestamp(s))
  {
    if s != [] {
      SortByTimestampSorted(s[..|s| - 1]);
      InsertSorted(SortByTimestamp(s[..|s| - 1]), s[|s| - 1]);
    }
  }

  /** Stability: for every timestamp, the messages carrying it keep their input order. */
  lemma {:induction false} SortByTimestampStable(s: seq<ChatMessage>, t: int)
    ensures WithTimestamp(SortByTimestamp(s), t) == WithTimestamp(s, t)
  {
    if s != [] {
      var init := s[..|s| - 1];
      var last := s[|s| - 1];
      var sortedInit := SortByTimestamp(init);
      SortByTimestampSorted(init);
      calc {
        WithTimestamp(SortByTimestamp(s), t);
        WithTimestamp(Insert(sortedInit, last), t);
        { InsertStable(sortedInit, last, t); WithTimestampSingleton(last, t); }
        WithTimestamp(sortedInit, t) + WithTimestamp([last], t);
        { SortByTimestampStable(init, t); }
        WithTimestamp(init, t) + WithTimestamp([last], t);
        { WithTimestampAppend(init, [last], t); }
        WithTimestamp(init + [last], t);
        { assert s == init + [last]; }
        WithTimestamp(s, t);
      }
    }
  }

  lemma WithTimestampSingleton(m: ChatMessage, t: int)
    ensures WithTimestamp([m], t) == (if m.timestamp == t then [m] else [])
  {
    assert [m][1..] == [];
  }

  // ---------------------------------------------------------------------
  // The merged list

  function TranscriptionMessages(transcriptions: seq<TextStream>, room: Room, config: ChatConfig): (r: seq<ChatMessage>)
    ensures |r| == |transcriptions|
    ensures forall i :: 0 <= i < |r| ==> r[i] == TranscriptionToChatMessage(transcriptions[i], room, config)
  {
    seq(|transcriptions|, i requires 0 <= i < |transcriptions| => TranscriptionToChatMessage(transcriptions[i], room, config))
  }

  function ProcessedChatMessages(chats: seq<ChatMessage>, room: Room, config: ChatConfig): (r: seq<ChatMessage>)
    ensures |r| == |chats|
    ensures forall i :: 0 <= i < |r| ==> r[i] == ProcessChatMessage(chats[i], room, config)
  {
    seq(|chats|, i requires 0 <= i < |chats| => ProcessChatMessage(chats[i], room, config))
  }

  /** The hook's result: transcriptions then chat messages, sorted by timestamp. */
  function MergedMessages(transcriptions: seq<TextStream>, chats: seq<ChatMessage>, room: Room, config: ChatConfig)
    : (r: seq<ChatMessage>)
    ensures |r| == |transcriptions| + |chats|
    ensures multiset(r) == multiset(TranscriptionMessages(transcriptions, room, config) +
                                    ProcessedChatMessages(chats, room, config))
  {
    SortByTimestamp(TranscriptionMessages(transcriptions, room, config) + ProcessedChatMessages(chats, room, config))
  }

  /**
   * The merged list is sorted, and among messages with the same timestamp
   * every transcription comes before every chat message, each side in its
   * input order.
   */
  lemma MergedMessagesOrder(transcriptions: seq<TextStream>, chats: seq<ChatMessage>, room: Room, config: ChatConfig, t: int)
    ensures Sorted(MergedMessages(transcriptions, chats, room, config))
    ensures WithTimestamp(MergedMessages(transcriptions, chats, room, config), t) ==
            WithTimestamp(TranscriptionMessages(transcriptions, room, config), t) +
            WithTimestamp(ProcessedChatMessages(chats, room, config), t)
  {
    var ts := TranscriptionMessages(transcriptions, room, config);
    var cs := ProcessedChatMessages(chats, room, config);
    SortByTimestampSorted(ts + cs);
    SortByTimestampStable(ts + cs, t);
    WithTimestampAppend(ts, cs, t);
  }
}
