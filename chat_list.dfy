/**
 * The home screen's chat list: the chats the current user takes part in,
 * joined against the participants' user documents, with a search filter on
 * the other participant's name.
 */
module ChatList {
  import opened Wrappers
  import opened Firestore
  import opened Seqs
  import opened Text
  import opened Chats

  /** An entry of `participantDetails`. */
  datatype Participant = Participant(name: string, profileImageUrl: string)

  /**
   * What `fetchParticipantDetails` hands to its completion: "" and "" when the
   * lookup fails or finds no user document; otherwise the stored name
   * ("Unknown" when it has none) and image URL ("" when it has none).
   */
  function LookupParticipant(users: Collection, userID: string, failed: bool): (p: Participant)
    ensures failed || userID !in users ==> p == Participant("", "")
    ensures !failed && userID in users ==>
      && p.name == (if GetString(users[userID], "name").Some? then users[userID]["name"].s else "Unknown")
      && p.profileImageUrl == (if GetString(users[userID], "profileImageUrl").Some? then users[userID]["profileImageUrl"].s else "")
  {
    if failed || userID !in users then Participant("", "")
    else Participant(GetString(users[userID], "name").GetOr("Unknown"),
                     GetString(users[userID], "profileImageUrl").GetOr(""))
  }

  /** "Unknown" is recorded only for a user document that exists and has no string name. */
  lemma UnknownOnlyForNamelessUser(users: Collection, userID: string, failed: bool)
    requires LookupParticipant(users, userID, failed).name == "Unknown"
    ensures !failed && userID in users
    ensures GetString(users[userID], "name") == None || users[userID]["name"] == Str("Unknown")
  {
  }

  function DecodeChatDocument(d: Document): Option<Chat> {
    DecodeChat(d.data, d.id)
  }

  /** The chats of a query result: the decodable documents, in result order. */
  function DecodedChats(docs: seq<Document>): seq<Chat> {
    CompactMap(docs, DecodeChatDocument)
  }

  function ElementsOf(ids: seq<string>): set<string> {
    set p | p in ids
  }

  /** Decoding one more document appends its chat, if it has one. */
  lemma DecodedChatsSnoc(docs: seq<Document>, i: nat)
    requires i < |docs|
    ensures DecodedChats(docs[..i + 1]) ==
            DecodedChats(docs[..i]) + (if DecodeChatDocument(docs[i]).Some? then [DecodeChatDocument(docs[i]).value] else [])
  {
    assert docs[..i + 1] == docs[..i] + [docs[i]];
    CompactMapAppend(docs[..i], [docs[i]], DecodeChatDocument);
  }

  /** For a decodable chat document, the `participants as? [String] ?? []` of the loop is the chat's list. */
  lemma ParticipantsOfDecodedChat(doc: Document)
    requires DecodeChat(doc.data, doc.id).Some?
    ensures GetStringList(doc.data, "participants") == Some(DecodeChat(doc.data, doc.id).value.participants)
  {
    StringArrayRoundTrip(DecodeChat(doc.data, doc.id).value.participants);
  }

  /** Every participant id of the given chats. */
  function ParticipantIds(chats: seq<Chat>): set<string> {
    if chats == [] then {}
    else ParticipantIds(chats[..|chats| - 1]) + ElementsOf(chats[|chats| - 1].participants)
  }

  lemma ParticipantIdsSnoc(chats: seq<Chat>, chat: Chat)
    ensures ParticipantIds(chats + [chat]) == ParticipantIds(chats) + ElementsOf(chat.participants)
  {
    assert (chats + [chat])[..|chats|] == chats;
  }

  lemma {:induction false} ParticipantIdsMembership(chats: seq<Chat>, p: string)
    ensures p in ParticipantIds(chats) <==> exists i :: 0 <= i < |chats| && p in chats[i].participants
  {
    if chats != [] {
      var init := chats[..|chats| - 1];
      ParticipantIdsMembership(init, p);
      if exists i :: 0 <= i < |chats| && p in chats[i].participants {
        var i :| 0 <= i < |chats| && p in chats[i].participants;
        if i < |chats| - 1 {
          assert init[i] == chats[i];
        }
      }
    }
  }

  /** Every entry of the table is the outcome of looking its id up. */
  ghost predicate IsLookupTable(details: map<string, Participant>, users: Collection, failed: set<string>) {
    forall p :: p in details ==> details[p] == LookupParticipant(users, p, p in failed)
  }

  /** The participant table once every lookup has completed. */
  function DetailsTable(chats: seq<Chat>, users: Collection, failed: set<string>): (t: map<string, Participant>)
    ensures t.Keys == ParticipantIds(chats)
  {
    map p | p in ParticipantIds(chats) :: LookupParticipant(users, p, p in failed)
  }

  /** `participants.first(where: { $0 != currentUserID })`, where a missing current user differs from every id. */
  function FirstOther(participants: seq<string>, me: Option<string>): (r: Option<string>)
    ensures r.None? <==> forall i :: 0 <= i < |participants| ==> Some(participants[i]) == me
    ensures r.Some? ==> exists i :: 0 <= i < |participants| && participants[i] == r.value && Some(r.value) != me &&
                                  forall j :: 0 <= j < i ==> Some(participants[j]) == me
  {
    if participants == [] then None
    else if Some(participants[0]) != me then Some(participants[0])
    else
      var r := FirstOther(participants[1..], me);
      assert r.Some? ==> exists i :: 0 <= i < |participants| && participants[i] == r.value && Some(r.value) != me &&
                                     forall j :: 0 <= j < i ==> Some(participants[j]) == me by {
        if r.Some? {
          var i :| 0 <= i < |participants[1..]| && participants[1..][i] == r.value && Some(r.value) != me &&
            forall j :: 0 <= j < i ==> Some(participants[1..][j]) == me;
          assert participants[i + 1] == r.value;
          assert forall j :: 0 <= j < i + 1 ==> Some(participants[j]) == me by {
            forall j | 0 <= j < i + 1 ensures Some(participants[j]) == me {
              if j > 0 { assert participants[j] == participants[1..][j - 1]; }
            }
          }
        }
      }
      r
  }

  /** `participantDetails[id] ?? (name: "Unknown", profileImageUrl: "")` */
  function DisplayName(details: map<string, Participant>, id: string): Participant {
    if id in details then details[id] else Participant("Unknown", "")
  }

  /** What a chat cell shows; `time` is the formatted last-message time and "" is the default picture. */
  datatype ChatRow = ChatRow(name: string, lastSeen: string, time: Option<int>, imageUrl: string)

  const PlaceholderRow := ChatRow("Unknown", "N/A", None, "")

  /** `tableView(_:cellForRowAt:)` for one chat. */
  function Row(chat: Chat, me: Option<string>, details: map<string, Participant>): ChatRow {
    if me.None? then PlaceholderRow
    else match FirstOther(chat.participants, me)
      case None => PlaceholderRow
      case Some(other) =>
        var p := DisplayName(details, other);
        ChatRow(p.name, chat.lastMessage, Some(chat.lastMessageTimestamp), p.profileImageUrl)
  }

  /**
   * A signed-in user sees the placeholder row exactly when every participant
   * is that user; otherwise the row names the first other participant, with
   * "Unknown" when the table has no entry for that id.
   */
  lemma RowShowsFirstOtherParticipant(chat: Chat, me: string, details: map<string, Participant>)
    ensures (forall i :: 0 <= i < |chat.participants| ==> chat.participants[i] == me) ==>
      Row(chat, Some(me), details) == PlaceholderRow
    ensures (exists i :: 0 <= i < |chat.participants| && chat.participants[i] != me) ==>
      var other := FirstOther(chat.participants, Some(me)).value;
      && other != me && other in chat.participants
      && Row(chat, Some(me), details).name == (if other in details then details[other].name else "Unknown")
      && Row(chat, Some(me), details).lastSeen == chat.lastMessage
  {
  }

  /** The name the search bar matches against; a missing entry gives "" here, not "Unknown". */
  function SearchName(chat: Chat, me: Option<string>, details: map<string, Participant>): string {
    var key := FirstOther(chat.participants, me).GetOr("");
    if key in details then details[key].name else ""
  }

  /** The `filter` of `searchBar(_:textDidChange:)`. */
  function SearchChats(chats: seq<Chat>, details: map<string, Participant>, me: Option<string>, query: string): seq<Chat> {
    Filter(chats, c => MatchesIgnoringCase(SearchName(c, me, details), query))
  }

  /**
   * The search result is the order-preserving sublist of the chats whose
   * other participant's lowercased name contains the lowercased query; the
   * empty query keeps no chat, which the screen hides by not searching.
   */
  lemma SearchChatsSpec(chats: seq<Chat>, details: map<string, Participant>, me: Option<string>, query: string)
    ensures IsSubsequence(SearchChats(chats, details, me, query), chats)
    ensures forall c :: c in SearchChats(chats, details, me, query) <==>
      c in chats && MatchesIgnoringCase(SearchName(c, me, details), query)
    ensures query == "" ==> SearchChats(chats, details, me, query) == []
  {
    var p := c => MatchesIgnoringCase(SearchName(c, me, details), query);
    FilterIsSubsequence(chats, p);
    forall c ensures c in SearchChats(chats, details, me, query) <==> c in chats && p(c) {
      FilterMembership(chats, p, c);
    }
    if query == "" {
      var r := SearchChats(chats, details, me, query);
      if r != [] {
        assert r[0] in r;
        assert MatchesIgnoringCase(SearchName(r[0], me, details), query);
        EmptyQueryNeverMatches(SearchName(r[0], me, details));
        assert false;
      }
    }
  }

  /** The fields `prepare(for:sender:)` hands to the chat screen. */
  datatype ChatTarget = ChatTarget(chat: Chat, otherParticipantID: string, otherParticipantName: string,
                                   otherParticipantProfileImageURL: string)

  /**
   * `prepare(for:sender:)`: the segue always happens, but nothing is handed
   * over without a current user or another participant (the thread screen
   * then has no chat); otherwise the chat and its first other participant,
   * the one its row shows, with the table's name and image URL, "Unknown"
   * and "" when the table lacks it.
   */
  function OpenChat(chat: Chat, me: Option<string>, details: map<string, Participant>): (t: Option<ChatTarget>)
    ensures t.Some? <==> me.Some? && exists i :: 0 <= i < |chat.participants| && chat.participants[i] != me.value
    ensures t.Some? ==>
      && t.value.chat == chat
      && t.value.otherParticipantID in chat.participants && Some(t.value.otherParticipantID) != me
      && Some(t.value.otherParticipantID) == FirstOther(chat.participants, me)
      && t.value.otherParticipantName == DisplayName(details, t.value.otherParticipantID).name
      && t.value.otherParticipantProfileImageURL == DisplayName(details, t.value.otherParticipantID).profileImageUrl
  {
    if me.None? then None
    else match FirstOther(chat.participants, me)
      case None => None
      case Some(other) =>
        var p := DisplayName(details, other);
        Some(ChatTarget(chat, other, p.name, p.profileImageUrl))
  }

  /** The inner loop of `fetchChats`: one lookup per participant of a chat, recorded in the table. */
  method RecordLookups(details: map<string, Participant>, participants: seq<string>, users: Collection,
                       failed: set<string>) returns (r: map<string, Participant>)
    requires IsLookupTable(details, users, failed)
    ensures r.Keys == details.Keys + ElementsOf(participants)
    ensures IsLookupTable(r, users, failed)
  {
    r := details;
    for j := 0 to |participants|
      invariant r.Keys == details.Keys + ElementsOf(participants[..j])
      invariant IsLookupTable(r, users, failed)
    {
      assert participants[..j + 1] == participants[..j] + [participants[j]];
      r := r[participants[j] := LookupParticipant(users, participants[j], participants[j] in failed)];
    }
    assert participants[..|participants|] == participants;
  }

  class ChatListScreen {
    var chats: seq<Chat>
    var filteredChats: seq<Chat>
    var isSearching: bool
    var participantDetails: map<string, Participant>

    constructor ()
      ensures chats == [] && filteredChats == [] && !isSearching && participantDetails == map[]
    {
      chats, filteredChats, isSearching, participantDetails := [], [], false, map[];
    }

    /** The list the table shows: the filtered one while searching. */
    function VisibleChats(): seq<Chat>
      reads this
    {
      if isSearching then filteredChats else chats
    }

    /**
     * `fetchChats` once the query and every participant lookup have
     * completed. `result` is the query's documents (None when it failed);
     * `failed` holds the ids whose user lookup fails. The chats are the
     * decodable documents in result order, unsorted, and the table is
     * rebuilt from scratch; the search state is left as it was.
     */
    method FetchChats(me: Option<string>, result: Option<seq<Document>>, users: Collection, failed: set<string>)
      modifies this`chats, this`participantDetails
      ensures me.None? || result.None? ==> chats == old(chats) && participantDetails == old(participantDetails)
      ensures me.Some? && result.Some? ==>
        && chats == DecodedChats(result.value)
        && participantDetails == DetailsTable(chats, users, failed)
    {
      if me.None? || result.None? {
        return;
      }
      var docs := result.value;
      var fetchedChats: seq<Chat> := [];
      var details: map<string, Participant> := map[];
      for i := 0 to |docs|
        invariant fetchedChats == DecodedChats(docs[..i])
        invariant details.Keys == ParticipantIds(fetchedChats)
        invariant IsLookupTable(details, users, failed)
      {
        var doc := docs[i];
        var participants := GetStringList(doc.data, "participants").GetOr([]);
        var chat := DecodeChat(doc.data, doc.id);
        DecodedChatsSnoc(docs, i);
        if chat.Some? {
          ParticipantsOfDecodedChat(doc);
          ParticipantIdsSnoc(fetchedChats, chat.value);
          fetchedChats := fetchedChats + [chat.value];
          details := RecordLookups(details, participants, users, failed);
        }
      }
      assert docs[..|docs|] == docs;
      assert details == DetailsTable(fetchedChats, users, failed);
      chats := fetchedChats;
      participantDetails := details;
    }

    /**
     * `searchBar(_:textDidChange:)`: searching iff the query is non-empty;
     * the filtered list is recomputed from the current chats and table.
     */
    method SearchTextDidChange(query: string, me: Option<string>)
      modifies this`isSearching, this`filteredChats
      ensures isSearching <==> query != ""
      ensures filteredChats == SearchChats(chats, participantDetails, me, query)
      ensures VisibleChats() == if query == "" then chats else SearchChats(chats, participantDetails, me, query)
    {
      isSearching := query != "";
      filteredChats := SearchChats(chats, participantDetails, me, query);
    }

    /** `numberOfRowsInSection`: the length of the visible list. */
    function NumberOfRows(): (n: nat)
      reads this
      ensures n == if isSearching then |filteredChats| else |chats|
    {
      |VisibleChats()|
    }

    /** `didSelectRowAt` followed by `prepare(for:sender:)`: the chosen row of the visible list. */
    method DidSelectRow(row: nat, me: Option<string>) returns (target: Option<ChatTarget>)
      requires row < NumberOfRows()
      ensures target == OpenChat(if isSearching then filteredChats[row] else chats[row], me, participantDetails)
    {
      var selectedChat := VisibleChats()[row];
      target := OpenChat(selectedChat, me, participantDetails);
    }
  }
}
