/** A chat summary record and its failable decoder (`Chat.init?(document:documentID:)`). */
module Chats {
  import opened Wrappers
  import opened Firestore

  datatype Chat = Chat(id: string, participants: seq<string>, lastMessage: string, lastMessageTimestamp: int)

  /** The only fields the decoder reads. */
  const ChatKeys: set<string> := {"participants", "lastMessage", "lastMessageTimestamp"}

  /**
   * Succeeds exactly when `participants` is a list of strings, `lastMessage`
   * a string and `lastMessageTimestamp` a timestamp; the id is the document
   * id, never a field, and the three fields are copied unchanged. The number
   * of participants is not checked.
   */
  function DecodeChat(document: Fields, documentID: string): (r: Option<Chat>)
    ensures r.Some? <==>
      && "participants" in document && document["participants"].Arr?
      && (forall i :: 0 <= i < |document["participants"].items| ==> document["participants"].items[i].Str?)
      && "lastMessage" in document && document["lastMessage"].Str?
      && "lastMessageTimestamp" in document && document["lastMessageTimestamp"].Timestamp?
    ensures r.Some? ==>
      && r.value.id == documentID
      && document["participants"] == StringArray(r.value.participants)
      && document["lastMessage"] == Str(r.value.lastMessage)
      && document["lastMessageTimestamp"] == Timestamp(r.value.lastMessageTimestamp)
  {
    match (GetStringList(document, "participants"), GetString(document, "lastMessage"),
           GetTimestamp(document, "lastMessageTimestamp"))
    case (Some(participants), Some(lastMessage), Some(lastMessageTimestamp)) =>
      assert document["participants"] == StringArray(participants);
      Some(Chat(documentID, participants, lastMessage, lastMessageTimestamp))
    case _ => None
  }

  /** The stored form of a chat summary, as the new-chat screen writes it. */
  function ChatFields(participants: seq<string>, lastMessage: string, lastMessageTimestamp: int): Fields {
    map["participants" := StringArray(participants),
        "lastMessage" := Str(lastMessage),
        "lastMessageTimestamp" := Timestamp(lastMessageTimestamp)]
  }

  /** Whatever the participant list (empty, one id, duplicates), the stored form decodes back. */
  lemma ChatRoundTrip(c: Chat)
    ensures DecodeChat(ChatFields(c.participants, c.lastMessage, c.lastMessageTimestamp), c.id) == Some(c)
  {
    StringArrayRoundTrip(c.participants);
  }

  /** Two records that agree on the three read keys decode alike: other keys, `id` included, are ignored. */
  lemma {:induction false} DecodeChatReadsOnlyItsKeys(d1: Fields, d2: Fields, documentID: string)
    requires forall k :: k in ChatKeys ==> (k in d1 <==> k in d2) && (k in d1 ==> d1[k] == d2[k])
    ensures DecodeChat(d1, documentID) == DecodeChat(d2, documentID)
  {
    assert "participants" in ChatKeys && "lastMessage" in ChatKeys && "lastMessageTimestamp" in ChatKeys;
  }

  /** Replacing what the last message says leaves the rest of a decodable summary as it was. */
  lemma SummaryAfterMerge(stored: Fields, chatID: string, text: string, at: int)
    requires DecodeChat(stored, chatID).Some?
    ensures DecodeChat(Merge(stored, map["lastMessage" := Str(text), "lastMessageTimestamp" := Timestamp(at)]), chatID)
         == Some(DecodeChat(stored, chatID).value.(lastMessage := text, lastMessageTimestamp := at))
  {
    var merged := Merge(stored, map["lastMessage" := Str(text), "lastMessageTimestamp" := Timestamp(at)]);
    assert merged["participants"] == stored["participants"];
  }
}
