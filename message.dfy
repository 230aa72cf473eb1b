/** A chat message record and its failable decoder (`Messages.init?(document:documentID:)`). */
module Messages {
  import opened Wrappers
  import opened Firestore
  import opened Seqs

  datatype Message = Message(
    senderID: string,
    recipientID: string,
    text: string,
    timestamp: int,
    chatID: string,
    messageType: string,
    documentID: string)

  /** The five fields without which a message does not decode. */
  const RequiredKeys: set<string> := {"senderID", "recipientID", "text", "timestamp", "chatID"}

  /** A required string field is present and holds a string. */
  predicate HasString(document: Fields, key: string) {
    key in document && document[key].Str?
  }

  /**
   * Succeeds exactly when senderID, recipientID, text and chatID are strings
   * and timestamp is a timestamp; they are copied unchanged, the id is the
   * document id, and messageType is the stored string or "text" when it is
   * absent or not a string.
   */
  function DecodeMessage(document: Fields, documentID: string): (r: Option<Message>)
    ensures r.Some? <==>
      && HasString(document, "senderID") && HasString(document, "recipientID")
      && HasString(document, "text") && HasString(document, "chatID")
      && "timestamp" in document && document["timestamp"].Timestamp?
    ensures r.Some? ==>
      && document["senderID"] == Str(r.value.senderID)
      && document["recipientID"] == Str(r.value.recipientID)
      && document["text"] == Str(r.value.text)
      && document["timestamp"] == Timestamp(r.value.timestamp)
      && document["chatID"] == Str(r.value.chatID)
      && r.value.documentID == documentID
      && r.value.messageType == (if HasString(document, "messageType") then document["messageType"].s else "text")
  {
    match (GetString(document, "senderID"), GetString(document, "recipientID"), GetString(document, "text"),
           GetTimestamp(document, "timestamp"), GetString(document, "chatID"))
    case (Some(senderID), Some(recipientID), Some(text), Some(timestamp), Some(chatID)) =>
      Some(Message(senderID, recipientID, text, timestamp, chatID,
                   GetString(document, "messageType").GetOr("text"), documentID))
    case _ => None
  }

  /** A document with no fields, such as the new-chat placeholder, is not a message. */
  lemma EmptyRecordRejected(documentID: string)
    ensures DecodeMessage(map[], documentID) == None
  {
  }

  /** The decoder applied to one snapshot document. */
  function DecodeDocument(d: Document): Option<Message> {
    DecodeMessage(d.data, d.id)
  }

  /** The messages of a snapshot: its decodable documents, in snapshot order. */
  function DecodedMessages(docs: seq<Document>): seq<Message> {
    CompactMap(docs, DecodeDocument)
  }

  /** Each decoded message comes from a snapshot document with that id. */
  lemma {:induction false} DecodedMessageOrigin(docs: seq<Document>, m: Message)
    requires m in DecodedMessages(docs)
    ensures exists i :: 0 <= i < |docs| && docs[i].id == m.documentID && DecodeMessage(docs[i].data, docs[i].id) == Some(m)
  {
    CompactMapMembership(docs, DecodeDocument, m);
  }

  /** The timestamp field of a snapshot document, when it holds one. */
  function StampOf(d: Document): Option<int> {
    GetTimestamp(d.data, "timestamp")
  }

  /** The snapshot is ordered by `timestamp`, as the `order(by: "timestamp")` query delivers it. */
  ghost predicate AscendingByStamp(docs: seq<Document>) {
    forall i, j :: 0 <= i < j < |docs| && StampOf(docs[i]).Some? && StampOf(docs[j]).Some? ==>
      StampOf(docs[i]).value <= StampOf(docs[j]).value
  }

  function TimeOf(m: Message): int {
    m.timestamp
  }

  /** A snapshot ordered by timestamp yields a thread in ascending timestamp order. */
  lemma ThreadInTimestampOrder(docs: seq<Document>)
    requires AscendingByStamp(docs)
    ensures var ms := DecodedMessages(docs);
      forall i, j :: 0 <= i < j < |ms| ==> ms[i].timestamp <= ms[j].timestamp
  {
    forall i, j | 0 <= i < j < |docs| && DecodeDocument(docs[i]).Some? && DecodeDocument(docs[j]).Some?
      ensures TimeOf(DecodeDocument(docs[i]).value) <= TimeOf(DecodeDocument(docs[j]).value)
    {
      assert StampOf(docs[i]).Some? && StampOf(docs[j]).Some?;
    }
    CompactMapOrdered(docs, DecodeDocument, TimeOf);
    var ms := DecodedMessages(docs);
    assert AscendingBy(ms, TimeOf);
    forall i, j | 0 <= i < j < |ms| ensures ms[i].timestamp <= ms[j].timestamp {
      assert TimeOf(ms[i]) <= TimeOf(ms[j]);
    }
  }
}
