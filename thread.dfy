/**
 * One chat's thread: sending a message (an add followed by a dependent
 * summary update), deleting one, who may delete, and the snapshot listener.
 */
module Thread {
  import opened Wrappers
  import opened Firestore
  import opened Seqs
  import opened Chats
  import opened Messages

  /** The summary text written when a message is deleted. */
  const DeletedNotice: string := "~Message deleted~"

  /** The `messageData` literal of `sendBtn_pressed`. */
  function MessagePayload(senderID: string, recipientID: string, text: string, at: int, chatID: string): Fields {
    map["senderID" := Str(senderID), "recipientID" := Str(recipientID), "text" := Str(text),
        "timestamp" := Timestamp(at), "chatID" := Str(chatID), "messageType" := Str("text")]
  }

  /** The payload send writes is read back by the message decoder as the same message, of type "text". */
  lemma PayloadRoundTrip(senderID: string, recipientID: string, text: string, at: int, chatID: string, documentID: string)
    ensures DecodeMessage(MessagePayload(senderID, recipientID, text, at, chatID), documentID) ==
            Some(Message(senderID, recipientID, text, at, chatID, "text", documentID))
  {
  }

  /** The `chatUpdateData` literal: the chat's summary fields. */
  function SummaryFields(text: string, at: int): Fields {
    map["lastMessage" := Str(text), "lastMessageTimestamp" := Timestamp(at)]
  }

  /** The two guards of `sendBtn_pressed`: non-empty text (blanks count as text), a current user and a chat. */
  predicate SendGuardsPass(text: string, me: Option<string>, chat: Option<Chat>) {
    text != "" && me.Some? && chat.Some?
  }

  /**
   * The store after `sendBtn_pressed`. `newID` is the id `addDocument`
   * generates, `sentAt` and `summaryAt` the two `Timestamp()` values, and
   * `addOk`/`updateOk` the outcomes of the two writes. The summary update is
   * issued only after the add succeeded; nothing is written when a guard
   * fails, and only the chat and its messages are ever touched.
   */
  function SendWrites(db: Db, me: Option<string>, chat: Option<Chat>, other: Option<string>, text: string,
                      sentAt: int, summaryAt: int, newID: string, addOk: bool, updateOk: bool): (r: Db)
    ensures !(SendGuardsPass(text, me, chat) && addOk) ==> r == db
    ensures r.users == db.users && r.posts == db.posts && r.comments == db.comments
  {
    if !(SendGuardsPass(text, me, chat) && addOk) then db
    else
      var chatID := chat.value.id;
      db.(messages := PutChild(db.messages, chatID, newID, MessagePayload(me.value, other.GetOr(""), text, sentAt, chatID)),
          chats := UpdateData(db.chats, chatID, SummaryFields(text, summaryAt), updateOk))
  }

  /**
   * A send that passes its guards and whose add succeeds leaves, whatever
   * the summary update does, a document in the chat's thread that decodes to
   * the sent message, from the current user to the other participant (or
   * ""); the other documents of that thread and every other thread are kept,
   * and a failed summary update leaves the chats as they were.
   */
  lemma SentMessageInThread(db: Db, me: Option<string>, chat: Option<Chat>, other: Option<string>, text: string,
                            sentAt: int, summaryAt: int, newID: string, updateOk: bool)
    requires SendGuardsPass(text, me, chat)
    ensures var r := SendWrites(db, me, chat, other, text, sentAt, summaryAt, newID, true, updateOk);
      var thread := Children(r.messages, chat.value.id);
      && newID in thread
      && DecodeMessage(thread[newID], newID) ==
         Some(Message(me.value, other.GetOr(""), text, sentAt, chat.value.id, "text", newID))
      && (forall id :: id in Children(db.messages, chat.value.id) && id != newID ==>
            id in thread && thread[id] == Children(db.messages, chat.value.id)[id])
      && (forall q :: q in db.messages && q != chat.value.id ==> q in r.messages && r.messages[q] == db.messages[q])
      && (!updateOk ==> r.chats == db.chats)
  {
    PayloadRoundTrip(me.value, other.GetOr(""), text, sentAt, chat.value.id, newID);
  }

  /** After a successful send and summary update, the stored chat decodes with the sent text as its summary. */
  lemma SummaryFollowsSend(db: Db, me: Option<string>, chat: Option<Chat>, other: Option<string>, text: string,
                           sentAt: int, summaryAt: int, newID: string)
    requires SendGuardsPass(text, me, chat)
    requires chat.value.id in db.chats
    requires DecodeChat(db.chats[chat.value.id], chat.value.id).Some?
    ensures var r := SendWrites(db, me, chat, other, text, sentAt, summaryAt, newID, true, true);
      && chat.value.id in r.chats
      && DecodeChat(r.chats[chat.value.id], chat.value.id) ==
         Some(DecodeChat(db.chats[chat.value.id], chat.value.id).value.(lastMessage := text, lastMessageTimestamp := summaryAt))
  {
    SummaryAfterMerge(db.chats[chat.value.id], chat.value.id, text, summaryAt);
  }

  /**
   * The store after the confirmed delete of `m`: the summary update and the
   * document delete are independent writes with their own outcomes.
   */
  function DeleteWrites(db: Db, m: Message, at: int, updateOk: bool, deleteOk: bool): (r: Db)
    ensures r.users == db.users && r.posts == db.posts && r.comments == db.comments
  {
    db.(chats := UpdateData(db.chats, m.chatID, SummaryFields(DeletedNotice, at), updateOk),
        messages := if deleteOk then RemoveChild(db.messages, m.chatID, m.documentID) else db.messages)
  }

  /**
   * A delete removes exactly the message's document from its thread and
   * leaves every other thread alone; a successful summary update sets the
   * chat's last message to the deletion notice.
   */
  lemma DeleteEffect(db: Db, m: Message, at: int, updateOk: bool, deleteOk: bool)
    ensures var r := DeleteWrites(db, m, at, updateOk, deleteOk);
      && Children(r.messages, m.chatID) ==
         (if deleteOk then Children(db.messages, m.chatID) - {m.documentID} else Children(db.messages, m.chatID))
      && (forall q :: q in db.messages && q != m.chatID ==> q in r.messages && r.messages[q] == db.messages[q])
      && (updateOk && m.chatID in db.chats && DecodeChat(db.chats[m.chatID], m.chatID).Some? ==>
            && m.chatID in r.chats
            && DecodeChat(r.chats[m.chatID], m.chatID).value.lastMessage == DeletedNotice
            && DecodeChat(r.chats[m.chatID], m.chatID).value.lastMessageTimestamp == at)
  {
    if updateOk && m.chatID in db.chats && DecodeChat(db.chats[m.chatID], m.chatID).Some? {
      SummaryAfterMerge(db.chats[m.chatID], m.chatID, DeletedNotice, at);
    }
  }

  /**
   * The summary written by a delete does not depend on which message of the
   * chat was deleted: deleting an old message hides the newest one's text too.
   */
  lemma DeleteSummaryIgnoresWhichMessage(db: Db, m1: Message, m2: Message, at: int, updateOk: bool, deleteOk: bool)
    requires m1.chatID == m2.chatID
    ensures DeleteWrites(db, m1, at, updateOk, deleteOk).chats == DeleteWrites(db, m2, at, updateOk, deleteOk).chats
  {
  }

  datatype EditingStyle = DeleteStyle | NoStyle

  /** `editingStyleForRowAt`: only the current user's own messages offer delete. */
  function EditingStyleFor(m: Message, me: Option<string>): EditingStyle {
    if Some(m.senderID) == me then DeleteStyle else NoStyle
  }

  /** The `isIncoming` flag of a message cell. */
  predicate IsIncoming(m: Message, me: Option<string>) {
    Some(m.senderID) != me
  }

  /** A message is deletable iff it is not incoming; with nobody signed in every message is incoming. */
  lemma DeletableIffOwn(m: Message, me: Option<string>)
    ensures EditingStyleFor(m, me) == DeleteStyle <==> !IsIncoming(m, me)
    ensures me.None? ==> IsIncoming(m, me) && EditingStyleFor(m, me) == NoStyle
  {
  }

  class ChatScreen {
    var chat: Option<Chat>
    var otherParticipantID: Option<string>
    var messages: seq<Message>
    var textInput: string

    constructor (chat: Option<Chat>, otherParticipantID: Option<string>)
      ensures this.chat == chat && this.otherParticipantID == otherParticipantID
      ensures messages == [] && textInput == ""
    {
      this.chat, this.otherParticipantID := chat, otherParticipantID;
      messages, textInput := [], "";
    }

    /**
     * `sendBtn_pressed` through both completions. The input is cleared exactly
     * when the add succeeded, whether or not the summary update did.
     */
    method SendPressed(me: Option<string>, db: Db, sentAt: int, summaryAt: int, newID: string,
                       addOk: bool, updateOk: bool) returns (db': Db)
      modifies this`textInput
      ensures db' == SendWrites(db, me, chat, otherParticipantID, old(textInput), sentAt, summaryAt, newID, addOk, updateOk)
      ensures textInput == if SendGuardsPass(old(textInput), me, chat) && addOk then "" else old(textInput)
    {
      db' := db;
      var messageText := textInput;
      if messageText == "" {
        return;
      }
      if me.None? || chat.None? {
        return;
      }
      var chatID := chat.value.id;
      var messageData := MessagePayload(me.value, otherParticipantID.GetOr(""), messageText, sentAt, chatID);
      if !addOk {
        return;
      }
      db' := db'.(messages := PutChild(db'.messages, chatID, newID, messageData));
      db' := db'.(chats := UpdateData(db'.chats, chatID, SummaryFields(messageText, summaryAt), updateOk));
      textInput := "";
    }

    /**
     * `commit editingStyle` for a row, then the alert's Delete action. The
     * table only commits the style it offered, so the writes happen only for
     * the current user's own message.
     */
    method CommitDelete(row: nat, me: Option<string>, db: Db, at: int, updateOk: bool, deleteOk: bool)
      returns (db': Db)
      requires row < |messages|
      ensures me == Some(messages[row].senderID) ==> db' == DeleteWrites(db, messages[row], at, updateOk, deleteOk)
      ensures me != Some(messages[row].senderID) ==> db' == db
    {
      var messageToDelete := messages[row];
      if EditingStyleFor(messageToDelete, me) == DeleteStyle {
        db' := db.(chats := UpdateData(db.chats, messageToDelete.chatID, SummaryFields(DeletedNotice, at), updateOk));
        if deleteOk {
          db' := db'.(messages := RemoveChild(db'.messages, messageToDelete.chatID, messageToDelete.documentID));
        }
      } else {
        db' := db;
      }
    }

    /**
     * One delivery of the `fetchMessages` listener: an error keeps the list,
     * otherwise it is replaced by the decodable documents in snapshot order
     * (a missing snapshot gives the empty list). Without a chat no listener
     * is attached.
     */
    method OnMessagesSnapshot(failed: bool, snapshot: Option<seq<Document>>)
      modifies this`messages
      ensures chat.None? || failed ==> messages == old(messages)
      ensures chat.Some? && !failed ==> messages == DecodedMessages(snapshot.GetOr([]))
    {
      if chat.None? || failed {
        return;
      }
      var documents := snapshot.GetOr([]);
      var fetchedMessages: seq<Message> := [];
      for i := 0 to |documents|
        invariant fetchedMessages == DecodedMessages(documents[..i])
      {
        var document := documents[i];
        assert documents[..i + 1] == documents[..i] + [document];
        CompactMapAppend(documents[..i], [document], DecodeDocument);
        var message := DecodeMessage(document.data, document.id);
        if message.Some? {
          fetchedMessages := fetchedMessages + [message.value];
        }
      }
      assert documents[..|documents|] == documents;
      messages := fetchedMessages;
    }
  }
}
