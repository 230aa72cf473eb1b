/** Starting a chat with the previewed user: the chat record and its placeholder message. */
module UserPreview {
  import opened Wrappers
  import opened Firestore
  import opened Seqs
  import opened Chats
  import opened Messages
  import opened Records
  import ChatList

  /** The `chatData` literal of `AddNewChat_pressed`. */
  function NewChatFields(me: string, other: string, at: int): Fields {
    ChatFields([me, other], "", at)
  }

  /**
   * The new record decodes as a chat whose participants are exactly the
   * current and the selected user, in that order, with an empty summary;
   * the chat list shows the selected user as its other participant unless
   * the two ids coincide.
   */
  lemma NewChatDecodes(me: string, other: string, at: int, chatID: string)
    ensures DecodeChat(NewChatFields(me, other, at), chatID) == Some(Chat(chatID, [me, other], "", at))
    ensures me != other ==> ChatList.FirstOther([me, other], Some(me)) == Some(other)
    ensures me == other ==> ChatList.FirstOther([me, other], Some(me)) == None
  {
    ChatRoundTrip(Chat(chatID, [me, other], "", at));
  }

  /** The empty placeholder document never shows up in a thread, wherever the snapshot puts it. */
  lemma PlaceholderNeverDecoded(before: seq<Document>, placeholderID: string, after: seq<Document>)
    ensures DecodedMessages(before + [Document(placeholderID, map[])] + after) == DecodedMessages(before + after)
  {
    EmptyRecordRejected(placeholderID);
    CompactMapAppend(before + [Document(placeholderID, map[])], after, DecodeDocument);
    CompactMapAppend(before, [Document(placeholderID, map[])], DecodeDocument);
    CompactMapAppend(before, after, DecodeDocument);
  }

  /**
   * `AddNewChat_pressed` through both completions. `chatID` is the fresh
   * UUID, `placeholderID` the id `addDocument` generates, `setOk`/`addOk` the
   * outcomes. The chat is written with `setData` (replacing any document
   * with that id); the placeholder is added only after that succeeds, and the
   * screen is dismissed only when the placeholder add succeeds too.
   */
  method AddNewChatPressed(me: Option<string>, user: Option<User>, db: Db, chatID: string, at: int,
                           setOk: bool, placeholderID: string, addOk: bool) returns (db': Db, dismissed: bool)
    ensures dismissed <==> me.Some? && user.Some? && setOk && addOk
    ensures me.None? || user.None? || !setOk ==> db' == db
    ensures me.Some? && user.Some? && setOk ==>
      && db'.chats == db.chats[chatID := NewChatFields(me.value, user.value.id, at)]
      && db'.messages == (if addOk then PutChild(db.messages, chatID, placeholderID, map[]) else db.messages)
    ensures db'.users == db.users && db'.posts == db.posts && db'.comments == db.comments
  {
    db', dismissed := db, false;
    if me.None? || user.None? {
      return;
    }
    var chatData := NewChatFields(me.value, user.value.id, at);
    if !setOk {
      return;
    }
    db' := db'.(chats := db'.chats[chatID := chatData]);
    if addOk {
      db' := db'.(messages := PutChild(db'.messages, chatID, placeholderID, map[]));
      dismissed := true;
    }
  }
}
