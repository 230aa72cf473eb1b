/** A post's detail screen: its comments, adding and deleting one, and whose profile opens. */
module PostPreview {
  import opened Wrappers
  import opened Firestore
  import opened Seqs
  import opened Records

  /** The `newComment` literal of `Comment_pressed`. */
  function CommentPayload(me: Option<string>, text: string, at: int, userName: Option<string>,
                          userImg: Option<string>): Fields {
    map["userID" := Str(me.GetOr("")), "text" := Str(text), "timestamp" := Timestamp(at),
        "authorName" := Str(userName.GetOr("Unknown")), "authorImgURL" := Str(userImg.GetOr("defaultPFP"))]
  }

  /**
   * A stored comment payload reads back as a comment with the document's id,
   * the user id or "", and the author name and picture defaulting to
   * "Unknown" and "defaultPFP".
   */
  lemma CommentPayloadRoundTrip(me: Option<string>, text: string, at: int, userName: Option<string>,
                                userImg: Option<string>, id: string)
    ensures DecodeComment(Document(id, CommentPayload(me, text, at, userName, userImg))) ==
            Some(Comment(Some(id), me.GetOr(""), text, at, Some(userName.GetOr("Unknown")),
                         Some(userImg.GetOr("defaultPFP"))))
  {
  }

  /** `editingStyleForRowAt`: only the current user's own comments offer delete. */
  predicate MayDeleteComment(c: Comment, me: Option<string>) {
    Some(c.userID) == me
  }

  /** The `timestamp` field of a comment document, when it holds one. */
  function CommentStamp(d: Document): Option<int> {
    GetTimestamp(d.data, "timestamp")
  }

  /** The snapshot is in the `order(by: "timestamp", descending: false)` order. */
  ghost predicate OldestFirst(docs: seq<Document>) {
    forall i, j :: 0 <= i < j < |docs| && CommentStamp(docs[i]).Some? && CommentStamp(docs[j]).Some? ==>
      CommentStamp(docs[i]).value <= CommentStamp(docs[j]).value
  }

  function CommentTime(c: Comment): int {
    c.timestamp
  }

  /**
   * The comments of an oldest-first snapshot are oldest first, and each one
   * carries the id of a snapshot document it decodes from.
   */
  lemma CommentsOldestFirst(docs: seq<Document>)
    requires OldestFirst(docs)
    ensures var cs := CompactMap(docs, DecodeComment);
      && (forall i, j :: 0 <= i < j < |cs| ==> cs[i].timestamp <= cs[j].timestamp)
      && (forall c :: c in cs ==> exists i :: 0 <= i < |docs| && c.id == Some(docs[i].id) && DecodeComment(docs[i]) == Some(c))
  {
    forall i, j | 0 <= i < j < |docs| && DecodeComment(docs[i]).Some? && DecodeComment(docs[j]).Some?
      ensures CommentTime(DecodeComment(docs[i]).value) <= CommentTime(DecodeComment(docs[j]).value)
    {
      assert CommentStamp(docs[i]).Some? && CommentStamp(docs[j]).Some?;
    }
    CompactMapOrdered(docs, DecodeComment, CommentTime);
    var cs := CompactMap(docs, DecodeComment);
    assert AscendingBy(cs, CommentTime);
    forall c | c in cs
      ensures exists i :: 0 <= i < |docs| && c.id == Some(docs[i].id) && DecodeComment(docs[i]) == Some(c)
    {
      CompactMapMembership(docs, DecodeComment, c);
    }
  }

  class PostPreviewScreen {
    var postID: Option<string>
    var userID: Option<string>
    var comments: seq<Comment>
    var selectedComment: Option<Comment>
    var userName: Option<string>
    var userImg: Option<string>
    var commentText: string

    /** The screen as the feed hands it over: the post's id and its author's id. */
    constructor (postID: Option<string>, authorID: Option<string>)
      ensures this.postID == postID && userID == authorID
      ensures comments == [] && selectedComment == None && userName == None && userImg == None && commentText == ""
    {
      this.postID, userID := postID, authorID;
      comments, selectedComment, userName, userImg, commentText := [], None, None, None, "";
    }

    /**
     * `Comment_pressed` and its completion. Without text or a post id nothing
     * is written. Otherwise the payload is added under the post's comments
     * with the generated `newID`; on success the comments are fetched again
     * (`refetch`) and the field cleared, on failure the text stays.
     */
    method CommentPressed(me: Option<string>, db: Db, at: int, newID: string, ok: bool)
      returns (db': Db, refetch: bool)
      modifies this`commentText
      ensures old(commentText) == "" || postID.None? ==>
        db' == db && !refetch && commentText == old(commentText)
      ensures old(commentText) != "" && postID.Some? ==>
        && db' == db.(comments := if ok then PutChild(db.comments, postID.value, newID,
                                                      CommentPayload(me, old(commentText), at, userName, userImg))
                                  else db.comments)
        && refetch == ok
        && commentText == if ok then "" else old(commentText)
    {
      db', refetch := db, false;
      var text := commentText;
      if text == "" || postID.None? {
        return;
      }
      var newComment := CommentPayload(me, text, at, userName, userImg);
      if ok {
        db' := db.(comments := PutChild(db.comments, postID.value, newID, newComment));
        refetch := true;
        commentText := "";
      }
    }

    /**
     * `commit editingStyle` for a row, then the alert's Delete action: the
     * table only commits the delete it offered, for the current user's own
     * comment. Only `posts/(postID ?? "")/comments/(id ?? "")` is removed;
     * the post itself and every other comment are untouched.
     */
    method CommitDeleteComment(row: nat, me: Option<string>, db: Db, ok: bool) returns (db': Db)
      requires row < |comments|
      ensures MayDeleteComment(comments[row], me) && ok ==>
        db' == db.(comments := RemoveChild(db.comments, postID.GetOr(""), comments[row].id.GetOr("")))
      ensures !(MayDeleteComment(comments[row], me) && ok) ==> db' == db
      ensures db'.posts == db.posts
    {
      var commentToDelete := comments[row];
      db' := db;
      if MayDeleteComment(commentToDelete, me) && ok {
        db' := db.(comments := RemoveChild(db.comments, postID.GetOr(""), commentToDelete.id.GetOr("")));
      }
    }

    /** The profile `prepare(for:sender:)` opens: the selected comment's author, else the post's. */
    function ProfileTarget(): (target: Option<string>)
      reads this
      ensures selectedComment.Some? ==> target == Some(selectedComment.value.userID)
      ensures selectedComment.None? ==> target == userID
    {
      if selectedComment.Some? then Some(selectedComment.value.userID) else userID
    }

    /** `didSelectRowAt`: the chosen comment becomes the one whose author is shown. */
    method SelectComment(row: nat)
      requires row < |comments|
      modifies this`selectedComment
      ensures selectedComment == Some(comments[row])
      ensures ProfileTarget() == Some(comments[row].userID)
    {
      selectedComment := Some(comments[row]);
    }

    /**
     * One delivery of the `fetchComments` listener: without a post id no
     * listener exists; an error or a missing snapshot keeps the list;
     * otherwise it becomes the decodable comments in snapshot order, each
     * with its document's id.
     */
    method OnCommentsSnapshot(failed: bool, snapshot: Option<seq<Document>>)
      modifies this`comments
      ensures postID.None? || failed || snapshot.None? ==> comments == old(comments)
      ensures postID.Some? && !failed && snapshot.Some? ==> comments == CompactMap(snapshot.value, DecodeComment)
    {
      if postID.None? || failed || snapshot.None? {
        return;
      }
      comments := CompactMap(snapshot.value, DecodeComment);
    }

    /**
     * `fetchUserData`: with a signed-in user whose document exists, the
     * comment author fields become its name ("Unknown" if none) and picture
     * ("" if none); otherwise they are left as they were.
     */
    method FetchUserData(me: Option<string>, users: Collection, failed: bool)
      modifies this`userName, this`userImg
      ensures me.None? || failed || me.value !in users ==> userName == old(userName) && userImg == old(userImg)
      ensures me.Some? && !failed && me.value in users ==>
        && userName == Some(StringOr(users[me.value], "name", "Unknown"))
        && userImg == Some(StringOr(users[me.value], "profileImageUrl", ""))
    {
      if me.None? || failed || me.value !in users {
        return;
      }
      var data := users[me.value];
      userName := Some(StringOr(data, "name", "Unknown"));
      userImg := Some(StringOr(data, "profileImageUrl", ""));
    }
  }
}
