/**
 * The plain records of the app (`Post`, `Comment`, `User`) and the
 * `Codable` decoding `try? doc.data(as:)` applies to posts and comments:
 * every non-optional property needs its key with a value of the right type;
 * an optional property is nil when its key is absent or null and makes the
 * decoding fail when it holds another type. `@DocumentID` takes the
 * document's id.
 */
module Records {
  import opened Wrappers
  import opened Firestore

  datatype Post = Post(
    id: Option<string>,
    imageURL: string,
    caption: string,
    authorID: string,
    authorName: string,
    authorImgURL: string,
    timestamp: int,
    likes: seq<string>)

  datatype Comment = Comment(
    id: Option<string>,
    userID: string,
    text: string,
    timestamp: int,
    authorName: Option<string>,
    authorImgURL: Option<string>)

  datatype User = User(id: string, name: string, email: string, description: string, profileImageUrl: Option<string>)

  /**
   * Decoding of an optional string property: `None` when the decoding fails,
   * `Some(None)` when the key is absent or null, `Some(Some(s))` for a string.
   */
  function OptionalString(fields: Fields, key: string): (r: Option<Option<string>>)
    ensures r == Some(None) <==> key !in fields || fields[key] == Null
    ensures forall s :: r == Some(Some(s)) <==> key in fields && fields[key] == Str(s)
  {
    if key !in fields || fields[key] == Null then Some(None)
    else if fields[key].Str? then Some(Some(fields[key].s))
    else None
  }

  /** `try? doc.data(as: Post.self)` */
  function DecodePost(doc: Document): (r: Option<Post>)
    ensures r.Some? <==>
      && GetString(doc.data, "imageURL").Some? && GetString(doc.data, "caption").Some?
      && GetString(doc.data, "authorID").Some? && GetString(doc.data, "authorName").Some?
      && GetString(doc.data, "authorImgURL").Some? && GetTimestamp(doc.data, "timestamp").Some?
      && GetStringList(doc.data, "likes").Some?
    ensures r.Some? ==>
      && r.value.id == Some(doc.id)
      && GetString(doc.data, "imageURL") == Some(r.value.imageURL)
      && GetString(doc.data, "caption") == Some(r.value.caption)
      && GetString(doc.data, "authorID") == Some(r.value.authorID)
      && GetString(doc.data, "authorName") == Some(r.value.authorName)
      && GetString(doc.data, "authorImgURL") == Some(r.value.authorImgURL)
      && doc.data["likes"] == StringArray(r.value.likes)
      && doc.data["timestamp"] == Timestamp(r.value.timestamp)
  {
    var d := doc.data;
    match (GetString(d, "imageURL"), GetString(d, "caption"), GetString(d, "authorID"),
           GetString(d, "authorName"), GetString(d, "authorImgURL"), GetTimestamp(d, "timestamp"),
           GetStringList(d, "likes"))
    case (Some(imageURL), Some(caption), Some(authorID), Some(authorName), Some(authorImgURL),
          Some(timestamp), Some(likes)) =>
      assert d["likes"] == StringArray(likes);
      Some(Post(Some(doc.id), imageURL, caption, authorID, authorName, authorImgURL, timestamp, likes))
    case _ => None
  }

  /** `try? doc.data(as: Comment.self)`, with `id` then set to the document id. */
  function DecodeComment(doc: Document): (r: Option<Comment>)
    ensures r.Some? <==>
      && GetString(doc.data, "userID").Some? && GetString(doc.data, "text").Some?
      && GetTimestamp(doc.data, "timestamp").Some?
      && OptionalString(doc.data, "authorName").Some? && OptionalString(doc.data, "authorImgURL").Some?
    ensures r.Some? ==>
      && r.value.id == Some(doc.id)
      && GetString(doc.data, "userID") == Some(r.value.userID)
      && GetString(doc.data, "text") == Some(r.value.text)
      && doc.data["timestamp"] == Timestamp(r.value.timestamp)
      && OptionalString(doc.data, "authorName") == Some(r.value.authorName)
      && OptionalString(doc.data, "authorImgURL") == Some(r.value.authorImgURL)
  {
    var d := doc.data;
    match (GetString(d, "userID"), GetString(d, "text"), GetTimestamp(d, "timestamp"),
           OptionalString(d, "authorName"), OptionalString(d, "authorImgURL"))
    case (Some(userID), Some(text), Some(timestamp), Some(authorName), Some(authorImgURL)) =>
      Some(Comment(Some(doc.id), userID, text, timestamp, authorName, authorImgURL))
    case _ => None
  }
}
