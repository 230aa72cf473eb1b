/** Publishing a post: the form guard, the author lookup, the upload and the save. */
module NewPost {
  import opened Wrappers
  import opened Firestore
  import opened Records
  import opened Alerts

  const MissingInput: string := "Please select an image and enter a caption."
  const UploadFailed: string := "Failed to upload image."
  const SaveFailed: string := "Failed to save post."

  /** The `postData` literal of `savePost`; the likes start empty. */
  function PostPayload(imageURL: string, caption: string, userID: Option<string>, name: Option<string>,
                       userImg: Option<string>, at: int): Fields {
    map["imageURL" := Str(imageURL), "caption" := Str(caption), "authorID" := Str(userID.GetOr("")),
        "authorName" := Str(name.GetOr("Unknown")), "authorImgURL" := Str(userImg.GetOr("")),
        "timestamp" := Timestamp(at), "likes" := StringArray([])]
  }

  /**
   * A saved post reads back as the post with the document's id, the author
   * fields defaulting to "", "Unknown" and "", and no likes.
   */
  lemma PostPayloadRoundTrip(imageURL: string, caption: string, userID: Option<string>, name: Option<string>,
                             userImg: Option<string>, at: int, id: string)
    ensures DecodePost(Document(id, PostPayload(imageURL, caption, userID, name, userImg, at))) ==
            Some(Post(Some(id), imageURL, caption, userID.GetOr(""), name.GetOr("Unknown"), userImg.GetOr(""), at, []))
  {
    StringArrayRoundTrip([]);
  }

  class NewPostScreen {
    var hasImage: bool
    var caption: string
    var name: Option<string>
    var userID: Option<string>
    var userImg: Option<string>

    constructor ()
      ensures !hasImage && caption == "" && name == None && userID == None && userImg == None
    {
      hasImage, caption := false, "";
      name, userID, userImg := None, None, None;
    }

    /**
     * `fetchUserData(completion:)`: `completed` says whether the completion
     * runs. Without a user it never does. A failed read runs it with the
     * fields untouched; an existing document sets the author fields first,
     * with "Unknown" and "" for a missing name and picture.
     */
    method FetchUserData(me: Option<string>, users: Collection, failed: bool) returns (completed: bool)
      modifies this`name, this`userID, this`userImg
      ensures completed <==> me.Some?
      ensures me.None? || failed || me.value !in users ==>
        name == old(name) && userID == old(userID) && userImg == old(userImg)
      ensures me.Some? && !failed && me.value in users ==>
        && userID == me
        && name == Some(StringOr(users[me.value], "name", "Unknown"))
        && userImg == Some(StringOr(users[me.value], "profileImageUrl", ""))
    {
      if me.None? {
        return false;
      }
      completed := true;
      if failed || me.value !in users {
        return;
      }
      var data := users[me.value];
      userID := me;
      name := Some(StringOr(data, "name", "Unknown"));
      userImg := Some(StringOr(data, "profileImageUrl", ""));
    }

    /** `clearForm` */
    method ClearForm()
      modifies this`hasImage, this`caption
      ensures !hasImage && caption == ""
    {
      hasImage, caption := false, "";
    }

    /**
     * `savePost` and its completion: the payload is added to the posts under
     * the generated `newID`; only success shows the confirmation and clears
     * the form.
     */
    method SavePost(imageURL: string, postCaption: string, db: Db, at: int, newID: string, ok: bool)
      returns (db': Db, alert: Alert)
      modifies this`hasImage, this`caption
      ensures db' == db.(posts := if ok then db.posts[newID := PostPayload(imageURL, postCaption, userID, name, userImg, at)]
                                  else db.posts)
      ensures ok ==> alert == UpdateSuccess && !hasImage && caption == ""
      ensures !ok ==> alert == ErrorAlert(SaveFailed) && hasImage == old(hasImage) && caption == old(caption)
    {
      var postData := PostPayload(imageURL, postCaption, userID, name, userImg, at);
      if ok {
        db' := db.(posts := db.posts[newID := postData]);
        alert := UpdateSuccess;
        ClearForm();
      } else {
        db', alert := db, ErrorAlert(SaveFailed);
      }
    }

    /**
     * `post_pressed` through every completion. `uploadUrl` is what the image
     * upload yields (None for any failure). Without an image or caption an
     * error is shown and nothing else happens; without a user the chain stops
     * silently; a missing URL shows an error and saves nothing. Otherwise the
     * post is saved with the caption read at the start, and the screen is
     * dismissed whatever the save's outcome.
     */
    method PostPressed(me: Option<string>, users: Collection, fetchFailed: bool, uploadUrl: Option<string>,
                       db: Db, at: int, newID: string, saveOk: bool)
      returns (db': Db, alerts: seq<Alert>, dismissed: bool)
      modifies this
      ensures !old(hasImage) || old(caption) == "" ==> db' == db && alerts == [ErrorAlert(MissingInput)] && !dismissed
      ensures old(hasImage) && old(caption) != "" && me.None? ==> db' == db && alerts == [] && !dismissed
      ensures old(hasImage) && old(caption) != "" && me.Some? && uploadUrl.None? ==>
        db' == db && alerts == [ErrorAlert(UploadFailed)] && !dismissed
      ensures old(hasImage) && old(caption) != "" && me.Some? && uploadUrl.Some? ==>
        && db' == db.(posts := if saveOk then db.posts[newID := PostPayload(uploadUrl.value, old(caption), userID, name, userImg, at)]
                                else db.posts)
        && alerts == [if saveOk then UpdateSuccess else ErrorAlert(SaveFailed)]
        && dismissed
        && (saveOk ==> !hasImage && caption == "")
      ensures !(old(hasImage) && old(caption) != "" && me.Some? && uploadUrl.Some? && saveOk) ==>
        hasImage == old(hasImage) && caption == old(caption)
      ensures old(hasImage) && old(caption) != "" && me.Some? && !fetchFailed && me.value in users ==>
        && userID == me
        && name == Some(StringOr(users[me.value], "name", "Unknown"))
        && userImg == Some(StringOr(users[me.value], "profileImageUrl", ""))
      ensures !(old(hasImage) && old(caption) != "" && me.Some? && !fetchFailed && me.value in users) ==>
        name == old(name) && userID == old(userID) && userImg == old(userImg)
      ensures db'.users == db.users && db'.chats == db.chats && db'.messages == db.messages && db'.comments == db.comments
    {
      db', alerts, dismissed := db, [], false;
      if !hasImage || caption == "" {
        alerts := [ErrorAlert(MissingInput)];
        return;
      }
      var postCaption := caption;
      var completed := FetchUserData(me, users, fetchFailed);
      if !completed {
        return;
      }
      if uploadUrl.None? {
        alerts := [ErrorAlert(UploadFailed)];
        return;
      }
      var alert;
      db', alert := SavePost(uploadUrl.value, postCaption, db, at, newID, saveOk);
      alerts := [alert];
      dismissed := true;
    }
  }
}
