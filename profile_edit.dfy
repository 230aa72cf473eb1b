/** Editing one's profile: the payload and the merge into the user document. */
module ProfileEdit {
  import opened Wrappers
  import opened Firestore
  import opened Alerts
  import opened Uploads

  /**
   * `update_pressed` through every completion. `hasImage` says whether the
   * picture view holds an image (only then is the upload started);
   * `updateOk`/`updateError` are the call's outcome. The write is an
   * `updateData` merge, so it fails when the user document does not exist.
   */
  method UpdatePressed(me: Option<string>, name: Option<string>, description: Option<string>, hasImage: bool,
                       upload: UploadOutcome, db: Db, updateOk: bool, updateError: string)
    returns (db': Db, alerts: seq<Alert>)
    ensures me.None? ==> db' == db && alerts == []
    ensures me.Some? ==>
      var imageUrl := if hasImage then UploadedUrl(upload) else None;
      var data := map["name" := Str(name.GetOr("")), "description" := Str(description.GetOr(""))] +
                  (if imageUrl.Some? then map["profileImageUrl" := Str(imageUrl.value)] else map[]);
      && db'.users == UpdateData(db.users, me.value, data, updateOk)
      && alerts == (if hasImage then UploadAlerts(upload) else []) +
                   [if UpdateSucceeds(db.users, me.value, updateOk) then UpdateSuccess
                    else ErrorAlert("Error updating user data: " + updateError)]
    ensures db'.chats == db.chats && db'.messages == db.messages && db'.posts == db.posts && db'.comments == db.comments
  {
    db', alerts := db, [];
    if me.None? {
      return;
    }
    var userID := me.value;
    var data: Fields := map["name" := Str(name.GetOr("")), "description" := Str(description.GetOr(""))];
    if hasImage {
      alerts := UploadAlerts(upload);
      var imageUrl := UploadedUrl(upload);
      if imageUrl.Some? {
        data := data["profileImageUrl" := Str(imageUrl.value)];
      }
    }
    assert data == map["name" := Str(name.GetOr("")), "description" := Str(description.GetOr(""))] +
                   (if hasImage && UploadedUrl(upload).Some? then map["profileImageUrl" := Str(UploadedUrl(upload).value)] else map[]);
    db' := db.(users := UpdateData(db.users, userID, data, updateOk));
    if UpdateSucceeds(db.users, userID, updateOk) {
      alerts := alerts + [UpdateSuccess];
    } else {
      alerts := alerts + [ErrorAlert("Error updating user data: " + updateError)];
    }
  }

  /**
   * A profile merge keeps every stored field it does not name, such as the
   * email, while the signup write keeps none: after `setData` the document
   * holds only its payload.
   */
  lemma MergeKeepsUnnamedFields(users: Collection, userID: string, data: Fields, key: string)
    requires userID in users && key in users[userID] && key !in data
    ensures var after := UpdateData(users, userID, data, true);
      userID in after && key in after[userID] && after[userID][key] == users[userID][key]
    ensures var replaced := users[userID := data];
      key !in replaced[userID]
  {
  }
}
