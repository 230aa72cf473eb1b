/** Account creation: the validation chain, the auth error text and the user document. */
module Signup {
  import opened Wrappers
  import opened Firestore
  import opened Alerts
  import opened Uploads

  const MinPasswordLength: nat := 6

  const InvalidEmail: string := "Please enter a valid email!"
  const InvalidName: string := "Please enter a valid name!"
  const InvalidPassword: string := "Please enter a valid password! Passwords cannot be less than 6 characters."
  const MissingConfirmation: string := "Please confirm your password!"
  const PasswordMismatch: string := "Passwords do not match!"
  const GenericFailure: string := "Something went wrong. Try again."

  /**
   * The guard chain of `signup_pressed` and the equality test after it: the
   * message of the first failing check, or None when the account may be
   * created. Characters stand for Swift's `count`.
   */
  function SignupValidation(email: string, name: string, password: string, confirm: string): (r: Option<string>)
    ensures r.None? <==>
      email != "" && name != "" && |password| >= MinPasswordLength && confirm != "" && password == confirm
    ensures r == Some(InvalidEmail) <==> email == ""
    ensures email != "" ==> (r == Some(InvalidName) <==> name == "")
    ensures email != "" && name != "" ==> (r == Some(InvalidPassword) <==> |password| < MinPasswordLength)
    ensures email != "" && name != "" && |password| >= MinPasswordLength ==>
      (r == Some(MissingConfirmation) <==> confirm == "")
    ensures r == Some(PasswordMismatch) <==>
      email != "" && name != "" && |password| >= MinPasswordLength && confirm != "" && password != confirm
  {
    if email == "" then Some(InvalidEmail)
    else if name == "" then Some(InvalidName)
    else if password == "" || |password| < MinPasswordLength then Some(InvalidPassword)
    else if confirm == "" then Some(MissingConfirmation)
    else if password == confirm then None
    else Some(PasswordMismatch)
  }

  /** Six characters are enough, five are not. */
  lemma PasswordLengthBoundary()
    ensures SignupValidation("a@b.c", "Ann", "abcdef", "abcdef") == None
    ensures SignupValidation("a@b.c", "Ann", "abcde", "abcde") == Some(InvalidPassword)
  {
  }

  datatype AuthErrorCode = EmailAlreadyInUse | OtherAuthError

  datatype AuthError = AuthError(code: AuthErrorCode, localizedDescription: string)

  /** `handleFirebaseAuthError`: only an address already in use gets the system's text. */
  function AuthErrorMessage(e: AuthError): (message: string)
    ensures e.code == EmailAlreadyInUse ==> message == e.localizedDescription
    ensures e.code != EmailAlreadyInUse ==> message == GenericFailure
  {
    match e.code
    case EmailAlreadyInUse => e.localizedDescription
    case OtherAuthError => GenericFailure
  }

  /** What `createUser` hands to its completion. */
  datatype CreateResult = CreateFailed(error: AuthError) | CreatedWithoutUid | Created(uid: string)

  /** A user document holding exactly the three texts, plus the picture when there is one. */
  ghost predicate IsUserDocument(data: Fields, email: string, name: string, description: string, imageUrl: Option<string>) {
    && data.Keys == {"email", "name", "description"} + (if imageUrl.Some? then {"profileImageUrl"} else {})
    && data["email"] == Str(email) && data["name"] == Str(name) && data["description"] == Str(description)
    && (imageUrl.Some? ==> data["profileImageUrl"] == Str(imageUrl.value))
  }

  /** The `var data` of `saveUserData`, with the picture inserted when one was uploaded. */
  method BuildUserData(email: string, name: string, description: string, imageUrl: Option<string>)
    returns (data: Fields)
    ensures IsUserDocument(data, email, name, description, imageUrl)
  {
    data := map["email" := Str(email), "name" := Str(name), "description" := Str(description)];
    if imageUrl.Some? {
      data := data["profileImageUrl" := Str(imageUrl.value)];
    }
  }

  /**
   * `signup_pressed` through every completion. `upload` is the outcome of
   * the picture upload and `saveOk`/`saveError` that of `setData`. The
   * user document is written only when validation passes and the account
   * exists, and it replaces whatever was stored under that id; the screen
   * navigates home only when that write succeeds.
   */
  method SignupPressed(email: string, name: string, password: string, confirm: string, create: CreateResult,
                       upload: UploadOutcome, saveOk: bool, saveError: string, db: Db)
    returns (db': Db, alerts: seq<Alert>, navigated: bool)
    ensures SignupValidation(email, name, password, confirm).Some? ==>
      db' == db && alerts == [ErrorAlert(SignupValidation(email, name, password, confirm).value)] && !navigated
    ensures SignupValidation(email, name, password, confirm).None? && create.CreateFailed? ==>
      db' == db && alerts == [ErrorAlert(AuthErrorMessage(create.error))] && !navigated
    ensures SignupValidation(email, name, password, confirm).None? && create.CreatedWithoutUid? ==>
      db' == db && alerts == [ErrorAlert(GenericFailure)] && !navigated
    ensures SignupValidation(email, name, password, confirm).None? && create.Created? ==>
      && (!saveOk ==> db'.users == db.users)
      && (saveOk ==>
            && create.uid in db'.users
            && db'.users == db.users[create.uid := db'.users[create.uid]]
            && IsUserDocument(db'.users[create.uid], email, name, "", UploadedUrl(upload)))
      && alerts == UploadAlerts(upload) + [if saveOk then SignupSuccess else ErrorAlert("Error saving user data: " + saveError)]
      && navigated == saveOk
    ensures db'.chats == db.chats && db'.messages == db.messages && db'.posts == db.posts && db'.comments == db.comments
  {
    db', navigated := db, false;
    var invalid := SignupValidation(email, name, password, confirm);
    if invalid.Some? {
      alerts := [ErrorAlert(invalid.value)];
      return;
    }
    match create
    case CreateFailed(error) =>
      alerts := [ErrorAlert(AuthErrorMessage(error))];
    case CreatedWithoutUid =>
      alerts := [ErrorAlert(GenericFailure)];
    case Created(userID) =>
      alerts := UploadAlerts(upload);
      var data := BuildUserData(email, name, "", UploadedUrl(upload));
      if saveOk {
        db' := db.(users := db.users[userID := data]);
        alerts := alerts + [SignupSuccess];
        navigated := true;
      } else {
        alerts := alerts + [ErrorAlert("Error saving user data: " + saveError)];
      }
  }

  datatype BackAction = AskToDiscard | Pop

  class SignupScreen {
    var isGoingBack: bool

    constructor ()
      ensures !isGoingBack
    {
      isGoingBack := false;
    }

    /** `backButtonPressed`: confirmation is asked for iff any of the four fields holds text. */
    method BackButtonPressed(name: string, email: string, password: string, confirm: string)
      returns (action: BackAction)
      ensures action == AskToDiscard <==> name != "" || email != "" || password != "" || confirm != ""
    {
      if name != "" || email != "" || password != "" || confirm != "" {
        action := AskToDiscard;
      } else {
        action := Pop;
      }
    }

    /** The "Discard Changes" action of that confirmation. */
    method DiscardChangesChosen()
      modifies this
      ensures isGoingBack
    {
      isGoingBack := true;
    }
  }
}
