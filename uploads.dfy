/**
 * `uploadImageToFirebase` of the signup and profile-edit screens: a picture
 * is encoded, stored, and its download URL fetched; each step can fail.
 */
module Uploads {
  import opened Wrappers
  import opened Alerts

  datatype UploadOutcome =
    | NoImage                     // `profileImage.image` is nil
    | EncodingFailed              // `jpegData` gave nil
    | PutFailed(reason: string)   // `putData` reported an error
    | UrlFailed(reason: string)   // `downloadURL` reported an error
    | Uploaded(url: Option<string>)

  /** The URL handed to the completion. */
  function UploadedUrl(o: UploadOutcome): (url: Option<string>)
    ensures url.Some? ==> o.Uploaded?
  {
    if o.Uploaded? then o.url else None
  }

  /** The alerts the upload itself presents before its completion runs. */
  function UploadAlerts(o: UploadOutcome): (alerts: seq<Alert>)
    ensures |alerts| <= 1
    ensures alerts != [] <==> o.PutFailed? || o.UrlFailed?
    ensures o.PutFailed? ==> alerts == [ErrorAlert("Failed to upload image: " + o.reason)]
    ensures o.UrlFailed? ==> alerts == [ErrorAlert("Failed to get download URL: " + o.reason)]
  {
    match o
    case PutFailed(reason) => [ErrorAlert("Failed to upload image: " + reason)]
    case UrlFailed(reason) => [ErrorAlert("Failed to get download URL: " + reason)]
    case _ => []
  }

  /** An upload either produces a URL or explains nothing at all or an error; never both a URL and an alert. */
  lemma UrlExcludesAlert(o: UploadOutcome)
    ensures UploadedUrl(o).Some? ==> UploadAlerts(o) == []
  {
  }
}
