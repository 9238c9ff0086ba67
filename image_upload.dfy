/**
 * components/image-upload.tsx: the image upload card. Its state is the
 * selected file, the preview, the uploading flag, the upload status and the
 * error message; the handlers update them in sequence. Reading the file for
 * the preview completes later and is its own step; the request to
 * `/api/upload` is passed in as its outcome.
 */
module ImageUpload {
  import opened Optional

  datatype UploadStatus = Idle | Succeeded | Failed

  datatype File = File(name: string, size: nat)

  /** The form data sent: the file, and the hotel id when one is appended. */
  datatype UploadRequest = UploadRequest(file: File, hotelId: Option<int>)

  /**
   * How the request ended: a response whose JSON body was read (its `error`
   * and `imageUrl` fields, "" when missing), or a throw (`Some(message)` for an
   * `Error`, `None` for anything else).
   */
  datatype UploadOutcome =
    | Responded(ok: bool, error: string, imageUrl: string)
    | Threw(message: Option<string>)

  const DefaultError := "Failed to upload image"

  /** `if (hotelId)`: the id is appended only when it is given and not 0. */
  function FormHotelId(hotelId: Option<int>): (r: Option<int>)
    ensures r.Some? <==> hotelId.Some? && hotelId.value != 0
    ensures r.Some? ==> r == hotelId
  {
    if hotelId.Some? && hotelId.value != 0 then hotelId else None
  }

  /** The status an upload ends with: success exactly for an ok response. */
  function OutcomeStatus(outcome: UploadOutcome): (s: UploadStatus)
    ensures s == Succeeded <==> outcome.Responded? && outcome.ok
    ensures s != Idle
  {
    if outcome.Responded? && outcome.ok then Succeeded else Failed
  }

  /**
   * The error message an upload ends with: none after an ok response; the
   * server's `error`, or the default when it is empty, after any other
   * response; the thrown error's message otherwise.
   */
  function OutcomeError(outcome: UploadOutcome): (e: Option<string>)
    ensures e.None? <==> outcome.Responded? && outcome.ok
    ensures outcome.Responded? && !outcome.ok ==>
              e == Some(if outcome.error != "" then outcome.error else DefaultError)
    ensures outcome.Threw? ==> e == Some(outcome.message.GetOr(DefaultError))
  {
    match outcome
    case Responded(ok, error, _) =>
      if ok then None else Some(if error != "" then error else DefaultError)
    case Threw(message) => Some(message.GetOr(DefaultError))
  }

  /** The URL `onUploadComplete` is called with, if it is called at all. */
  function CallbackUrl(hasCallback: bool, outcome: UploadOutcome): (url: Option<string>)
    ensures url.Some? <==> hasCallback && outcome.Responded? && outcome.ok && outcome.imageUrl != ""
    ensures url.Some? ==> url.value == outcome.imageUrl
  {
    if hasCallback && outcome.Responded? && outcome.ok && outcome.imageUrl != "" then
      Some(outcome.imageUrl)
    else None
  }

  /** The error banner: shown only in the error status, never with empty text. */
  function ErrorBanner(status: UploadStatus, errorMessage: Option<string>): (text: Option<string>)
    ensures text.Some? <==> status == Failed
    ensures text.Some? ==> text.value != ""
    ensures text.Some? && errorMessage.Some? && errorMessage.value != "" ==> text == errorMessage
  {
    if status != Failed then None
    else if errorMessage.Some? && errorMessage.value != "" then errorMessage
    else Some(DefaultError)
  }

  /** After any upload the banner is shown exactly when the upload failed. */
  lemma BannerAfterUpload(outcome: UploadOutcome)
    ensures ErrorBanner(OutcomeStatus(outcome), OutcomeError(outcome)).Some? <==>
              !(outcome.Responded? && outcome.ok)
  {
  }

  class ImageUploader {
    /** The props: whether `onUploadComplete` is given, and `hotelId`. */
    const hasCallback: bool
    const hotelId: Option<int>

    var selectedFile: Option<File>
    var preview: Option<string>
    var uploading: bool
    var uploadStatus: UploadStatus
    var errorMessage: Option<string>

    constructor (hasCallback: bool, hotelId: Option<int>)
      ensures this.hasCallback == hasCallback && this.hotelId == hotelId
      ensures selectedFile == None && preview == None && !uploading
      ensures uploadStatus == Idle && errorMessage == None
    {
      this.hasCallback := hasCallback;
      this.hotelId := hotelId;
      selectedFile := None;
      preview := None;
      uploading := false;
      uploadStatus := Idle;
      errorMessage := None;
    }

    /** `disabled={!selectedFile || uploading}`. */
    predicate UploadDisabled()
      reads this
    {
      selectedFile.None? || uploading
    }

    /**
     * `handleFileChange`: the new selection replaces the old one and the status
     * is reset; clearing the selection also clears the preview, while a new
     * file keeps the old preview until its own has been read.
     */
    method HandleFileChange(file: Option<File>)
      modifies this
      ensures selectedFile == file && uploadStatus == Idle && errorMessage == None
      ensures preview == if file.None? then None else old(preview)
      ensures uploading == old(uploading)
    {
      selectedFile := file;
      uploadStatus := Idle;
      errorMessage := None;
      if file.None? {
        preview := None;
      }
    }

    /** The file reader's `onloadend`: the data URL becomes the preview. */
    method PreviewLoaded(dataUrl: string)
      modifies this
      ensures preview == Some(dataUrl)
      ensures selectedFile == old(selectedFile) && uploading == old(uploading)
      ensures uploadStatus == old(uploadStatus) && errorMessage == old(errorMessage)
    {
      preview := Some(dataUrl);
    }

    /** The start of `handleUpload` once a file is selected: uploading, with the status reset. */
    method BeginUpload() returns (request: UploadRequest)
      requires selectedFile.Some?
      modifies this
      ensures uploading && uploadStatus == Idle && errorMessage == None
      ensures selectedFile == old(selectedFile) && preview == old(preview)
      ensures request == UploadRequest(selectedFile.value, FormHotelId(hotelId))
    {
      uploading := true;
      uploadStatus := Idle;
      errorMessage := None;
      request := UploadRequest(selectedFile.value, FormHotelId(hotelId));
    }

    /** The rest of `handleUpload`: the outcome sets the status and message; uploading ends. */
    method FinishUpload(outcome: UploadOutcome) returns (callbackUrl: Option<string>)
      requires errorMessage == None
      modifies this
      ensures !uploading
      ensures uploadStatus == OutcomeStatus(outcome) && errorMessage == OutcomeError(outcome)
      ensures callbackUrl == CallbackUrl(hasCallback, outcome)
      ensures selectedFile == old(selectedFile) && preview == old(preview)
    {
      callbackUrl := None;
      match outcome {
        case Responded(ok, error, imageUrl) =>
          if !ok {
            uploadStatus := Failed;
            errorMessage := Some(if error != "" then error else DefaultError);
          } else {
            uploadStatus := Succeeded;
            if hasCallback && imageUrl != "" {
              callbackUrl := Some(imageUrl);
            }
          }
        case Threw(message) =>
          uploadStatus := Failed;
          errorMessage := Some(message.GetOr(DefaultError));
      }
      uploading := false;
    }

    /**
     * `handleUpload`: with no file selected nothing happens; otherwise the file
     * is sent, and the upload ends with the outcome's status and message and
     * with `uploading` false, so the button is enabled again.
     */
    method HandleUpload(outcome: UploadOutcome) returns (request: Option<UploadRequest>, callbackUrl: Option<string>)
      modifies this
      ensures selectedFile == old(selectedFile) && preview == old(preview)
      ensures old(selectedFile).None? ==>
                request == None && callbackUrl == None && uploading == old(uploading)
                && uploadStatus == old(uploadStatus) && errorMessage == old(errorMessage)
      ensures old(selectedFile).Some? ==>
                && request == Some(UploadRequest(old(selectedFile).value, FormHotelId(hotelId)))
                && !uploading && !UploadDisabled()
                && uploadStatus == OutcomeStatus(outcome) && errorMessage == OutcomeError(outcome)
                && callbackUrl == CallbackUrl(hasCallback, outcome)
    {
      if selectedFile.None? {
        return None, None;
      }
      var sent := BeginUpload();
      request := Some(sent);
      callbackUrl := FinishUpload(outcome);
    }
  }
}
