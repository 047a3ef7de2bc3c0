/**
 * The status machine of App.tsx. Each handler is one step: the transcription and the
 * backend request it awaits are given as their outcomes.
 */
module App {
  import opened Common
  import opened Text
  import opened Errors
  import opened Types

  const DownloadFailedMessage: string := "Failed to download video from backend."

  /** The name the result screen falls back to when there is no file name. */
  const DefaultFileName: string := "transcription"

  /** How the request to the backend ended. */
  datatype BackendOutcome =
      /** `fetch` itself rejected, for instance because nothing listens on the port. */
    | FetchRejected(reason: Thrown)
      /** A reply that is not ok, with the `error` field of its JSON body (`None` when the body does not parse or has none). */
    | NotOk(errorField: Option<string>)
      /** An ok reply: the file record in its `data` field, or what reading its body threw. */
    | Delivered(body: Result<FileData, Thrown>)

  /** The file path's `catch`: `err.message || "An unexpected error occurred."`; a thrown non-`Error` has no message. */
  function FileErrorMessage(err: Thrown): (r: string)
    ensures r != ""
  {
    if err.ErrorValue? && err.message != "" then err.message else UnexpectedMessage
  }

  /**
   * The link path's `catch`: the message, replaced by the fixed backend message when it
   * looks like a network failure. A thrown non-`Error` has no message, so testing it
   * throws again inside the `catch`; `None` stands for that, and no state is set.
   */
  function UrlErrorMessage(err: Thrown): (r: Option<string>)
    ensures r.Some? <==> err.ErrorValue?
    ensures r.Some? ==> r.value == MapYoutubeErrorMessage(err)
  {
    if err.ErrorValue? then
      Some(if IsNetworkError(err.message) then BackendMessage else err.message)
    else None
  }

  /** What the `try` block of `handleUrlSubmit` throws, if anything. */
  function UrlFailure(backend: BackendOutcome, transcription: Result<string, Thrown>): (r: Option<Thrown>)
    ensures backend.NotOk? ==> r.Some? && r.value.ErrorValue?
  {
    match backend
    case FetchRejected(reason) => Some(reason)
    case NotOk(field) =>
      Some(ErrorValue(if field.Some? && field.value != "" then field.value else DownloadFailedMessage))
    case Delivered(body) =>
      if body.Err? then Some(body.error)
      else if transcription.Err? then Some(transcription.error)
      else None
  }

  /** A reply that is not ok ends the attempt before transcription: its outcome plays no part. */
  lemma NotOkSkipsTranscription(field: Option<string>, t1: Result<string, Thrown>, t2: Result<string, Thrown>)
    ensures UrlFailure(NotOk(field), t1) == UrlFailure(NotOk(field), t2)
  {
  }

  /** A reply that is not ok shows its `error` field, or the download failure message, replaced by the backend message when it looks like a network failure. */
  lemma NotOkMessage(field: Option<string>, transcription: Result<string, Thrown>)
    ensures var m := if field.Some? && field.value != "" then field.value else DownloadFailedMessage;
            UrlErrorMessage(UrlFailure(NotOk(field), transcription).value) == Some(MapYoutubeErrorMessage(ErrorValue(m)))
  {
  }

  /** The app's state. */
  class AppState {
    var status: AppStatus
    var inputMode: InputMode
    var fileData: Option<FileData>
    var urlInput: string
    var vttContent: string
    var error: Option<string>

    /** Status, file, link, subtitles and message as the app starts and as reset leaves them. */
    predicate Cleared()
      reads this
    {
      status == Idle && fileData == None && urlInput == "" && vttContent == "" && error == None
    }

    /**
     * What every step keeps: `Uploading` is never entered, a message is shown exactly in
     * the error state, and a result always has its file.
     */
    predicate Valid()
      reads this
    {
      status != Uploading
      && (status == Error <==> error.Some?)
      && (status == Success ==> fileData.Some?)
    }

    constructor()
      ensures Cleared() && inputMode == FileMode && Valid()
    {
      status := Idle;
      inputMode := FileMode;
      fileData := None;
      urlInput := "";
      vttContent := "";
      error := None;
    }

    /** The idle screen's toggle between the two inputs. */
    method SetInputMode(mode: InputMode)
      requires Valid()
      modifies this
      ensures Valid() && inputMode == mode
      ensures status == old(status) && fileData == old(fileData) && urlInput == old(urlInput)
      ensures vttContent == old(vttContent) && error == old(error)
    {
      inputMode := mode;
    }

    /** `handleFileSelect`: store the file, clear the message, then show the transcription or its failure. */
    method HandleFileSelect(file: FileData, transcription: Result<string, Thrown>)
      modifies this
      ensures Valid()
      ensures fileData == Some(file) && inputMode == old(inputMode) && urlInput == old(urlInput)
      ensures transcription.Ok? ==> status == Success && vttContent == transcription.value && error == None
      ensures transcription.Err? ==>
                status == Error && error == Some(FileErrorMessage(transcription.error)) && vttContent == old(vttContent)
    {
      fileData := Some(file);
      status := Processing;
      error := None;
      match transcription
      case Ok(vtt) =>
        vttContent := vtt;
        status := Success;
      case Err(err) =>
        error := Some(FileErrorMessage(err));
        status := Error;
    }

    /**
     * `handleUrlSubmit`: store the link and clear the message; ask the backend for the
     * audio, store the file it returns, transcribe it, and show the result or the mapped
     * message of whatever failed.
     */
    method HandleUrlSubmit(url: string, backend: BackendOutcome, transcription: Result<string, Thrown>)
      modifies this
      ensures Valid()
      ensures urlInput == url && inputMode == old(inputMode)
      ensures fileData == if backend.Delivered? && backend.body.Ok? then Some(backend.body.value) else old(fileData)
      ensures UrlFailure(backend, transcription).None? ==>
                status == Success && vttContent == transcription.value && error == None
      ensures UrlFailure(backend, transcription).Some? && UrlErrorMessage(UrlFailure(backend, transcription).value).Some? ==>
                status == Error && error == UrlErrorMessage(UrlFailure(backend, transcription).value) && vttContent == old(vttContent)
      ensures UrlFailure(backend, transcription).Some? && UrlErrorMessage(UrlFailure(backend, transcription).value).None? ==>
                status == Processing && error == None && vttContent == old(vttContent)
    {
      urlInput := url;
      status := Processing;
      error := None;
      var failure: Option<Thrown> := None;
      match backend {
        case FetchRejected(reason) =>
          failure := Some(reason);
        case NotOk(field) =>
          failure := Some(ErrorValue(if field.Some? && field.value != "" then field.value else DownloadFailedMessage));
        case Delivered(body) =>
          if body.Err? {
            failure := Some(body.error);
          } else {
            fileData := Some(body.value);
            match transcription {
              case Ok(vtt) =>
                vttContent := vtt;
                status := Success;
              case Err(err) =>
                failure := Some(err);
            }
          }
      }
      if failure.Some? {
        var message := UrlErrorMessage(failure.value);
        if message.Some? {
          error := message;
          status := Error;
        }
      }
    }

    /** `handleReset`: everything back to the start except the chosen input. */
    method HandleReset()
      modifies this
      ensures Cleared() && Valid() && inputMode == old(inputMode)
    {
      status := Idle;
      fileData := None;
      urlInput := "";
      vttContent := "";
      error := None;
    }

    /** The link the result screen receives: the stored one in link mode, none otherwise. */
    function ViewerYoutubeUrl(): (r: string)
      reads this
      ensures inputMode == FileMode ==> r == ""
      ensures inputMode == UrlMode ==> r == urlInput
    {
      if inputMode == UrlMode then urlInput else ""
    }

    /** The file name the result screen receives: the file's name, or the fallback when it is absent or empty. */
    function ViewerFileName(): (r: string)
      reads this
      ensures r != ""
      ensures fileData.Some? && fileData.value.name != "" ==> r == fileData.value.name
    {
      if fileData.Some? && fileData.value.name != "" then fileData.value.name else DefaultFileName
    }
  }
}
