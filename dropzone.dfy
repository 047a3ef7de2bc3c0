/** The file drop area of components/Dropzone.tsx: which files it admits and what it reports. */
module Dropzone {
  import opened Common
  import opened Text
  import opened Errors
  import opened Base64
  import opened Types

  /** 20 MiB, the largest file the browser-side path accepts. */
  const MaxFileSize: nat := 20 * 1024 * 1024

  const TypeMessage: string := "Please upload a valid audio or video file."
  const SizeMessage: string := "File is too large for browser-based processing. Please use a file smaller than 20MB."

  /** A file as the browser describes it. */
  datatype File = File(name: string, mimeType: string, size: nat)

  predicate IsMedia(mimeType: string) {
    StartsWith(mimeType, "audio/") || StartsWith(mimeType, "video/")
  }

  /** The admission checks of `processFile`, in their order: the type first, then the size. */
  function AdmissionError(file: File): (r: Option<string>)
    ensures r.None? <==> IsMedia(file.mimeType) && file.size <= MaxFileSize
    ensures r == Some(TypeMessage) <==> !IsMedia(file.mimeType)
    ensures r == Some(SizeMessage) <==> IsMedia(file.mimeType) && file.size > MaxFileSize
  {
    if !IsMedia(file.mimeType) then Some(TypeMessage)
    else if file.size > MaxFileSize then Some(SizeMessage)
    else None
  }

  /** The limit is inclusive: a file of exactly 20971520 bytes passes, one byte more does not. */
  lemma SizeLimitInclusive(name: string, mimeType: string)
    requires IsMedia(mimeType)
    ensures AdmissionError(File(name, mimeType, 20971520)).None?
    ensures AdmissionError(File(name, mimeType, 20971521)) == Some(SizeMessage)
  {
  }

  /** The type is checked first, so an oversized file that is not media gets the type message. */
  lemma TypeCheckedFirst(name: string, size: nat)
    requires size > MaxFileSize
    ensures AdmissionError(File(name, "text/plain", size)) == Some(TypeMessage)
  {
    assert "text/plain"[0] == 't';
    assert !StartsWith("text/plain", "audio/") by { assert "text/plain"[..6][0] == 't'; }
    assert !StartsWith("text/plain", "video/") by { assert "text/plain"[..6][0] == 't'; }
  }

  /** The message a `catch` of `processFile` shows: an `Error`'s message, or the read failure text for anything else. */
  function CaughtMessage(e: Thrown): (r: string)
    ensures e.ErrorValue? ==> r == NormalizeErrorMessage(e)
    ensures !e.ErrorValue? ==> r == ReadFailedMessage
  {
    if e.ErrorValue? then e.message else ReadFailedMessage
  }

  /** The drop area's state: the message it shows, if any. */
  class DropArea {
    var error: Option<string>

    constructor()
      ensures error == None
    {
      error := None;
    }

    /**
     * `processFile`: clear the message, refuse a file the admission checks reject,
     * otherwise read it and hand the record, with the base64 payload, to the callback
     * (returned here as `selected`); a failed read shows its message instead.
     */
    method ProcessFile(file: File, read: ReadOutcome) returns (selected: Option<FileData>)
      modifies this
      ensures AdmissionError(file).Some? ==> selected == None && error == AdmissionError(file)
      ensures AdmissionError(file).None? && FileToBase64(read).Ok? ==>
                selected == Some(FileData(file.name, file.mimeType, file.size, FileToBase64(read).value)) && error == None
      ensures AdmissionError(file).None? && FileToBase64(read).Err? ==>
                selected == None && error == Some(CaughtMessage(FileToBase64(read).error))
    {
      error := None;
      if !IsMedia(file.mimeType) {
        error := Some(TypeMessage);
        return None;
      }
      if file.size > MaxFileSize {
        error := Some(SizeMessage);
        return None;
      }
      match FileToBase64(read)
      case Ok(base64Content) =>
        selected := Some(FileData(file.name, file.mimeType, file.size, base64Content));
      case Err(fileError) =>
        error := Some(CaughtMessage(fileError));
        selected := None;
    }

    /** `handleDrop`: ignored while disabled; otherwise only the first dropped file is processed, with `read` the outcome of reading it. */
    method HandleDrop(disabled: bool, files: seq<File>, read: ReadOutcome) returns (selected: Option<FileData>)
      modifies this
      ensures disabled || files == [] ==> selected == None && error == old(error)
      ensures !disabled && files != [] && AdmissionError(files[0]).Some? ==> selected == None && error == AdmissionError(files[0])
      ensures !disabled && files != [] && AdmissionError(files[0]).None? ==>
                selected == (if FileToBase64(read).Ok? then Some(FileData(files[0].name, files[0].mimeType, files[0].size, FileToBase64(read).value)) else None)
                && error == (if FileToBase64(read).Ok? then None else Some(CaughtMessage(FileToBase64(read).error)))
    {
      if disabled {
        return None;
      }
      if |files| > 0 {
        selected := ProcessFile(files[0], read);
      } else {
        selected := None;
      }
    }
  }

  /** Whatever the outcome, a read failure shows one of the two messages `fileToBase64` rejects with. */
  lemma ReadFailureMessages(read: ReadOutcome)
    requires FileToBase64(read).Err?
    ensures CaughtMessage(FileToBase64(read).error) in {UnreadableMessage, ReadFailedMessage}
  {
  }
}
