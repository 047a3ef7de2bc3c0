/** The records the UI passes between its components (types.ts). */
module Types {

  /** Where the app is: waiting for input, working, or showing a result or an error. */
  datatype AppStatus = Idle | Uploading | Processing | Success | Error

  /** Which input the idle screen offers: a file drop or a YouTube link. */
  datatype InputMode = FileMode | UrlMode

  /** A media file ready for transcription: its name, MIME type, size in bytes and base64 payload. */
  datatype FileData = FileData(name: string, mimeType: string, size: nat, base64: string)
}
