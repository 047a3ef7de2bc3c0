# gemini-vtt-transcriber, modelled in Dafny

gemini-vtt-transcriber turns audio and video into WebVTT subtitles with Google's Gemini
models. It has three parts:

- a React front end. It takes an uploaded file or a YouTube link, shows the subtitles and
  offers them for download;
- a small Express server, `server.js`. It downloads a YouTube video's audio with `yt-dlp`
  and hands it back base64-encoded;
- a Python command-line tool, `main.py`, that does the whole job locally.

This project models the logic of those parts and proves what they promise:

- **subtitles** (`vtt.dfy`, `vtt_properties.dfy`, `vtt_document.dfy`):
  - the subtitle parser of `utils/vtt.ts`, with its fence cleaning, timestamp reading and cue scanning;
  - the parser is an imperative method proved equal to a specification function, with properties of that function;
  - documents made of well-formed cue blocks parse to one cue per block, in order, and the worked two-block example parses to its two cues;
- **error messages** (`errors.dfy`): the error messages of `utils/errors.ts`;
- **base64** (`base64.dfy`):
  - the data-URL payload extraction and the byte-copy loop of `utils/base64.ts`;
  - `components/ResultViewer.tsx:13-21` holds an identical copy of `base64ToBlob`, modelled by the same `Base64.Base64ToBlob`;
- **forms** (`url_input.dfy`, `dropzone.dfy`):
  - the link form of `components/UrlInput.tsx`: the regular expression read as a language, and a deterministic matcher proved equal to it;
  - the upload checks of `components/Dropzone.tsx`;
- **result screen** (`result_viewer.dfy`): the download name and the preview conditions of `components/ResultViewer.tsx`;
- **app state** (`app.dfy`): the status machine of `App.tsx`, as a class whose handlers are single steps;
- **YouTube server** (`server.dfy`): the download handler of `server.js`, over a temporary directory whose files it reads and deletes;
- **command line** (`cli.dfy`): the file naming, fence removal, header anchoring and cleanup guards of `main.py`.

Shared modules:

- `common.dfy`: `Option`, `Result` and `byte`;
- `text.dfy`: the JavaScript and Python string built-ins the sources call;
- `types.dfy`: `FileData`, `AppStatus` and the input mode.

Three conventions run through the model:

- **times**: cue times are integer milliseconds, so the float formula of `parseTimestamp` is exact;
- **outside calls**: every call into a browser API, a process or a remote service becomes a parameter or a given outcome, including `atob`, base64 encoding, object URLs, `yt-dlp`, Gemini and `fetch`;
- **handlers**: each handler is one step that receives those outcomes.

Four behaviours of the code are easy to misread; the model follows the code in each:

- `cleanVttText` is not idempotent: `Vtt.CleanVttTextNotIdempotent` shows an input whose second cleaning changes it again.
- A block whose timing line does not read is not skipped as a whole. Scanning resumes on the very next line, so the block's text lines are scanned again and can start a cue (`VttProperties.UnreadableTimingRescans`, `VttProperties.MalformedBlockTextRescanned`).
- The error path of the server does not clean up. With `KEEP_TEMP_FILES` unset, the `catch` names `filePath`. That variable was declared with `let` inside the `try`, so the `catch` itself raises a `ReferenceError` and sends no reply. The error is raised inside the `exec` callback, and no handler for uncaught exceptions is installed, so it ends the Node process: this path crashes the server. With the flag set, it replies 500 and deletes nothing. The message thrown for a missing output file is only logged.
- The link handler of `App.tsx` repeats the rule of `mapYoutubeErrorMessage` inline rather than calling it. When the thrown value is not an `Error`, its `err.message.includes(...)` itself throws, and no state is set. `App.UrlErrorMessage` returns `None` for that case.

## Model

| member | source | states |
|---|---|---|
| Vtt.CleanVttText | utils/vtt.ts:1-5 | the result is a trimmed piece of the input that starts after the removed fence openers, with no whitespace at either end |
| Vtt.CleanVttTextInteriorUntouched | utils/vtt.ts:1-5 | text with no fence at either end is only trimmed; fences inside it stay |
| Vtt.CleanVttTextRemovesOneOpener | utils/vtt.ts:2 | only one leading "```vtt\n" is removed; a second one survives |
| Vtt.CleanVttTextNotIdempotent | utils/vtt.ts:1-5 | " ```vtt\nX" cleans to "```vtt\nX", which cleans again to "X" |
| Vtt.CleanVttTextStripsFences | utils/vtt.ts:1-5 | for every body not starting with "```\n", the body between "```vtt\n" and "\n```" comes out trimmed, with both fences gone |
| Vtt.CleanVttTextStripsPlainFences | utils/vtt.ts:1-5 | for every body, the body between "```\n" and "\n```" comes out trimmed, with both fences gone |
| Vtt.CleanVttTextStripsBothFences | utils/vtt.ts:1-5 | for every body, "```vtt\n" then "```\n" in front and "\n```" behind are all removed, and the body is trimmed |
| Vtt.ParseTimestamp | utils/vtt.ts:13-25 | a value exactly when the trimmed token matches `(\d{2}:)?\d{2}:\d{2}\.\d{3}`, and then at most the largest time the pattern can write |
| Vtt.ParseTimestampBySplit | utils/vtt.ts:17-24 | for a matching token, splitting the untrimmed token at ':' and '.' and reading each piece with `Number()` gives the same time as reading the fields by position |
| Vtt.ParseTimestampNoRangeCheck | utils/vtt.ts:14-24 | "00:99:99.999" is accepted as 99 minutes and 99.999 seconds |
| Vtt.ParseTimestampHourGroup | utils/vtt.ts:14-21 | without an hour group the hours are 0; three hour digits are refused |
| Vtt.ParseTiming | utils/vtt.ts:47-55 | a timing line read to times contains the arrow |
| Vtt.ParseTimingReadsTokens | utils/vtt.ts:52-58 | a line reads as times exactly when it has an arrow and the trimmed first token of each side is a timestamp; the times are those the tokens denote |
| Vtt.TimingTokenPadded | utils/vtt.ts:52 | a side made of whitespace, a timestamp, then nothing or a space and anything has that timestamp for its token |
| Vtt.ParseTimingSettingsIgnored | utils/vtt.ts:52-58 | for all timestamps a and b and any settings text, "a --> b settings" reads as the times of a and b; the settings, another arrow included, are ignored |
| Vtt.CueTextOfLines | utils/vtt.ts:61-70 | a cue's text is its raw text lines joined with line feeds and trimmed |
| Vtt.ViewLine | utils/vtt.ts:35-55 | a line's view keeps the raw line; a line with an arrow is neither blank nor the header, and only a line with an arrow reads as times |
| Vtt.StepAt | utils/vtt.ts:35-73 | every pass of the loop moves the cursor forward by at least one line and at most one past the end |
| Vtt.ParseFromStep | utils/vtt.ts:34-74 | the cues from a cursor are the cue of the pass there, then the cues from where the pass leaves the cursor |
| Vtt.SkipLine | utils/vtt.ts:35-39 | a blank line or a line that trims to "WEBVTT" is passed over without a cue |
| Vtt.DropBlock | utils/vtt.ts:41-58 | a block whose timing line has no arrow or an unreadable side yields no cue and consumes only the identifier and timing lines |
| Vtt.TakeStep | utils/vtt.ts:60-73 | a readable timing line yields its cue and moves the cursor past the blank line that ends the text |
| Vtt.TakeBlock | utils/vtt.ts:60-73 | seen from the whole parse, that cue comes first and parsing goes on after the blank line |
| Vtt.CollectText | utils/vtt.ts:61-65 | the inner loop gathers exactly the lines up to the first line that trims to empty |
| Vtt.Pass | utils/vtt.ts:35-73 | one pass of the loop body computes the specification's step: the same advance and the same cue |
| Vtt.TakeCue | utils/vtt.ts:60-73 | the rest of a pass once the times are read computes the specification's step |
| Vtt.ParseLines | utils/vtt.ts:31-76 | the outer loop returns the cues of the specification parse from line 0 |
| Vtt.ParseVtt | utils/vtt.ts:27-77 | parseVtt returns the specification parse of the document, which is empty for empty text |
| VttProperties.CarriageReturnsIgnored | utils/vtt.ts:30 | deleting every carriage return first does not change the cues |
| VttProperties.TimingLinesCount | utils/vtt.ts:34-76 | there is exactly one timing line per cue |
| VttProperties.TimingLinesIncrease | utils/vtt.ts:34-76 | the cues' timing lines lie at or after the cursor, in strictly increasing order |
| VttProperties.CuesInDocumentOrder | utils/vtt.ts:34-76 | the k-th cue carries the times and text of the k-th timing line the cursor stops at (`TimingLines`); nothing sorts or drops cues |
| VttProperties.CueCountBound | utils/vtt.ts:34-76 | a document of n lines yields at most (n+1)/2 cues |
| VttProperties.EmptyCueText | utils/vtt.ts:60-71 | a timing line followed by a blank line or the end yields a cue with empty text |
| VttProperties.IdentifierIgnored | utils/vtt.ts:41-50 | an identifier line in front of a timing line changes nothing |
| VttProperties.TwoLinesWithoutTimingSkipped | utils/vtt.ts:41-50 | a line without an arrow followed by another one: both are passed over and scanning resumes after them |
| VttProperties.UnreadableTimingRescans | utils/vtt.ts:52-58 | a timing line whose times do not read is dropped alone and scanning resumes on the next line |
| VttProperties.MalformedBlockTextRescanned | utils/vtt.ts:52-58 | a readable timing line right after an unreadable one yields its cue |
| VttDocument.RenderedBlocksParse | utils/vtt.ts:27-77 | for every list of well-formed blocks, the rendered document parses to exactly one cue per block, in block order, with the block's times and its text lines joined and trimmed |
| VttDocument.BlocksParse | utils/vtt.ts:34-76 | blocks read from a cursor to the end yield their cues, in order |
| VttDocument.BlockParse | utils/vtt.ts:41-73 | a well-formed block, with or without an identifier line, yields its cue, and parsing goes on after its blank line |
| VttDocument.TimedParse | utils/vtt.ts:60-73 | a readable timing line followed by text lines yields the cue of those times and that text |
| VttDocument.IdentifierStep | utils/vtt.ts:36-50 | a line without an arrow in front of a readable timing line is passed over |
| VttDocument.TwoBlocks | utils/vtt.ts:27-77 | any two blocks without identifiers and with one trimmed text line each parse to their two cues |
| VttDocument.TwoBlockExample | utils/vtt.ts:27-77 | "WEBVTT", a blank line, "00:00:01.000 --> 00:00:03.500", "Hello world", a blank line, "00:00:05.000 --> 00:00:06.000", "Second line" parse to cues at 1000-3500 and 5000-6000 ms with those texts |
| Errors.NormalizeErrorMessage | utils/errors.ts:1-11 | an Error's message, a string itself, anything else the fixed unexpected-error text |
| Errors.NormalizeIdempotent | utils/errors.ts:1-11 | normalising the normalised message as a string gives it back |
| Errors.MapYoutubeErrorMessage | utils/errors.ts:13-22 | the fixed backend message exactly when the normalised message has a network marker, the normalised message otherwise |
| Errors.NetworkErrorInContext | utils/errors.ts:15-17 | the markers are looked for anywhere: text around a network failure's message still marks it as one |
| Errors.BackendMessageNotNetworkError | utils/errors.ts:15-20 | the fixed backend message contains none of the three markers |
| Errors.BackendMessageFixed | utils/errors.ts:13-22 | the backend message fed back as a string maps to itself |
| Errors.MapIdempotent | utils/errors.ts:13-22 | mapping the mapped message again changes nothing |
| Errors.MapUnchangedIff | utils/errors.ts:13-22 | the mapping leaves the message unchanged exactly when it has no marker or is already the backend message |
| Base64.FileToBase64 | utils/base64.ts:1-14 | a reader failure rejects with "Failed to read file."; any other rejection is "Unable to read file contents."; a payload is non-empty and has no comma |
| Base64.NoCommaRejected | utils/base64.ts:4-8 | a data URL without a comma is rejected as unreadable |
| Base64.OneCommaPayload | utils/base64.ts:4-9 | with one comma the payload is everything after it, and an empty one is rejected |
| Base64.MoreCommasPayload | utils/base64.ts:4-9 | with more commas the payload stops at the second one |
| Base64.ToUint8 | utils/base64.ts:21 | a stored octet agrees with its number modulo 256, and is the number itself below 256 |
| Base64.Latin1Bytes | utils/base64.ts:17-22 | one octet per decoded character, each agreeing with the character's code modulo 256 |
| Base64.Latin1BytesExact | utils/base64.ts:16-21 | a decoded string of codes below 256 becomes exactly those codes |
| Base64.CharCodes | utils/base64.ts:17-20 | the loop fills one slot per character, slot i with the code of character i |
| Base64.Uint8Array | utils/base64.ts:21 | one octet per number, in order |
| Base64.Base64ToBlob | utils/base64.ts:16-23 | the blob has the given MIME type and the octets of the decoded payload |
| UrlInput.ValidateUrlMatchesPattern | components/UrlInput.tsx:13-16 | the matcher accepts exactly the strings the anchored pattern describes |
| UrlInput.CapitalizedHostRejected | components/UrlInput.tsx:14 | matching is case-sensitive: "YouTube.com/x" is refused |
| UrlInput.BareHostAccepted | components/UrlInput.tsx:14 | "youtube/x" is accepted, since the dot of `youtu.be` is optional |
| UrlInput.EmptyPathRejected | components/UrlInput.tsx:14 | a link ending in the slash is refused |
| UrlInput.UrlForm.constructor | components/UrlInput.tsx:10-11 | the form starts with empty text and no message |
| UrlInput.UrlForm.HandleSubmit | components/UrlInput.tsx:18-28 | blank text does nothing; refused text sets the message; accepted text clears it and is handed on untrimmed |
| UrlInput.UrlForm.OnChange | components/UrlInput.tsx:56-59 | editing stores the text and clears any message |
| Dropzone.AdmissionError | components/Dropzone.tsx:11-29 | no message exactly for a media type within the size limit; the type message exactly for a non-media type; the size message exactly for oversized media |
| Dropzone.SizeLimitInclusive | components/Dropzone.tsx:26-29 | 20971520 bytes are accepted and one more byte is refused |
| Dropzone.TypeCheckedFirst | components/Dropzone.tsx:21-29 | an oversized file of a non-media type gets the type message |
| Dropzone.CaughtMessage | components/Dropzone.tsx:40-41 | a caught `Error` shows its message; any other thrown value shows "Failed to read file." |
| Dropzone.ReadFailureMessages | components/Dropzone.tsx:40-42 | a failed read shows one of the two reader messages |
| Dropzone.DropArea.constructor | components/Dropzone.tsx:15 | the drop area starts without a message |
| Dropzone.DropArea.ProcessFile | components/Dropzone.tsx:18-43 | a refused file sets its message and selects nothing; an admitted file read to a payload is selected with its name, type and size and the message cleared; a failed read sets the read message |
| Dropzone.DropArea.HandleDrop | components/Dropzone.tsx:55-61 | a drop while disabled or without files changes nothing; otherwise only the first file is processed, with the selection and the new message ProcessFile gives |
| ResultViewer.ExtensionAtUnique | components/ResultViewer.tsx:65 | the extension pattern can match at one place at most |
| ResultViewer.StripExtension | components/ResultViewer.tsx:65 | where the pattern matches, what precedes its dot is kept; where it matches nowhere, the name is kept whole |
| ResultViewer.StripExtensionOf | components/ResultViewer.tsx:65 | a stem, a dot and an extension free of '/' and '.' lose exactly the dot and the extension |
| ResultViewer.DownloadName | components/ResultViewer.tsx:65 | the download name ends in ".vtt" |
| ResultViewer.DownloadNameExamples | components/ResultViewer.tsx:65 | "a.b.mp4" gives "a.b.vtt", "x" gives "x.vtt", "x." gives "x..vtt" |
| ResultViewer.Preview.constructor | components/ResultViewer.tsx:25-26 | the screen starts without object URLs |
| ResultViewer.Preview.FileDataEffect | components/ResultViewer.tsx:28-39 | a video URL exactly for video file data, made from the blob of its decoded bytes; the track URL is untouched |
| ResultViewer.Preview.ContentEffect | components/ResultViewer.tsx:41-52 | no track URL for empty content, otherwise one made from the content |
| ResultViewer.Preview.Render | components/ResultViewer.tsx:106-131 | the player shows exactly for video data with content, the notice exactly for non-video data with a link, and never both |
| App.FileErrorMessage | App.tsx:26-29 | the file path always shows a non-empty message |
| App.UrlErrorMessage | App.tsx:59-64 | a message exactly for a thrown `Error`, and then the one `mapYoutubeErrorMessage` gives: the link path repeats its rule inline |
| App.UrlFailure | App.tsx:38-58 | a reply that is not ok always throws an Error |
| App.NotOkSkipsTranscription | App.tsx:45-48 | after a reply that is not ok, the transcription outcome plays no part |
| App.NotOkMessage | App.tsx:45-64 | a reply that is not ok shows its error field or the download failure message, mapped like a network failure |
| App.AppState.constructor | App.tsx:10-15 | idle, file mode, no file, empty link and subtitles, no message |
| App.AppState.SetInputMode | App.tsx:128-138 | the toggle changes only the input mode |
| App.AppState.HandleFileSelect | App.tsx:17-31 | the file is stored; success shows the subtitles, failure the message, in the error state |
| App.AppState.HandleUrlSubmit | App.tsx:33-68 | the link is stored; a delivered file is stored; success shows the subtitles; a failure shows its mapped message; a thrown non-Error leaves the state processing |
| App.AppState.HandleReset | App.tsx:70-76 | everything returns to the start except the input mode |
| App.AppState.ViewerYoutubeUrl | App.tsx:193 | the result screen gets the link only in link mode |
| App.AppState.ViewerFileName | App.tsx:190 | the result screen gets the file's name, or "transcription" when it is absent or empty |
| YoutubeServer.KeepTempFiles | server.js:15 | files are kept exactly when the variable is "true" or "1" |
| YoutubeServer.ExpectedName | server.js:47 | the expected name starts with the request's prefix and ends in ".mp3" |
| YoutubeServer.SharedPrefixSameTimestamp | server.js:55 | a name with the prefixes of two timestamps belongs to one timestamp |
| YoutubeServer.PrefixesDisjoint | server.js:33-55 | no file name matches the prefixes of two different timestamps |
| YoutubeServer.FirstMp3IndexFirst | server.js:58 | the index found is the first ".mp3" candidate, and none means there is none |
| YoutubeServer.FirstCandidateIndexFirst | server.js:59 | the index found is the first candidate, and none means there is none |
| YoutubeServer.FindMp3OfCandidates | server.js:53-58 | finding an ".mp3" among the filtered names picks the first ".mp3" candidate of the listing |
| YoutubeServer.FirstOfCandidates | server.js:53-59 | the first filtered name is the listing's first candidate, and there is none exactly when none is listed |
| YoutubeServer.LocateOutputChoice | server.js:47-60 | the expected file if it exists, else the first ".mp3" candidate, else the first candidate |
| YoutubeServer.LocateOutput | server.js:47-62 | a located file is the existing expected file or a listed candidate; nothing is located exactly when the expected file is missing and no listed name is a candidate |
| YoutubeServer.Mp3Preferred | server.js:58-59 | an ".mp3" candidate wins over a candidate listed before it |
| YoutubeServer.TempDir.constructor | server.js:52-54 | a directory is built from its files and a listing of exactly their names, so that `existsSync` and `readdirSync` see the same directory |
| YoutubeServer.TempDir.Unlink | server.js:74 | the file leaves the directory and its listing, and nothing else changes |
| YoutubeServer.WithoutNames | server.js:74 | the listing after a deletion holds exactly the other names |
| YoutubeServer.MissingOutputMessage | server.js:62-65 | the thrown message carries the trimmed stderr, or the fixed text when that is empty |
| YoutubeServer.ProcessYoutube | server.js:27-93 | no link gives 400; a failed download gives 500 with the details and leaves the files and their listing as they were; a found file gives 200 with its record, deleted exactly when not kept; no file gives 500 when kept and escapes with a ReferenceError otherwise |
| Cli.AudioPath | main.py:24-45 | the audio path is "temp_audio_", the timestamp and ".mp3" |
| Cli.AudioPathInjective | main.py:24-25 | downloads at different seconds use different paths |
| Cli.VideoTitle | main.py:43 | the reported title, or "video_" followed by the timestamp |
| Cli.KeptChars | main.py:116 | only alphanumeric characters and ' ', '-', '_' survive the filter |
| Cli.KeptCharsConcat | main.py:116 | filtering a concatenation filters each part |
| Cli.KeptCharsAllKept | main.py:116 | a title of kept characters passes unchanged |
| Cli.SafeTitle | main.py:116 | the sanitised title has only kept characters and no whitespace at either end |
| Cli.SafeTitleIdempotent | main.py:116 | sanitising twice is sanitising once |
| Cli.OutputFilename | main.py:116-117 | the output name is the sanitised title followed by ".vtt" |
| Cli.OutputFilenameExample | main.py:116-117 | " a:b " gives "ab.vtt" |
| Cli.RemoveFenceFree | main.py:120 | removing every "```" left to right leaves no "```", even where removal brings backticks together |
| Cli.CleanContent | main.py:120 | the cleaned text contains no "```" |
| Cli.CleanContentIdempotent | main.py:120 | cleaning clean text changes nothing |
| Cli.AnchorHeader | main.py:123-127 | text containing "WEBVTT" ends up starting with it; text without it, or already starting with it, is unchanged |
| Cli.AnchorAtFirstHeader | main.py:123-127 | the result always starts at the first occurrence of "WEBVTT" |
| Cli.AnchorKeepsNoFence | main.py:123-127 | anchoring brings no fence back |
| Cli.SaveVtt | main.py:112-127 | the saved name ends in ".vtt"; the saved text has no "```" and starts with "WEBVTT" whenever the cleaned text contains it |
| Cli.ResolveUrl | main.py:160-167 | a non-empty argument is used as it is; otherwise the stripped typed line, and nothing when that is empty |
| Cli.ResolveUrlStripping | main.py:160-163 | a typed link is already stripped; an argument of spaces is used as it is |
| Cli.WorkDir.Cleanup | main.py:139-141 | the local file is gone afterwards, and nothing else changes |
| Cli.WorkDir.Finish | main.py:184-186 | cleanup runs exactly when an audio path was set |
| Cli.WorkDir.Steps | main.py:172-177 | the downloaded audio is in place, and a transcript is saved under the sanitised name |
| Cli.WorkDir.Run | main.py:153-186 | no link or a failed download touches nothing; a later failure leaves no audio; success leaves the subtitles and no audio |
| Cli.OutputNotAudio | main.py:45 | the subtitle file and the audio file never share a name |

## Left out

- I/O and outside services are not modelled:
  - the network, `fetch` and the Express setup, static serving and `listen`;
  - the `yt-dlp` process, the Gemini SDK calls, and `services/geminiService.ts` with `services/youtubeService.ts`;
  - each is given to the handlers as an outcome.
- Browser and encoding functions are parameters: `atob`, base64 encoding, `URL.createObjectURL` and Python's `str.isalnum`. The blob of the subtitle track is taken as opaque, so its UTF-8 encoding is not modelled.
- Base64.Base64ToBlob: `atob` is taken never to throw. Its callers give it only a `FileReader` data URL's payload or the server's `Buffer` encoding, which are valid base64; the `InvalidCharacterError` of a malformed payload is not modelled.
- Whitespace follows the published tables instead of being abstract. JavaScript's `trim` and Python's `strip` use the whitespace sets of ECMA-262 and of Python's `str.isspace`, written out as character ranges.
- Floating point is not modelled: cue times are integer milliseconds.
- Vtt.JsNumber: reads only a trimmed run of decimal digits. This covers every piece a matching timestamp produces; other `Number()` inputs are not read.
- Timers, promise sequencing and polling are not modelled. This covers:
  - the copy-feedback timeout;
  - the object URL revocation in the effect cleanups;
  - the Gemini processing poll of `main.py`.
- Drag visuals, `isDragging`, the file-picker click, JSX and styling are presentation only.
- `hooks/useObjectUrl.ts` is not part of this model. It is not used by the modelled components.
- YoutubeServer.ProcessYoutube: does not model a failing `readFileSync` or `statSync` on a file that exists, or a failing unlink. The reply's `size` is the byte count read, standing in for the `stat` size.
- YoutubeServer.ProcessYoutube: the reply body is modelled as a `Body` value, `details` included, but its JSON encoding is not, and neither is the `success: true` flag of the success reply.
- Concurrent requests that share a `Date.now()` value are not modelled; the timestamp is a parameter. `YoutubeServer.PrefixesDisjoint` covers distinct timestamps.
- Cli.WorkDir.Run: covers the steps after the API key check. The `setup_gemini` exit, the remote Gemini file deletion in `cleanup` and a `KeyboardInterrupt` are not modelled. A write failure in `save_vtt` is treated as a completed write.
- Cli.WorkDir.Cleanup: a failing `os.remove` is not modelled. The source catches and prints it and leaves the file; the model always deletes an existing file.
- App.FileErrorMessage: a thrown `null` or `undefined` is not modelled. Reading `err.message` on it throws again inside the `catch`; the model shows the default message, as for any other thrown value without a message.
- App.AppState.HandleUrlSubmit: the request body and the JSON parse of an ok reply are a given outcome (`Delivered`).
