/**
 * The two halves of utils/base64.ts: taking the payload out of the data URL a file
 * reader produces, and turning a decoded payload back into a typed blob.
 */
module Base64 {
  import opened Common
  import opened Text
  import opened Errors

  /** How `readAsDataURL` ended: with the data URL it read, or with the reader's error event. */
  datatype ReadOutcome = Loaded(dataUrl: string) | ReadFailed

  const UnreadableMessage: string := "Unable to read file contents."
  const ReadFailedMessage: string := "Failed to read file."

  /** `s.split(',')[1]`, where a missing element (`undefined`) is read as the empty string, which is equally falsy. */
  function SecondField(s: string): string {
    var parts := Split(s, ',');
    if |parts| > 1 then parts[1] else ""
  }

  /**
   * The promise `fileToBase64` settles with: the text between the first and the second
   * comma of the data URL, or a rejection with an `Error`.
   */
  function FileToBase64(read: ReadOutcome): (r: Result<string, Thrown>)
    ensures read.ReadFailed? ==> r == Err(ErrorValue(ReadFailedMessage))
    ensures r.Ok? ==> r.value != "" && ',' !in r.value
    ensures read.Loaded? && r.Err? ==> r == Err(ErrorValue(UnreadableMessage))
  {
    match read
    case ReadFailed => Err(ErrorValue(ReadFailedMessage))
    case Loaded(dataUrl) =>
      SplitPiecesFree(dataUrl, ',');
      var payload := SecondField(dataUrl);
      if payload == "" then Err(ErrorValue(UnreadableMessage)) else Ok(payload)
  }

  /** A data URL without a comma has no payload. */
  lemma NoCommaRejected(dataUrl: string)
    requires ',' !in dataUrl
    ensures FileToBase64(Loaded(dataUrl)) == Err(ErrorValue(UnreadableMessage))
  {
    SplitPiece(dataUrl, ',');
  }

  /** With exactly one comma, the payload is everything after it, and an empty one is refused. */
  lemma OneCommaPayload(meta: string, payload: string)
    requires ',' !in meta && ',' !in payload
    ensures FileToBase64(Loaded(meta + [','] + payload))
            == if payload == "" then Err(ErrorValue(UnreadableMessage)) else Ok(payload)
  {
    SplitOnce(meta, payload, ',');
  }

  /** With further commas, the payload stops at the second one; what follows it is ignored. */
  lemma MoreCommasPayload(meta: string, payload: string, rest: string)
    requires ',' !in meta && ',' !in payload
    ensures FileToBase64(Loaded(meta + [','] + payload + [','] + rest))
            == if payload == "" then Err(ErrorValue(UnreadableMessage)) else Ok(payload)
  {
    SplitAfterPiece(meta, payload + [','] + rest, ',');
    SplitAfterPiece(payload, rest, ',');
    assert meta + [','] + payload + [','] + rest == meta + [','] + (payload + [','] + rest);
  }

  /** A blob: the MIME type it was given and the bytes it holds. */
  datatype Blob = Blob(mimeType: string, bytes: seq<byte>)

  /** What a `Uint8Array` stores for a number: its value modulo 256. */
  function ToUint8(n: int): (b: byte)
    ensures 0 <= n < 256 ==> b as int == n
    ensures (b as int - n) % 256 == 0
  {
    (n % 256) as byte
  }

  /** The bytes of a decoded string: each character's code, stored as an octet. */
  function Latin1Bytes(s: string): (bs: seq<byte>)
    ensures |bs| == |s|
    ensures forall i :: 0 <= i < |s| ==> (bs[i] as int - s[i] as int) % 256 == 0
  {
    seq(|s|, i requires 0 <= i < |s| => ToUint8(s[i] as int))
  }

  /** A string whose characters all have codes below 256 (what `atob` yields) turns into exactly those codes. */
  lemma Latin1BytesExact(s: string)
    requires forall i :: 0 <= i < |s| ==> s[i] as int < 256
    ensures forall i :: 0 <= i < |s| ==> Latin1Bytes(s)[i] as int == s[i] as int
  {
  }

  /** The first loop of `base64ToBlob`: every index `0..n-1` receives the char code of character `i`. */
  method CharCodes(byteCharacters: string) returns (byteNumbers: array<int>)
    ensures byteNumbers.Length == |byteCharacters|
    ensures forall i :: 0 <= i < |byteCharacters| ==> byteNumbers[i] == byteCharacters[i] as int
  {
    byteNumbers := new int[|byteCharacters|];
    for i := 0 to |byteCharacters|
      invariant forall j :: 0 <= j < i ==> byteNumbers[j] == byteCharacters[j] as int
    {
      byteNumbers[i] := byteCharacters[i] as int;
    }
  }

  /** `new Uint8Array(numbers)`: one octet per number, in order. */
  method Uint8Array(numbers: array<int>) returns (bytes: seq<byte>)
    ensures |bytes| == numbers.Length
    ensures forall i :: 0 <= i < numbers.Length ==> bytes[i] == ToUint8(numbers[i])
  {
    bytes := [];
    for i := 0 to numbers.Length
      invariant |bytes| == i
      invariant forall j :: 0 <= j < i ==> bytes[j] == ToUint8(numbers[j])
    {
      bytes := bytes + [ToUint8(numbers[i])];
    }
  }

  /**
   * `base64ToBlob`: decode the payload with `atob` (a parameter here), copy the char
   * codes into an array and wrap them, with the given MIME type, in a blob. `atob` is
   * taken never to throw: every payload it is given is the output of a `FileReader`
   * data URL or of the server's `Buffer` encoding, so it is valid base64.
   */
  method Base64ToBlob(base64: string, mimeType: string, atob: string -> string) returns (blob: Blob)
    ensures blob == Blob(mimeType, Latin1Bytes(atob(base64)))
  {
    var byteCharacters := atob(base64);
    var byteNumbers := CharCodes(byteCharacters);
    var byteArray := Uint8Array(byteNumbers);
    blob := Blob(mimeType, byteArray);
  }
}
