/** The user-facing error messages of utils/errors.ts. */
module Errors {
  import opened Text

  /**
   * What a JavaScript `catch` can receive, as far as these rules look at it: an
   * `Error` with its message, a thrown string, or anything else.
   */
  datatype Thrown = ErrorValue(message: string) | StringValue(s: string) | OtherValue

  const UnexpectedMessage: string := "An unexpected error occurred."

  /**
   * The message that replaces every network-looking failure. It is written in four
   * pieces only so that the proofs below can look at each piece on its own.
   */
  const BackendMessage: string := BackendLead + BackendServer + BackendMiddle + BackendTail
  const BackendLead: string := "Could not connect to"
  const BackendServer: string := " the backend server."
  const BackendMiddle: string := " If running locally, ensure"
  const BackendTail: string := " 'node server.js' is active."

  /** The text a thrown value is shown as. */
  function NormalizeErrorMessage(error: Thrown): (r: string)
    ensures error.ErrorValue? ==> r == error.message
    ensures error.StringValue? ==> r == error.s
    ensures error.OtherValue? ==> r == UnexpectedMessage
  {
    match error
    case ErrorValue(m) => m
    case StringValue(s) => s
    case OtherValue => UnexpectedMessage
  }

  /** Normalising is a projection: a normalised message thrown again as a string normalises to itself. */
  lemma NormalizeIdempotent(error: Thrown)
    ensures NormalizeErrorMessage(StringValue(NormalizeErrorMessage(error))) == NormalizeErrorMessage(error)
  {
  }

  /** A message that looks like the backend could not be reached. */
  predicate IsNetworkError(message: string) {
    Contains(message, "Failed to fetch") || Contains(message, "NetworkError") || Contains(message, "Unexpected token")
  }

  /** The markers are looked for anywhere in the message: text around a network failure's message does not hide it. */
  lemma NetworkErrorInContext(before: string, message: string, after: string)
    requires IsNetworkError(message)
    ensures IsNetworkError(before + message + after)
  {
    if Contains(message, "Failed to fetch") {
      ContainsInContext(before, message, after, "Failed to fetch");
    } else if Contains(message, "NetworkError") {
      ContainsInContext(before, message, after, "NetworkError");
    } else {
      ContainsInContext(before, message, after, "Unexpected token");
    }
  }

  /** The message shown for a failed YouTube request: the fixed backend message for network failures, the normalised message otherwise. */
  function MapYoutubeErrorMessage(error: Thrown): (r: string)
    ensures IsNetworkError(NormalizeErrorMessage(error)) ==> r == BackendMessage
    ensures !IsNetworkError(NormalizeErrorMessage(error)) ==> r == NormalizeErrorMessage(error)
  {
    var message := NormalizeErrorMessage(error);
    if IsNetworkError(message) then BackendMessage else message
  }

  /** The fixed backend message carries none of the three markers. */
  lemma BackendMessageNotNetworkError()
    ensures !IsNetworkError(BackendMessage)
  {
    MarkerInitialsAbsent();
    NotContainsByFirstChar(BackendMessage, "Failed to fetch");
    NotContainsByFirstChar(BackendMessage, "NetworkError");
    NotContainsByFirstChar(BackendMessage, "Unexpected token");
  }

  /** None of the markers' first letters, 'F', 'N' and 'U', occurs in the fixed message. */
  lemma MarkerInitialsAbsent()
    ensures 'F' !in BackendMessage && 'N' !in BackendMessage && 'U' !in BackendMessage
  {
    LeadFree();
    ServerFree();
    MiddleFree();
    TailFree();
    AbsentFromConcat(BackendLead, BackendServer);
    AbsentFromConcat(BackendLead + BackendServer, BackendMiddle);
    AbsentFromConcat(BackendLead + BackendServer + BackendMiddle, BackendTail);
  }

  predicate NoInitials(s: string) {
    'F' !in s && 'N' !in s && 'U' !in s
  }

  lemma LeadFree() ensures NoInitials(BackendLead) {}

  lemma ServerFree() ensures NoInitials(BackendServer) {}

  lemma MiddleFree() ensures NoInitials(BackendMiddle) {}

  lemma TailFree() ensures NoInitials(BackendTail) {}

  lemma AbsentFromConcat(a: string, b: string)
    requires NoInitials(a) && NoInitials(b)
    ensures NoInitials(a + b)
  {
  }

  /** Fed back as a string, the fixed message maps to itself. */
  lemma BackendMessageFixed()
    ensures MapYoutubeErrorMessage(StringValue(BackendMessage)) == BackendMessage
  {
    BackendMessageNotNetworkError();
  }

  /** Mapping twice is mapping once. */
  lemma MapIdempotent(error: Thrown)
    ensures MapYoutubeErrorMessage(StringValue(MapYoutubeErrorMessage(error))) == MapYoutubeErrorMessage(error)
  {
    BackendMessageNotNetworkError();
  }

  /** The mapping leaves a message alone exactly when it is not a network failure or it already is the fixed message. */
  lemma MapUnchangedIff(error: Thrown)
    ensures MapYoutubeErrorMessage(error) == NormalizeErrorMessage(error)
            <==> !IsNetworkError(NormalizeErrorMessage(error)) || NormalizeErrorMessage(error) == BackendMessage
  {
  }
}
