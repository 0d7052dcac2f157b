/** Option and Result values, and the exceptions the modelled code raises or catches. */
module Wrappers {

  datatype Option<+T> = None | Some(value: T)

  /** The JavaScript exceptions that matter to the model, one constructor per kind. */
  datatype Error =
    | InvalidCharacter   // DOMException "InvalidCharacterError" from btoa or atob
    | SyntaxError        // JSON.parse given text that is not a well-formed descriptor
    | DataError          // importKey given raw key material of a length AES does not accept
    | OperationError     // AES-GCM decryption whose authentication tag does not verify
    | NotInitialized     // "PeerConnection not initialized"
    | Rejected           // a promise of the peer transport was rejected
    | InvalidInviteCode  // "Invalid invite code"

  /** The outcome of an operation that either returns a value or throws. */
  datatype Result<+T> = Success(value: T) | Failure(error: Error)

  /** The outcome of an operation that either completes or throws. */
  datatype Outcome = Pass | Fail(error: Error)
}
