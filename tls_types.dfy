/**
 * Vocabulary shared by the handshake layer: bytes, the failure wrappers that stand in for
 * the exceptions the code throws, and the two collaborator enumerations the core consumes
 * without defining (handshake message types and protocol versions).
 */
module TlsTypes {

  /** One octet of a PHP binary string. */
  newtype byte = x: int | 0 <= x < 256

  datatype Option<+T> = None | Some(value: T)

  /** Why an operation refused its input; each case is one throw site of the code. */
  datatype Error =
    | InvalidState             // transitionTo with a state outside validStates
    | StageRegression          // advanceToStage to an earlier stage
    | ExtensionTruncated       // renegotiation_info decode of an empty buffer
    | ExtensionLengthMismatch  // renegotiation_info length byte larger than the rest
    | Uint16Unavailable        // decodeUint16 with fewer than two bytes at the offset

  /** A void operation that either completes or throws. */
  datatype Outcome = Pass | Fail(error: Error)

  /** A value-returning operation that either completes or throws. */
  datatype Result<+T> = Ok(value: T) | Err(error: Error)

  /**
   * Handshake message tags, consumed by identity only. They come from an external
   * package; their numeric codes play no part here.
   */
  datatype MessageType =
    | HelloRequest
    | ClientHello
    | ServerHello
    | NewSessionTicket
    | EncryptedExtensions
    | Certificate
    | ServerKeyExchange
    | CertificateRequest
    | ServerHelloDone
    | CertificateVerify
    | ClientKeyExchange
    | Finished

  /** Protocol versions; the managers only ever compare against TLS 1.3. */
  datatype TlsVersion = Ssl30 | Tls10 | Tls11 | Tls12 | Tls13
}
