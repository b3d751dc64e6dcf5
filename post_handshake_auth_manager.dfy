/**
 * Post-handshake client authentication (section 4.6.2 of RFC 8446), the TLS 1.3 stand-in
 * for renegotiation: whether the client offered it, and whether a certificate request is
 * outstanding.
 */
module PostHandshakeAuthManagers {
  import opened TlsTypes
  import opened PostHandshakeAuthExtensions
  import opened RenegotiationManagers

  /** Post-handshake authentication exists in TLS 1.3 only. */
  function PostHandshakeAuthSupported(v: TlsVersion): (r: bool)
    ensures r <==> v !in {Ssl30, Tls10, Tls11, Tls12}
  {
    v == Tls13
  }

  /** Every version has exactly one of the two ways to authenticate a client again. */
  lemma RenegotiationOrPostHandshakeAuth(v: TlsVersion)
    ensures RenegotiationSupported(v) != PostHandshakeAuthSupported(v)
  {
    match v
    case Ssl30 => assert RenegotiationSupported(Ssl30);
    case Tls10 => assert RenegotiationSupported(Tls10);
    case Tls11 => assert RenegotiationSupported(Tls11);
    case Tls12 => assert RenegotiationSupported(Tls12);
    case Tls13 => assert !RenegotiationSupported(Tls13);
  }

  class PostHandshakeAuthManager {
    var enabled: bool
    var requestingCertificate: bool

    constructor ()
      ensures !enabled && !requestingCertificate
    {
      enabled := false;
      requestingCertificate := false;
    }

    method SetEnabled(value: bool)
      modifies this
      ensures enabled == value
      ensures requestingCertificate == old(requestingCertificate)
    {
      enabled := value;
    }

    /** Marks a certificate request outstanding; nothing checks that the feature is enabled. */
    method RequestClientCertificate()
      modifies this
      ensures requestingCertificate
      ensures enabled == old(enabled)
    {
      requestingCertificate := true;
    }

    method ResetCertificateRequest()
      modifies this
      ensures !requestingCertificate
      ensures enabled == old(enabled)
    {
      requestingCertificate := false;
    }

    /** The client's extension; it has no body. */
    function CreatePostHandshakeAuthExtension(): (extension: PostHandshakeAuthExtension)
      ensures extension.Encode() == []
      ensures DecodePostHandshakeAuth(extension.Encode()) == Ok(extension)
    {
      PostHandshakeAuthExtension
    }

    function IsSupportedForVersion(v: TlsVersion): (r: bool)
      ensures r <==> PostHandshakeAuthSupported(v)
    {
      v == Tls13
    }

    /**
     * The server's reading of a ClientHello: the feature is on exactly when the client sent
     * the extension, whatever it was set to before.
     */
    method ProcessClientPostHandshakeAuthExtension(extension: Option<PostHandshakeAuthExtension>) returns (accepted: bool)
      modifies this
      ensures accepted <==> extension.Some?
      ensures enabled == accepted
      ensures requestingCertificate == old(requestingCertificate)
    {
      enabled := extension.Some?;
      accepted := enabled;
    }
  }

  /**
   * A client's extension goes over the wire and the server accepts it; a later ClientHello
   * without it turns the feature off again. Requesting a certificate and resetting the
   * request leave the enabled flag alone.
   */
  method PostHandshakeAuthExchange() returns (accepted: bool, requesting: bool, withoutExtension: bool, stillRequesting: bool)
    ensures accepted && requesting && !withoutExtension && !stillRequesting
  {
    var client := new PostHandshakeAuthManager();
    var server := new PostHandshakeAuthManager();
    var wire := client.CreatePostHandshakeAuthExtension().Encode();
    var received := DecodePostHandshakeAuth(wire);
    accepted := server.ProcessClientPostHandshakeAuthExtension(Some(received.value));
    server.RequestClientCertificate();
    requesting := server.requestingCertificate && server.enabled;
    withoutExtension := server.ProcessClientPostHandshakeAuthExtension(None);
    server.ResetCertificateRequest();
    stillRequesting := server.requestingCertificate;
  }
}
