/**
 * The post_handshake_auth extension of section 4.2.6 of RFC 8446: its presence is the whole
 * message, so its body is empty and any body decodes.
 */
module PostHandshakeAuthExtensions {
  import opened TlsTypes
  import opened ExtensionTypes

  /** The extension carries nothing but its type. */
  datatype PostHandshakeAuthExtension = PostHandshakeAuthExtension
  {
    /** The extension's code: POST_HANDSHAKE_AUTH, 0x0031. */
    function GetType(): (t: int)
      ensures t == 0x0031
      ensures ExtensionTypeFromCode(t) == Some(PostHandshakeAuth)
    {
      PostHandshakeAuth.Code()
    }

    /** The body is empty. */
    function Encode(): (r: seq<byte>)
      ensures |r| == 0
    {
      []
    }

    /** Only TLS 1.3, written "1.3", carries this extension. */
    function IsApplicableForVersion(tlsVersion: string): (r: bool)
      ensures r <==> tlsVersion == "1.3"
    {
      tlsVersion == "1.3"
    }
  }

  /** The static `decode`: succeeds on any body and yields the extension. */
  function DecodePostHandshakeAuth(data: seq<byte>): (r: Result<PostHandshakeAuthExtension>)
    ensures r.Ok?
  {
    Ok(PostHandshakeAuthExtension)
  }

  /** Decoding what was encoded gives the extension back; the version check is TLS 1.3 only. */
  lemma PostHandshakeAuthRoundTrip(e: PostHandshakeAuthExtension)
    ensures DecodePostHandshakeAuth(e.Encode()) == Ok(e)
    ensures e.IsApplicableForVersion("1.3") && !e.IsApplicableForVersion("1.2")
  {
  }
}
