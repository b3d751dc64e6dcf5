/**
 * The renegotiation_info extension of section 3.2 of RFC 5746: an opaque value behind a
 * one-byte length (`renegotiated_connection<0..255>`).
 */
module RenegotiationInfoExtensions {
  import opened TlsTypes
  import opened ExtensionTypes

  /** The length byte, as `chr` writes it: the length modulo 256. */
  function LengthByte(n: nat): (b: byte)
    ensures n < 256 ==> b as int == n
  {
    (n % 256) as byte
  }

  /** The extension body: the length byte, then the value. */
  function EncodeRenegotiationInfo(data: seq<byte>): (r: seq<byte>)
    ensures |r| == |data| + 1
    ensures r[1..] == data
    ensures r[0] as int == |data| % 256
  {
    [LengthByte(|data|)] + data
  }

  /**
   * Reads the length byte and that many bytes after it; bytes beyond are ignored. An empty
   * body is truncated; a length byte larger than what follows is a mismatch.
   */
  function DecodeRenegotiationInfo(data: seq<byte>): (r: Result<seq<byte>>)
    ensures |data| == 0 ==> r == Err(ExtensionTruncated)
    ensures |data| > 0 && |data| - 1 < data[0] as int ==> r == Err(ExtensionLengthMismatch)
    ensures r.Ok? <==> |data| > 0 && data[0] as int <= |data| - 1
    ensures r.Ok? ==> |r.value| == data[0] as int
    ensures r.Ok? ==> EncodeRenegotiationInfo(r.value) == data[..1 + |r.value|]
  {
    if |data| < 1 then Err(ExtensionTruncated)
    else
      var length := data[0] as int;
      if |data| - 1 < length then Err(ExtensionLengthMismatch)
      else if length > 0 then Ok(data[1..1 + length])
      else Ok([])
  }

  /**
   * Decoding what was encoded gives back the value when it fits the length byte, whatever
   * follows it; a longer value comes back cut to its length modulo 256.
   */
  lemma {:induction false} RenegotiationInfoRoundTrip(x: seq<byte>, rest: seq<byte>)
    ensures |x| < 256 ==> DecodeRenegotiationInfo(EncodeRenegotiationInfo(x) + rest) == Ok(x)
    ensures DecodeRenegotiationInfo(EncodeRenegotiationInfo(x)) == Ok(x[..|x| % 256])
  {
    var e := EncodeRenegotiationInfo(x);
    assert (e + rest)[0] == e[0];
    if |x| < 256 {
      assert (e + rest)[1..1 + |x|] == x;
    }
    assert e[1..1 + |x| % 256] == x[..|x| % 256];
  }

  /**
   * The cases the extension's behaviour is pinned to: the empty value is the single byte 0,
   * "test" is written behind the byte 4, a zero length reads as the empty value, and an
   * empty body or a length 16 followed by four bytes is refused.
   */
  lemma RenegotiationInfoExamples()
    ensures EncodeRenegotiationInfo([]) == [0]
    ensures EncodeRenegotiationInfo([0x74, 0x65, 0x73, 0x74]) == [4, 0x74, 0x65, 0x73, 0x74]
    ensures DecodeRenegotiationInfo([0]) == Ok([])
    ensures DecodeRenegotiationInfo([]) == Err(ExtensionTruncated)
    ensures DecodeRenegotiationInfo([0x10, 0x74, 0x65, 0x73, 0x74]) == Err(ExtensionLengthMismatch)
  {
  }

  class RenegotiationInfoExtension {
    /** Empty on an initial handshake; the verify data on a renegotiation. */
    var renegotiatedConnection: seq<byte>

    constructor ()
      ensures renegotiatedConnection == []
    {
      renegotiatedConnection := [];
    }

    /** The extension's code: RENEGOTIATION_INFO, 0x00FF here. */
    function GetType(): (t: int)
      ensures t == 0x00FF
      ensures ExtensionTypeFromCode(t) == Some(RenegotiationInfo)
    {
      RenegotiationInfo.Code()
    }

    method SetRenegotiatedConnection(data: seq<byte>)
      modifies this
      ensures renegotiatedConnection == data
    {
      renegotiatedConnection := data;
    }

    /** The body; one that fits the length byte decodes back to the stored value. */
    function Encode(): (r: seq<byte>)
      reads this
      ensures |r| == |renegotiatedConnection| + 1
      ensures |renegotiatedConnection| < 256 ==> DecodeRenegotiationInfo(r) == Ok(renegotiatedConnection)
    {
      RenegotiationInfoRoundTrip(renegotiatedConnection, []);
      assert EncodeRenegotiationInfo(renegotiatedConnection) + [] == EncodeRenegotiationInfo(renegotiatedConnection);
      EncodeRenegotiationInfo(renegotiatedConnection)
    }
  }

  /** The static `decode`: a fresh extension holding the decoded value, or the decoding error. */
  method DecodeExtension(data: seq<byte>) returns (r: Result<RenegotiationInfoExtension>)
    ensures r.Ok? <==> DecodeRenegotiationInfo(data).Ok?
    ensures r.Ok? ==> fresh(r.value) && r.value.renegotiatedConnection == DecodeRenegotiationInfo(data).value
    ensures r.Err? ==> r.error == DecodeRenegotiationInfo(data).error
  {
    if |data| < 1 {
      return Err(ExtensionTruncated);
    }
    var length := data[0] as int;
    if |data| - 1 < length {
      return Err(ExtensionLengthMismatch);
    }
    var extension := new RenegotiationInfoExtension();
    if length > 0 {
      extension.SetRenegotiatedConnection(data[1..1 + length]);
    }
    return Ok(extension);
  }
}
