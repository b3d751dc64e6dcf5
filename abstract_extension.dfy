/**
 * What every extension shares: the big-endian 16-bit helpers and the default version
 * check. Extension bodies are PHP binary strings, modelled as byte sequences.
 */
module ExtensionCodec {
  import opened TlsTypes

  /** A decoded value and the offset just past it. */
  datatype DecodeResult = DecodeResult(value: int, newOffset: int)

  /**
   * `pack('n', v)`: two bytes, high then low, of the low 16 bits of `v` (so a value outside
   * 0..65535 wraps).
   */
  function EncodeUint16(v: int): (r: seq<byte>)
    ensures |r| == 2
    ensures (r[0] as int) * 256 + r[1] as int == v % 0x1_0000
  {
    var w := v % 0x1_0000;
    [(w / 256) as byte, (w % 256) as byte]
  }

  /**
   * Where `substr(data, offset, ...)` starts on a string of length `len`: a negative offset
   * counts from the end (and stops at the start), an offset past the end gives the end.
   */
  function SubstrStart(len: nat, offset: int): (start: nat)
    ensures start <= len
    ensures 0 <= offset <= len ==> start == offset
    ensures offset < 0 && 0 <= len + offset ==> start == len + offset
  {
    if offset < 0 then (if len + offset < 0 then 0 else len + offset)
    else if offset > len then len
    else offset
  }

  /**
   * `decodeUint16`: the big-endian value of the two bytes `substr` finds at `offset`, and
   * `offset + 2`; when fewer than two bytes are there, `unpack` fails.
   */
  function DecodeUint16(data: seq<byte>, offset: int): (r: Result<DecodeResult>)
    ensures r.Ok? <==> SubstrStart(|data|, offset) + 2 <= |data|
    ensures r.Ok? ==> r.value.newOffset == offset + 2 && 0 <= r.value.value < 0x1_0000
    ensures r.Ok? ==> EncodeUint16(r.value.value) == data[SubstrStart(|data|, offset)..SubstrStart(|data|, offset) + 2]
    ensures r.Err? ==> r.error == Uint16Unavailable
  {
    var start := SubstrStart(|data|, offset);
    if start + 2 <= |data| then
      Ok(DecodeResult(data[start] as int * 256 + data[start + 1] as int, offset + 2))
    else
      Err(Uint16Unavailable)
  }

  /**
   * Decoding at the position where a value was encoded gives back the value (modulo 2^16)
   * and the offset just past it, whatever surrounds it.
   */
  lemma Uint16RoundTrip(v: int, prefix: seq<byte>, suffix: seq<byte>)
    ensures DecodeUint16(prefix + EncodeUint16(v) + suffix, |prefix|) == Ok(DecodeResult(v % 0x1_0000, |prefix| + 2))
    ensures 0 <= v < 0x1_0000 ==> DecodeUint16(EncodeUint16(v), 0) == Ok(DecodeResult(v, 2))
  {
    var data := prefix + EncodeUint16(v) + suffix;
    assert data[|prefix|] == EncodeUint16(v)[0] && data[|prefix| + 1] == EncodeUint16(v)[1];
    assert EncodeUint16(v) == [] + EncodeUint16(v) + [];
  }

  /** 0x1234 is written as the bytes 0x12 0x34. */
  lemma EncodeUint16Example()
    ensures EncodeUint16(0x1234) == [0x12, 0x34]
    ensures DecodeUint16([0x12, 0x34], 0) == Ok(DecodeResult(0x1234, 2))
  {
  }

  /**
   * As `substr` counts a negative offset from the end, decoding at -2 reads the last two
   * bytes, and the reported new offset is 0.
   */
  lemma Uint16NegativeOffset(data: seq<byte>)
    requires |data| >= 2
    ensures DecodeUint16(data, -2).Ok?
    ensures DecodeUint16(data, -2).value
            == DecodeResult(data[|data| - 2] as int * 256 + data[|data| - 1] as int, 0)
  {
  }

  /** One byte, or an offset at the last byte, is too little. */
  lemma Uint16TooShort(data: seq<byte>)
    requires |data| >= 1
    ensures DecodeUint16(data, |data| - 1) == Err(Uint16Unavailable)
    ensures DecodeUint16([], 0) == Err(Uint16Unavailable)
  {
  }

  /** The default version check accepts every version string. */
  function DefaultIsApplicableForVersion(tlsVersion: string): (r: bool)
    ensures r
  {
    true
  }
}
