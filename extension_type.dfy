/**
 * The extension code points the handshake layer knows (section 4.2 of RFC 8446 and the IANA
 * ExtensionType registry), each backed by its 16-bit integer code. RENEGOTIATION_INFO
 * carries 0x00FF here.
 */
module ExtensionTypes {
  import opened TlsTypes

  /** Declared in the order of the enumeration's cases. */
  datatype ExtensionType =
    | ServerName
    | MaxFragmentLength
    | ClientCertificateUrl
    | TrustedCaKeys
    | TruncatedHmac
    | StatusRequest
    | RenegotiationInfo
    | SupportedGroups
    | EcPointFormats
    | SignatureAlgorithms
    | UseSrtp
    | Heartbeat
    | Alpn
    | SignedCertificateTimestamp
    | ClientCertificateType
    | ServerCertificateType
    | Padding
    | EncryptThenMac
    | ExtendedMasterSecret
    | SessionTicket
    | PreSharedKey
    | EarlyData
    | SupportedVersions
    | Cookie
    | PskKeyExchangeModes
    | CertificateAuthorities
    | OidFilters
    | PostHandshakeAuth
    | SignatureAlgorithmsCert
    | KeyShare
  {
    /** The 16-bit code backing each case. */
    function Code(): (c: int)
      ensures 0 <= c < 0x1_0000
    {
      match this
      case ServerName => 0x0000
      case MaxFragmentLength => 0x0001
      case ClientCertificateUrl => 0x0002
      case TrustedCaKeys => 0x0003
      case TruncatedHmac => 0x0004
      case StatusRequest => 0x0005
      case RenegotiationInfo => 0x00FF
      case SupportedGroups => 0x000A
      case EcPointFormats => 0x000B
      case SignatureAlgorithms => 0x000D
      case UseSrtp => 0x000E
      case Heartbeat => 0x000F
      case Alpn => 0x0010
      case SignedCertificateTimestamp => 0x0012
      case ClientCertificateType => 0x0013
      case ServerCertificateType => 0x0014
      case Padding => 0x0015
      case EncryptThenMac => 0x0016
      case ExtendedMasterSecret => 0x0017
      case SessionTicket => 0x0023
      case PreSharedKey => 0x0029
      case EarlyData => 0x002A
      case SupportedVersions => 0x002B
      case Cookie => 0x002C
      case PskKeyExchangeModes => 0x002D
      case CertificateAuthorities => 0x002F
      case OidFilters => 0x0030
      case PostHandshakeAuth => 0x0031
      case SignatureAlgorithmsCert => 0x0032
      case KeyShare => 0x0033
    }

    /** The display label; only its presence matters here. */
    function Label(): (l: string)
      ensures |l| > 0
    {
      match this
      case ServerName => "服务器名称指示"
      case MaxFragmentLength => "最大分片长度"
      case ClientCertificateUrl => "客户端证书URL"
      case TrustedCaKeys => "受信任的CA密钥"
      case TruncatedHmac => "截断HMAC"
      case StatusRequest => "状态请求"
      case RenegotiationInfo => "安全重协商信息"
      case SupportedGroups => "支持的组"
      case EcPointFormats => "椭圆曲线点格式"
      case SignatureAlgorithms => "签名算法"
      case UseSrtp => "使用SRTP"
      case Heartbeat => "心跳"
      case Alpn => "应用层协议协商"
      case SignedCertificateTimestamp => "签名证书时间戳"
      case ClientCertificateType => "客户端证书类型"
      case ServerCertificateType => "服务器证书类型"
      case Padding => "填充"
      case EncryptThenMac => "先加密后MAC"
      case ExtendedMasterSecret => "扩展主密钥"
      case SessionTicket => "会话票据"
      case PreSharedKey => "预共享密钥"
      case EarlyData => "早期数据指示"
      case SupportedVersions => "支持的版本"
      case Cookie => "Cookie"
      case PskKeyExchangeModes => "PSK密钥交换模式"
      case CertificateAuthorities => "证书授权机构"
      case OidFilters => "OID过滤器"
      case PostHandshakeAuth => "后握手认证"
      case SignatureAlgorithmsCert => "证书签名算法"
      case KeyShare => "密钥共享"
    }
  }

  /** The enumeration's `tryFrom`: the case backed by `code`, if there is one. */
  function ExtensionTypeFromCode(code: int): (r: Option<ExtensionType>)
    ensures r.Some? ==> r.value.Code() == code
  {
    if code < 0x0020 || code == 0x00FF then FromLowCode(code) else FromHighCode(code)
  }

  /** The cases with codes below 0x0020, and RENEGOTIATION_INFO. */
  function FromLowCode(code: int): (r: Option<ExtensionType>)
    ensures r.Some? ==> r.value.Code() == code
  {
    if code == 0x0000 then Some(ServerName)
    else if code == 0x0001 then Some(MaxFragmentLength)
    else if code == 0x0002 then Some(ClientCertificateUrl)
    else if code == 0x0003 then Some(TrustedCaKeys)
    else if code == 0x0004 then Some(TruncatedHmac)
    else if code == 0x0005 then Some(StatusRequest)
    else if code == 0x00FF then Some(RenegotiationInfo)
    else if code == 0x000A then Some(SupportedGroups)
    else if code == 0x000B then Some(EcPointFormats)
    else if code == 0x000D then Some(SignatureAlgorithms)
    else if code == 0x000E then Some(UseSrtp)
    else if code == 0x000F then Some(Heartbeat)
    else if code == 0x0010 then Some(Alpn)
    else if code == 0x0012 then Some(SignedCertificateTimestamp)
    else if code == 0x0013 then Some(ClientCertificateType)
    else if code == 0x0014 then Some(ServerCertificateType)
    else if code == 0x0015 then Some(Padding)
    else if code == 0x0016 then Some(EncryptThenMac)
    else if code == 0x0017 then Some(ExtendedMasterSecret)
    else None
  }

  /** The cases with codes from 0x0020 to 0x00FE. */
  function FromHighCode(code: int): (r: Option<ExtensionType>)
    ensures r.Some? ==> r.value.Code() == code
  {
    if code == 0x0023 then Some(SessionTicket)
    else if code == 0x0029 then Some(PreSharedKey)
    else if code == 0x002A then Some(EarlyData)
    else if code == 0x002B then Some(SupportedVersions)
    else if code == 0x002C then Some(Cookie)
    else if code == 0x002D then Some(PskKeyExchangeModes)
    else if code == 0x002F then Some(CertificateAuthorities)
    else if code == 0x0030 then Some(OidFilters)
    else if code == 0x0031 then Some(PostHandshakeAuth)
    else if code == 0x0032 then Some(SignatureAlgorithmsCert)
    else if code == 0x0033 then Some(KeyShare)
    else None
  }

  /** `tryFrom` inverts the code. */
  lemma ExtensionTypeFromCodeInverts(t: ExtensionType)
    ensures ExtensionTypeFromCode(t.Code()) == Some(t)
  {
    match t
    case ServerName =>
    case MaxFragmentLength =>
    case ClientCertificateUrl =>
    case TrustedCaKeys =>
    case TruncatedHmac =>
    case StatusRequest =>
    case RenegotiationInfo =>
    case SupportedGroups =>
    case EcPointFormats =>
    case SignatureAlgorithms =>
    case UseSrtp =>
    case Heartbeat =>
    case Alpn =>
    case SignedCertificateTimestamp =>
    case ClientCertificateType =>
    case ServerCertificateType =>
    case Padding =>
    case EncryptThenMac =>
    case ExtendedMasterSecret =>
    case SessionTicket =>
    case PreSharedKey =>
    case EarlyData =>
    case SupportedVersions =>
    case Cookie =>
    case PskKeyExchangeModes =>
    case CertificateAuthorities =>
    case OidFilters =>
    case PostHandshakeAuth =>
    case SignatureAlgorithmsCert =>
    case KeyShare =>
  }

  /** `tryFrom` finds a case exactly when that case carries the code. */
  lemma ExtensionTypeFromCodeExact(code: int, t: ExtensionType)
    ensures ExtensionTypeFromCode(code) == Some(t) <==> t.Code() == code
  {
    ExtensionTypeFromCodeInverts(t);
  }

  /** No two cases share a code. */
  lemma ExtensionCodesDistinct(a: ExtensionType, b: ExtensionType)
    ensures a.Code() == b.Code() ==> a == b
  {
    ExtensionTypeFromCodeInverts(a);
    ExtensionTypeFromCodeInverts(b);
  }

  /**
   * The codes the extensions of this layer use, and `tryFrom` of a code no case carries.
   */
  lemma KnownExtensionCodes()
    ensures RenegotiationInfo.Code() == 0x00FF && PreSharedKey.Code() == 0x0029
    ensures PostHandshakeAuth.Code() == 0x0031 && KeyShare.Code() == 0x0033
    ensures ExtensionTypeFromCode(0x00FF) == Some(RenegotiationInfo)
    ensures ExtensionTypeFromCode(0x9999) == None
  {
  }
}
