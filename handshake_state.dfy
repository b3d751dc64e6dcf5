/**
 * The eighteen states a connection can occupy during a handshake, with the string each
 * one is backed by and its display label.
 */
module HandshakeStates {
  import opened TlsTypes

  /** Declared in the order of the enumeration's cases. */
  datatype HandshakeState =
    | Initial
    | WaitServerHello
    | WaitCertificate
    | WaitServerKeyExchange
    | WaitServerHelloDone
    | WaitClientCertificate
    | WaitClientKeyExchange
    | WaitClientKeyExchangeWithCert
    | WaitCertificateVerify
    | WaitChangeCipherSpec
    | WaitFinished
    | WaitClientFinished
    | Connected
    | Error
    | WaitEncryptedExtensions
    | WaitNewSessionTicket
    | ProcessEarlyData
    | WaitClientVerify
  {
    /** The string backing each case: its own case name in upper snake case. */
    function Value(): (v: string)
      ensures |v| > 0
    {
      match this
      case Initial => "INITIAL"
      case WaitServerHello => "WAIT_SERVER_HELLO"
      case WaitCertificate => "WAIT_CERTIFICATE"
      case WaitServerKeyExchange => "WAIT_SERVER_KEY_EXCHANGE"
      case WaitServerHelloDone => "WAIT_SERVER_HELLO_DONE"
      case WaitClientCertificate => "WAIT_CLIENT_CERTIFICATE"
      case WaitClientKeyExchange => "WAIT_CLIENT_KEY_EXCHANGE"
      case WaitClientKeyExchangeWithCert => "WAIT_CLIENT_KEY_EXCHANGE_WITH_CERT"
      case WaitCertificateVerify => "WAIT_CERTIFICATE_VERIFY"
      case WaitChangeCipherSpec => "WAIT_CHANGE_CIPHER_SPEC"
      case WaitFinished => "WAIT_FINISHED"
      case WaitClientFinished => "WAIT_CLIENT_FINISHED"
      case Connected => "CONNECTED"
      case Error => "ERROR"
      case WaitEncryptedExtensions => "WAIT_ENCRYPTED_EXTENSIONS"
      case WaitNewSessionTicket => "WAIT_NEW_SESSION_TICKET"
      case ProcessEarlyData => "PROCESS_EARLY_DATA"
      case WaitClientVerify => "WAIT_CLIENT_VERIFY"
    }

    /** The display label; only its presence matters here. */
    function Label(): (l: string)
      ensures |l| > 0
    {
      match this
      case Initial => "初始状态"
      case WaitServerHello => "等待服务器Hello"
      case WaitCertificate => "等待证书"
      case WaitServerKeyExchange => "等待服务器密钥交换"
      case WaitServerHelloDone => "等待服务器Hello完成"
      case WaitClientCertificate => "等待客户端证书"
      case WaitClientKeyExchange => "等待客户端密钥交换"
      case WaitClientKeyExchangeWithCert => "等待客户端密钥交换(含证书)"
      case WaitCertificateVerify => "等待证书验证"
      case WaitChangeCipherSpec => "等待修改加密规范"
      case WaitFinished => "等待握手完成"
      case WaitClientFinished => "等待客户端握手完成"
      case Connected => "已连接"
      case Error => "错误状态"
      case WaitEncryptedExtensions => "等待加密扩展"
      case WaitNewSessionTicket => "等待新会话票据"
      case ProcessEarlyData => "处理早期数据"
      case WaitClientVerify => "等待客户端验证"
    }
  }

  /** The enumeration's `tryFrom`: the case backed by `v`, if there is one. */
  function FromValue(v: string): (r: Option<HandshakeState>)
    ensures r.Some? ==> r.value.Value() == v
  {
    if v == "INITIAL" then Some(Initial)
    else if v == "WAIT_SERVER_HELLO" then Some(WaitServerHello)
    else if v == "WAIT_CERTIFICATE" then Some(WaitCertificate)
    else if v == "WAIT_SERVER_KEY_EXCHANGE" then Some(WaitServerKeyExchange)
    else if v == "WAIT_SERVER_HELLO_DONE" then Some(WaitServerHelloDone)
    else if v == "WAIT_CLIENT_CERTIFICATE" then Some(WaitClientCertificate)
    else if v == "WAIT_CLIENT_KEY_EXCHANGE" then Some(WaitClientKeyExchange)
    else if v == "WAIT_CLIENT_KEY_EXCHANGE_WITH_CERT" then Some(WaitClientKeyExchangeWithCert)
    else if v == "WAIT_CERTIFICATE_VERIFY" then Some(WaitCertificateVerify)
    else if v == "WAIT_CHANGE_CIPHER_SPEC" then Some(WaitChangeCipherSpec)
    else if v == "WAIT_FINISHED" then Some(WaitFinished)
    else if v == "WAIT_CLIENT_FINISHED" then Some(WaitClientFinished)
    else if v == "CONNECTED" then Some(Connected)
    else if v == "ERROR" then Some(Error)
    else if v == "WAIT_ENCRYPTED_EXTENSIONS" then Some(WaitEncryptedExtensions)
    else if v == "WAIT_NEW_SESSION_TICKET" then Some(WaitNewSessionTicket)
    else if v == "PROCESS_EARLY_DATA" then Some(ProcessEarlyData)
    else if v == "WAIT_CLIENT_VERIFY" then Some(WaitClientVerify)
    else None
  }

  /** Distinct cases are backed by distinct strings. */
  lemma ValueInjective(a: HandshakeState, b: HandshakeState)
    ensures a.Value() == b.Value() ==> a == b
  {
  }

  /** `tryFrom` inverts the backing value, and finds nothing for a string no case has. */
  lemma FromValueInvertsValue(s: HandshakeState, v: string)
    ensures FromValue(s.Value()) == Some(s)
    ensures FromValue(v) == Some(s) <==> s.Value() == v
  {
    FromValueOfValue(s);
  }

  /**
   * `tryFrom` finds each case from its own value. The cases are taken a few at a time,
   * because telling one string literal from all those before it costs the solver more for
   * each later case.
   */
  lemma FromValueOfValue(s: HandshakeState)
    ensures FromValue(s.Value()) == Some(s)
  {
    if s.Initial? || s.WaitServerHello? || s.WaitCertificate?
        || s.WaitServerKeyExchange? || s.WaitServerHelloDone?
        || s.WaitClientCertificate? || s.WaitClientKeyExchange?
        || s.WaitClientKeyExchangeWithCert? || s.WaitCertificateVerify?
        || s.WaitChangeCipherSpec? || s.WaitFinished? || s.WaitClientFinished? {
      FromValueOfTls12Value(s);
    } else if s.Connected? || s.Error? {
      FromValueOfFinalValue(s);
    } else if s.WaitEncryptedExtensions? || s.WaitNewSessionTicket? {
      FromValueOfTls13Value(s);
    } else {
      FromValueOfLateTls13Value(s);
    }
  }

  /** `tryFrom` finds the twelve cases of the TLS 1.2 flow from their values. */
  lemma FromValueOfTls12Value(s: HandshakeState)
    requires s.Initial? || s.WaitServerHello? || s.WaitCertificate?
             || s.WaitServerKeyExchange? || s.WaitServerHelloDone?
             || s.WaitClientCertificate? || s.WaitClientKeyExchange?
             || s.WaitClientKeyExchangeWithCert? || s.WaitCertificateVerify?
             || s.WaitChangeCipherSpec? || s.WaitFinished? || s.WaitClientFinished?
    ensures FromValue(s.Value()) == Some(s)
  {
    match s
    case Initial =>
    case WaitServerHello =>
    case WaitCertificate =>
    case WaitServerKeyExchange =>
    case WaitServerHelloDone =>
    case WaitClientCertificate =>
    case WaitClientKeyExchange =>
    case WaitClientKeyExchangeWithCert =>
    case WaitCertificateVerify =>
    case WaitChangeCipherSpec =>
    case WaitFinished =>
    case WaitClientFinished =>
  }

  /** `tryFrom` finds CONNECTED and ERROR from their values. */
  lemma FromValueOfFinalValue(s: HandshakeState)
    requires s.Connected? || s.Error?
    ensures FromValue(s.Value()) == Some(s)
  {
    match s
    case Connected =>
    case Error =>
  }

  /** `tryFrom` finds WAIT_ENCRYPTED_EXTENSIONS and WAIT_NEW_SESSION_TICKET from their values. */
  lemma FromValueOfTls13Value(s: HandshakeState)
    requires s.WaitEncryptedExtensions? || s.WaitNewSessionTicket?
    ensures FromValue(s.Value()) == Some(s)
  {
    match s
    case WaitEncryptedExtensions =>
    case WaitNewSessionTicket =>
  }

  /** `tryFrom` finds PROCESS_EARLY_DATA and WAIT_CLIENT_VERIFY from their values. */
  lemma FromValueOfLateTls13Value(s: HandshakeState)
    requires s.ProcessEarlyData? || s.WaitClientVerify?
    ensures FromValue(s.Value()) == Some(s)
  {
    match s
    case ProcessEarlyData =>
    case WaitClientVerify =>
  }

  /** `tryFrom` of a string that backs no case, as exercised for the enumeration. */
  lemma FromValueUnknown()
    ensures FromValue("INVALID_STATE") == None
    ensures FromValue("") == None
  {
  }
}
