/**
 * Secure renegotiation as section 3 of RFC 5746 describes it, seen from the manager that
 * keeps the previous handshake's verify data, the renegotiation flags and a counter that
 * bounds how often a connection may renegotiate.
 */
module RenegotiationManagers {
  import opened TlsTypes
  import opened RenegotiationInfoExtensions

  /** Renegotiation exists in every version before TLS 1.3. */
  function RenegotiationSupported(v: TlsVersion): (r: bool)
    ensures r <==> v in {Ssl30, Tls10, Tls11, Tls12}
  {
    v != Tls13
  }

  /**
   * What the server's renegotiation_info carries: both verify data during a secure
   * renegotiation, nothing otherwise.
   */
  function ServerRenegotiatedConnection(secure: bool, renegotiating: bool, clientVerifyData: seq<byte>, serverVerifyData: seq<byte>): (r: seq<byte>)
    ensures secure && renegotiating ==> |r| == |clientVerifyData| + |serverVerifyData|
    ensures secure && renegotiating ==> r[..|clientVerifyData|] == clientVerifyData && r[|clientVerifyData|..] == serverVerifyData
    ensures !(secure && renegotiating) ==> |r| == 0
  {
    if renegotiating && secure then clientVerifyData + serverVerifyData else []
  }

  /**
   * The check of a client's renegotiation_info: nothing is accepted unless secure
   * renegotiation is on; then an initial handshake wants the empty value and a
   * renegotiation wants the client's previous verify data.
   */
  function AcceptsClientRenegotiation(secure: bool, renegotiating: bool, clientVerifyData: seq<byte>, data: seq<byte>): (r: bool)
    ensures r ==> secure
    ensures secure && !renegotiating ==> (r <==> data == [])
    ensures secure && renegotiating ==> (r <==> data == clientVerifyData)
  {
    if !secure then false
    else if !renegotiating then data == []
    else data == clientVerifyData
  }

  /**
   * The check of a server's renegotiation_info: as for the client, but a renegotiation
   * wants the client's verify data followed by the server's.
   */
  function AcceptsServerRenegotiation(secure: bool, renegotiating: bool, clientVerifyData: seq<byte>, serverVerifyData: seq<byte>, data: seq<byte>): (r: bool)
    ensures r ==> secure
    ensures secure && !renegotiating ==> (r <==> data == [])
    ensures secure && renegotiating ==> (r <==> |data| == |clientVerifyData| + |serverVerifyData|
                                                 && data[..|clientVerifyData|] == clientVerifyData
                                                 && data[|clientVerifyData|..] == serverVerifyData)
  {
    if !secure then false
    else if !renegotiating then data == []
    else
      assert (&& |data| == |clientVerifyData| + |serverVerifyData|
              && data[..|clientVerifyData|] == clientVerifyData
              && data[|clientVerifyData|..] == serverVerifyData)
             ==> data == clientVerifyData + serverVerifyData;
      data == clientVerifyData + serverVerifyData
  }

  /**
   * A client renegotiation_info as section 3.5 of RFC 5746 wants it: the client's previous
   * verify data during a secure renegotiation, nothing otherwise.
   */
  function ClientRenegotiatedConnection(secure: bool, renegotiating: bool, clientVerifyData: seq<byte>): (r: seq<byte>)
    ensures AcceptsClientRenegotiation(secure, renegotiating, clientVerifyData, r) <==> secure
  {
    if renegotiating && secure then clientVerifyData else []
  }

  class RenegotiationManager {
    var secureRenegotiation: bool
    var renegotiating: bool
    var clientVerifyData: seq<byte>
    var serverVerifyData: seq<byte>
    var renegotiationCount: int
    var renegotiationLimit: int

    /** Secure renegotiation off, not renegotiating, no verify data, no renegotiations out of 3. */
    constructor ()
      ensures !secureRenegotiation && !renegotiating
      ensures clientVerifyData == [] && serverVerifyData == []
      ensures renegotiationCount == 0 && renegotiationLimit == 3
    {
      secureRenegotiation := false;
      renegotiating := false;
      clientVerifyData := [];
      serverVerifyData := [];
      renegotiationCount := 0;
      renegotiationLimit := 3;
    }

    function IsSupportedForVersion(v: TlsVersion): (r: bool)
      ensures r <==> RenegotiationSupported(v)
    {
      v != Tls13
    }

    method SetSecureRenegotiation(enabled: bool)
      modifies this
      ensures secureRenegotiation == enabled
      ensures renegotiating == old(renegotiating)
      ensures clientVerifyData == old(clientVerifyData) && serverVerifyData == old(serverVerifyData)
      ensures renegotiationCount == old(renegotiationCount) && renegotiationLimit == old(renegotiationLimit)
    {
      secureRenegotiation := enabled;
    }

    method StartRenegotiation()
      modifies this
      ensures renegotiating
      ensures secureRenegotiation == old(secureRenegotiation)
      ensures clientVerifyData == old(clientVerifyData) && serverVerifyData == old(serverVerifyData)
      ensures renegotiationCount == old(renegotiationCount) && renegotiationLimit == old(renegotiationLimit)
    {
      renegotiating := true;
    }

    method EndRenegotiation()
      modifies this
      ensures !renegotiating
      ensures secureRenegotiation == old(secureRenegotiation)
      ensures clientVerifyData == old(clientVerifyData) && serverVerifyData == old(serverVerifyData)
      ensures renegotiationCount == old(renegotiationCount) && renegotiationLimit == old(renegotiationLimit)
    {
      renegotiating := false;
    }

    method StoreClientVerifyData(data: seq<byte>)
      modifies this
      ensures clientVerifyData == data
      ensures secureRenegotiation == old(secureRenegotiation) && renegotiating == old(renegotiating)
      ensures serverVerifyData == old(serverVerifyData)
      ensures renegotiationCount == old(renegotiationCount) && renegotiationLimit == old(renegotiationLimit)
    {
      clientVerifyData := data;
    }

    method StoreServerVerifyData(data: seq<byte>)
      modifies this
      ensures serverVerifyData == data
      ensures secureRenegotiation == old(secureRenegotiation) && renegotiating == old(renegotiating)
      ensures clientVerifyData == old(clientVerifyData)
      ensures renegotiationCount == old(renegotiationCount) && renegotiationLimit == old(renegotiationLimit)
    {
      serverVerifyData := data;
    }

    /** Any integer is taken as the limit, including zero and negative ones. */
    method SetRenegotiationLimit(limit: int)
      modifies this
      ensures renegotiationLimit == limit
      ensures secureRenegotiation == old(secureRenegotiation) && renegotiating == old(renegotiating)
      ensures clientVerifyData == old(clientVerifyData) && serverVerifyData == old(serverVerifyData)
      ensures renegotiationCount == old(renegotiationCount)
    {
      renegotiationLimit := limit;
    }

    method IncrementRenegotiationCount()
      modifies this
      ensures renegotiationCount == old(renegotiationCount) + 1
      ensures secureRenegotiation == old(secureRenegotiation) && renegotiating == old(renegotiating)
      ensures clientVerifyData == old(clientVerifyData) && serverVerifyData == old(serverVerifyData)
      ensures renegotiationLimit == old(renegotiationLimit)
    {
      renegotiationCount := renegotiationCount + 1;
    }

    /** Another renegotiation is allowed while the counter is below the limit. */
    predicate CanRenegotiate()
      reads this
      ensures CanRenegotiate() <==> renegotiationCount < renegotiationLimit
    {
      renegotiationCount < renegotiationLimit
    }

    /** The general-purpose extension: always the empty value, whatever the manager holds. */
    method CreateRenegotiationInfoExtension() returns (extension: RenegotiationInfoExtension)
      ensures fresh(extension)
      ensures extension.renegotiatedConnection == []
    {
      extension := new RenegotiationInfoExtension();
    }

    /**
     * The extension a client's ClientHello should carry (section 3.5 of RFC 5746): the
     * client's verify data during a secure renegotiation, empty otherwise.
     */
    method CreateClientRenegotiationInfoExtension() returns (extension: RenegotiationInfoExtension)
      ensures fresh(extension)
      ensures extension.renegotiatedConnection == ClientRenegotiatedConnection(secureRenegotiation, renegotiating, clientVerifyData)
    {
      extension := new RenegotiationInfoExtension();
      if renegotiating && secureRenegotiation {
        extension.SetRenegotiatedConnection(clientVerifyData);
      }
    }

    /** The server's extension: both verify data during a secure renegotiation, empty otherwise. */
    method CreateServerRenegotiationInfoExtension() returns (extension: RenegotiationInfoExtension)
      ensures fresh(extension)
      ensures extension.renegotiatedConnection
              == ServerRenegotiatedConnection(secureRenegotiation, renegotiating, clientVerifyData, serverVerifyData)
    {
      extension := new RenegotiationInfoExtension();
      if renegotiating && secureRenegotiation {
        extension.SetRenegotiatedConnection(clientVerifyData + serverVerifyData);
      }
    }

    predicate ProcessClientRenegotiationExtension(extension: RenegotiationInfoExtension)
      reads this, extension
      ensures ProcessClientRenegotiationExtension(extension)
              <==> AcceptsClientRenegotiation(secureRenegotiation, renegotiating, clientVerifyData, extension.renegotiatedConnection)
    {
      if !secureRenegotiation then false
      else if !renegotiating then extension.renegotiatedConnection == []
      else extension.renegotiatedConnection == clientVerifyData
    }

    predicate ProcessServerRenegotiationExtension(extension: RenegotiationInfoExtension)
      reads this, extension
      ensures ProcessServerRenegotiationExtension(extension)
              <==> AcceptsServerRenegotiation(secureRenegotiation, renegotiating, clientVerifyData, serverVerifyData, extension.renegotiatedConnection)
    {
      if !secureRenegotiation then false
      else if !renegotiating then extension.renegotiatedConnection == []
      else extension.renegotiatedConnection == clientVerifyData + serverVerifyData
    }
  }

  /**
   * With secure renegotiation on, the server's own payload passes the server check, also
   * after it went over the wire when it fits the length byte; with it off, no payload
   * passes either check.
   */
  lemma ServerPayloadAccepted(secure: bool, renegotiating: bool, clientVerifyData: seq<byte>, serverVerifyData: seq<byte>, data: seq<byte>)
    ensures secure ==> AcceptsServerRenegotiation(secure, renegotiating, clientVerifyData, serverVerifyData,
                                                  ServerRenegotiatedConnection(secure, renegotiating, clientVerifyData, serverVerifyData))
    ensures var p := ServerRenegotiatedConnection(secure, renegotiating, clientVerifyData, serverVerifyData);
            secure && |p| < 256 ==>
              && DecodeRenegotiationInfo(EncodeRenegotiationInfo(p)).Ok?
              && AcceptsServerRenegotiation(secure, renegotiating, clientVerifyData, serverVerifyData,
                                            DecodeRenegotiationInfo(EncodeRenegotiationInfo(p)).value)
    ensures !secure ==> !AcceptsServerRenegotiation(secure, renegotiating, clientVerifyData, serverVerifyData, data)
                        && !AcceptsClientRenegotiation(secure, renegotiating, clientVerifyData, data)
  {
    var p := ServerRenegotiatedConnection(secure, renegotiating, clientVerifyData, serverVerifyData);
    RenegotiationInfoRoundTrip(p, []);
    assert EncodeRenegotiationInfo(p) + [] == EncodeRenegotiationInfo(p);
  }

  /**
   * The general-purpose extension, used by a client during a secure renegotiation with
   * non-empty verify data, is refused by the client check; the extension of
   * `ClientRenegotiatedConnection` is accepted, also after the wire when it fits.
   */
  lemma ClientExtensionDuringRenegotiation(clientVerifyData: seq<byte>)
    requires clientVerifyData != []
    ensures !AcceptsClientRenegotiation(true, true, clientVerifyData, [])
    ensures AcceptsClientRenegotiation(true, true, clientVerifyData, ClientRenegotiatedConnection(true, true, clientVerifyData))
    ensures |clientVerifyData| < 256 ==>
              && DecodeRenegotiationInfo(EncodeRenegotiationInfo(clientVerifyData)) == Ok(clientVerifyData)
              && AcceptsClientRenegotiation(true, true, clientVerifyData, DecodeRenegotiationInfo(EncodeRenegotiationInfo(clientVerifyData)).value)
  {
    RenegotiationInfoRoundTrip(clientVerifyData, []);
    assert EncodeRenegotiationInfo(clientVerifyData) + [] == EncodeRenegotiationInfo(clientVerifyData);
  }

  /**
   * A secure renegotiation as the code runs it: the client's ClientHello extension from
   * `createRenegotiationInfoExtension` is refused, the one carrying the client's verify
   * data is accepted, and the server's extension passes the server check.
   */
  method SecureRenegotiationExchange(clientVerifyData: seq<byte>, serverVerifyData: seq<byte>)
    returns (generalAccepted: bool, clientAccepted: bool, serverAccepted: bool)
    requires clientVerifyData != []
    ensures !generalAccepted && clientAccepted && serverAccepted
  {
    var manager := new RenegotiationManager();
    manager.SetSecureRenegotiation(true);
    manager.StoreClientVerifyData(clientVerifyData);
    manager.StoreServerVerifyData(serverVerifyData);
    manager.StartRenegotiation();
    var general := manager.CreateRenegotiationInfoExtension();
    generalAccepted := manager.ProcessClientRenegotiationExtension(general);
    var client := manager.CreateClientRenegotiationInfoExtension();
    clientAccepted := manager.ProcessClientRenegotiationExtension(client);
    var server := manager.CreateServerRenegotiationInfoExtension();
    serverAccepted := manager.ProcessServerRenegotiationExtension(server);
    ServerPayloadAccepted(true, true, clientVerifyData, serverVerifyData, []);
  }

  /**
   * The DoS guard: a fresh manager allows three renegotiations; with the limit set to 2 it
   * allows exactly two, and a limit of 0 allows none.
   */
  method RenegotiationLimitScenario() returns (fresh3: bool, afterOne: bool, afterTwo: bool, zeroLimit: bool)
    ensures fresh3 && afterOne && !afterTwo && !zeroLimit
  {
    var manager := new RenegotiationManager();
    fresh3 := manager.CanRenegotiate();
    manager.SetRenegotiationLimit(2);
    manager.IncrementRenegotiationCount();
    afterOne := manager.CanRenegotiate();
    manager.IncrementRenegotiationCount();
    afterTwo := manager.CanRenegotiate();
    var other := new RenegotiationManager();
    other.SetRenegotiationLimit(0);
    zeroLimit := other.CanRenegotiate();
  }
}
