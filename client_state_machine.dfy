/**
 * The generic client machine: one table mixing the TLS 1.2 flow with a TLS 1.3
 * EncryptedExtensions alternative, and no ChangeCipherSpec state.
 */
module ClientMachine {
  import opened TlsTypes
  import opened HandshakeStates
  import opened TransitionTables
  import opened AbstractStateMachine

  function ClientTable(): Table
  {
    map[
      Initial := map[ClientHello := WaitServerHello],
      WaitServerHello := map[ServerHello := WaitCertificate, EncryptedExtensions := WaitCertificate],
      WaitCertificate := map[Certificate := WaitServerKeyExchange, ServerHelloDone := WaitClientKeyExchange],
      WaitServerKeyExchange := map[ServerKeyExchange := WaitServerHelloDone, ServerHelloDone := WaitClientKeyExchange],
      WaitServerHelloDone := map[ServerHelloDone := WaitClientKeyExchange],
      WaitClientKeyExchange := map[ClientKeyExchange := WaitFinished],
      WaitFinished := map[Finished := Connected]
    ]
  }

  class ClientStateMachine {
    const machine: HandshakeStateMachine

    ghost predicate Valid()
      reads this, machine
    {
      machine.validStates == DefaultValidStates() && machine.transitions == ClientTable()
    }

    /** Accepts every state and writes the client rows into the table, row by row. */
    constructor ()
      ensures Valid() && fresh(machine)
      ensures machine.currentState == Initial
    {
      var m := new HandshakeStateMachine(DefaultValidStates());
      m.SetRow(Initial, map[ClientHello := WaitServerHello]);
      m.SetRow(WaitServerHello, map[ServerHello := WaitCertificate, EncryptedExtensions := WaitCertificate]);
      m.SetRow(WaitCertificate, map[Certificate := WaitServerKeyExchange, ServerHelloDone := WaitClientKeyExchange]);
      m.SetRow(WaitServerKeyExchange, map[ServerKeyExchange := WaitServerHelloDone, ServerHelloDone := WaitClientKeyExchange]);
      m.SetRow(WaitServerHelloDone, map[ServerHelloDone := WaitClientKeyExchange]);
      m.SetRow(WaitClientKeyExchange, map[ClientKeyExchange := WaitFinished]);
      m.SetRow(WaitFinished, map[Finished := Connected]);
      machine := m;
    }
  }

  /** The full flow with a ServerKeyExchange ends in CONNECTED. */
  lemma ClientFullHandshake()
    ensures Run(ClientTable(), Initial,
                [ClientHello, ServerHello, Certificate, ServerKeyExchange, ServerHelloDone, ClientKeyExchange, Finished])
            == Connected
  {
    ClientHelloSteps();
    ClientKeyExchangeSteps();
  }

  /** The steps up to and including ServerKeyExchange. */
  lemma ClientHelloSteps()
    ensures Step(ClientTable(), Initial, ClientHello) == WaitServerHello
    ensures Step(ClientTable(), WaitServerHello, ServerHello) == WaitCertificate
    ensures Step(ClientTable(), WaitCertificate, Certificate) == WaitServerKeyExchange
    ensures Step(ClientTable(), WaitServerKeyExchange, ServerKeyExchange) == WaitServerHelloDone
  {
  }

  /** The steps after ServerKeyExchange. */
  lemma ClientKeyExchangeSteps()
    ensures Step(ClientTable(), WaitServerHelloDone, ServerHelloDone) == WaitClientKeyExchange
    ensures Step(ClientTable(), WaitClientKeyExchange, ClientKeyExchange) == WaitFinished
    ensures Step(ClientTable(), WaitFinished, Finished) == Connected
  {
  }

  /**
   * ServerHello and EncryptedExtensions are interchangeable after ClientHello;
   * ServerKeyExchange may be left out; ClientKeyExchange leads straight to WAIT_FINISHED.
   */
  lemma ClientTableOptionalMessages()
    ensures Step(ClientTable(), WaitServerHello, ServerHello) == WaitCertificate
    ensures Step(ClientTable(), WaitServerHello, EncryptedExtensions) == WaitCertificate
    ensures Step(ClientTable(), WaitCertificate, ServerHelloDone) == WaitClientKeyExchange
    ensures Step(ClientTable(), WaitServerKeyExchange, ServerHelloDone) == WaitClientKeyExchange
    ensures Step(ClientTable(), WaitClientKeyExchange, ClientKeyExchange) == WaitFinished
  {
  }

  /** INITIAL accepts ClientHello and nothing else. */
  lemma ClientInitialAcceptsOnlyClientHello(m: MessageType)
    ensures Step(ClientTable(), Initial, m) != Error <==> m == ClientHello
  {
  }

  /**
   * CONNECTED and ERROR have no row: every non-empty message sequence from either ends in
   * ERROR. No entry of the table targets ERROR, so ERROR means exactly "no entry".
   */
  lemma ClientTerminalStates(msgs: seq<MessageType>)
    requires |msgs| > 0
    ensures Run(ClientTable(), Connected, msgs) == Error
    ensures Run(ClientTable(), Error, msgs) == Error
    ensures NoErrorTargets(ClientTable())
  {
    DeadEndFallsIntoError(ClientTable(), Connected, msgs);
    DeadEndFallsIntoError(ClientTable(), Error, msgs);
  }
}
