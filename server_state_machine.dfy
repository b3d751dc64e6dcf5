/**
 * The generic server machine. Its table has no row for WAIT_SERVER_HELLO: ClientHello
 * leads straight to WAIT_CERTIFICATE.
 */
module ServerMachine {
  import opened TlsTypes
  import opened HandshakeStates
  import opened TransitionTables
  import opened AbstractStateMachine

  function ServerTable(): Table
  {
    map[
      Initial := map[ClientHello := WaitCertificate],
      WaitCertificate := map[Certificate := WaitServerKeyExchange],
      WaitServerKeyExchange := map[ServerKeyExchange := WaitServerHelloDone],
      WaitServerHelloDone := map[ServerHelloDone := WaitClientKeyExchange],
      WaitClientKeyExchange := map[ClientKeyExchange := WaitCertificateVerify, Finished := WaitFinished],
      WaitCertificateVerify := map[CertificateVerify := WaitFinished],
      WaitFinished := map[Finished := Connected]
    ]
  }

  class ServerStateMachine {
    const machine: HandshakeStateMachine

    ghost predicate Valid()
      reads this, machine
    {
      machine.validStates == DefaultValidStates() && machine.transitions == ServerTable()
    }

    /** Accepts every state and writes the server rows into the table, row by row. */
    constructor ()
      ensures Valid() && fresh(machine)
      ensures machine.currentState == Initial
    {
      var m := new HandshakeStateMachine(DefaultValidStates());
      m.SetRow(Initial, map[ClientHello := WaitCertificate]);
      m.SetRow(WaitCertificate, map[Certificate := WaitServerKeyExchange]);
      m.SetRow(WaitServerKeyExchange, map[ServerKeyExchange := WaitServerHelloDone]);
      m.SetRow(WaitServerHelloDone, map[ServerHelloDone := WaitClientKeyExchange]);
      m.SetRow(WaitClientKeyExchange, map[ClientKeyExchange := WaitCertificateVerify, Finished := WaitFinished]);
      m.SetRow(WaitCertificateVerify, map[CertificateVerify := WaitFinished]);
      m.SetRow(WaitFinished, map[Finished := Connected]);
      machine := m;
    }
  }

  /** The full flow with a client CertificateVerify ends in CONNECTED. */
  lemma ServerFullHandshake()
    ensures Run(ServerTable(), Initial,
                [ClientHello, Certificate, ServerKeyExchange, ServerHelloDone, ClientKeyExchange, CertificateVerify, Finished])
            == Connected
  {
    ServerHelloSteps();
    ServerKeyExchangeSteps();
  }

  /** The steps up to and including ServerKeyExchange. */
  lemma ServerHelloSteps()
    ensures Step(ServerTable(), Initial, ClientHello) == WaitCertificate
    ensures Step(ServerTable(), WaitCertificate, Certificate) == WaitServerKeyExchange
    ensures Step(ServerTable(), WaitServerKeyExchange, ServerKeyExchange) == WaitServerHelloDone
  {
  }

  /** The steps after ServerKeyExchange. */
  lemma ServerKeyExchangeSteps()
    ensures Step(ServerTable(), WaitServerHelloDone, ServerHelloDone) == WaitClientKeyExchange
    ensures Step(ServerTable(), WaitClientKeyExchange, ClientKeyExchange) == WaitCertificateVerify
    ensures Step(ServerTable(), WaitCertificateVerify, CertificateVerify) == WaitFinished
    ensures Step(ServerTable(), WaitFinished, Finished) == Connected
  {
  }

  /**
   * ClientHello goes straight to WAIT_CERTIFICATE; in WAIT_CLIENT_KEY_EXCHANGE,
   * ClientKeyExchange and Finished branch to WAIT_CERTIFICATE_VERIFY and WAIT_FINISHED.
   */
  lemma ServerTableBranches()
    ensures Step(ServerTable(), Initial, ClientHello) == WaitCertificate
    ensures Step(ServerTable(), WaitClientKeyExchange, ClientKeyExchange) == WaitCertificateVerify
    ensures Step(ServerTable(), WaitClientKeyExchange, Finished) == WaitFinished
  {
  }

  /**
   * WAIT_SERVER_HELLO, CONNECTED and ERROR have no row: every non-empty message sequence
   * from them ends in ERROR.
   */
  lemma ServerDeadEnds(msgs: seq<MessageType>)
    requires |msgs| > 0
    ensures Run(ServerTable(), WaitServerHello, msgs) == Error
    ensures Run(ServerTable(), Connected, msgs) == Error
    ensures Run(ServerTable(), Error, msgs) == Error
    ensures NoErrorTargets(ServerTable())
  {
    DeadEndFallsIntoError(ServerTable(), WaitServerHello, msgs);
    DeadEndFallsIntoError(ServerTable(), Connected, msgs);
    DeadEndFallsIntoError(ServerTable(), Error, msgs);
  }

  /** A server that completed the handshake is back in INITIAL after a reset. */
  method ServerResetAfterConnected() returns (before: HandshakeState, after: HandshakeState)
    ensures before == Connected && after == Initial
  {
    var sm := new ServerStateMachine();
    DefaultValidStatesCoverAll(Connected);
    var o := sm.machine.TransitionTo(Connected);
    before := sm.machine.currentState;
    sm.machine.Reset();
    after := sm.machine.currentState;
  }
}
