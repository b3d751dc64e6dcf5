/**
 * The TLS 1.2 server machine (the server side of the message flow of section 7.3 of
 * RFC 5246). ChangeCipherSpec and the server's own Finished are not table entries:
 * WAIT_CHANGE_CIPHER_SPEC and WAIT_CLIENT_FINISHED have empty rows and are left only through
 * ProcessChangeCipherSpec and PrepareServerFinished.
 */
module Tls12ServerMachine {
  import opened TlsTypes
  import opened HandshakeStates
  import opened TransitionTables
  import opened AbstractStateMachine

  function Tls12ServerTable(): Table
  {
    map[
      Initial := map[ClientHello := WaitServerHello],
      WaitServerHello := map[ServerHello := WaitCertificate],
      WaitCertificate := map[Certificate := WaitServerKeyExchange],
      WaitServerKeyExchange := map[ServerKeyExchange := WaitServerHelloDone, CertificateRequest := WaitServerHelloDone],
      WaitServerHelloDone := map[ServerHelloDone := WaitClientKeyExchange],
      WaitClientKeyExchange := map[Certificate := WaitClientKeyExchangeWithCert, ClientKeyExchange := WaitChangeCipherSpec],
      WaitClientKeyExchangeWithCert := map[ClientKeyExchange := WaitCertificateVerify],
      WaitCertificateVerify := map[CertificateVerify := WaitChangeCipherSpec],
      WaitChangeCipherSpec := map[],
      WaitFinished := map[Finished := WaitClientFinished],
      WaitClientFinished := map[]
    ]
  }

  class TLS12ServerStateMachine {
    const machine: HandshakeStateMachine
    /** Whether the server asks for a client certificate; the table does not consult it. */
    var clientCertificateRequired: bool

    ghost predicate Valid()
      reads this, machine
    {
      machine.validStates == DefaultValidStates() && machine.transitions == Tls12ServerTable()
    }

    /** Accepts every state, writes the TLS 1.2 server rows and asks for no client certificate. */
    constructor ()
      ensures Valid() && fresh(machine)
      ensures machine.currentState == Initial
      ensures !clientCertificateRequired
    {
      var m := new HandshakeStateMachine(DefaultValidStates());
      m.SetRow(Initial, map[ClientHello := WaitServerHello]);
      m.SetRow(WaitServerHello, map[ServerHello := WaitCertificate]);
      m.SetRow(WaitCertificate, map[Certificate := WaitServerKeyExchange]);
      m.SetRow(WaitServerKeyExchange, map[ServerKeyExchange := WaitServerHelloDone, CertificateRequest := WaitServerHelloDone]);
      m.SetRow(WaitServerHelloDone, map[ServerHelloDone := WaitClientKeyExchange]);
      m.SetRow(WaitClientKeyExchange, map[Certificate := WaitClientKeyExchangeWithCert, ClientKeyExchange := WaitChangeCipherSpec]);
      m.SetRow(WaitClientKeyExchangeWithCert, map[ClientKeyExchange := WaitCertificateVerify]);
      m.SetRow(WaitCertificateVerify, map[CertificateVerify := WaitChangeCipherSpec]);
      m.SetRow(WaitChangeCipherSpec, map[]);
      m.SetRow(WaitFinished, map[Finished := WaitClientFinished]);
      m.SetRow(WaitClientFinished, map[]);
      machine := m;
      clientCertificateRequired := false;
    }

    /** Records whether a client certificate is required; the machine itself does not move. */
    method SetClientCertificateRequired(required: bool)
      modifies this
      ensures clientCertificateRequired == required
    {
      clientCertificateRequired := required;
    }

    /** ChangeCipherSpec: from WAIT_CHANGE_CIPHER_SPEC to WAIT_FINISHED, from anywhere else to ERROR. */
    method ProcessChangeCipherSpec()
      requires Valid()
      modifies machine
      ensures Valid()
      ensures machine.currentState == GuardedMove(old(machine.currentState), WaitChangeCipherSpec, WaitFinished)
    {
      var target := GuardedMove(machine.currentState, WaitChangeCipherSpec, WaitFinished);
      DefaultValidStatesCoverAll(target);
      var outcome := machine.TransitionTo(target);
    }

    /**
     * The server's own ChangeCipherSpec and Finished: from WAIT_CLIENT_FINISHED the handshake
     * is complete, from anywhere else the machine goes to ERROR.
     */
    method PrepareServerFinished()
      requires Valid()
      modifies machine
      ensures Valid()
      ensures machine.currentState == GuardedMove(old(machine.currentState), WaitClientFinished, Connected)
      ensures machine.IsHandshakeCompleted() <==> old(machine.currentState) == WaitClientFinished
    {
      var target := GuardedMove(machine.currentState, WaitClientFinished, Connected);
      DefaultValidStatesCoverAll(target);
      var outcome := machine.TransitionTo(target);
    }

    /**
     * The state that may be skipped over from `s`, whatever state the machine is in:
     * a ServerKeyExchange that is not needed, or a CertificateVerify when the client sent no
     * certificate.
     */
    function CanSkipState(s: HandshakeState): (r: Option<HandshakeState>)
      ensures r.Some? <==> s == WaitServerKeyExchange || s == WaitCertificateVerify
      ensures s == WaitServerKeyExchange ==> r == Some(WaitServerHelloDone)
      ensures s == WaitCertificateVerify ==> r == Some(WaitChangeCipherSpec)
    {
      match s
      case WaitServerKeyExchange => Some(WaitServerHelloDone)
      case WaitCertificateVerify => Some(WaitChangeCipherSpec)
      case _ => None
    }

    /** Every skip lands where some message from the skipped state would have led. */
    lemma SkipFollowsTable(s: HandshakeState)
      ensures CanSkipState(s).Some? ==> Reaches(Tls12ServerTable(), s, CanSkipState(s).value)
    {
      if s == WaitServerKeyExchange {
        assert Run(Tls12ServerTable(), s, [ServerKeyExchange]) == WaitServerHelloDone;
      } else if s == WaitCertificateVerify {
        assert Run(Tls12ServerTable(), s, [CertificateVerify]) == WaitChangeCipherSpec;
      }
    }
  }

  /**
   * Without a client certificate the table path ends in WAIT_CHANGE_CIPHER_SPEC; with one it
   * passes through WAIT_CLIENT_KEY_EXCHANGE_WITH_CERT and WAIT_CERTIFICATE_VERIFY to the
   * same state. After ChangeCipherSpec, the client's Finished leads to WAIT_CLIENT_FINISHED.
   */
  lemma Tls12ServerTablePaths()
    ensures Run(Tls12ServerTable(), Initial,
                [ClientHello, ServerHello, Certificate, ServerKeyExchange, ServerHelloDone, ClientKeyExchange])
            == WaitChangeCipherSpec
    ensures Run(Tls12ServerTable(), WaitClientKeyExchange, [Certificate, ClientKeyExchange, CertificateVerify])
            == WaitChangeCipherSpec
    ensures Step(Tls12ServerTable(), WaitFinished, Finished) == WaitClientFinished
  {
    Tls12ServerHelloSteps();
    Tls12ServerKeyExchangeSteps();
    Tls12ServerCertificatePath();
  }

  /** The branch in which the client sends a certificate, one message at a time. */
  lemma Tls12ServerCertificatePath()
    ensures Run(Tls12ServerTable(), WaitClientKeyExchange, [Certificate, ClientKeyExchange, CertificateVerify])
            == WaitChangeCipherSpec
  {
    Tls12ServerCertificateSteps();
  }

  /** The single steps of that branch. */
  lemma Tls12ServerCertificateSteps()
    ensures Step(Tls12ServerTable(), WaitClientKeyExchange, Certificate) == WaitClientKeyExchangeWithCert
    ensures Step(Tls12ServerTable(), WaitClientKeyExchangeWithCert, ClientKeyExchange) == WaitCertificateVerify
    ensures Step(Tls12ServerTable(), WaitCertificateVerify, CertificateVerify) == WaitChangeCipherSpec
  {
  }

  /** The single steps of the path without a client certificate. */
  lemma Tls12ServerPathSteps()
    ensures Step(Tls12ServerTable(), Initial, ClientHello) == WaitServerHello
    ensures Step(Tls12ServerTable(), WaitServerHello, ServerHello) == WaitCertificate
    ensures Step(Tls12ServerTable(), WaitCertificate, Certificate) == WaitServerKeyExchange
    ensures Step(Tls12ServerTable(), WaitServerKeyExchange, ServerKeyExchange) == WaitServerHelloDone
    ensures Step(Tls12ServerTable(), WaitServerHelloDone, ServerHelloDone) == WaitClientKeyExchange
    ensures Step(Tls12ServerTable(), WaitClientKeyExchange, ClientKeyExchange) == WaitChangeCipherSpec
    ensures Step(Tls12ServerTable(), WaitFinished, Finished) == WaitClientFinished
  {
    Tls12ServerHelloSteps();
    Tls12ServerKeyExchangeSteps();
  }

  /** The steps up to and including ServerKeyExchange. */
  lemma Tls12ServerHelloSteps()
    ensures Step(Tls12ServerTable(), Initial, ClientHello) == WaitServerHello
    ensures Step(Tls12ServerTable(), WaitServerHello, ServerHello) == WaitCertificate
    ensures Step(Tls12ServerTable(), WaitCertificate, Certificate) == WaitServerKeyExchange
    ensures Step(Tls12ServerTable(), WaitServerKeyExchange, ServerKeyExchange) == WaitServerHelloDone
  {
  }

  /** The steps after ServerKeyExchange. */
  lemma Tls12ServerKeyExchangeSteps()
    ensures Step(Tls12ServerTable(), WaitServerHelloDone, ServerHelloDone) == WaitClientKeyExchange
    ensures Step(Tls12ServerTable(), WaitClientKeyExchange, ClientKeyExchange) == WaitChangeCipherSpec
    ensures Step(Tls12ServerTable(), WaitFinished, Finished) == WaitClientFinished
  {
  }

  /**
   * WAIT_CHANGE_CIPHER_SPEC and WAIT_CLIENT_FINISHED accept no handshake message, and neither
   * does CONNECTED: every sequence from them ends in ERROR. No entry targets ERROR.
   */
  lemma Tls12ServerManualStates(msgs: seq<MessageType>)
    requires |msgs| > 0
    ensures Run(Tls12ServerTable(), WaitChangeCipherSpec, msgs) == Error
    ensures Run(Tls12ServerTable(), WaitClientFinished, msgs) == Error
    ensures Run(Tls12ServerTable(), Connected, msgs) == Error
    ensures NoErrorTargets(Tls12ServerTable())
  {
    DeadEndFallsIntoError(Tls12ServerTable(), WaitChangeCipherSpec, msgs);
    DeadEndFallsIntoError(Tls12ServerTable(), WaitClientFinished, msgs);
    DeadEndFallsIntoError(Tls12ServerTable(), Connected, msgs);
  }

  /** A full TLS 1.2 server handshake driven through the machine's own operations. */
  method Tls12ServerCompleteHandshake() returns (final: HandshakeState, certRequired: bool)
    ensures final == Connected
    ensures !certRequired
  {
    var sm := new TLS12ServerStateMachine();
    Tls12ServerPathSteps();
    DefaultValidStatesCoverAll(WaitServerHello);
    DefaultValidStatesCoverAll(WaitCertificate);
    DefaultValidStatesCoverAll(WaitServerKeyExchange);
    DefaultValidStatesCoverAll(WaitServerHelloDone);
    DefaultValidStatesCoverAll(WaitClientKeyExchange);
    DefaultValidStatesCoverAll(WaitChangeCipherSpec);
    DefaultValidStatesCoverAll(WaitClientFinished);
    var o := ApplyMessage(sm.machine, ClientHello);
    o := ApplyMessage(sm.machine, ServerHello);
    o := ApplyMessage(sm.machine, Certificate);
    o := ApplyMessage(sm.machine, ServerKeyExchange);
    o := ApplyMessage(sm.machine, ServerHelloDone);
    o := ApplyMessage(sm.machine, ClientKeyExchange);
    assert sm.machine.currentState == WaitChangeCipherSpec;
    sm.ProcessChangeCipherSpec();
    o := ApplyMessage(sm.machine, Finished);
    assert sm.machine.currentState == WaitClientFinished;
    sm.PrepareServerFinished();
    final := sm.machine.currentState;
    certRequired := sm.clientCertificateRequired;
  }

  /** Finishing before the client's Finished puts the server in ERROR; the flag is only stored. */
  method Tls12ServerEarlyFinished() returns (inError: bool, certRequired: bool)
    ensures inError && certRequired
  {
    var sm := new TLS12ServerStateMachine();
    sm.SetClientCertificateRequired(true);
    sm.PrepareServerFinished();
    inError := sm.machine.IsInErrorState();
    certRequired := sm.clientCertificateRequired;
  }
}
