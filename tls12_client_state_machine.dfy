/**
 * The TLS 1.2 client machine (the client side of the message flow of section 7.3 of
 * RFC 5246). ChangeCipherSpec is not a handshake message: WAIT_CHANGE_CIPHER_SPEC has an
 * empty row and is left only through ProcessChangeCipherSpec.
 */
module Tls12ClientMachine {
  import opened TlsTypes
  import opened HandshakeStates
  import opened TransitionTables
  import opened AbstractStateMachine

  function Tls12ClientTable(): Table
  {
    map[
      Initial := map[ClientHello := WaitServerHello],
      WaitServerHello := map[ServerHello := WaitCertificate],
      WaitCertificate := map[Certificate := WaitServerKeyExchange, ServerHelloDone := WaitClientKeyExchange],
      WaitServerKeyExchange := map[ServerKeyExchange := WaitServerHelloDone, ServerHelloDone := WaitClientKeyExchange,
                                   CertificateRequest := WaitServerHelloDone],
      WaitServerHelloDone := map[ServerHelloDone := WaitClientKeyExchange],
      WaitClientKeyExchange := map[ClientKeyExchange := WaitChangeCipherSpec],
      WaitChangeCipherSpec := map[],
      WaitFinished := map[Finished := Connected],
      WaitCertificateVerify := map[CertificateVerify := WaitChangeCipherSpec]
    ]
  }

  /** The rows written one whole row at a time, before the entries added to existing rows. */
  ghost function Tls12ClientWholeRows(): Table
  {
    map[
      Initial := map[ClientHello := WaitServerHello],
      WaitServerHello := map[ServerHello := WaitCertificate],
      WaitCertificate := map[Certificate := WaitServerKeyExchange, ServerHelloDone := WaitClientKeyExchange],
      WaitServerKeyExchange := map[ServerKeyExchange := WaitServerHelloDone, ServerHelloDone := WaitClientKeyExchange],
      WaitServerHelloDone := map[ServerHelloDone := WaitClientKeyExchange],
      WaitClientKeyExchange := map[ClientKeyExchange := WaitChangeCipherSpec],
      WaitChangeCipherSpec := map[],
      WaitFinished := map[Finished := Connected]
    ]
  }

  /** Adding the CertificateRequest entry and the CertificateVerify row completes the table. */
  lemma Tls12ClientTableAssembled()
    ensures Tls12ClientWholeRows()
              [WaitServerKeyExchange := Row(Tls12ClientWholeRows(), WaitServerKeyExchange)[CertificateRequest := WaitServerHelloDone]]
              [WaitCertificateVerify := map[CertificateVerify := WaitChangeCipherSpec]]
            == Tls12ClientTable()
  {
  }

  class TLS12ClientStateMachine {
    const machine: HandshakeStateMachine

    ghost predicate Valid()
      reads this, machine
    {
      machine.validStates == DefaultValidStates() && machine.transitions == Tls12ClientTable()
    }

    /**
     * Accepts every state and writes the TLS 1.2 client rows; the CertificateRequest entry
     * is added afterwards to the existing WAIT_SERVER_KEY_EXCHANGE row.
     */
    constructor ()
      ensures Valid() && fresh(machine)
      ensures machine.currentState == Initial
    {
      var m := new HandshakeStateMachine(DefaultValidStates());
      m.SetRow(Initial, map[ClientHello := WaitServerHello]);
      m.SetRow(WaitServerHello, map[ServerHello := WaitCertificate]);
      m.SetRow(WaitCertificate, map[Certificate := WaitServerKeyExchange, ServerHelloDone := WaitClientKeyExchange]);
      m.SetRow(WaitServerKeyExchange, map[ServerKeyExchange := WaitServerHelloDone, ServerHelloDone := WaitClientKeyExchange]);
      m.SetRow(WaitServerHelloDone, map[ServerHelloDone := WaitClientKeyExchange]);
      m.SetRow(WaitClientKeyExchange, map[ClientKeyExchange := WaitChangeCipherSpec]);
      m.SetRow(WaitChangeCipherSpec, map[]);
      m.SetRow(WaitFinished, map[Finished := Connected]);
      assert m.transitions == Tls12ClientWholeRows();
      m.SetEntry(WaitServerKeyExchange, CertificateRequest, WaitServerHelloDone);
      m.SetRow(WaitCertificateVerify, map[CertificateVerify := WaitChangeCipherSpec]);
      Tls12ClientTableAssembled();
      machine := m;
    }

    /**
     * The state that may be skipped over from `s`, whatever state the machine is in:
     * a missing ServerKeyExchange, or a CertificateVerify that is not needed.
     */
    function CanSkipState(s: HandshakeState): (r: Option<HandshakeState>)
      ensures r.Some? <==> s == WaitServerKeyExchange || s == WaitCertificateVerify
      ensures s == WaitServerKeyExchange ==> r == Some(WaitServerHelloDone)
      ensures s == WaitCertificateVerify ==> r == Some(WaitChangeCipherSpec)
    {
      match s
      case WaitServerKeyExchange => Some(WaitServerHelloDone)
      case WaitCertificateVerify => Some(WaitChangeCipherSpec)
      case _ => None
    }

    /** Every skip lands where some message from the skipped state would have led. */
    lemma SkipFollowsTable(s: HandshakeState)
      ensures CanSkipState(s).Some? ==> Reaches(Tls12ClientTable(), s, CanSkipState(s).value)
    {
      if s == WaitServerKeyExchange {
        assert Run(Tls12ClientTable(), s, [ServerKeyExchange]) == WaitServerHelloDone;
      } else if s == WaitCertificateVerify {
        assert Run(Tls12ClientTable(), s, [CertificateVerify]) == WaitChangeCipherSpec;
      }
    }

    /** ChangeCipherSpec: from WAIT_CHANGE_CIPHER_SPEC to WAIT_FINISHED, from anywhere else to ERROR. */
    method ProcessChangeCipherSpec()
      requires Valid()
      modifies machine
      ensures Valid()
      ensures machine.currentState == GuardedMove(old(machine.currentState), WaitChangeCipherSpec, WaitFinished)
    {
      var target := GuardedMove(machine.currentState, WaitChangeCipherSpec, WaitFinished);
      DefaultValidStatesCoverAll(target);
      var outcome := machine.TransitionTo(target);
    }
  }

  /**
   * The table path of a full handshake ends in WAIT_CHANGE_CIPHER_SPEC, the only state
   * where ChangeCipherSpec is accepted, and Finished after it completes the handshake.
   */
  lemma Tls12ClientTablePath()
    ensures Run(Tls12ClientTable(), Initial,
                [ClientHello, ServerHello, Certificate, ServerKeyExchange, ServerHelloDone, ClientKeyExchange])
            == WaitChangeCipherSpec
    ensures GuardedMove(WaitChangeCipherSpec, WaitChangeCipherSpec, WaitFinished) == WaitFinished
    ensures Step(Tls12ClientTable(), WaitFinished, Finished) == Connected
  {
    Tls12ClientHelloSteps();
    Tls12ClientKeyExchangeSteps();
  }

  /** The single steps of that path, one message at a time. */
  lemma Tls12ClientPathSteps()
    ensures Step(Tls12ClientTable(), Initial, ClientHello) == WaitServerHello
    ensures Step(Tls12ClientTable(), WaitServerHello, ServerHello) == WaitCertificate
    ensures Step(Tls12ClientTable(), WaitCertificate, Certificate) == WaitServerKeyExchange
    ensures Step(Tls12ClientTable(), WaitServerKeyExchange, ServerKeyExchange) == WaitServerHelloDone
    ensures Step(Tls12ClientTable(), WaitServerHelloDone, ServerHelloDone) == WaitClientKeyExchange
    ensures Step(Tls12ClientTable(), WaitClientKeyExchange, ClientKeyExchange) == WaitChangeCipherSpec
    ensures Step(Tls12ClientTable(), WaitFinished, Finished) == Connected
  {
    Tls12ClientHelloSteps();
    Tls12ClientKeyExchangeSteps();
  }

  /** The steps up to and including ServerKeyExchange. */
  lemma Tls12ClientHelloSteps()
    ensures Step(Tls12ClientTable(), Initial, ClientHello) == WaitServerHello
    ensures Step(Tls12ClientTable(), WaitServerHello, ServerHello) == WaitCertificate
    ensures Step(Tls12ClientTable(), WaitCertificate, Certificate) == WaitServerKeyExchange
    ensures Step(Tls12ClientTable(), WaitServerKeyExchange, ServerKeyExchange) == WaitServerHelloDone
  {
  }

  /** The steps after ServerKeyExchange. */
  lemma Tls12ClientKeyExchangeSteps()
    ensures Step(Tls12ClientTable(), WaitServerHelloDone, ServerHelloDone) == WaitClientKeyExchange
    ensures Step(Tls12ClientTable(), WaitClientKeyExchange, ClientKeyExchange) == WaitChangeCipherSpec
    ensures Step(Tls12ClientTable(), WaitFinished, Finished) == Connected
  {
  }

  /**
   * CertificateRequest may follow ServerKeyExchange; CertificateVerify leads to
   * WAIT_CHANGE_CIPHER_SPEC; ClientKeyExchange out of order is an error.
   */
  lemma Tls12ClientTableEntries()
    ensures Step(Tls12ClientTable(), WaitServerKeyExchange, CertificateRequest) == WaitServerHelloDone
    ensures Step(Tls12ClientTable(), WaitCertificateVerify, CertificateVerify) == WaitChangeCipherSpec
    ensures Step(Tls12ClientTable(), WaitServerHello, ClientKeyExchange) == Error
    ensures NoErrorTargets(Tls12ClientTable())
  {
    Tls12ClientNoErrorTargets();
  }

  /** No entry of the TLS 1.2 client table leads to ERROR. */
  lemma Tls12ClientNoErrorTargets()
    ensures NoErrorTargets(Tls12ClientTable())
  {
  }

  /** WAIT_CHANGE_CIPHER_SPEC accepts no handshake message: any sequence from it ends in ERROR. */
  lemma Tls12ClientChangeCipherSpecIsNotAMessage(msgs: seq<MessageType>)
    requires |msgs| > 0
    ensures Run(Tls12ClientTable(), WaitChangeCipherSpec, msgs) == Error
  {
    DeadEndFallsIntoError(Tls12ClientTable(), WaitChangeCipherSpec, msgs);
  }

  /** A full TLS 1.2 client handshake driven through the machine's own operations. */
  method Tls12ClientCompleteHandshake() returns (final: HandshakeState)
    ensures final == Connected
  {
    var sm := new TLS12ClientStateMachine();
    Tls12ClientPathSteps();
    DefaultValidStatesCoverAll(WaitServerHello);
    DefaultValidStatesCoverAll(WaitCertificate);
    DefaultValidStatesCoverAll(WaitServerKeyExchange);
    DefaultValidStatesCoverAll(WaitServerHelloDone);
    DefaultValidStatesCoverAll(WaitClientKeyExchange);
    DefaultValidStatesCoverAll(WaitChangeCipherSpec);
    DefaultValidStatesCoverAll(Connected);
    var o := ApplyMessage(sm.machine, ClientHello);
    o := ApplyMessage(sm.machine, ServerHello);
    o := ApplyMessage(sm.machine, Certificate);
    o := ApplyMessage(sm.machine, ServerKeyExchange);
    o := ApplyMessage(sm.machine, ServerHelloDone);
    o := ApplyMessage(sm.machine, ClientKeyExchange);
    assert sm.machine.currentState == WaitChangeCipherSpec;
    sm.ProcessChangeCipherSpec();
    o := ApplyMessage(sm.machine, Finished);
    final := sm.machine.currentState;
  }

  /** ChangeCipherSpec outside WAIT_CHANGE_CIPHER_SPEC puts the client in ERROR. */
  method Tls12ClientEarlyChangeCipherSpec() returns (inError: bool)
    ensures inError
  {
    var sm := new TLS12ClientStateMachine();
    sm.ProcessChangeCipherSpec();
    inError := sm.machine.IsInErrorState();
  }
}
