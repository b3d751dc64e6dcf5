/**
 * The TLS 1.3 client machine (the client side of section 2 of RFC 8446). PSK mode is
 * recorded in a flag and, when it is switched, in the one table entry it rewrites: the
 * EncryptedExtensions entry of WAIT_ENCRYPTED_EXTENSIONS, which leads to WAIT_FINISHED in
 * PSK mode and to WAIT_CERTIFICATE otherwise. The ghost field `pskRoute` remembers which
 * of the two the table currently holds, since rejecting PSK changes the flag alone.
 */
module Tls13ClientMachine {
  import opened TlsTypes
  import opened HandshakeStates
  import opened TransitionTables
  import opened AbstractStateMachine

  /** Where EncryptedExtensions leads: past the certificates in PSK mode. */
  function EncryptedExtensionsTarget(psk: bool): HandshakeState
  {
    if psk then WaitFinished else WaitCertificate
  }

  /** The table with the EncryptedExtensions entry set for PSK mode `psk`. */
  function Tls13ClientTable(psk: bool): Table
  {
    map[
      Initial := map[ClientHello := WaitServerHello],
      WaitServerHello := map[ServerHello := WaitEncryptedExtensions],
      WaitEncryptedExtensions := map[EncryptedExtensions := EncryptedExtensionsTarget(psk), Finished := WaitNewSessionTicket],
      WaitCertificate := map[Certificate := WaitCertificateVerify, Finished := WaitNewSessionTicket,
                             CertificateRequest := WaitClientCertificate],
      WaitCertificateVerify := map[CertificateVerify := WaitFinished],
      WaitFinished := map[Finished := WaitNewSessionTicket],
      WaitNewSessionTicket := map[NewSessionTicket := Connected, Finished := Connected],
      WaitClientCertificate := map[Certificate := WaitFinished]
    ]
  }

  /** The rows written one whole row at a time, before the CertificateRequest entry. */
  ghost function Tls13ClientWholeRows(): Table
  {
    map[
      Initial := map[ClientHello := WaitServerHello],
      WaitServerHello := map[ServerHello := WaitEncryptedExtensions],
      WaitEncryptedExtensions := map[EncryptedExtensions := WaitCertificate, Finished := WaitNewSessionTicket],
      WaitCertificate := map[Certificate := WaitCertificateVerify, Finished := WaitNewSessionTicket],
      WaitCertificateVerify := map[CertificateVerify := WaitFinished],
      WaitFinished := map[Finished := WaitNewSessionTicket],
      WaitNewSessionTicket := map[NewSessionTicket := Connected, Finished := Connected]
    ]
  }

  /** The CertificateRequest entry and the WAIT_CLIENT_CERTIFICATE row complete the initial table. */
  lemma Tls13ClientTableAssembled()
    ensures Tls13ClientWholeRows()
              [WaitCertificate := Row(Tls13ClientWholeRows(), WaitCertificate)[CertificateRequest := WaitClientCertificate]]
              [WaitClientCertificate := map[Certificate := WaitFinished]]
            == Tls13ClientTable(false)
  {
  }

  /** Rewriting the EncryptedExtensions entry turns the table for one mode into the table for the other. */
  lemma Tls13ClientRetarget(from: bool, to: bool)
    ensures Tls13ClientTable(from)
              [WaitEncryptedExtensions := Row(Tls13ClientTable(from), WaitEncryptedExtensions)
                                            [EncryptedExtensions := EncryptedExtensionsTarget(to)]]
            == Tls13ClientTable(to)
  {
    var t := Tls13ClientTable(from);
    assert Row(t, WaitEncryptedExtensions)[EncryptedExtensions := EncryptedExtensionsTarget(to)]
        == Tls13ClientTable(to)[WaitEncryptedExtensions];
  }

  class TLS13ClientStateMachine {
    const machine: HandshakeStateMachine
    var pskMode: bool
    var earlyDataEnabled: bool
    /** The mode the table's EncryptedExtensions entry was last written for. */
    ghost var pskRoute: bool

    ghost predicate Valid()
      reads this, machine
    {
      machine.validStates == DefaultValidStates() && machine.transitions == Tls13ClientTable(pskRoute)
    }

    /** Accepts every state, writes the TLS 1.3 client rows; PSK and 0-RTT are off. */
    constructor ()
      ensures Valid() && fresh(machine)
      ensures machine.currentState == Initial
      ensures !pskMode && !pskRoute && !earlyDataEnabled
    {
      var m := new HandshakeStateMachine(DefaultValidStates());
      m.SetRow(Initial, map[ClientHello := WaitServerHello]);
      m.SetRow(WaitServerHello, map[ServerHello := WaitEncryptedExtensions]);
      m.SetRow(WaitEncryptedExtensions, map[EncryptedExtensions := WaitCertificate, Finished := WaitNewSessionTicket]);
      m.SetRow(WaitCertificate, map[Certificate := WaitCertificateVerify, Finished := WaitNewSessionTicket]);
      m.SetRow(WaitCertificateVerify, map[CertificateVerify := WaitFinished]);
      m.SetRow(WaitFinished, map[Finished := WaitNewSessionTicket]);
      m.SetRow(WaitNewSessionTicket, map[NewSessionTicket := Connected, Finished := Connected]);
      assert m.transitions == Tls13ClientWholeRows();
      m.SetEntry(WaitCertificate, CertificateRequest, WaitClientCertificate);
      m.SetRow(WaitClientCertificate, map[Certificate := WaitFinished]);
      Tls13ClientTableAssembled();
      machine := m;
      pskMode := false;
      earlyDataEnabled := false;
      pskRoute := false;
    }

    /**
     * Switches PSK mode and rewrites the EncryptedExtensions entry to match; nothing else in
     * the table, and not the current state, changes.
     */
    method SetPSKMode(enabled: bool)
      requires Valid()
      modifies this, machine
      ensures Valid()
      ensures pskMode == enabled && pskRoute == enabled
      ensures earlyDataEnabled == old(earlyDataEnabled)
      ensures machine.currentState == old(machine.currentState)
    {
      pskMode := enabled;
      Tls13ClientRetarget(pskRoute, enabled);
      if enabled {
        machine.SetEntry(WaitEncryptedExtensions, EncryptedExtensions, WaitFinished);
      } else {
        machine.SetEntry(WaitEncryptedExtensions, EncryptedExtensions, WaitCertificate);
      }
      pskRoute := enabled;
    }

    method SetEarlyDataEnabled(enabled: bool)
      modifies this
      ensures earlyDataEnabled == enabled
      ensures pskMode == old(pskMode) && pskRoute == old(pskRoute)
    {
      earlyDataEnabled := enabled;
    }

    /**
     * In PSK mode the certificate states may be skipped, straight to WAIT_FINISHED; outside
     * PSK mode nothing may be skipped.
     */
    function CanSkipState(s: HandshakeState): (r: Option<HandshakeState>)
      reads this
      ensures r.Some? <==> pskMode && (s == WaitCertificate || s == WaitCertificateVerify)
      ensures r.Some? ==> r.value == WaitFinished
    {
      if pskMode then
        match s
        case WaitCertificate => Some(WaitFinished)
        case WaitCertificateVerify => Some(WaitFinished)
        case _ => None
      else
        None
    }

    /** Every skip lands where some message sequence from the skipped state would have led. */
    lemma SkipFollowsTable(s: HandshakeState)
      ensures CanSkipState(s).Some? ==> Reaches(Tls13ClientTable(pskRoute), s, CanSkipState(s).value)
    {
      var t := Tls13ClientTable(pskRoute);
      if CanSkipState(s).Some? {
        if s == WaitCertificate {
          assert Run(t, s, [CertificateRequest, Certificate]) == WaitFinished;
        } else {
          assert Run(t, s, [CertificateVerify]) == WaitFinished;
        }
      }
    }

    /**
     * The server rejected PSK: in WAIT_ENCRYPTED_EXTENSIONS the flag is cleared, anywhere
     * else nothing happens. The table entry written for PSK mode is left as it was.
     */
    method HandlePSKRejection()
      requires Valid()
      modifies this
      ensures Valid()
      ensures pskMode == (if old(machine.currentState) == WaitEncryptedExtensions then false else old(pskMode))
      ensures pskRoute == old(pskRoute) && earlyDataEnabled == old(earlyDataEnabled)
    {
      if machine.currentState == WaitEncryptedExtensions {
        pskMode := false;
      }
    }

    /**
     * PSK rejection as its comment intends: the flag is cleared and the EncryptedExtensions
     * entry is rewritten for a full handshake, so flag and table agree again.
     */
    method HandlePSKRejectionRestoringRoute()
      requires Valid()
      modifies this, machine
      ensures Valid()
      ensures old(machine.currentState) == WaitEncryptedExtensions ==> !pskMode && !pskRoute
      ensures old(machine.currentState) != WaitEncryptedExtensions ==> pskMode == old(pskMode) && pskRoute == old(pskRoute)
      ensures old(pskMode) == old(pskRoute) ==> pskMode == pskRoute
      ensures machine.currentState == old(machine.currentState) && earlyDataEnabled == old(earlyDataEnabled)
    {
      if machine.currentState == WaitEncryptedExtensions {
        SetPSKMode(false);
      }
    }
  }

  /** The full handshake without PSK ends in CONNECTED. */
  lemma Tls13ClientFullPath()
    ensures Run(Tls13ClientTable(false), Initial,
                [ClientHello, ServerHello, EncryptedExtensions, Certificate, CertificateVerify, Finished, NewSessionTicket])
            == Connected
  {
    Tls13ClientPathSteps(false);
  }

  /** PSK resumption skips the certificates and ends in CONNECTED. */
  lemma Tls13ClientPskPath()
    ensures Run(Tls13ClientTable(true), Initial, [ClientHello, ServerHello, EncryptedExtensions, Finished, NewSessionTicket])
            == Connected
  {
    Tls13ClientPathSteps(true);
  }

  /** A client certificate request inserts WAIT_CLIENT_CERTIFICATE before WAIT_FINISHED, in either mode. */
  lemma Tls13ClientCertificateRequestPath(psk: bool)
    ensures Run(Tls13ClientTable(psk), WaitCertificate, [CertificateRequest, Certificate, Finished, Finished]) == Connected
  {
    Tls13ClientPathSteps(psk);
  }

  /** The single steps of the two paths. */
  lemma Tls13ClientPathSteps(psk: bool)
    ensures Step(Tls13ClientTable(psk), Initial, ClientHello) == WaitServerHello
    ensures Step(Tls13ClientTable(psk), WaitServerHello, ServerHello) == WaitEncryptedExtensions
    ensures Step(Tls13ClientTable(psk), WaitEncryptedExtensions, EncryptedExtensions) == EncryptedExtensionsTarget(psk)
    ensures Step(Tls13ClientTable(psk), WaitCertificate, Certificate) == WaitCertificateVerify
    ensures Step(Tls13ClientTable(psk), WaitCertificate, CertificateRequest) == WaitClientCertificate
    ensures Step(Tls13ClientTable(psk), WaitClientCertificate, Certificate) == WaitFinished
    ensures Step(Tls13ClientTable(psk), WaitCertificateVerify, CertificateVerify) == WaitFinished
    ensures Step(Tls13ClientTable(psk), WaitFinished, Finished) == WaitNewSessionTicket
    ensures Step(Tls13ClientTable(psk), WaitNewSessionTicket, NewSessionTicket) == Connected
    ensures Step(Tls13ClientTable(psk), WaitNewSessionTicket, Finished) == Connected
  {
    Tls13ClientHelloSteps(psk);
    Tls13ClientCertificateSteps(psk);
    Tls13ClientFinishSteps(psk);
  }

  /** The steps up to and including EncryptedExtensions. */
  lemma Tls13ClientHelloSteps(psk: bool)
    ensures Step(Tls13ClientTable(psk), Initial, ClientHello) == WaitServerHello
    ensures Step(Tls13ClientTable(psk), WaitServerHello, ServerHello) == WaitEncryptedExtensions
    ensures Step(Tls13ClientTable(psk), WaitEncryptedExtensions, EncryptedExtensions) == EncryptedExtensionsTarget(psk)
  {
  }

  /** The steps through the server's and the client's certificates. */
  lemma Tls13ClientCertificateSteps(psk: bool)
    ensures Step(Tls13ClientTable(psk), WaitCertificate, Certificate) == WaitCertificateVerify
    ensures Step(Tls13ClientTable(psk), WaitCertificate, CertificateRequest) == WaitClientCertificate
    ensures Step(Tls13ClientTable(psk), WaitClientCertificate, Certificate) == WaitFinished
    ensures Step(Tls13ClientTable(psk), WaitCertificateVerify, CertificateVerify) == WaitFinished
  {
  }

  /** The steps from Finished to CONNECTED. */
  lemma Tls13ClientFinishSteps(psk: bool)
    ensures Step(Tls13ClientTable(psk), WaitFinished, Finished) == WaitNewSessionTicket
    ensures Step(Tls13ClientTable(psk), WaitNewSessionTicket, NewSessionTicket) == Connected
    ensures Step(Tls13ClientTable(psk), WaitNewSessionTicket, Finished) == Connected
  {
  }

  /** PSK mode changes the table in the EncryptedExtensions entry and nowhere else. */
  lemma PskModeChangesOneEntry(s: HandshakeState, m: MessageType)
    ensures (s, m) != (WaitEncryptedExtensions, EncryptedExtensions)
            ==> Step(Tls13ClientTable(true), s, m) == Step(Tls13ClientTable(false), s, m)
    ensures Step(Tls13ClientTable(true), WaitEncryptedExtensions, EncryptedExtensions)
            != Step(Tls13ClientTable(false), WaitEncryptedExtensions, EncryptedExtensions)
  {
    Tls13ClientRetarget(false, true);
  }

  /** A full TLS 1.3 client handshake without PSK, driven through the machine's own operations. */
  method Tls13ClientCompleteHandshake() returns (final: HandshakeState)
    ensures final == Connected
  {
    var sm := new TLS13ClientStateMachine();
    Tls13ClientPathSteps(false);
    DefaultValidStatesCoverAll(WaitServerHello);
    DefaultValidStatesCoverAll(WaitEncryptedExtensions);
    DefaultValidStatesCoverAll(WaitCertificate);
    DefaultValidStatesCoverAll(WaitCertificateVerify);
    DefaultValidStatesCoverAll(WaitFinished);
    DefaultValidStatesCoverAll(WaitNewSessionTicket);
    DefaultValidStatesCoverAll(Connected);
    var o := ApplyMessage(sm.machine, ClientHello);
    o := ApplyMessage(sm.machine, ServerHello);
    o := ApplyMessage(sm.machine, EncryptedExtensions);
    o := ApplyMessage(sm.machine, Certificate);
    o := ApplyMessage(sm.machine, CertificateVerify);
    o := ApplyMessage(sm.machine, Finished);
    o := ApplyMessage(sm.machine, NewSessionTicket);
    final := sm.machine.currentState;
  }

  /** PSK resumption: EncryptedExtensions leads straight to WAIT_FINISHED, certificates may be skipped. */
  method Tls13ClientPskResumption() returns (afterEncryptedExtensions: HandshakeState, skip: Option<HandshakeState>)
    ensures afterEncryptedExtensions == WaitFinished
    ensures skip == Some(WaitFinished)
  {
    var sm := new TLS13ClientStateMachine();
    sm.SetPSKMode(true);
    Tls13ClientPathSteps(true);
    DefaultValidStatesCoverAll(WaitServerHello);
    DefaultValidStatesCoverAll(WaitEncryptedExtensions);
    DefaultValidStatesCoverAll(WaitFinished);
    var o := ApplyMessage(sm.machine, ClientHello);
    o := ApplyMessage(sm.machine, ServerHello);
    o := ApplyMessage(sm.machine, EncryptedExtensions);
    afterEncryptedExtensions := sm.machine.currentState;
    skip := sm.CanSkipState(WaitCertificate);
  }

  /**
   * PSK rejected in WAIT_ENCRYPTED_EXTENSIONS: the flag is off, so nothing may be skipped, yet
   * the table still sends EncryptedExtensions to WAIT_FINISHED and the server's Certificate
   * of the full handshake then leads to ERROR.
   */
  method Tls13ClientPskRejectionAsWritten()
    returns (skip: Option<HandshakeState>, afterEncryptedExtensions: HandshakeState, afterCertificate: HandshakeState)
    ensures skip == None
    ensures afterEncryptedExtensions == WaitFinished
    ensures afterCertificate == Error
  {
    var sm := new TLS13ClientStateMachine();
    sm.SetPSKMode(true);
    DefaultValidStatesCoverAll(WaitEncryptedExtensions);
    var o := sm.machine.TransitionTo(WaitEncryptedExtensions);
    sm.HandlePSKRejection();
    skip := sm.CanSkipState(WaitCertificate);
    Tls13ClientHelloSteps(true);
    DefaultValidStatesCoverAll(WaitFinished);
    DefaultValidStatesCoverAll(Error);
    assert sm.machine.currentState == WaitEncryptedExtensions;
    o := ApplyMessage(sm.machine, EncryptedExtensions);
    afterEncryptedExtensions := sm.machine.currentState;
    assert afterEncryptedExtensions == WaitFinished;
    assert Step(sm.machine.transitions, WaitFinished, Certificate) == Error;
    o := ApplyMessage(sm.machine, Certificate);
    afterCertificate := sm.machine.currentState;
  }

  /** With the route restored, the full handshake after a PSK rejection reaches CONNECTED. */
  method Tls13ClientPskRejectionRestored() returns (afterEncryptedExtensions: HandshakeState, final: HandshakeState)
    ensures afterEncryptedExtensions == WaitCertificate
    ensures final == Connected
  {
    var sm := new TLS13ClientStateMachine();
    sm.SetPSKMode(true);
    DefaultValidStatesCoverAll(WaitEncryptedExtensions);
    var o := sm.machine.TransitionTo(WaitEncryptedExtensions);
    sm.HandlePSKRejectionRestoringRoute();
    Tls13ClientPathSteps(false);
    DefaultValidStatesCoverAll(WaitCertificate);
    DefaultValidStatesCoverAll(WaitCertificateVerify);
    DefaultValidStatesCoverAll(WaitFinished);
    DefaultValidStatesCoverAll(WaitNewSessionTicket);
    DefaultValidStatesCoverAll(Connected);
    o := ApplyMessage(sm.machine, EncryptedExtensions);
    afterEncryptedExtensions := sm.machine.currentState;
    o := ApplyMessage(sm.machine, Certificate);
    o := ApplyMessage(sm.machine, CertificateVerify);
    o := ApplyMessage(sm.machine, Finished);
    o := ApplyMessage(sm.machine, NewSessionTicket);
    final := sm.machine.currentState;
  }
}
