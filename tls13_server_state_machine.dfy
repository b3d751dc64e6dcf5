/**
 * The TLS 1.3 server machine (the server side of section 2 of RFC 8446). Two modes rewrite
 * one table entry each: PSK mode the EncryptedExtensions entry of WAIT_ENCRYPTED_EXTENSIONS,
 * 0-RTT the ClientHello entry of INITIAL, which then leads to PROCESS_EARLY_DATA. That
 * state has an empty row and is left only through EarlyDataProcessed.
 */
module Tls13ServerMachine {
  import opened TlsTypes
  import opened HandshakeStates
  import opened TransitionTables
  import opened AbstractStateMachine

  /** Where EncryptedExtensions leads: past the certificates in PSK mode. */
  function ServerEncryptedExtensionsTarget(psk: bool): HandshakeState
  {
    if psk then WaitFinished else WaitCertificate
  }

  /** Where ClientHello leads: to the early data first when 0-RTT is on. */
  function ClientHelloTarget(earlyData: bool): HandshakeState
  {
    if earlyData then ProcessEarlyData else WaitServerHello
  }

  /** The rows no mode touches. */
  function Tls13ServerFixedRows(): Table
  {
    map[
      WaitServerHello := map[ServerHello := WaitEncryptedExtensions],
      WaitCertificate := map[Certificate := WaitCertificateVerify, CertificateRequest := WaitCertificateVerify],
      WaitCertificateVerify := map[CertificateVerify := WaitFinished],
      WaitFinished := map[Finished := WaitClientFinished],
      WaitClientFinished := map[Finished := WaitNewSessionTicket],
      WaitNewSessionTicket := map[NewSessionTicket := Connected],
      ProcessEarlyData := map[],
      WaitClientCertificate := map[Certificate := WaitClientVerify],
      WaitClientVerify := map[CertificateVerify := WaitClientFinished]
    ]
  }

  /** The table with its two mode entries set for `psk` and `earlyData`. */
  function Tls13ServerTable(psk: bool, earlyData: bool): Table
  {
    Tls13ServerFixedRows()
      [Initial := map[ClientHello := ClientHelloTarget(earlyData)]]
      [WaitEncryptedExtensions := map[EncryptedExtensions := ServerEncryptedExtensionsTarget(psk)]]
  }

  /** The rows as the constructor writes them, one whole row at a time. */
  ghost function Tls13ServerInitialRows(): Table
  {
    map[
      Initial := map[ClientHello := WaitServerHello],
      WaitServerHello := map[ServerHello := WaitEncryptedExtensions],
      WaitEncryptedExtensions := map[EncryptedExtensions := WaitCertificate],
      WaitCertificate := map[Certificate := WaitCertificateVerify, CertificateRequest := WaitCertificateVerify],
      WaitCertificateVerify := map[CertificateVerify := WaitFinished],
      WaitFinished := map[Finished := WaitClientFinished],
      WaitClientFinished := map[Finished := WaitNewSessionTicket],
      WaitNewSessionTicket := map[NewSessionTicket := Connected],
      ProcessEarlyData := map[],
      WaitClientCertificate := map[Certificate := WaitClientVerify],
      WaitClientVerify := map[CertificateVerify := WaitClientFinished]
    ]
  }

  /** Written row by row, the table is the one with every mode off. */
  lemma Tls13ServerInitialTable()
    ensures Tls13ServerInitialRows() == Tls13ServerTable(false, false)
  {
    var t, r, f := Tls13ServerTable(false, false), Tls13ServerInitialRows(), Tls13ServerFixedRows();
    assert r.Keys == t.Keys;
    forall s | s in r
      ensures r[s] == t[s]
    {
      if s != Initial && s != WaitEncryptedExtensions {
        assert t[s] == f[s];
      }
    }
  }

  /** Rewriting the EncryptedExtensions entry switches the table's PSK mode and nothing else. */
  lemma Tls13ServerRetargetPsk(from: bool, to: bool, earlyData: bool)
    ensures Tls13ServerTable(from, earlyData)
              [WaitEncryptedExtensions := Row(Tls13ServerTable(from, earlyData), WaitEncryptedExtensions)
                                            [EncryptedExtensions := ServerEncryptedExtensionsTarget(to)]]
            == Tls13ServerTable(to, earlyData)
  {
    assert Row(Tls13ServerTable(from, earlyData), WaitEncryptedExtensions)
             [EncryptedExtensions := ServerEncryptedExtensionsTarget(to)]
        == Tls13ServerTable(to, earlyData)[WaitEncryptedExtensions];
  }

  /** Rewriting the ClientHello entry switches the table's 0-RTT mode and nothing else. */
  lemma Tls13ServerRetargetEarlyData(psk: bool, from: bool, to: bool)
    ensures Tls13ServerTable(psk, from)
              [Initial := Row(Tls13ServerTable(psk, from), Initial)[ClientHello := ClientHelloTarget(to)]]
            == Tls13ServerTable(psk, to)
  {
    assert Row(Tls13ServerTable(psk, from), Initial)[ClientHello := ClientHelloTarget(to)]
        == Tls13ServerTable(psk, to)[Initial];
  }

  class TLS13ServerStateMachine {
    const machine: HandshakeStateMachine
    var pskMode: bool
    var earlyDataEnabled: bool
    var clientCertificateRequired: bool

    /** The two mode entries of the table always agree with the two flags. */
    ghost predicate Valid()
      reads this, machine
    {
      machine.validStates == DefaultValidStates()
      && machine.transitions == Tls13ServerTable(pskMode, earlyDataEnabled)
    }

    /** Accepts every state, writes the TLS 1.3 server rows; every mode is off. */
    constructor ()
      ensures Valid() && fresh(machine)
      ensures machine.currentState == Initial
      ensures !pskMode && !earlyDataEnabled && !clientCertificateRequired
    {
      var m := new HandshakeStateMachine(DefaultValidStates());
      m.SetRow(Initial, map[ClientHello := WaitServerHello]);
      m.SetRow(WaitServerHello, map[ServerHello := WaitEncryptedExtensions]);
      m.SetRow(WaitEncryptedExtensions, map[EncryptedExtensions := WaitCertificate]);
      m.SetRow(WaitCertificate, map[Certificate := WaitCertificateVerify, CertificateRequest := WaitCertificateVerify]);
      m.SetRow(WaitCertificateVerify, map[CertificateVerify := WaitFinished]);
      m.SetRow(WaitFinished, map[Finished := WaitClientFinished]);
      m.SetRow(WaitClientFinished, map[Finished := WaitNewSessionTicket]);
      m.SetRow(WaitNewSessionTicket, map[NewSessionTicket := Connected]);
      m.SetRow(ProcessEarlyData, map[]);
      m.SetRow(WaitClientCertificate, map[Certificate := WaitClientVerify]);
      m.SetRow(WaitClientVerify, map[CertificateVerify := WaitClientFinished]);
      assert m.transitions == Tls13ServerInitialRows();
      Tls13ServerInitialTable();
      machine := m;
      pskMode := false;
      earlyDataEnabled := false;
      clientCertificateRequired := false;
    }

    /** Switches PSK mode and rewrites the EncryptedExtensions entry to match. */
    method SetPSKMode(enabled: bool)
      requires Valid()
      modifies this, machine
      ensures Valid()
      ensures pskMode == enabled
      ensures earlyDataEnabled == old(earlyDataEnabled) && clientCertificateRequired == old(clientCertificateRequired)
      ensures machine.currentState == old(machine.currentState)
    {
      Tls13ServerRetargetPsk(pskMode, enabled, earlyDataEnabled);
      pskMode := enabled;
      if enabled {
        machine.SetEntry(WaitEncryptedExtensions, EncryptedExtensions, WaitFinished);
      } else {
        machine.SetEntry(WaitEncryptedExtensions, EncryptedExtensions, WaitCertificate);
      }
    }

    /** Switches 0-RTT and rewrites the ClientHello entry to match. */
    method SetEarlyDataEnabled(enabled: bool)
      requires Valid()
      modifies this, machine
      ensures Valid()
      ensures earlyDataEnabled == enabled
      ensures pskMode == old(pskMode) && clientCertificateRequired == old(clientCertificateRequired)
      ensures machine.currentState == old(machine.currentState)
    {
      Tls13ServerRetargetEarlyData(pskMode, earlyDataEnabled, enabled);
      earlyDataEnabled := enabled;
      if enabled {
        machine.SetEntry(Initial, ClientHello, ProcessEarlyData);
      } else {
        machine.SetEntry(Initial, ClientHello, WaitServerHello);
      }
    }

    method SetClientCertificateRequired(required: bool)
      modifies this
      ensures clientCertificateRequired == required
      ensures pskMode == old(pskMode) && earlyDataEnabled == old(earlyDataEnabled)
    {
      clientCertificateRequired := required;
    }

    /** The early data is done: from PROCESS_EARLY_DATA on to WAIT_SERVER_HELLO, from anywhere else to ERROR. */
    method EarlyDataProcessed()
      requires Valid()
      modifies machine
      ensures Valid()
      ensures machine.currentState == GuardedMove(old(machine.currentState), ProcessEarlyData, WaitServerHello)
    {
      var target := GuardedMove(machine.currentState, ProcessEarlyData, WaitServerHello);
      DefaultValidStatesCoverAll(target);
      var outcome := machine.TransitionTo(target);
    }

    /**
     * In PSK mode the certificate states may be skipped, straight to WAIT_FINISHED; outside
     * PSK mode nothing may be skipped.
     */
    function CanSkipState(s: HandshakeState): (r: Option<HandshakeState>)
      reads this
      ensures r.Some? <==> pskMode && (s == WaitCertificate || s == WaitCertificateVerify)
      ensures r.Some? ==> r.value == WaitFinished
    {
      if pskMode then
        match s
        case WaitCertificate => Some(WaitFinished)
        case WaitCertificateVerify => Some(WaitFinished)
        case _ => None
      else
        None
    }

    /** Every skip lands where some message sequence from the skipped state would have led. */
    lemma SkipFollowsTable(s: HandshakeState)
      ensures CanSkipState(s).Some? ==> Reaches(Tls13ServerTable(pskMode, earlyDataEnabled), s, CanSkipState(s).value)
    {
      var t := Tls13ServerTable(pskMode, earlyDataEnabled);
      if CanSkipState(s).Some? {
        Tls13ServerPathSteps(pskMode, earlyDataEnabled);
        if s == WaitCertificate {
          assert Run(t, s, [Certificate, CertificateVerify]) == WaitFinished;
        } else {
          assert Run(t, s, [CertificateVerify]) == WaitFinished;
        }
      }
    }

    /**
     * A client certificate is requested only when one is required and the server is about to
     * send its certificate; the table then accepts CertificateRequest from the current state.
     */
    function ShouldRequestClientCertificate(): (r: bool)
      requires Valid()
      reads this, machine
      ensures r ==> clientCertificateRequired
      ensures r ==> Step(machine.transitions, machine.currentState, CertificateRequest) == WaitCertificateVerify
      ensures clientCertificateRequired && machine.currentState == WaitCertificate ==> r
    {
      clientCertificateRequired && machine.currentState == WaitCertificate
    }
  }

  /**
   * The full handshake ends in CONNECTED, PSK mode skips the certificates, and with 0-RTT
   * ClientHello first leads to PROCESS_EARLY_DATA.
   */
  lemma Tls13ServerPathSteps(psk: bool, earlyData: bool)
    ensures Step(Tls13ServerTable(psk, earlyData), Initial, ClientHello) == ClientHelloTarget(earlyData)
    ensures Step(Tls13ServerTable(psk, earlyData), WaitServerHello, ServerHello) == WaitEncryptedExtensions
    ensures Step(Tls13ServerTable(psk, earlyData), WaitEncryptedExtensions, EncryptedExtensions)
            == ServerEncryptedExtensionsTarget(psk)
    ensures Step(Tls13ServerTable(psk, earlyData), WaitCertificate, Certificate) == WaitCertificateVerify
    ensures Step(Tls13ServerTable(psk, earlyData), WaitCertificate, CertificateRequest) == WaitCertificateVerify
    ensures Step(Tls13ServerTable(psk, earlyData), WaitCertificateVerify, CertificateVerify) == WaitFinished
    ensures Step(Tls13ServerTable(psk, earlyData), WaitFinished, Finished) == WaitClientFinished
    ensures Step(Tls13ServerTable(psk, earlyData), WaitClientFinished, Finished) == WaitNewSessionTicket
    ensures Step(Tls13ServerTable(psk, earlyData), WaitNewSessionTicket, NewSessionTicket) == Connected
  {
    Tls13ServerModeSteps(psk, earlyData);
    Tls13ServerFixedRowSteps();
    Tls13ServerFixedStep(psk, earlyData, WaitServerHello, ServerHello);
    Tls13ServerFixedStep(psk, earlyData, WaitCertificate, Certificate);
    Tls13ServerFixedStep(psk, earlyData, WaitCertificate, CertificateRequest);
    Tls13ServerFixedStep(psk, earlyData, WaitCertificateVerify, CertificateVerify);
    Tls13ServerFixedStep(psk, earlyData, WaitFinished, Finished);
    Tls13ServerFixedStep(psk, earlyData, WaitClientFinished, Finished);
    Tls13ServerFixedStep(psk, earlyData, WaitNewSessionTicket, NewSessionTicket);
  }

  /** The two entries the modes rewrite. */
  lemma Tls13ServerModeSteps(psk: bool, earlyData: bool)
    ensures Step(Tls13ServerTable(psk, earlyData), Initial, ClientHello) == ClientHelloTarget(earlyData)
    ensures Step(Tls13ServerTable(psk, earlyData), WaitEncryptedExtensions, EncryptedExtensions)
            == ServerEncryptedExtensionsTarget(psk)
  {
  }

  /** Outside the two mode rows, every table looks up like the fixed rows. */
  lemma Tls13ServerFixedStep(psk: bool, earlyData: bool, s: HandshakeState, m: MessageType)
    requires s != Initial && s != WaitEncryptedExtensions
    ensures Step(Tls13ServerTable(psk, earlyData), s, m) == Step(Tls13ServerFixedRows(), s, m)
  {
  }

  /** The single steps of the fixed rows, up to the server's CertificateVerify. */
  lemma Tls13ServerFixedRowSteps()
    ensures Step(Tls13ServerFixedRows(), WaitServerHello, ServerHello) == WaitEncryptedExtensions
    ensures Step(Tls13ServerFixedRows(), WaitCertificate, Certificate) == WaitCertificateVerify
    ensures Step(Tls13ServerFixedRows(), WaitCertificate, CertificateRequest) == WaitCertificateVerify
    ensures Step(Tls13ServerFixedRows(), WaitCertificateVerify, CertificateVerify) == WaitFinished
    ensures Step(Tls13ServerFixedRows(), WaitFinished, Finished) == WaitClientFinished
    ensures Step(Tls13ServerFixedRows(), WaitClientFinished, Finished) == WaitNewSessionTicket
    ensures Step(Tls13ServerFixedRows(), WaitNewSessionTicket, NewSessionTicket) == Connected
  {
    Tls13ServerCertificateRowSteps();
    Tls13ServerFinishedRowSteps();
  }

  /** The fixed steps up to the server's CertificateVerify. */
  lemma Tls13ServerCertificateRowSteps()
    ensures Step(Tls13ServerFixedRows(), WaitServerHello, ServerHello) == WaitEncryptedExtensions
    ensures Step(Tls13ServerFixedRows(), WaitCertificate, Certificate) == WaitCertificateVerify
    ensures Step(Tls13ServerFixedRows(), WaitCertificate, CertificateRequest) == WaitCertificateVerify
    ensures Step(Tls13ServerFixedRows(), WaitCertificateVerify, CertificateVerify) == WaitFinished
  {
  }

  /** The fixed steps from the Finished messages to CONNECTED. */
  lemma Tls13ServerFinishedRowSteps()
    ensures Step(Tls13ServerFixedRows(), WaitFinished, Finished) == WaitClientFinished
    ensures Step(Tls13ServerFixedRows(), WaitClientFinished, Finished) == WaitNewSessionTicket
    ensures Step(Tls13ServerFixedRows(), WaitNewSessionTicket, NewSessionTicket) == Connected
  {
  }

  /** The full handshake without PSK or 0-RTT ends in CONNECTED. */
  lemma Tls13ServerFullPath()
    ensures Run(Tls13ServerTable(false, false), Initial,
                [ClientHello, ServerHello, EncryptedExtensions, Certificate, CertificateVerify, Finished, Finished,
                 NewSessionTicket])
            == Connected
  {
    Tls13ServerPathSteps(false, false);
  }

  /** In PSK mode the certificates are left out and the handshake still ends in CONNECTED. */
  lemma Tls13ServerPskPath(earlyData: bool)
    ensures Run(Tls13ServerTable(true, earlyData), WaitServerHello,
                [ServerHello, EncryptedExtensions, Finished, Finished, NewSessionTicket])
            == Connected
  {
    Tls13ServerPathSteps(true, earlyData);
  }

  /**
   * PROCESS_EARLY_DATA accepts no handshake message, so it is left only through
   * EarlyDataProcessed; no entry targets ERROR.
   */
  lemma Tls13ServerEarlyDataIsManual(psk: bool, earlyData: bool, msgs: seq<MessageType>)
    requires |msgs| > 0
    ensures Run(Tls13ServerTable(psk, earlyData), ProcessEarlyData, msgs) == Error
    ensures NoErrorTargets(Tls13ServerTable(psk, earlyData))
  {
    DeadEndFallsIntoError(Tls13ServerTable(psk, earlyData), ProcessEarlyData, msgs);
    Tls13ServerNoErrorTargets(psk, earlyData);
  }

  /** No entry of the TLS 1.3 server table leads to ERROR, in any mode. */
  lemma Tls13ServerNoErrorTargets(psk: bool, earlyData: bool)
    ensures NoErrorTargets(Tls13ServerTable(psk, earlyData))
  {
  }

  /**
   * No entry of the table leads into WAIT_CLIENT_CERTIFICATE: its row, and the
   * WAIT_CLIENT_VERIFY row after it, are only reached by a direct move.
   */
  lemma Tls13ServerClientCertificateRowsUnreached(psk: bool, earlyData: bool, s: HandshakeState, m: MessageType)
    ensures Step(Tls13ServerTable(psk, earlyData), s, m) != WaitClientCertificate
  {
  }

  /** The modes change the table in their own entry and nowhere else. */
  lemma Tls13ServerModesChangeOnlyTheirEntries(psk: bool, earlyData: bool, s: HandshakeState, m: MessageType)
    ensures (s, m) != (WaitEncryptedExtensions, EncryptedExtensions) && (s, m) != (Initial, ClientHello)
            ==> Step(Tls13ServerTable(psk, earlyData), s, m) == Step(Tls13ServerTable(false, false), s, m)
  {
    Tls13ServerRetargetPsk(false, psk, false);
    Tls13ServerRetargetEarlyData(psk, false, earlyData);
  }

  /** A full TLS 1.3 server handshake, neither PSK nor 0-RTT, driven through the machine's own operations. */
  method Tls13ServerCompleteHandshake() returns (final: HandshakeState)
    ensures final == Connected
  {
    var sm := new TLS13ServerStateMachine();
    Tls13ServerPathSteps(false, false);
    DefaultValidStatesCoverAll(WaitServerHello);
    DefaultValidStatesCoverAll(WaitEncryptedExtensions);
    DefaultValidStatesCoverAll(WaitCertificate);
    DefaultValidStatesCoverAll(WaitCertificateVerify);
    DefaultValidStatesCoverAll(WaitFinished);
    DefaultValidStatesCoverAll(WaitClientFinished);
    DefaultValidStatesCoverAll(WaitNewSessionTicket);
    DefaultValidStatesCoverAll(Connected);
    var o := ApplyMessage(sm.machine, ClientHello);
    o := ApplyMessage(sm.machine, ServerHello);
    o := ApplyMessage(sm.machine, EncryptedExtensions);
    o := ApplyMessage(sm.machine, Certificate);
    o := ApplyMessage(sm.machine, CertificateVerify);
    o := ApplyMessage(sm.machine, Finished);
    o := ApplyMessage(sm.machine, Finished);
    o := ApplyMessage(sm.machine, NewSessionTicket);
    final := sm.machine.currentState;
  }

  /**
   * 0-RTT: ClientHello leads to PROCESS_EARLY_DATA, finishing the early data to
   * WAIT_SERVER_HELLO; finishing it a second time is an error.
   */
  method Tls13ServerEarlyData() returns (afterClientHello: HandshakeState, resumed: HandshakeState, again: HandshakeState)
    ensures afterClientHello == ProcessEarlyData
    ensures resumed == WaitServerHello
    ensures again == Error
  {
    var sm := new TLS13ServerStateMachine();
    sm.SetEarlyDataEnabled(true);
    Tls13ServerPathSteps(false, true);
    DefaultValidStatesCoverAll(ProcessEarlyData);
    var o := ApplyMessage(sm.machine, ClientHello);
    afterClientHello := sm.machine.currentState;
    sm.EarlyDataProcessed();
    resumed := sm.machine.currentState;
    sm.EarlyDataProcessed();
    again := sm.machine.currentState;
  }

  /** A required client certificate is requested in WAIT_CERTIFICATE and not before. */
  method Tls13ServerRequestsClientCertificate() returns (atStart: bool, atCertificate: bool)
    ensures !atStart && atCertificate
  {
    var sm := new TLS13ServerStateMachine();
    sm.SetClientCertificateRequired(true);
    atStart := sm.ShouldRequestClientCertificate();
    DefaultValidStatesCoverAll(WaitCertificate);
    var o := sm.machine.TransitionTo(WaitCertificate);
    atCertificate := sm.ShouldRequestClientCertificate();
  }
}
