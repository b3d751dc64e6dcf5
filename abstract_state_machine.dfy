/**
 * The state machine every handshake variant is built on: the current state, the list of
 * states it may be moved to, and its transition table. Moves are checked against the list
 * only, never against the table; lookups in the table never move the machine.
 */
module AbstractStateMachine {
  import opened TlsTypes
  import opened HandshakeStates
  import opened TransitionTables

  /** The states a machine accepts unless it is built with another list: all eighteen. */
  function DefaultValidStates(): (vs: seq<HandshakeState>)
    ensures |vs| == 18
    ensures forall i, j :: 0 <= i < j < |vs| ==> vs[i] != vs[j]
  {
    [ Initial, WaitServerHello, WaitCertificate, WaitServerKeyExchange, WaitServerHelloDone,
      WaitClientCertificate, WaitClientKeyExchange, WaitClientKeyExchangeWithCert,
      WaitCertificateVerify, WaitChangeCipherSpec, WaitFinished, WaitClientFinished,
      WaitEncryptedExtensions, WaitNewSessionTicket, ProcessEarlyData, WaitClientVerify,
      Connected, Error ]
  }

  /** Every case of the enumeration is in the default list. */
  lemma DefaultValidStatesCoverAll(s: HandshakeState)
    ensures s in DefaultValidStates()
  {
    var vs := DefaultValidStates();
    match s
    case Initial => assert vs[0] == s;
    case WaitServerHello => assert vs[1] == s;
    case WaitCertificate => assert vs[2] == s;
    case WaitServerKeyExchange => assert vs[3] == s;
    case WaitServerHelloDone => assert vs[4] == s;
    case WaitClientCertificate => assert vs[5] == s;
    case WaitClientKeyExchange => assert vs[6] == s;
    case WaitClientKeyExchangeWithCert => assert vs[7] == s;
    case WaitCertificateVerify => assert vs[8] == s;
    case WaitChangeCipherSpec => assert vs[9] == s;
    case WaitFinished => assert vs[10] == s;
    case WaitClientFinished => assert vs[11] == s;
    case WaitEncryptedExtensions => assert vs[12] == s;
    case WaitNewSessionTicket => assert vs[13] == s;
    case ProcessEarlyData => assert vs[14] == s;
    case WaitClientVerify => assert vs[15] == s;
    case Connected => assert vs[16] == s;
    case Error => assert vs[17] == s;
  }

  class HandshakeStateMachine {
    var currentState: HandshakeState
    var validStates: seq<HandshakeState>
    var transitions: Table

    /**
     * A machine in INITIAL with the given list of accepted states and an empty table;
     * each variant then writes its own rows.
     */
    constructor (validStates: seq<HandshakeState>)
      ensures currentState == Initial
      ensures this.validStates == validStates
      ensures transitions == map[]
      ensures !IsInErrorState() && !IsHandshakeCompleted()
    {
      currentState := Initial;
      this.validStates := validStates;
      transitions := map[];
    }

    /** Replaces the whole row of `s`, as an assignment of a new inner array does. */
    method SetRow(s: HandshakeState, row: map<MessageType, HandshakeState>)
      modifies this
      ensures transitions == old(transitions)[s := row]
      ensures currentState == old(currentState) && validStates == old(validStates)
    {
      transitions := transitions[s := row];
    }

    /** Writes the one entry (s, m), keeping the rest of the row of `s`. */
    method SetEntry(s: HandshakeState, m: MessageType, target: HandshakeState)
      modifies this
      ensures transitions == old(transitions)[s := Row(old(transitions), s)[m := target]]
      ensures currentState == old(currentState) && validStates == old(validStates)
    {
      transitions := transitions[s := Row(transitions, s)[m := target]];
    }

    /**
     * Moves to `s` when it is one of the accepted states, whatever the table says;
     * otherwise fails and leaves the machine where it was.
     */
    method TransitionTo(s: HandshakeState) returns (outcome: Outcome)
      modifies this
      ensures outcome == if s in validStates then Pass else Fail(InvalidState)
      ensures currentState == if s in validStates then s else old(currentState)
      ensures validStates == old(validStates) && transitions == old(transitions)
    {
      if s !in validStates {
        return Fail(InvalidState);
      }
      currentState := s;
      outcome := Pass;
    }

    /** The state message `m` leads to from the current state; ERROR when the table has none. */
    function GetNextState(m: MessageType): (r: HandshakeState)
      reads this
      ensures r == Step(transitions, currentState, m)
    {
      Step(transitions, currentState, m)
    }

    /** The machine is in ERROR; a machine in ERROR has not completed the handshake. */
    predicate IsInErrorState()
      reads this
      ensures IsInErrorState() ==> !IsHandshakeCompleted()
    {
      currentState == Error
    }

    /** The machine is in CONNECTED, the state backed by the string "CONNECTED". */
    predicate IsHandshakeCompleted()
      reads this
      ensures IsHandshakeCompleted() <==> currentState.Value() == "CONNECTED"
    {
      currentState == Connected
    }

    /** Back to INITIAL from any state, with the table (and any mode entries in it) kept. */
    method Reset()
      modifies this
      ensures currentState == Initial
      ensures validStates == old(validStates) && transitions == old(transitions)
      ensures !IsInErrorState() && !IsHandshakeCompleted()
    {
      currentState := Initial;
    }
  }

  /**
   * The shape shared by the out-of-table moves of the variants (ChangeCipherSpec, the
   * server's Finished, the end of early data): to `target` from `expected`, else to ERROR.
   */
  function GuardedMove(current: HandshakeState, expected: HandshakeState, target: HandshakeState): (r: HandshakeState)
    requires target != Error
    ensures r == target || r == Error
    ensures r == target <==> current == expected
  {
    if current == expected then target else Error
  }

  /**
   * What a driver does with a received message: looks the message up from the current
   * state and moves to the state found.
   */
  method ApplyMessage(sm: HandshakeStateMachine, m: MessageType) returns (outcome: Outcome)
    modifies sm
    ensures outcome == Pass <==> Step(old(sm.transitions), old(sm.currentState), m) in old(sm.validStates)
    ensures var next := Step(old(sm.transitions), old(sm.currentState), m);
      sm.currentState == (if next in sm.validStates then next else old(sm.currentState))
    ensures sm.validStates == old(sm.validStates) && sm.transitions == old(sm.transitions)
  {
    var next := sm.GetNextState(m);
    outcome := sm.TransitionTo(next);
  }

  /**
   * A machine restricted to INITIAL alone refuses a move to WAIT_SERVER_HELLO and stays put,
   * while a move to INITIAL, made twice, is accepted both times.
   */
  method RestrictedMachineRefusesMove() returns (refused: Outcome, again: Outcome, stayed: HandshakeState)
    ensures refused == Fail(InvalidState)
    ensures again == Pass
    ensures stayed == Initial
  {
    var sm := new HandshakeStateMachine([Initial]);
    refused := sm.TransitionTo(WaitServerHello);
    again := sm.TransitionTo(Initial);
    again := sm.TransitionTo(Initial);
    stayed := sm.currentState;
  }
}
