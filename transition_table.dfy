/**
 * The transition table every handshake state machine owns, as a nested map
 * state -> message type -> next state, and the lookup that falls back to ERROR when the
 * table has no entry. `Run` follows a whole message sequence through the table, the way a
 * driver that applies each looked-up state in turn would.
 */
module TransitionTables {
  import opened TlsTypes
  import opened HandshakeStates

  type Table = map<HandshakeState, map<MessageType, HandshakeState>>

  /** The row for `s`; a state the table never wrote behaves as an empty row. */
  function Row(t: Table, s: HandshakeState): map<MessageType, HandshakeState>
  {
    if s in t then t[s] else map[]
  }

  predicate HasEntry(t: Table, s: HandshakeState, m: MessageType)
  {
    s in t && m in t[s]
  }

  /** The state `m` leads to from `s`: the table's entry, or ERROR when there is none. */
  function Step(t: Table, s: HandshakeState, m: MessageType): (r: HandshakeState)
    ensures HasEntry(t, s, m) ==> r == t[s][m]
    ensures !HasEntry(t, s, m) ==> r == Error
  {
    if s in t && m in t[s] then t[s][m] else Error
  }

  /** The state reached from `s` by looking up each message of `msgs` in turn. */
  function Run(t: Table, s: HandshakeState, msgs: seq<MessageType>): HandshakeState
    decreases |msgs|
  {
    if msgs == [] then s else Run(t, Step(t, s, msgs[0]), msgs[1..])
  }

  /** No entry of the table names ERROR as its target. */
  predicate NoErrorTargets(t: Table)
  {
    forall s, m :: HasEntry(t, s, m) ==> t[s][m] != Error
  }

  /** `s` accepts no message at all: it has no row, or an empty one. */
  predicate IsDeadEnd(t: Table, s: HandshakeState)
  {
    forall m :: !HasEntry(t, s, m)
  }

  /** Some non-empty message sequence leads from `s` to `target`. */
  ghost predicate Reaches(t: Table, s: HandshakeState, target: HandshakeState)
  {
    exists msgs :: |msgs| > 0 && Run(t, s, msgs) == target
  }

  /** When no entry targets ERROR, the lookup yields ERROR exactly on a miss. */
  lemma StepIsErrorExactlyOnMiss(t: Table, s: HandshakeState, m: MessageType)
    requires NoErrorTargets(t)
    ensures Step(t, s, m) == Error <==> !HasEntry(t, s, m)
  {
  }

  /** Following a concatenation is following its two halves one after the other. */
  lemma {:induction false} RunAppend(t: Table, s: HandshakeState, a: seq<MessageType>, b: seq<MessageType>)
    ensures Run(t, s, a + b) == Run(t, Run(t, s, a), b)
    decreases |a|
  {
    if a == [] {
      assert a + b == b;
    } else {
      assert (a + b)[0] == a[0];
      assert (a + b)[1..] == a[1..] + b;
      RunAppend(t, Step(t, s, a[0]), a[1..], b);
    }
  }

  /** With no row for ERROR, once a run is in ERROR it stays there. */
  lemma {:induction false} ErrorIsAbsorbing(t: Table, msgs: seq<MessageType>)
    requires IsDeadEnd(t, Error)
    ensures Run(t, Error, msgs) == Error
    decreases |msgs|
  {
    if msgs != [] {
      ErrorIsAbsorbing(t, msgs[1..]);
    }
  }

  /** Any message from a dead-end state leads to ERROR, and nothing leads out again. */
  lemma DeadEndFallsIntoError(t: Table, s: HandshakeState, msgs: seq<MessageType>)
    requires IsDeadEnd(t, s) && IsDeadEnd(t, Error)
    requires |msgs| > 0
    ensures Run(t, s, msgs) == Error
  {
    ErrorIsAbsorbing(t, msgs[1..]);
  }
}
