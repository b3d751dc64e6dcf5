/**
 * The coarse protocol lifecycle: a four-valued state and the base class that moves it and
 * records the negotiated version string.
 */
module HandshakeProtocols {
  import opened TlsTypes

  /** Backed by the integers 0 to 3, in declaration order. */
  datatype HandshakeProtocolState = NotStarted | InProgress | Completed | Failed
  {
    function Value(): (v: int)
      ensures 0 <= v <= 3
    {
      match this
      case NotStarted => 0
      case InProgress => 1
      case Completed => 2
      case Failed => 3
    }

    /** The display label; only its presence matters here. */
    function Label(): (l: string)
      ensures |l| > 0
    {
      match this
      case NotStarted => "未开始"
      case InProgress => "进行中"
      case Completed => "已完成"
      case Failed => "失败"
    }
  }

  /** The enumeration's `tryFrom`. */
  function ProtocolStateFromValue(v: int): (r: Option<HandshakeProtocolState>)
    ensures r.Some? <==> 0 <= v <= 3
    ensures r.Some? ==> r.value.Value() == v
  {
    if v == 0 then Some(NotStarted)
    else if v == 1 then Some(InProgress)
    else if v == 2 then Some(Completed)
    else if v == 3 then Some(Failed)
    else None
  }

  /** `tryFrom` inverts the backing value, so the four values are distinct. */
  lemma ProtocolStateValuesInvert(s: HandshakeProtocolState, t: HandshakeProtocolState)
    ensures ProtocolStateFromValue(s.Value()) == Some(s)
    ensures s.Value() == t.Value() ==> s == t
  {
    match s
    case NotStarted => assert ProtocolStateFromValue(0) == Some(NotStarted);
    case InProgress => assert ProtocolStateFromValue(1) == Some(InProgress);
    case Completed => assert ProtocolStateFromValue(2) == Some(Completed);
    case Failed => assert ProtocolStateFromValue(3) == Some(Failed);
  }

  /** The values increase strictly in declaration order. */
  lemma ProtocolStateValuesIncrease()
    ensures NotStarted.Value() < InProgress.Value() < Completed.Value() < Failed.Value()
    ensures ProtocolStateFromValue(4) == None && ProtocolStateFromValue(-1) == None
  {
  }

  class AbstractHandshakeProtocol {
    var state: HandshakeProtocolState
    var version: Option<string>

    /** Nothing in the base class ever records a failure. */
    ghost predicate Valid()
      reads this
    {
      state != Failed
    }

    constructor ()
      ensures Valid()
      ensures state == NotStarted && version == None
    {
      state := NotStarted;
      version := None;
    }

    /** Starting is unconditional: it also restarts a completed handshake. */
    method StartHandshake()
      modifies this
      ensures Valid()
      ensures state == InProgress
      ensures version == old(version)
    {
      state := InProgress;
    }

    predicate IsHandshakeCompleted()
      reads this
      ensures IsHandshakeCompleted() <==> state.Value() == 2
    {
      state == Completed
    }

    /** Completing is unconditional: a handshake that never started can complete. */
    method CompleteHandshake()
      modifies this
      ensures Valid()
      ensures state == Completed
      ensures version == old(version)
    {
      state := Completed;
    }

    method SetVersion(v: string)
      requires Valid()
      modifies this
      ensures Valid()
      ensures version == Some(v)
      ensures state == old(state)
    {
      version := Some(v);
    }
  }

  /**
   * A protocol completes without being started, is in progress again after a restart, never
   * reaches FAILED, and keeps its version string through both.
   */
  method ProtocolLifecycle() returns (completedEarly: bool, afterRestart: bool, failed: bool, version: Option<string>)
    ensures completedEarly && !afterRestart && !failed
    ensures version == Some("1.3")
  {
    var protocol := new AbstractHandshakeProtocol();
    protocol.SetVersion("1.3");
    protocol.CompleteHandshake();
    completedEarly := protocol.IsHandshakeCompleted();
    protocol.StartHandshake();
    afterRestart := protocol.IsHandshakeCompleted();
    failed := protocol.state == Failed;
    version := protocol.version;
  }
}
