/**
 * The coarse stage gate: a stage that only moves forward, and a fixed map from each stage
 * to the message types it accepts.
 */
module HandshakeFlows {
  import opened TlsTypes
  import opened HandshakeStages

  /** The message types each stage accepts, as the flow's constructor writes them. */
  function StageMessageMap(): map<HandshakeStage, seq<MessageType>>
  {
    map[
      InitialStage := [ClientHello, HelloRequest],
      NegotiatingStage := [ServerHello, EncryptedExtensions],
      KeyExchangeStage := [ServerKeyExchange, ClientKeyExchange],
      AuthenticationStage := [Certificate, CertificateRequest, CertificateVerify, ServerHelloDone],
      FinishedStage := [Finished, NewSessionTicket]
    ]
  }

  /** An independent classification: the one stage in which each message type belongs. */
  function StageOf(m: MessageType): HandshakeStage
  {
    match m
    case ClientHello | HelloRequest => InitialStage
    case ServerHello | EncryptedExtensions => NegotiatingStage
    case ServerKeyExchange | ClientKeyExchange => KeyExchangeStage
    case Certificate | CertificateRequest | CertificateVerify | ServerHelloDone => AuthenticationStage
    case Finished | NewSessionTicket => FinishedStage
  }

  /**
   * Every message type is accepted in exactly one stage, the one `StageOf` names: the five
   * lists are pairwise disjoint and together cover every type.
   */
  lemma StageMessagesPartition(m: MessageType, s: HandshakeStage)
    ensures s in StageMessageMap()
    ensures m in StageMessageMap()[s] <==> s == StageOf(m)
  {
    var mm := StageMessageMap();
    match s
    case InitialStage => assert mm[s] == [ClientHello, HelloRequest];
    case NegotiatingStage => assert mm[s] == [ServerHello, EncryptedExtensions];
    case KeyExchangeStage => assert mm[s] == [ServerKeyExchange, ClientKeyExchange];
    case AuthenticationStage => assert mm[s] == [Certificate, CertificateRequest, CertificateVerify, ServerHelloDone];
    case FinishedStage => assert mm[s] == [Finished, NewSessionTicket];
  }

  /** One call of advanceToStage on values: a stage earlier than the current one is refused. */
  function AdvanceStep(current: HandshakeStage, target: HandshakeStage): (r: Result<HandshakeStage>)
    ensures r.Ok? <==> current.Value() <= target.Value()
    ensures r.Ok? ==> r.value == target
    ensures r.Err? ==> r.error == StageRegression
  {
    if target.Value() < current.Value() then Err(StageRegression) else Ok(target)
  }

  /** A sequence of advanceToStage calls; the first refusal ends it. */
  function Advances(current: HandshakeStage, targets: seq<HandshakeStage>): Result<HandshakeStage>
    decreases |targets|
  {
    if targets == [] then Ok(current)
    else match AdvanceStep(current, targets[0])
      case Ok(next) => Advances(next, targets[1..])
      case Err(e) => Err(e)
  }

  /** `targets`, read after `current`, never goes back to an earlier stage. */
  predicate NonDecreasingFrom(current: HandshakeStage, targets: seq<HandshakeStage>)
  {
    && (|targets| > 0 ==> current.Value() <= targets[0].Value())
    && (forall i :: 0 < i < |targets| ==> targets[i - 1].Value() <= targets[i].Value())
  }

  /**
   * A sequence of advances succeeds exactly when it never steps back, and then it ends at
   * a stage no earlier than the one it started from (at the last target when there is one).
   */
  lemma {:induction false} AdvancesMonotone(current: HandshakeStage, targets: seq<HandshakeStage>)
    ensures Advances(current, targets).Ok? <==> NonDecreasingFrom(current, targets)
    ensures Advances(current, targets).Ok? ==> current.Value() <= Advances(current, targets).value.Value()
    ensures Advances(current, targets).Ok? && |targets| > 0 ==> Advances(current, targets).value == targets[|targets| - 1]
    decreases |targets|
  {
    if targets != [] {
      var rest := targets[1..];
      AdvancesMonotone(targets[0], rest);
      assert Advances(current, targets)
          == if current.Value() <= targets[0].Value() then Advances(targets[0], rest) else Err(StageRegression);
      if NonDecreasingFrom(current, targets) {
        assert current.Value() <= targets[0].Value();
        forall i | 0 < i < |rest|
          ensures rest[i - 1].Value() <= rest[i].Value()
        {
          assert rest[i] == targets[i + 1] && rest[i - 1] == targets[i];
        }
        if |rest| > 0 {
          assert rest[0] == targets[1];
        }
      }
      if NonDecreasingFrom(targets[0], rest) && current.Value() <= targets[0].Value() {
        forall i | 0 < i < |targets|
          ensures targets[i - 1].Value() <= targets[i].Value()
        {
          if i > 1 {
            assert targets[i] == rest[i - 1] && targets[i - 1] == rest[i - 2];
          }
        }
      }
    }
  }

  class HandshakeFlow {
    var currentStage: HandshakeStage
    var stageMessageMap: map<HandshakeStage, seq<MessageType>>

    ghost predicate Valid()
      reads this
    {
      stageMessageMap == StageMessageMap()
    }

    /** A fresh flow is in the initial stage with every stage's list written. */
    constructor ()
      ensures Valid()
      ensures currentStage == InitialStage
    {
      currentStage := InitialStage;
      stageMessageMap := map[];
      new;
      stageMessageMap := stageMessageMap[InitialStage := [ClientHello, HelloRequest]];
      stageMessageMap := stageMessageMap[NegotiatingStage := [ServerHello, EncryptedExtensions]];
      stageMessageMap := stageMessageMap[KeyExchangeStage := [ServerKeyExchange, ClientKeyExchange]];
      stageMessageMap := stageMessageMap[AuthenticationStage := [Certificate, CertificateRequest, CertificateVerify, ServerHelloDone]];
      stageMessageMap := stageMessageMap[FinishedStage := [Finished, NewSessionTicket]];
    }

    /** The message types `stage` accepts; a stage with no list accepts nothing. */
    function ExpectedMessageTypes(stage: HandshakeStage): (r: seq<MessageType>)
      requires Valid()
      reads this
      ensures forall m :: m in r <==> StageOf(m) == stage
    {
      if stage in stageMessageMap then stageMessageMap[stage] else []
    }

    /**
     * Moves forward, or stays, to `stage`; a stage earlier than the current one is refused
     * and leaves the flow where it was.
     */
    method AdvanceToStage(stage: HandshakeStage) returns (outcome: Outcome)
      modifies this
      ensures stageMessageMap == old(stageMessageMap)
      ensures match AdvanceStep(old(currentStage), stage)
              case Ok(next) => outcome == Pass && currentStage == next
              case Err(e) => outcome == Fail(e) && currentStage == old(currentStage)
    {
      if stage.Value() < currentStage.Value() {
        return Fail(StageRegression);
      }
      currentStage := stage;
      outcome := Pass;
    }

    /** A stage is completed once the flow has moved past it; the current stage never is. */
    predicate IsStageCompleted(stage: HandshakeStage)
      reads this
      ensures IsStageCompleted(stage) <==> currentStage.Value() > stage.Value()
      ensures IsStageCompleted(stage) ==> stage != currentStage
    {
      currentStage.Value() > stage.Value()
    }

    /** A message type is accepted exactly in its own stage. */
    predicate AcceptsMessageType(m: MessageType)
      requires Valid()
      reads this
      ensures AcceptsMessageType(m) <==> StageOf(m) == currentStage
    {
      m in ExpectedMessageTypes(currentStage)
    }
  }

  /** A fresh flow accepts ClientHello and rejects ServerHello and Finished. */
  method FreshFlowGate() returns (clientHello: bool, serverHello: bool, finished: bool)
    ensures clientHello && !serverHello && !finished
  {
    var flow := new HandshakeFlow();
    clientHello := flow.AcceptsMessageType(ClientHello);
    serverHello := flow.AcceptsMessageType(ServerHello);
    finished := flow.AcceptsMessageType(Finished);
  }

  /**
   * Advancing to KEY_EXCHANGE completes the two stages before it; going back to NEGOTIATING
   * is refused and leaves the flow in KEY_EXCHANGE, while repeating a stage is allowed.
   */
  method FlowRefusesRegression()
    returns (repeated: Outcome, regression: Outcome, stage: HandshakeStage, negotiatingDone: bool, keyExchangeDone: bool)
    ensures repeated == Pass
    ensures regression == Fail(StageRegression)
    ensures stage == KeyExchangeStage
    ensures negotiatingDone && !keyExchangeDone
  {
    var flow := new HandshakeFlow();
    var o := flow.AdvanceToStage(KeyExchangeStage);
    repeated := flow.AdvanceToStage(KeyExchangeStage);
    regression := flow.AdvanceToStage(NegotiatingStage);
    stage := flow.currentStage;
    negotiatingDone := flow.IsStageCompleted(NegotiatingStage);
    keyExchangeDone := flow.IsStageCompleted(KeyExchangeStage);
  }
}
