/**
 * The five coarse handshake stages, ordered by their integer values 1 to 5.
 */
module HandshakeStages {
  import opened TlsTypes

  /** Declared in the order of the enumeration's cases. */
  datatype HandshakeStage =
    | InitialStage
    | NegotiatingStage
    | KeyExchangeStage
    | AuthenticationStage
    | FinishedStage
  {
    /** The integer backing each stage; stages are compared through it. */
    function Value(): (v: int)
      ensures 1 <= v <= 5
    {
      match this
      case InitialStage => 1
      case NegotiatingStage => 2
      case KeyExchangeStage => 3
      case AuthenticationStage => 4
      case FinishedStage => 5
    }

    /** The display label; only its presence matters here. */
    function Label(): (l: string)
      ensures |l| > 0
    {
      match this
      case InitialStage => "初始阶段"
      case NegotiatingStage => "协商阶段"
      case KeyExchangeStage => "密钥交换阶段"
      case AuthenticationStage => "认证阶段"
      case FinishedStage => "完成阶段"
    }
  }

  /** The enumeration's `tryFrom`: the stage backed by `v`, if there is one. */
  function StageFromValue(v: int): (r: Option<HandshakeStage>)
    ensures r.Some? ==> r.value.Value() == v
    ensures r.Some? <==> 1 <= v <= 5
  {
    if v == 1 then Some(InitialStage)
    else if v == 2 then Some(NegotiatingStage)
    else if v == 3 then Some(KeyExchangeStage)
    else if v == 4 then Some(AuthenticationStage)
    else if v == 5 then Some(FinishedStage)
    else None
  }

  /** `tryFrom` inverts the backing value, so distinct stages have distinct values. */
  lemma StageFromValueInverts(s: HandshakeStage, t: HandshakeStage)
    ensures StageFromValue(s.Value()) == Some(s)
    ensures s.Value() == t.Value() ==> s == t
  {
  }

  /** The values increase strictly in declaration order. */
  lemma StageValuesIncrease()
    ensures InitialStage.Value() < NegotiatingStage.Value() < KeyExchangeStage.Value()
            < AuthenticationStage.Value() < FinishedStage.Value()
    ensures StageFromValue(99) == None
  {
  }
}
