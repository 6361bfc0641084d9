/**
 * Shared data contracts of the order-approval engine: order items, client
 * policies, the rule evaluator's analysis, the second opinion and the final
 * decision (backend/src/types/index.ts). JS numbers are modelled as `real`.
 */
module Types {

  datatype Option<+T> = None | Some(value: T)

  datatype Result<+T, +E> = Ok(value: T) | Err(error: E)

  /** The three recommendations, ordered by severity. */
  datatype Decision = Aprobar | Ajustar | Rechazar
  {
    function Rank(): nat
    {
      match this
      case Aprobar => 0
      case Ajustar => 1
      case Rechazar => 2
    }

    /** The spelling used on the wire and in the decision-matrix keys. */
    function Name(): string
    {
      match this
      case Aprobar => "APROBAR"
      case Ajustar => "AJUSTAR"
      case Rechazar => "RECHAZAR"
    }
  }

  /** The more severe of two decisions. */
  function MaxDecision(a: Decision, b: Decision): (m: Decision)
    ensures m == a || m == b
    ensures m.Rank() >= a.Rank() && m.Rank() >= b.Rank()
  {
    if a.Rank() >= b.Rank() then a else b
  }

  /** Parses a wire spelling; the inverse of `Decision.Name`. */
  function DecisionNamed(s: string): (d: Option<Decision>)
    ensures d.Some? ==> d.value.Name() == s
  {
    if s == "APROBAR" then Some(Aprobar)
    else if s == "AJUSTAR" then Some(Ajustar)
    else if s == "RECHAZAR" then Some(Rechazar)
    else None
  }

  lemma DecisionNameRoundTrip(d: Decision)
    ensures DecisionNamed(d.Name()) == Some(d)
  {
    match d
    case Aprobar =>
    case Ajustar =>
      assert "AJUSTAR" != "APROBAR" by { assert "AJUSTAR"[1] != "APROBAR"[1]; }
    case Rechazar =>
      assert "RECHAZAR" != "APROBAR" by { assert "RECHAZAR"[0] != "APROBAR"[0]; }
      assert "RECHAZAR" != "AJUSTAR" by { assert "RECHAZAR"[0] != "AJUSTAR"[0]; }
  }

  datatype RiskLevel = Bajo | Medio | Alto

  datatype Category = Premium | Regular | Nuevo

  /** One order line. `subtotal` is supplied by the caller, not derived here. */
  datatype OrderItem = OrderItem(
    id: string,
    producto: string,
    cantidad: real,
    precioUnitario: real,
    descuento: real,
    subtotal: real)

  /** A client's commercial policy. */
  datatype ClientData = ClientData(
    id: string,
    nombre: string,
    historial: string,
    limiteCredito: real,
    descuentoMaximo: real,
    categoria: Category,
    margenMinimo: real)

  /** An order line together with its assumed cost and its margin percent. */
  datatype ItemAnalysis = ItemAnalysis(item: OrderItem, margen: real, costo: real)

  /** The three threshold checks, in the order they run. */
  datatype Check = DiscountCheck | MarginCheck | CreditCheck

  /** Outcome of one check, and the mark (✓, ⚠, ✗) of a justification line. */
  datatype Level = Pass | Warn | Fail

  /** The entries the evaluator pushes onto `riesgos`. */
  datatype Risk =
    | ExcessiveDiscounts          // "Descuentos excesivos aplicados"
    | DiscountsSlightlyAbove      // "Descuentos ligeramente por encima del límite"
    | MarginVeryLow               // "Margen de ganancia muy bajo"
    | MarginNearLimit             // "Margen de ganancia cercano al límite"
    | CreditSignificantlyExceeded // "Valor del pedido excede significativamente ..."
    | CreditNearLimit             // "Valor del pedido cercano al límite de crédito"

  /** The possible values of `motivoPrincipal`; `NoReason` is the empty string. */
  datatype Reason =
    | NoReason
    | DiscountsExceedLimit
    | MarginBelowMinimum
    | TotalExceedsCredit
    | MeetsAllPolicies
    | MinorAdjustmentsNeeded

  /** Closing line of the justification. */
  datatype ClosingNote = GoodPaymentHistory(categoria: Category) | NegotiateTerms | NeedsSubstantialChanges

  /** A justification line: which check it reports and with which mark, or the closing line. */
  datatype JustLine = CheckLine(check: Check, mark: Level) | Closing(note: ClosingNote)

  /** Output of the rule evaluator. */
  datatype RulesAnalysis = RulesAnalysis(
    margenPromedio: real,
    descuentoPromedio: real,
    descuentoExceso: real,
    totalPedido: real,
    riesgos: seq<Risk>,
    decision: Decision,
    nivelRiesgo: RiskLevel,
    motivoPrincipal: Reason,
    justificacion: seq<JustLine>,
    itemsAnalysis: seq<ItemAnalysis>)

  /** A parsed JSON value, as the opinion source's reply may carry. */
  datatype Json =
    | JNull
    | JBool(b: bool)
    | JNum(n: real)
    | JStr(s: string)
    | JArr(elems: seq<Json>)
    | JObj(members: map<string, Json>)

  /**
   * The second opinion. Only `decision` and `confidence` are checked when a
   * reply is validated, so the four narrative fields hold whatever JSON the
   * reply carried.
   */
  datatype AIAnalysis = AIAnalysis(
    contextualInsights: Json,
    riskAssessment: Json,
    negotiationSuggestions: Json,
    finalRecommendation: Json,
    decision: Decision,
    confidence: real)

  /** The action items the combiner can emit. */
  datatype ActionItem =
    | ProceedWithApproval
    | DocumentDecision
    | NotifyClientOfApproval
    | MonitorClosely
    | NegotiateAdjustments
    | ReduceDiscountsBy(percent: real)
    | ReviewPrices
    | ApplyAISuggestions
    | RejectAsIs
    | CommunicateReasons
    | ProposeAlternatives
    | InviteResubmission
    | ImplementAIStrategies

  /** The four explanation sentences of the combined reasoning. */
  datatype Explanation = BothAgree | BalanceRisks | ContextPermitsApproval | RisksJustifyRejection

  /** What the combined reasoning text embeds. */
  datatype Reasoning = Reasoning(
    rulesDecision: Decision,
    margenPromedio: real,
    descuentoPromedio: real,
    riskCount: nat,
    motivo: Reason,
    aiDecision: Decision,
    aiConfidence: real,
    recommendation: Json,
    finalDecision: Decision,
    explanation: Explanation)

  datatype FinalDecision = FinalDecision(
    decision: Decision,
    confidence: real,
    reasoning: Reasoning,
    actionItems: seq<ActionItem>)
}
