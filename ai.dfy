/**
 * The second-opinion service (backend/src/services/aiAnalysisService.ts):
 * validation of the parsed reply, the fallback opinion, and the
 * success-or-fallback branching of `analyzeOrder`. The chat-completion call
 * and the prompt are abstracted into a function from the order context to a
 * `Reply`.
 */
module AIAnalysisService {
  import opened Types

  /** What the service is told about the order (the source's `orderData`). */
  datatype OrderContext = OrderContext(
    cliente: ClientData,
    items: seq<OrderItem>,
    condiciones: Option<string>,
    totalPedido: real,
    margenPromedio: real,
    descuentoPromedio: real,
    rulesDecision: Decision,
    riesgos: seq<Risk>)

  /**
   * A parsed JSON object as the model sees it: one optional value per key the
   * service looks at (`None` when the key is absent).
   */
  datatype RawResponse = RawResponse(
    contextualInsights: Option<Json>,
    riskAssessment: Option<Json>,
    negotiationSuggestions: Option<Json>,
    finalRecommendation: Option<Json>,
    decision: Option<Json>,
    confidence: Option<Json>)

  /**
   * Outcome of the completion call: it threw, it returned no content, the
   * content did not parse to a JSON object, or it parsed to one.
   */
  datatype Reply = CallFailed | EmptyContent | Unparsable | Parsed(raw: RawResponse)

  datatype Field = ContextualInsights | RiskAssessment | NegotiationSuggestions | FinalRecommendation | DecisionField | ConfidenceField

  /** The required keys, in the order they are checked. */
  const RequiredFields: seq<Field> :=
    [ContextualInsights, RiskAssessment, NegotiationSuggestions, FinalRecommendation, DecisionField, ConfidenceField]

  function FieldValue(raw: RawResponse, f: Field): Option<Json>
  {
    match f
    case ContextualInsights => raw.contextualInsights
    case RiskAssessment => raw.riskAssessment
    case NegotiationSuggestions => raw.negotiationSuggestions
    case FinalRecommendation => raw.finalRecommendation
    case DecisionField => raw.decision
    case ConfidenceField => raw.confidence
  }

  datatype ValidationError = MissingField(field: Field) | InvalidDecision | InvalidConfidence

  /** The first field of `fields` absent from `raw`, if any. */
  function FirstMissing(raw: RawResponse, fields: seq<Field>): (m: Option<Field>)
    ensures m.None? <==> forall i :: 0 <= i < |fields| ==> FieldValue(raw, fields[i]).Some?
    ensures m.Some? ==> m.value in fields && FieldValue(raw, m.value).None?
  {
    if fields == [] then None
    else if FieldValue(raw, fields[0]).None? then Some(fields[0])
    else FirstMissing(raw, fields[1..])
  }

  /** `['APROBAR', 'AJUSTAR', 'RECHAZAR'].includes(decision)`: a string naming a decision. */
  function DecisionFromJson(v: Json): Option<Decision>
  {
    match v
    case JStr(s) => DecisionNamed(s)
    case _ => None
  }

  /** `typeof confidence === 'number'` and within [0, 100]. */
  predicate ConfidenceValid(v: Json)
  {
    v.JNum? && 0.0 <= v.n <= 100.0
  }

  predicate DecisionPresentAndValid(v: Option<Json>)
  {
    v.Some? && DecisionFromJson(v.value).Some?
  }

  predicate ConfidencePresentAndValid(v: Option<Json>)
  {
    v.Some? && ConfidenceValid(v.value)
  }

  /** The validated reply, read as an opinion. */
  function AsAnalysis(raw: RawResponse): (a: AIAnalysis)
    requires FirstMissing(raw, RequiredFields).None?
    requires DecisionPresentAndValid(raw.decision) && ConfidencePresentAndValid(raw.confidence)
    ensures AsRaw(a) == raw
  {
    assert FieldValue(raw, RequiredFields[0]).Some? && FieldValue(raw, RequiredFields[1]).Some?;
    assert FieldValue(raw, RequiredFields[2]).Some? && FieldValue(raw, RequiredFields[3]).Some?;
    DecisionNameRoundTrip(DecisionFromJson(raw.decision.value).value);
    AIAnalysis(
      raw.contextualInsights.value, raw.riskAssessment.value, raw.negotiationSuggestions.value,
      raw.finalRecommendation.value, DecisionFromJson(raw.decision.value).value, raw.confidence.value.n)
  }

  /** An opinion written back as the reply it was read from. */
  function AsRaw(a: AIAnalysis): RawResponse
  {
    RawResponse(
      Some(a.contextualInsights), Some(a.riskAssessment), Some(a.negotiationSuggestions),
      Some(a.finalRecommendation), Some(JStr(a.decision.Name())), Some(JNum(a.confidence)))
  }

  /**
   * `validateAIResponse` followed by `return parsedResponse`: the first missing
   * key, then the decision, then the confidence, each reject; a reply that
   * passes is returned unchanged, with any JSON in the four narrative fields.
   */
  function Validate(raw: RawResponse): (r: Result<AIAnalysis, ValidationError>)
    ensures r.Ok? <==>
      && (forall f :: f in RequiredFields ==> FieldValue(raw, f).Some?)
      && DecisionPresentAndValid(raw.decision)
      && ConfidencePresentAndValid(raw.confidence)
    ensures r.Ok? ==> AsRaw(r.value) == raw
    ensures r.Ok? ==> 0.0 <= r.value.confidence <= 100.0
    ensures r.Err? && r.error.MissingField? ==> FieldValue(raw, r.error.field).None?
  {
    match FirstMissing(raw, RequiredFields)
    case Some(f) => Err(MissingField(f))
    case None =>
      assert FieldValue(raw, RequiredFields[4]).Some? && FieldValue(raw, RequiredFields[5]).Some?;
      if DecisionFromJson(raw.decision.value).None? then Err(InvalidDecision)
      else if !ConfidenceValid(raw.confidence.value) then Err(InvalidConfidence)
      else
        Ok(AsAnalysis(raw))
  }

  /** Checking the keys one at a time from a point on finds what checking them all finds, once the earlier ones are present. */
  lemma {:induction false} FirstMissingFrom(raw: RawResponse, fields: seq<Field>, i: nat)
    requires i <= |fields|
    requires forall j :: 0 <= j < i ==> FieldValue(raw, fields[j]).Some?
    ensures FirstMissing(raw, fields) == FirstMissing(raw, fields[i..])
  {
    if i > 0 {
      assert FieldValue(raw, fields[0]).Some?;
      assert fields[1..][i - 1..] == fields[i..];
      FirstMissingFrom(raw, fields[1..], i - 1);
    }
  }

  /** `validateAIResponse`: a `for` loop over the required keys with early exits, then the two value checks. */
  method ValidateAIResponse(raw: RawResponse) returns (r: Result<AIAnalysis, ValidationError>)
    ensures r == Validate(raw)
  {
    for i := 0 to |RequiredFields|
      invariant forall j :: 0 <= j < i ==> FieldValue(raw, RequiredFields[j]).Some?
    {
      if FieldValue(raw, RequiredFields[i]).None? {
        FirstMissingFrom(raw, RequiredFields, i);
        return Err(MissingField(RequiredFields[i]));
      }
    }
    FirstMissingFrom(raw, RequiredFields, |RequiredFields|);
    assert RequiredFields[4] == DecisionField && RequiredFields[5] == ConfidenceField;
    if DecisionFromJson(raw.decision.value).None? {
      return Err(InvalidDecision);
    }
    if !ConfidenceValid(raw.confidence.value) {
      return Err(InvalidConfidence);
    }
    r := Ok(AsAnalysis(raw));
  }

  /** The fallback's texts. */
  const FallbackInsights: seq<string> := [
    "Análisis automático no disponible temporalmente",
    "Se recomienda revisión manual del pedido",
    "Cliente requiere atención personalizada"]
  const FallbackRiskAssessment: string :=
    "No se pudo completar el análisis de riesgos con IA. Se recomienda evaluación manual considerando el historial del cliente y las condiciones del mercado actual."
  const FallbackSuggestions: seq<string> := [
    "Revisar condiciones manualmente con el equipo comercial",
    "Considerar el historial de pagos del cliente",
    "Evaluar oportunidades de productos complementarios"]
  const FallbackRecommendation: string :=
    "Debido a la indisponibilidad temporal del análisis de IA, se recomienda proceder con la decisión basada en reglas de negocio y revisión manual del equipo comercial."

  /** `getFallbackAnalysis`: the rules decision at confidence 50, three insights and three suggestions. */
  function FallbackAnalysis(rulesDecision: Decision): (a: AIAnalysis)
    ensures a.decision == rulesDecision && a.confidence == 50.0
    ensures a.contextualInsights.JArr? && |a.contextualInsights.elems| == 3
    ensures a.negotiationSuggestions.JArr? && |a.negotiationSuggestions.elems| == 3
    ensures a.finalRecommendation.JStr?
  {
    AIAnalysis(
      JArr([JStr(FallbackInsights[0]), JStr(FallbackInsights[1]), JStr(FallbackInsights[2])]),
      JStr(FallbackRiskAssessment),
      JArr([JStr(FallbackSuggestions[0]), JStr(FallbackSuggestions[1]), JStr(FallbackSuggestions[2])]),
      JStr(FallbackRecommendation),
      rulesDecision,
      50.0)
  }

  /** The opinion when the reply is usable: parsed and validated. */
  function AcceptedOpinion(reply: Reply): Option<AIAnalysis>
  {
    match reply
    case Parsed(raw) =>
      (match Validate(raw)
       case Ok(a) => Some(a)
       case Err(_) => None)
    case _ => None
  }

  /**
   * `analyzeOrder`: ask the opinion source; on a thrown call, empty content,
   * unparsable content or a failed validation, fall back. It never fails,
   * and its confidence always lies in [0, 100].
   */
  function AnalyzeOrder(ctx: OrderContext, call: OrderContext -> Reply): (a: AIAnalysis)
    ensures 0.0 <= a.confidence <= 100.0
    ensures AcceptedOpinion(call(ctx)).Some? ==> a == AcceptedOpinion(call(ctx)).value
    ensures AcceptedOpinion(call(ctx)).None? ==> a == FallbackAnalysis(ctx.rulesDecision)
  {
    match AcceptedOpinion(call(ctx))
    case Some(a) => a
    case None => FallbackAnalysis(ctx.rulesDecision)
  }

  /** Every failure kind yields the fallback: the rules decision at confidence 50. */
  lemma FailuresFallBack(ctx: OrderContext, call: OrderContext -> Reply)
    requires || call(ctx).CallFailed? || call(ctx).EmptyContent? || call(ctx).Unparsable?
             || (call(ctx).Parsed? && Validate(call(ctx).raw).Err?)
    ensures AnalyzeOrder(ctx, call).decision == ctx.rulesDecision
    ensures AnalyzeOrder(ctx, call).confidence == 50.0
  {
  }

  /** A missing key, an unknown decision, or a confidence outside [0, 100] each reject the reply. */
  lemma RejectedReplies(raw: RawResponse)
    ensures (exists f :: f in RequiredFields && FieldValue(raw, f).None?) ==> Validate(raw).Err?
    ensures raw.decision.Some? && DecisionFromJson(raw.decision.value).None? ==> Validate(raw).Err?
    ensures raw.confidence.Some? && !ConfidenceValid(raw.confidence.value) ==> Validate(raw).Err?
    ensures raw.confidence == Some(JNum(0.0)) || raw.confidence == Some(JNum(100.0)) || raw.confidence == Some(JNum(42.5)) ==>
              (Validate(raw).Err? ==> Validate(raw).error != InvalidConfidence)
  {
  }
}
