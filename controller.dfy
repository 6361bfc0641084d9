/**
 * The analysis endpoints (backend/src/controllers/analysisController.ts):
 * request guards, the per-item validity filter, and the pipeline
 * rules -> opinion (or fallback) -> combination. Each handler is a function
 * from the request body to the response it writes; the opinion source is a
 * parameter.
 */
module AnalysisController {
  import opened Types
  import Rules = RulesAnalysisService
  import AI = AIAnalysisService
  import Combined = CombinedAnalysisService
  import MockData

  /** The request body: any of the three fields may be absent. */
  datatype AnalyzeRequest = AnalyzeRequest(
    clienteId: Option<string>,
    items: Option<seq<OrderItem>>,
    condiciones: Option<string>)

  datatype BadRequestKind = IncompleteData | InvalidItems

  /** The status and body a handler writes. */
  datatype Response =
    | BadRequest(kind: BadRequestKind)   // 400
    | NotFound                           // 404
    | InternalError                      // 500, from the catch block
    | WithAI(clientData: ClientData, rulesAnalysis: RulesAnalysis, aiAnalysis: AIAnalysis, finalDecision: FinalDecision)
    | RulesOnly(clientData: ClientData, rulesAnalysis: RulesAnalysis)

  /** `!clienteId || !items || items.length === 0`. */
  predicate Incomplete(req: AnalyzeRequest)
  {
    req.clienteId.None? || req.clienteId.value == "" || req.items.None? || |req.items.value| == 0
  }

  /** The item filter exactly as the handler writes it, with `descuento > 100` as the upper bound. */
  predicate ItemInvalidAsWritten(it: OrderItem)
  {
    it.producto == "" || it.cantidad <= 0.0 || it.precioUnitario <= 0.0 || it.descuento < 0.0 || it.descuento > 100.0
  }

  /** The item filter with the upper bound the margin formula needs: a discount of 100% is refused too. */
  predicate ItemInvalid(it: OrderItem)
  {
    it.producto == "" || it.cantidad <= 0.0 || it.precioUnitario <= 0.0 || it.descuento < 0.0 || it.descuento >= 100.0
  }

  /** A full discount passes the filter as written although it leaves nothing to compute a margin on. */
  lemma FullDiscountPassesFilter()
    ensures var it := OrderItem("1", "Arroz Premium 50kg", 10.0, 125000.0, 100.0, 0.0);
            && !ItemInvalidAsWritten(it)
            && it.precioUnitario * (1.0 - it.descuento / 100.0) == 0.0
            && !Rules.MarginDefined(it)
  {
  }

  /** The corrected filter refuses exactly what the written one refuses, plus a discount of exactly 100. */
  lemma CorrectedFilterDiffersOnlyAtFullDiscount(it: OrderItem)
    ensures ItemInvalid(it) <==> ItemInvalidAsWritten(it) || it.descuento == 100.0
  {
  }

  /** An item that passes the corrected filter can be evaluated, and its margin lies at or below 40. */
  lemma ValidItemEvaluable(it: OrderItem)
    requires !ItemInvalid(it)
    ensures Rules.MarginDefined(it)
    ensures Rules.AnalyzeItem(it).margen <= 40.0
  {
    Rules.MarginAtMostForty(it);
  }

  /** What the opinion source is told: the client, the request's items and conditions, and the rules analysis's figures. */
  function OrderData(client: ClientData, items: seq<OrderItem>, condiciones: Option<string>, rules: RulesAnalysis): (ctx: AI.OrderContext)
    ensures ctx.cliente == client && ctx.items == items && ctx.condiciones == condiciones
    ensures && ctx.totalPedido == rules.totalPedido
            && ctx.margenPromedio == rules.margenPromedio
            && ctx.descuentoPromedio == rules.descuentoPromedio
            && ctx.rulesDecision == rules.decision
            && ctx.riesgos == rules.riesgos
  {
    AI.OrderContext(
      client, items, condiciones, rules.totalPedido, rules.margenPromedio,
      rules.descuentoPromedio, rules.decision, rules.riesgos)
  }

  /** The request passes the three guards of the full endpoint, with the item filter as written. */
  predicate Accepted(req: AnalyzeRequest)
  {
    && !Incomplete(req)
    && MockData.IsCatalogued(req.clienteId.value)
    && forall it :: it in req.items.value ==> !ItemInvalidAsWritten(it)
  }

  /** The request passes the three guards with the corrected item filter. */
  predicate AcceptedCorrected(req: AnalyzeRequest)
  {
    && !Incomplete(req)
    && MockData.IsCatalogued(req.clienteId.value)
    && forall it :: it in req.items.value ==> !ItemInvalid(it)
  }

  /**
   * An accepted request carries no item at exactly 100% discount: the only
   * accepted items whose margin the evaluator cannot take.
   */
  predicate NoAcceptedFullDiscount(req: AnalyzeRequest)
  {
    Accepted(req) ==> forall it :: it in req.items.value ==> it.descuento != 100.0
  }

  /**
   * Steps 1-4 of `analyzeOrderWithAI` for an accepted request: the rules
   * analysis, the opinion on it, and their combination. The combination
   * throws (500) exactly when the opinion's recommendation cannot be
   * converted to a string or its suggestions are `null`.
   */
  function RunPipeline(clientData: ClientData, items: seq<OrderItem>, condiciones: Option<string>,
                       call: AI.OrderContext -> AI.Reply): (res: Response)
    requires Rules.EvaluableOrder(clientData, items)
    ensures res.WithAI? || res.InternalError?
    ensures res.WithAI? ==>
              && res.clientData == clientData
              && res.rulesAnalysis == Rules.Evaluate(clientData, items)
              && res.aiAnalysis == AI.AnalyzeOrder(OrderData(clientData, items, condiciones, res.rulesAnalysis), call)
              && !Combined.CombinationThrows(res.aiAnalysis)
              && res.finalDecision == Combined.CombineAnalysis(res.rulesAnalysis, res.aiAnalysis)
              && 0.0 <= res.finalDecision.confidence <= 100.0
    ensures var rules := Rules.Evaluate(clientData, items);
            res.InternalError? <==> Combined.CombinationThrows(AI.AnalyzeOrder(OrderData(clientData, items, condiciones, rules), call))
  {
    var rulesAnalysis := Rules.Evaluate(clientData, items);
    var orderData := OrderData(clientData, items, condiciones, rulesAnalysis);
    var aiAnalysis := AI.AnalyzeOrder(orderData, call);
    if Combined.CombinationThrows(aiAnalysis) then InternalError
    else
      var finalDecision := Combined.CombineAnalysis(rulesAnalysis, aiAnalysis);
      WithAI(clientData, rulesAnalysis, aiAnalysis, finalDecision)
  }

  /**
   * `analyzeOrderWithAI`: 400 for an incomplete request, 404 for an unknown
   * client, 400 for any invalid item, in that order; otherwise the pipeline.
   * The item filter is the one the handler writes; an accepted item at
   * exactly 100% discount has no margin the evaluator can take, and is
   * outside the model.
   */
  function AnalyzeOrderWithAI(req: AnalyzeRequest, call: AI.OrderContext -> AI.Reply): (res: Response)
    requires NoAcceptedFullDiscount(req)
    ensures Incomplete(req) ==> res == BadRequest(IncompleteData)
    ensures !Incomplete(req) && !MockData.IsCatalogued(req.clienteId.value) ==> res == NotFound
    ensures (!Incomplete(req) && MockData.IsCatalogued(req.clienteId.value)
             && exists it :: it in req.items.value && ItemInvalidAsWritten(it))
            ==> res == BadRequest(InvalidItems)
    ensures res.WithAI? || res.InternalError? <==> Accepted(req)
    ensures Accepted(req) ==>
              && Rules.EvaluableOrder(MockData.FindClient(req.clienteId.value).value, req.items.value)
              && res == RunPipeline(MockData.FindClient(req.clienteId.value).value, req.items.value, req.condiciones, call)
  {
    if Incomplete(req) then BadRequest(IncompleteData)
    else
      var clienteId := req.clienteId.value;
      var items := req.items.value;
      match MockData.FindClient(clienteId)
      case None => NotFound
      case Some(clientData) =>
        if exists it :: it in items && ItemInvalidAsWritten(it) then BadRequest(InvalidItems)
        else
          assert forall it :: it in items ==> Rules.MarginDefined(it);
          RunPipeline(clientData, items, req.condiciones, call)
  }

  /**
   * The handler with the corrected item filter (`descuento >= 100` refused):
   * every request it accepts can be evaluated, so it needs no precondition.
   */
  function AnalyzeOrderWithAICorrected(req: AnalyzeRequest, call: AI.OrderContext -> AI.Reply): (res: Response)
    ensures Incomplete(req) ==> res == BadRequest(IncompleteData)
    ensures !Incomplete(req) && !MockData.IsCatalogued(req.clienteId.value) ==> res == NotFound
    ensures (!Incomplete(req) && MockData.IsCatalogued(req.clienteId.value)
             && exists it :: it in req.items.value && ItemInvalid(it))
            ==> res == BadRequest(InvalidItems)
    ensures res.WithAI? || res.InternalError? <==> AcceptedCorrected(req)
    ensures AcceptedCorrected(req) ==>
              && Rules.EvaluableOrder(MockData.FindClient(req.clienteId.value).value, req.items.value)
              && res == RunPipeline(MockData.FindClient(req.clienteId.value).value, req.items.value, req.condiciones, call)
  {
    if Incomplete(req) then BadRequest(IncompleteData)
    else
      var clienteId := req.clienteId.value;
      var items := req.items.value;
      match MockData.FindClient(clienteId)
      case None => NotFound
      case Some(clientData) =>
        if exists it :: it in items && ItemInvalid(it) then BadRequest(InvalidItems)
        else
          assert forall it :: it in items ==> Rules.MarginDefined(it);
          RunPipeline(clientData, items, req.condiciones, call)
  }

  /**
   * The corrected handler answers as the written one wherever the written
   * one is modelled, and refuses (400) exactly the accepted requests with a
   * full-discount item.
   */
  lemma CorrectedHandlerDiffersOnlyAtFullDiscount(req: AnalyzeRequest, call: AI.OrderContext -> AI.Reply)
    ensures NoAcceptedFullDiscount(req) ==> AnalyzeOrderWithAICorrected(req, call) == AnalyzeOrderWithAI(req, call)
    ensures !NoAcceptedFullDiscount(req) ==> AnalyzeOrderWithAICorrected(req, call) == BadRequest(InvalidItems)
  {
    forall it: OrderItem {
      CorrectedFilterDiffersOnlyAtFullDiscount(it);
    }
    if !Incomplete(req) && MockData.IsCatalogued(req.clienteId.value) {
      assert AcceptedCorrected(req) <==> Accepted(req) && forall it :: it in req.items.value ==> it.descuento != 100.0;
    }
  }

  /**
   * `analyzeOrderRulesOnly`: the same incomplete and unknown-client guards,
   * then the rules analysis with no item validation. The evaluator is only
   * defined where every margin is, which the caller must ensure for a
   * request that reaches it.
   */
  function AnalyzeOrderRulesOnly(req: AnalyzeRequest): (res: Response)
    requires !Incomplete(req) && MockData.IsCatalogued(req.clienteId.value) ==>
               forall it :: it in req.items.value ==> Rules.MarginDefined(it)
    ensures Incomplete(req) ==> res == BadRequest(IncompleteData)
    ensures !Incomplete(req) && !MockData.IsCatalogued(req.clienteId.value) ==> res == NotFound
    ensures res.RulesOnly? <==> !Incomplete(req) && MockData.IsCatalogued(req.clienteId.value)
    ensures res.RulesOnly? ==>
              && res.clientData == MockData.FindClient(req.clienteId.value).value
              && res.rulesAnalysis == Rules.Evaluate(res.clientData, req.items.value)
  {
    if Incomplete(req) then BadRequest(IncompleteData)
    else
      match MockData.FindClient(req.clienteId.value)
      case None => NotFound
      case Some(clientData) => RulesOnly(clientData, Rules.Evaluate(clientData, req.items.value))
  }

  // ------------------------------------------------------------- properties

  /** The guards never consult the opinion source: a refused request is refused alike whatever the source would say. */
  lemma GuardsPrecedeOpinion(req: AnalyzeRequest, call1: AI.OrderContext -> AI.Reply, call2: AI.OrderContext -> AI.Reply)
    requires !Accepted(req)
    ensures AnalyzeOrderWithAI(req, call1) == AnalyzeOrderWithAI(req, call2)
    ensures AnalyzeOrderWithAI(req, call1).BadRequest? || AnalyzeOrderWithAI(req, call1).NotFound?
  {
  }

  /**
   * When the opinion source is unusable, the pipeline still answers: the
   * final decision is the rules decision at confidence 50, and the action
   * items end with the AI-strategy item because the fallback carries
   * suggestions.
   */
  lemma FallbackPipeline(req: AnalyzeRequest, call: AI.OrderContext -> AI.Reply)
    requires Accepted(req) && NoAcceptedFullDiscount(req)
    requires forall ctx :: AI.AcceptedOpinion(call(ctx)).None?
    ensures var res := AnalyzeOrderWithAI(req, call);
            && res.WithAI?
            && res.finalDecision.decision == res.rulesAnalysis.decision
            && res.finalDecision.confidence == 50.0
            && |res.finalDecision.actionItems| > 0
            && res.finalDecision.actionItems[|res.finalDecision.actionItems| - 1] == ImplementAIStrategies
  {
    var res := AnalyzeOrderWithAI(req, call);
    var client := MockData.FindClient(req.clienteId.value).value;
    var items := req.items.value;
    assert forall it :: it in items ==> Rules.MarginDefined(it);
    var rules := Rules.Evaluate(client, items);
    var ctx := OrderData(client, items, req.condiciones, rules);
    var ai := AI.AnalyzeOrder(ctx, call);
    assert ai == AI.FallbackAnalysis(rules.decision);
    assert res.WithAI?;
    Combined.ActionItemShapes(rules, ai, res.finalDecision.decision);
  }

  /**
   * The combiner's "monitor closely" item can never be emitted: approval
   * needs the rules to approve, and the rules approve only with no risks.
   */
  lemma MonitorItemUnreachable(clientData: ClientData, items: seq<OrderItem>, condiciones: Option<string>,
                               call: AI.OrderContext -> AI.Reply)
    requires Rules.EvaluableOrder(clientData, items)
    ensures var res := RunPipeline(clientData, items, condiciones, call);
            res.WithAI? ==> MonitorClosely !in res.finalDecision.actionItems
  {
    var res := RunPipeline(clientData, items, condiciones, call);
    if res.WithAI? {
      var rules := res.rulesAnalysis;
      var f := res.finalDecision;
      Combined.MonitorNeedsRiskyApproval(rules, res.aiAnalysis);
    }
  }

  /** For a one-item order the average margin is that item's margin, so the price-review item never appears. */
  lemma SingleItemNeverReviewsPrices(clientData: ClientData, it: OrderItem, condiciones: Option<string>,
                                     call: AI.OrderContext -> AI.Reply)
    requires Rules.EvaluableOrder(clientData, [it])
    ensures var res := RunPipeline(clientData, [it], condiciones, call);
            res.WithAI? ==> ReviewPrices !in res.finalDecision.actionItems
  {
    var res := RunPipeline(clientData, [it], condiciones, call);
    if res.WithAI? {
      SingleItemAverageIsFirst(clientData, it);
      Combined.PriceReviewNeedsLowAverage(res.rulesAnalysis, res.aiAnalysis);
    }
  }

  /** A one-item order's average margin equals its first (only) item's margin. */
  lemma SingleItemAverageIsFirst(clientData: ClientData, it: OrderItem)
    requires Rules.EvaluableOrder(clientData, [it])
    ensures !Combined.MarginReviewNeeded(Rules.Evaluate(clientData, [it]))
  {
    assert it in [it];
    Rules.SingleItemAverage(it);
    var r := Rules.Evaluate(clientData, [it]);
    assert r.itemsAnalysis[0] == Rules.AnalyzeItem(it);
    assert r.margenPromedio == Rules.MargenPromedio([it]);
  }

  /** The rules-only endpoint analyses an order the full endpoint refuses for an invalid quantity. */
  lemma RulesOnlySkipsItemValidation()
    ensures var req := AnalyzeRequest(Some("clienteA"), Some([OrderItem("1", "Arroz Premium 50kg", -1.0, 125000.0, 0.0, 0.0)]), None);
            && AnalyzeOrderRulesOnly(req).RulesOnly?
            && forall call :: AnalyzeOrderWithAI(req, call) == BadRequest(InvalidItems)
  {
    var req := AnalyzeRequest(Some("clienteA"), Some([OrderItem("1", "Arroz Premium 50kg", -1.0, 125000.0, 0.0, 0.0)]), None);
    assert req.items.value[0] in req.items.value && ItemInvalidAsWritten(req.items.value[0]);
  }
}
