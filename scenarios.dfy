/**
 * Worked examples: three orders through the rule evaluator against the
 * catalogue policies, and two decision pairs through the matrix and the
 * fallback opinion.
 */
module Scenarios {
  import opened Types
  import Rules = RulesAnalysisService
  import AI = AIAnalysisService
  import Combined = CombinedAnalysisService
  import MockData

  /** A premium client's ten sacks at 10% discount: margin about 33.3, well inside every limit, so approved at low risk. */
  lemma PremiumOrderApproved()
    ensures var items := [OrderItem("1", "Arroz Premium 50kg", 10.0, 125000.0, 10.0, 1125000.0)];
            var r := Rules.Evaluate(MockData.ClienteA, items);
            && r.totalPedido == 1125000.0
            && r.itemsAnalysis[0].costo == 75000.0
            && 33.0 < r.margenPromedio < 34.0
            && r.descuentoPromedio == 10.0
            && r.decision == Aprobar && r.nivelRiesgo == Bajo && r.riesgos == []
            && r.motivoPrincipal == MeetsAllPolicies
  {
    var it := OrderItem("1", "Arroz Premium 50kg", 10.0, 125000.0, 10.0, 1125000.0);
    Rules.SingleItemAverage(it);
    var r := Rules.Evaluate(MockData.ClienteA, [it]);
    assert [it][0] == it;
    assert r.totalPedido == 1125000.0 by {
      assert Rules.SumOf([it], Rules.Subtotal) == it.subtotal + Rules.SumOf([it][1..], Rules.Subtotal);
      assert [it][1..] == [];
    }
  }

  /** The same client at 35% discount: 15 points over the limit, so rejected for the discount, the first failing check. */
  lemma PremiumOrderOverDiscountRejected()
    ensures var items := [OrderItem("1", "Arroz Premium 50kg", 10.0, 125000.0, 35.0, 812500.0)];
            var r := Rules.Evaluate(MockData.ClienteA, items);
            && r.descuentoExceso == 15.0
            && ExcessiveDiscounts in r.riesgos
            && r.decision == Rechazar && r.nivelRiesgo == Alto
            && r.motivoPrincipal == DiscountsExceedLimit
  {
    var it := OrderItem("1", "Arroz Premium 50kg", 10.0, 125000.0, 35.0, 812500.0);
    Rules.SingleItemAverage(it);
    var r := Rules.Evaluate(MockData.ClienteA, [it]);
    assert r.riesgos[0] == ExcessiveDiscounts;
  }

  /** A new client's order of 11,500,000 against a limit of 10,000,000: factor 1.15, so rejected for credit. */
  lemma NewClientOverCreditRejected()
    ensures var items := [OrderItem("1", "Arroz Premium 50kg", 92.0, 125000.0, 0.0, 11500000.0)];
            var r := Rules.Evaluate(MockData.ClienteC, items);
            && r.totalPedido == 11500000.0
            && CreditSignificantlyExceeded in r.riesgos
            && r.decision == Rechazar
            && r.motivoPrincipal == TotalExceedsCredit
  {
    var it := OrderItem("1", "Arroz Premium 50kg", 92.0, 125000.0, 0.0, 11500000.0);
    Rules.SingleItemAverage(it);
    var r := Rules.Evaluate(MockData.ClienteC, [it]);
    assert [it][0] == it;
    assert r.totalPedido == 11500000.0 by {
      assert Rules.SumOf([it], Rules.Subtotal) == it.subtotal + Rules.SumOf([it][1..], Rules.Subtotal);
      assert [it][1..] == [];
    }
    assert r.riesgos == [CreditSignificantlyExceeded];
  }

  /** Rules approve, the opinion says adjust at 60: the matrix gives (AJUSTAR, 80), capped to 60. */
  lemma ApprovalMeetsAdjustment(rules: RulesAnalysis, ai: AIAnalysis)
    requires rules.decision == Aprobar && ai.decision == Ajustar && ai.confidence == 60.0
    requires !Combined.CombinationThrows(ai)
    ensures Combined.Lookup(Aprobar, Ajustar) == Combined.Entry(Ajustar, 80.0)
    ensures Combined.CombineAnalysis(rules, ai).decision == Ajustar
    ensures Combined.CombineAnalysis(rules, ai).confidence == 60.0
  {
    Combined.MatrixCells(Aprobar, Ajustar);
  }

  /** Rules reject and the opinion source fails: the fallback echoes the rejection, and the result is (RECHAZAR, 50). */
  lemma RejectionWithFailedOpinion(rules: RulesAnalysis, ctx: AI.OrderContext, call: AI.OrderContext -> AI.Reply)
    requires rules.decision == Rechazar && ctx.rulesDecision == Rechazar
    requires call(ctx) == AI.CallFailed
    ensures var ai := AI.AnalyzeOrder(ctx, call);
            && ai.decision == Rechazar && ai.confidence == 50.0
            && Combined.CombineAnalysis(rules, ai).decision == Rechazar
            && Combined.CombineAnalysis(rules, ai).confidence == 50.0
  {
    Combined.MatrixCells(Rechazar, Rechazar);
  }
}
