/**
 * The rule evaluator (backend/src/services/rulesAnalysisService.ts).
 *
 * The metrics are pure folds over the items; the three threshold checks are
 * written out twice: once declaratively (`Evaluate`, built from one `Level`
 * per check) and once step by step as the source does it (`AnalyzeOrder`),
 * which is proved to compute exactly `Evaluate`.
 */
module RulesAnalysisService {
  import opened Types

  // ---------------------------------------------------------------- metrics

  /** Left-to-right sum of `f` over `xs`, the shape of `reduce((s, x) => s + f(x), 0)`. */
  function SumOf<T>(xs: seq<T>, f: T -> real): real
  {
    if xs == [] then 0.0 else f(xs[0]) + SumOf(xs[1..], f)
  }

  lemma {:induction false} SumOfAppend<T>(xs: seq<T>, ys: seq<T>, f: T -> real)
    ensures SumOf(xs + ys, f) == SumOf(xs, f) + SumOf(ys, f)
  {
    if xs == [] {
      assert xs + ys == ys;
    } else {
      assert (xs + ys)[1..] == xs[1..] + ys;
      SumOfAppend(xs[1..], ys, f);
    }
  }

  /** A sum of n terms each at most hi is at most n·hi. */
  lemma {:induction false} SumOfAtMost<T>(xs: seq<T>, f: T -> real, hi: real)
    requires forall i :: 0 <= i < |xs| ==> f(xs[i]) <= hi
    ensures SumOf(xs, f) <= |xs| as real * hi
  {
    if xs != [] {
      SumOfAtMost(xs[1..], f, hi);
      assert f(xs[0]) <= hi;
    }
  }

  /** A sum of n terms each at least lo is at least n·lo. */
  lemma {:induction false} SumOfAtLeast<T>(xs: seq<T>, f: T -> real, lo: real)
    requires forall i :: 0 <= i < |xs| ==> lo <= f(xs[i])
    ensures |xs| as real * lo <= SumOf(xs, f)
  {
    if xs != [] {
      SumOfAtLeast(xs[1..], f, lo);
      assert lo <= f(xs[0]);
    }
  }

  function Subtotal(it: OrderItem): real { it.subtotal }
  function Discount(it: OrderItem): real { it.descuento }
  function Margin(a: ItemAnalysis): real { a.margen }

  /** `totalPedido`: the sum of the subtotals as supplied by the caller. */
  function TotalPedido(items: seq<OrderItem>): real
  {
    SumOf(items, Subtotal)
  }

  /** The post-discount price is non-zero, so the margin division is defined. */
  predicate MarginDefined(it: OrderItem)
  {
    it.precioUnitario != 0.0 && it.descuento != 100.0
  }

  /** Cost is 60% of the unit price; margin is taken on the post-discount price. */
  function AnalyzeItem(it: OrderItem): (a: ItemAnalysis)
    requires MarginDefined(it)
    ensures a.item == it
    ensures a.costo == 0.6 * it.precioUnitario
    ensures a.margen == 100.0 - 6000.0 / (100.0 - it.descuento)
  {
    var precio := it.precioUnitario;
    var descuento := it.descuento;
    var costo := precio * 0.6;
    var precioConDescuento := precio * (1.0 - descuento / 100.0);
    MarginIdentity(precio, descuento);
    var margen := ((precioConDescuento - costo) / precioConDescuento) * 100.0;
    ItemAnalysis(it, margen, costo)
  }

  /** The margin depends on the discount alone: (p(1-d/100) - 0.6p) / (p(1-d/100)) · 100 = 100 - 6000/(100-d). */
  lemma MarginIdentity(p: real, d: real)
    requires p != 0.0 && d != 100.0
    ensures p * (1.0 - d / 100.0) != 0.0
    ensures ((p * (1.0 - d / 100.0) - p * 0.6) / (p * (1.0 - d / 100.0))) * 100.0
            == 100.0 - 6000.0 / (100.0 - d)
  {
    var k := 100.0 - d;
    var q := p * (1.0 - d / 100.0);
    assert q == p * k / 100.0;
    assert q != 0.0;
    var t := 60.0 / k;
    assert t * k == 60.0;
    assert t * q == p * 0.6 by {
      calc {
        t * q;
        t * (p * k / 100.0);
        p * (t * k) / 100.0;
        p * 0.6;
      }
    }
    assert (q - p * 0.6) == (1.0 - t) * q;
    var lhs := (q - p * 0.6) / q;
    DivMul(q - p * 0.6, q);
    Cancel(lhs, 1.0 - t, q);
    assert 6000.0 / k == 100.0 * t;
  }

  lemma DivMul(x: real, y: real)
    requires y != 0.0
    ensures (x / y) * y == x
  {
  }

  lemma Cancel(a: real, b: real, q: real)
    requires q != 0.0 && a * q == b * q
    ensures a == b
  {
    assert (a - b) * q == 0.0;
  }

  /** `itemsAnalysis`: one entry per item, same order, every item field kept. */
  function ItemsAnalysis(items: seq<OrderItem>): (r: seq<ItemAnalysis>)
    requires forall it :: it in items ==> MarginDefined(it)
    ensures |r| == |items|
    ensures forall i :: 0 <= i < |items| ==> r[i] == AnalyzeItem(items[i])
  {
    if items == [] then [] else [AnalyzeItem(items[0])] + ItemsAnalysis(items[1..])
  }

  /** Unweighted mean, as `reduce(...) / length`. */
  function Mean<T>(xs: seq<T>, f: T -> real): real
    requires |xs| > 0
  {
    SumOf(xs, f) / |xs| as real
  }

  /** A mean of terms each at most hi is at most hi. */
  lemma MeanAtMost<T>(xs: seq<T>, f: T -> real, hi: real)
    requires |xs| > 0
    requires forall i :: 0 <= i < |xs| ==> f(xs[i]) <= hi
    ensures Mean(xs, f) <= hi
  {
    SumOfAtMost(xs, f, hi);
    var n := |xs| as real;
    assert SumOf(xs, f) <= hi * n;
  }

  /** A mean of terms each at least lo is at least lo. */
  lemma MeanAtLeast<T>(xs: seq<T>, f: T -> real, lo: real)
    requires |xs| > 0
    requires forall i :: 0 <= i < |xs| ==> lo <= f(xs[i])
    ensures lo <= Mean(xs, f)
  {
    SumOfAtLeast(xs, f, lo);
    var n := |xs| as real;
    assert lo * n <= SumOf(xs, f);
  }

  function MargenPromedio(items: seq<OrderItem>): real
    requires |items| > 0 && forall it :: it in items ==> MarginDefined(it)
  {
    Mean(ItemsAnalysis(items), Margin)
  }

  function DescuentoPromedio(items: seq<OrderItem>): real
    requires |items| > 0
  {
    Mean(items, Discount)
  }

  // ------------------------------------------------------- the three checks

  function Max0(x: real): real { if x > 0.0 then x else 0.0 }

  function DiscountLevel(descuentoExceso: real): Level
  {
    if descuentoExceso > 5.0 then Fail
    else if descuentoExceso > 0.0 && descuentoExceso <= 5.0 then Warn
    else Pass
  }

  function MarginLevel(margenPromedio: real, margenMinimo: real): Level
  {
    if margenPromedio < margenMinimo - 2.0 then Fail
    else if margenPromedio < margenMinimo then Warn
    else Pass
  }

  function CreditLevel(excesoCreditoFactor: real): Level
  {
    if excesoCreditoFactor > 1.1 then Fail
    else if excesoCreditoFactor > 1.0 then Warn
    else Pass
  }

  /** The decision a single check asks for on its own. */
  function LevelDecision(l: Level): Decision
  {
    match l
    case Pass => Aprobar
    case Warn => Ajustar
    case Fail => Rechazar
  }

  /** The risk a check records, if any: at most one per check. */
  function RiskOf(c: Check, l: Level): (r: seq<Risk>)
    ensures |r| <= 1 && (r == [] <==> l == Pass)
  {
    match (c, l)
    case (_, Pass) => []
    case (DiscountCheck, Warn) => [DiscountsSlightlyAbove]
    case (DiscountCheck, Fail) => [ExcessiveDiscounts]
    case (MarginCheck, Warn) => [MarginNearLimit]
    case (MarginCheck, Fail) => [MarginVeryLow]
    case (CreditCheck, Warn) => [CreditNearLimit]
    case (CreditCheck, Fail) => [CreditSignificantlyExceeded]
  }

  /** The reason a failing check gives for a rejection. */
  function FailReason(c: Check): Reason
  {
    match c
    case DiscountCheck => DiscountsExceedLimit
    case MarginCheck => MarginBelowMinimum
    case CreditCheck => TotalExceedsCredit
  }

  /** The three check outcomes, in evaluation order. */
  datatype Levels = Levels(discount: Level, margin: Level, credit: Level)

  function LevelsOf(client: ClientData, descuentoExceso: real, margenPromedio: real, totalPedido: real): Levels
    requires client.limiteCredito > 0.0
  {
    Levels(
      DiscountLevel(descuentoExceso),
      MarginLevel(margenPromedio, client.margenMinimo),
      CreditLevel(totalPedido / client.limiteCredito))
  }

  /** Declarative form of the ratchet: the most severe decision any check asks for. */
  function DecisionOf(ls: Levels): Decision
  {
    MaxDecision(MaxDecision(LevelDecision(ls.discount), LevelDecision(ls.margin)), LevelDecision(ls.credit))
  }

  function RisksOf(ls: Levels): seq<Risk>
  {
    RiskOf(DiscountCheck, ls.discount) + RiskOf(MarginCheck, ls.margin) + RiskOf(CreditCheck, ls.credit)
  }

  /** `motivoPrincipal` after the checks: the reason of the first failing check, if any. */
  function FirstFailReason(ls: Levels): Reason
  {
    if ls.discount == Fail then FailReason(DiscountCheck)
    else if ls.margin == Fail then FailReason(MarginCheck)
    else if ls.credit == Fail then FailReason(CreditCheck)
    else NoReason
  }

  function NivelRiesgo(riskCount: nat, decision: Decision): RiskLevel
  {
    if riskCount >= 3 || decision == Rechazar then Alto
    else if riskCount >= 1 || decision == Ajustar then Medio
    else Bajo
  }

  function FinalReason(reason: Reason, decision: Decision): Reason
  {
    match decision
    case Aprobar => MeetsAllPolicies
    case Ajustar => if reason == NoReason then MinorAdjustmentsNeeded else reason
    case Rechazar => reason
  }

  /**
   * The four justification lines of each branch. In the rejection branch a
   * discount or credit warning is shown as a pass: only the margin line has
   * a warning form there.
   */
  function Justification(ls: Levels, decision: Decision, categoria: Category): seq<JustLine>
  {
    match decision
    case Aprobar =>
      [CheckLine(DiscountCheck, Pass), CheckLine(MarginCheck, Pass), CheckLine(CreditCheck, Pass),
       Closing(GoodPaymentHistory(categoria))]
    case Ajustar =>
      [CheckLine(DiscountCheck, ls.discount), CheckLine(MarginCheck, ls.margin), CheckLine(CreditCheck, ls.credit),
       Closing(NegotiateTerms)]
    case Rechazar =>
      [CheckLine(DiscountCheck, if ls.discount == Fail then Fail else Pass),
       CheckLine(MarginCheck, ls.margin),
       CheckLine(CreditCheck, if ls.credit == Fail then Fail else Pass),
       Closing(NeedsSubstantialChanges)]
  }

  predicate EvaluableOrder(client: ClientData, items: seq<OrderItem>)
  {
    && |items| > 0
    && client.limiteCredito > 0.0
    && forall it :: it in items ==> MarginDefined(it)
  }

  /** The rule evaluator as a function of the policy and the items. */
  function Evaluate(client: ClientData, items: seq<OrderItem>): (r: RulesAnalysis)
    requires EvaluableOrder(client, items)
    ensures r.descuentoExceso >= 0.0
    ensures |r.riesgos| <= 3
    ensures r.riesgos == [] <==> r.decision == Aprobar
    ensures |r.justificacion| == 4
    ensures |r.itemsAnalysis| == |items|
    ensures r.itemsAnalysis == ItemsAnalysis(items)
    ensures r.totalPedido == TotalPedido(items)
    ensures r.margenPromedio == MargenPromedio(items)
    ensures r.descuentoPromedio == DescuentoPromedio(items)
    ensures r.descuentoExceso == Max0(r.descuentoPromedio - client.descuentoMaximo)
  {
    var itemsAnalysis := ItemsAnalysis(items);
    var margenPromedio := Mean(itemsAnalysis, Margin);
    var descuentoPromedio := Mean(items, Discount);
    var totalPedido := TotalPedido(items);
    var descuentoExceso := Max0(descuentoPromedio - client.descuentoMaximo);
    var ls := LevelsOf(client, descuentoExceso, margenPromedio, totalPedido);
    var decision := DecisionOf(ls);
    var riesgos := RisksOf(ls);
    RulesAnalysis(
      margenPromedio, descuentoPromedio, descuentoExceso, totalPedido, riesgos, decision,
      NivelRiesgo(|riesgos|, decision), FinalReason(FirstFailReason(ls), decision),
      Justification(ls, decision, client.categoria), itemsAnalysis)
  }

  /** The check levels `Evaluate` derived, recovered from its result. */
  function EvaluatedLevels(client: ClientData, r: RulesAnalysis): Levels
    requires client.limiteCredito > 0.0
  {
    LevelsOf(client, r.descuentoExceso, r.margenPromedio, r.totalPedido)
  }

  // ------------------------------------------------- the imperative evaluator

  /**
   * `analyzeOrder` as the source runs it: a running decision that each check
   * may only escalate, a risk list grown by appends, and a reason set by the
   * first failing check.
   */
  method AnalyzeOrder(client: ClientData, items: seq<OrderItem>) returns (r: RulesAnalysis)
    requires EvaluableOrder(client, items)
    ensures r == Evaluate(client, items)
  {
    var totalPedido := TotalPedido(items);
    var itemsAnalysis := ItemsAnalysis(items);
    var margenPromedio := Mean(itemsAnalysis, Margin);
    var descuentoPromedio := Mean(items, Discount);

    var riesgos: seq<Risk> := [];
    var decision := Aprobar;
    var nivelRiesgo := Bajo;
    var motivoPrincipal := NoReason;
    var justificacion: seq<JustLine> := [];

    var descuentoExceso := Max0(descuentoPromedio - client.descuentoMaximo);
    ghost var ls := LevelsOf(client, descuentoExceso, margenPromedio, totalPedido);
    if descuentoExceso > 5.0 {
      riesgos := riesgos + [ExcessiveDiscounts];
      decision := Rechazar;
      motivoPrincipal := DiscountsExceedLimit;
    } else if descuentoExceso > 0.0 && descuentoExceso <= 5.0 {
      riesgos := riesgos + [DiscountsSlightlyAbove];
      if decision == Aprobar { decision := Ajustar; }
    }

    assert decision == LevelDecision(ls.discount) && riesgos == RiskOf(DiscountCheck, ls.discount);
    assert motivoPrincipal == (if ls.discount == Fail then DiscountsExceedLimit else NoReason);

    if margenPromedio < client.margenMinimo - 2.0 {
      riesgos := riesgos + [MarginVeryLow];
      decision := Rechazar;
      if motivoPrincipal == NoReason { motivoPrincipal := MarginBelowMinimum; }
    } else if margenPromedio < client.margenMinimo {
      riesgos := riesgos + [MarginNearLimit];
      if decision == Aprobar { decision := Ajustar; }
    }

    assert decision == MaxDecision(LevelDecision(ls.discount), LevelDecision(ls.margin));
    assert riesgos == RiskOf(DiscountCheck, ls.discount) + RiskOf(MarginCheck, ls.margin);

    var excesoCreditoFactor := totalPedido / client.limiteCredito;
    if excesoCreditoFactor > 1.1 {
      riesgos := riesgos + [CreditSignificantlyExceeded];
      decision := Rechazar;
      if motivoPrincipal == NoReason { motivoPrincipal := TotalExceedsCredit; }
    } else if excesoCreditoFactor > 1.0 {
      riesgos := riesgos + [CreditNearLimit];
      if decision == Aprobar { decision := Ajustar; }
    }

    assert decision == DecisionOf(ls) && riesgos == RisksOf(ls);
    assert motivoPrincipal == FirstFailReason(ls);
    ghost var firstFail := motivoPrincipal;

    if |riesgos| >= 3 || decision == Rechazar {
      nivelRiesgo := Alto;
    } else if |riesgos| >= 1 || decision == Ajustar {
      nivelRiesgo := Medio;
    }

    assert nivelRiesgo == NivelRiesgo(|riesgos|, decision);

    if decision == Aprobar {
      motivoPrincipal := MeetsAllPolicies;
      justificacion := [
        CheckLine(DiscountCheck, Pass),
        CheckLine(MarginCheck, Pass),
        CheckLine(CreditCheck, Pass),
        Closing(GoodPaymentHistory(client.categoria))];
    } else if decision == Ajustar {
      if motivoPrincipal == NoReason { motivoPrincipal := MinorAdjustmentsNeeded; }
      justificacion := [
        CheckLine(DiscountCheck, if descuentoExceso > 0.0 then Warn else Pass),
        CheckLine(MarginCheck, if margenPromedio < client.margenMinimo then Warn else Pass),
        CheckLine(CreditCheck, if excesoCreditoFactor > 1.0 then Warn else Pass),
        Closing(NegotiateTerms)];
    } else {
      justificacion := [
        CheckLine(DiscountCheck, if descuentoExceso > 5.0 then Fail else Pass),
        CheckLine(MarginCheck,
          if margenPromedio < client.margenMinimo - 2.0 then Fail
          else if margenPromedio < client.margenMinimo then Warn
          else Pass),
        CheckLine(CreditCheck, if excesoCreditoFactor > 1.1 then Fail else Pass),
        Closing(NeedsSubstantialChanges)];
    }

    assert justificacion == Justification(ls, decision, client.categoria);
    assert motivoPrincipal == FinalReason(firstFail, decision);

    r := RulesAnalysis(
      margenPromedio, descuentoPromedio, descuentoExceso, totalPedido, riesgos, decision,
      nivelRiesgo, motivoPrincipal, justificacion, itemsAnalysis);
  }

  // ------------------------------------------------------------- properties

  /** Each check step of the source only ever escalates: it yields the maximum of the running decision and the check's own. */
  lemma RatchetStep(d: Decision, l: Level)
    ensures (match l
             case Fail => Rechazar
             case Warn => if d == Aprobar then Ajustar else d
             case Pass => d) == MaxDecision(d, LevelDecision(l))
  {
  }

  /** The rule decision in terms of the thresholds: reject on any hard breach, else adjust on any soft one, else approve. */
  lemma DecisionThresholds(client: ClientData, items: seq<OrderItem>)
    requires EvaluableOrder(client, items)
    ensures var r := Evaluate(client, items);
            var factor := r.totalPedido / client.limiteCredito;
            && (r.decision == Rechazar <==>
                 r.descuentoExceso > 5.0 || r.margenPromedio < client.margenMinimo - 2.0 || factor > 1.1)
            && (r.decision == Ajustar <==>
                 !(r.descuentoExceso > 5.0 || r.margenPromedio < client.margenMinimo - 2.0 || factor > 1.1) &&
                 (r.descuentoExceso > 0.0 || r.margenPromedio < client.margenMinimo || factor > 1.0))
            && (r.decision == Aprobar <==>
                 r.descuentoExceso <= 0.0 && r.margenPromedio >= client.margenMinimo && factor <= 1.0)
  {
  }

  /** `riesgos` lists one entry per flagged check, in the order discount, margin, credit. */
  lemma RisksPerCheck(client: ClientData, items: seq<OrderItem>)
    requires EvaluableOrder(client, items)
    ensures var r := Evaluate(client, items);
            var ls := EvaluatedLevels(client, r);
            && r.riesgos == RiskOf(DiscountCheck, ls.discount) + RiskOf(MarginCheck, ls.margin) + RiskOf(CreditCheck, ls.credit)
            && |r.riesgos| == (if ls.discount != Pass then 1 else 0) + (if ls.margin != Pass then 1 else 0) + (if ls.credit != Pass then 1 else 0)
  {
    var r := Evaluate(client, items);
    var ls := EvaluatedLevels(client, r);
    assert r.riesgos == RisksOf(ls);
  }

  /** The risk level: low exactly on approval, high on rejection or when all three checks flagged. */
  lemma RiskLevelCharacterisation(client: ClientData, items: seq<OrderItem>)
    requires EvaluableOrder(client, items)
    ensures var r := Evaluate(client, items);
            && (r.nivelRiesgo == Bajo <==> r.decision == Aprobar)
            && (r.nivelRiesgo == Alto <==> r.decision == Rechazar || |r.riesgos| == 3)
            && (r.nivelRiesgo == Medio <==> r.decision == Ajustar && |r.riesgos| < 3)
  {
  }

  /** The principal reason per decision; on rejection it names the first failing check. */
  lemma ReasonCharacterisation(client: ClientData, items: seq<OrderItem>)
    requires EvaluableOrder(client, items)
    ensures var r := Evaluate(client, items);
            var ls := EvaluatedLevels(client, r);
            && (r.decision == Aprobar ==> r.motivoPrincipal == MeetsAllPolicies)
            && (r.decision == Ajustar ==> r.motivoPrincipal == MinorAdjustmentsNeeded)
            && (r.decision == Rechazar ==>
                  r.motivoPrincipal == (if ls.discount == Fail then DiscountsExceedLimit
                                        else if ls.margin == Fail then MarginBelowMinimum
                                        else TotalExceedsCredit))
  {
  }

  /**
   * Justification polarity: approval shows only passes; adjustment shows each
   * check's own level; rejection marks failures, and a discount or credit
   * warning there reads as a pass although `riesgos` lists it.
   */
  lemma JustificationPolarity(client: ClientData, items: seq<OrderItem>)
    requires EvaluableOrder(client, items)
    ensures var r := Evaluate(client, items);
            var ls := EvaluatedLevels(client, r);
            && |r.justificacion| == 4
            && r.justificacion[0].CheckLine? && r.justificacion[0].check == DiscountCheck
            && r.justificacion[1].CheckLine? && r.justificacion[1].check == MarginCheck
            && r.justificacion[2].CheckLine? && r.justificacion[2].check == CreditCheck
            && r.justificacion[3].Closing?
            && (forall i :: 0 <= i < 3 && r.justificacion[i].mark == Fail ==> r.decision == Rechazar)
            && (r.decision == Aprobar ==> forall i :: 0 <= i < 3 ==> r.justificacion[i].mark == Pass)
            && (r.decision == Ajustar ==>
                  r.justificacion[0].mark == ls.discount && r.justificacion[1].mark == ls.margin &&
                  r.justificacion[2].mark == ls.credit)
            && (r.decision == Rechazar ==>
                  && r.justificacion[0].mark == (if ls.discount == Fail then Fail else Pass)
                  && r.justificacion[1].mark == ls.margin
                  && r.justificacion[2].mark == (if ls.credit == Fail then Fail else Pass))
            && (r.decision == Rechazar && ls.discount == Warn ==>
                  r.justificacion[0].mark == Pass && DiscountsSlightlyAbove in r.riesgos)
            && (r.decision == Aprobar ==> r.justificacion[3] == Closing(GoodPaymentHistory(client.categoria)))
            && (r.decision == Ajustar ==> r.justificacion[3] == Closing(NegotiateTerms))
            && (r.decision == Rechazar ==> r.justificacion[3] == Closing(NeedsSubstantialChanges))
  {
    var r := Evaluate(client, items);
    var ls := EvaluatedLevels(client, r);
    assert r.riesgos == RisksOf(ls);
  }

  /** Every margin is at most 40 when discounts lie in [0, 100), and exactly 40 without discount. */
  lemma MarginAtMostForty(it: OrderItem)
    requires MarginDefined(it) && 0.0 <= it.descuento < 100.0
    ensures AnalyzeItem(it).margen <= 40.0
    ensures it.descuento == 0.0 ==> AnalyzeItem(it).margen == 40.0
  {
    var k := 100.0 - it.descuento;
    assert 0.0 < k <= 100.0;
    assert 6000.0 / k >= 60.0 by {
      assert 6000.0 >= 60.0 * k;
    }
  }

  /** The average margin of an order whose discounts lie in [0, 100) is at most 40. */
  lemma AverageMarginAtMostForty(items: seq<OrderItem>)
    requires |items| > 0
    requires forall it :: it in items ==> MarginDefined(it) && 0.0 <= it.descuento < 100.0
    ensures MargenPromedio(items) <= 40.0
  {
    var ia := ItemsAnalysis(items);
    forall i | 0 <= i < |ia| ensures Margin(ia[i]) <= 40.0 {
      assert items[i] in items;
      MarginAtMostForty(items[i]);
    }
    MeanAtMost(ia, Margin, 40.0);
  }

  /** The average discount lies between the smallest and largest item discount bounds. */
  lemma AverageDiscountBounds(items: seq<OrderItem>, lo: real, hi: real)
    requires |items| > 0
    requires forall it :: it in items ==> lo <= it.descuento <= hi
    ensures lo <= DescuentoPromedio(items) <= hi
  {
    forall i | 0 <= i < |items| ensures lo <= Discount(items[i]) <= hi {
      assert items[i] in items;
    }
    MeanAtLeast(items, Discount, lo);
    MeanAtMost(items, Discount, hi);
  }

  /** The order total grows by exactly the subtotals of appended items. */
  lemma TotalOfAppend(xs: seq<OrderItem>, ys: seq<OrderItem>)
    ensures TotalPedido(xs + ys) == TotalPedido(xs) + TotalPedido(ys)
  {
    SumOfAppend(xs, ys, Subtotal);
  }

  /** A one-line order totals that line's subtotal. */
  lemma TotalOfSingle(it: OrderItem)
    ensures TotalPedido([it]) == it.subtotal
  {
    assert [it][1..] == [];
    assert SumOf([it], Subtotal) == Subtotal(it) + SumOf([it][1..], Subtotal);
  }

  /** For a single-item order the average margin is that item's margin. */
  lemma SingleItemAverage(it: OrderItem)
    requires MarginDefined(it)
    ensures MargenPromedio([it]) == AnalyzeItem(it).margen
    ensures DescuentoPromedio([it]) == it.descuento
  {
    var ia := ItemsAnalysis([it]);
    assert ia == [AnalyzeItem(it)];
    assert ia[1..] == [] && [it][1..] == [];
    assert SumOf(ia, Margin) == Margin(ia[0]) + SumOf(ia[1..], Margin);
    assert SumOf([it], Discount) == Discount(it) + SumOf([it][1..], Discount);
  }
}
