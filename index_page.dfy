/**
 * The order page of the frontend (frontend/src/pages/Index.tsx): the item
 * list the user edits, its running total, the input guards of the analyse
 * button, and the page's own copy of the rule evaluator.
 */
module IndexPage {
  import opened Types
  import Rules = RulesAnalysisService
  import MockData
  import AnalysisController

  // ------------------------------------------------------------- item edits

  /** `updateItem(id, field, value)`: which field is set, and to what. */
  datatype FieldUpdate =
    | SetId(id: string)
    | SetProducto(producto: string)
    | SetCantidad(cantidad: real)
    | SetPrecioUnitario(precioUnitario: real)
    | SetDescuento(descuento: real)
    | SetSubtotal(subtotal: real)

  /** The line value the page derives: quantity times price less the discount. */
  function LineSubtotal(cantidad: real, precioUnitario: real, descuento: real): real
  {
    cantidad * precioUnitario * (1.0 - descuento / 100.0)
  }

  /** The edited field holds the new value. */
  predicate Holds(it: OrderItem, upd: FieldUpdate)
  {
    match upd
    case SetId(v) => it.id == v
    case SetProducto(v) => it.producto == v
    case SetCantidad(v) => it.cantidad == v
    case SetPrecioUnitario(v) => it.precioUnitario == v
    case SetDescuento(v) => it.descuento == v
    case SetSubtotal(v) => it.subtotal == v
  }

  /** Every field other than the edited one and the subtotal is as before. */
  predicate OthersKept(r: OrderItem, it: OrderItem, upd: FieldUpdate)
  {
    && (upd.SetId? || r.id == it.id)
    && (upd.SetProducto? || r.producto == it.producto)
    && (upd.SetCantidad? || r.cantidad == it.cantidad)
    && (upd.SetPrecioUnitario? || r.precioUnitario == it.precioUnitario)
    && (upd.SetDescuento? || r.descuento == it.descuento)
  }

  /**
   * The edit applied to one matching item: `{ ...item, [field]: value }`,
   * then, unless the field is `subtotal`, the subtotal recomputed from the
   * edited values; a subtotal set directly is stored as given.
   */
  function ApplyUpdate(it: OrderItem, upd: FieldUpdate): (r: OrderItem)
    ensures Holds(r, upd) && OthersKept(r, it, upd)
    ensures !upd.SetSubtotal? ==> r.subtotal == LineSubtotal(r.cantidad, r.precioUnitario, r.descuento)
  {
    var updated :=
      match upd
      case SetId(v) => it.(id := v)
      case SetProducto(v) => it.(producto := v)
      case SetCantidad(v) => it.(cantidad := v)
      case SetPrecioUnitario(v) => it.(precioUnitario := v)
      case SetDescuento(v) => it.(descuento := v)
      case SetSubtotal(v) => it.(subtotal := v);
    if !upd.SetSubtotal? then
      updated.(subtotal := LineSubtotal(updated.cantidad, updated.precioUnitario, updated.descuento))
    else
      updated
  }

  /** `items.map(...)`: every item with the id edited, every other item untouched, length and order kept. */
  function Updated(items: seq<OrderItem>, id: string, upd: FieldUpdate): (r: seq<OrderItem>)
    ensures |r| == |items|
    ensures forall i :: 0 <= i < |items| && items[i].id != id ==> r[i] == items[i]
    ensures forall i :: 0 <= i < |items| && items[i].id == id ==> r[i] == ApplyUpdate(items[i], upd)
  {
    if items == [] then []
    else [if items[0].id == id then ApplyUpdate(items[0], upd) else items[0]] + Updated(items[1..], id, upd)
  }

  /** `items.filter(item => item.id !== id)`. */
  function Without(items: seq<OrderItem>, id: string): (r: seq<OrderItem>)
    ensures forall x :: x in r <==> x in items && x.id != id
    ensures |r| <= |items|
    ensures (forall x :: x in items ==> x.id != id) ==> r == items
  {
    if items == [] then []
    else if items[0].id == id then Without(items[1..], id)
    else [items[0]] + Without(items[1..], id)
  }

  /** The items `Without` drops: those carrying the id. */
  function Matching(items: seq<OrderItem>, id: string): seq<OrderItem>
  {
    if items == [] then []
    else if items[0].id == id then [items[0]] + Matching(items[1..], id)
    else Matching(items[1..], id)
  }

  /** Removal keeps the survivors' order: filtering a concatenation filters each part. */
  lemma {:induction false} WithoutDistributes(xs: seq<OrderItem>, ys: seq<OrderItem>, id: string)
    ensures Without(xs + ys, id) == Without(xs, id) + Without(ys, id)
  {
    if xs != [] {
      assert (xs + ys)[1..] == xs[1..] + ys;
      WithoutDistributes(xs[1..], ys, id);
    } else {
      assert xs + ys == ys;
    }
  }

  /** Removal takes exactly the matching items' subtotals off the total. */
  lemma {:induction false} RemovalSplitsTotal(items: seq<OrderItem>, id: string)
    ensures Rules.TotalPedido(items) == Rules.TotalPedido(Without(items, id)) + Rules.TotalPedido(Matching(items, id))
  {
    if items != [] {
      RemovalSplitsTotal(items[1..], id);
      var x := items[0];
      var rest := items[1..];
      assert Rules.TotalPedido(items) == x.subtotal + Rules.TotalPedido(rest);
      if x.id == id {
        Rules.TotalOfAppend([x], Matching(rest, id));
      } else {
        Rules.TotalOfAppend([x], Without(rest, id));
      }
      Rules.TotalOfSingle(x);
    }
  }

  /** An edit addressed to an id no line carries leaves the list, and so the total, as it was. */
  lemma {:induction false} EditElsewhereKeepsTotal(items: seq<OrderItem>, id: string, upd: FieldUpdate)
    requires forall x :: x in items ==> x.id != id
    ensures Rules.TotalPedido(Updated(items, id, upd)) == Rules.TotalPedido(items)
  {
    var r := Updated(items, id, upd);
    assert r == items by {
      forall i | 0 <= i < |items| ensures r[i] == items[i] {
        assert items[i] in items;
      }
    }
  }

  /** `addItem`'s new line: empty name, quantity 1, zero price, discount and subtotal. */
  function NewItem(id: string): (it: OrderItem)
    ensures it.id == id && it.producto == ""
    ensures it.cantidad == 1.0 && it.precioUnitario == 0.0 && it.descuento == 0.0 && it.subtotal == 0.0
    ensures it.subtotal == LineSubtotal(it.cantidad, it.precioUnitario, it.descuento)
  {
    OrderItem(id, "", 1.0, 0.0, 0.0, 0.0)
  }

  // ------------------------------------------------------------ page guards

  datatype Refusal = NoClientSelected | NoItems | IncompleteItems

  /** What pressing the analyse button yields: a refusal toast, or the client's policy and the analysis. */
  datatype FrontOutcome = Refused(why: Refusal) | Analysed(clientData: ClientData, analysis: RulesAnalysis)

  /** `!item.producto || item.precioUnitario <= 0`: quantity and discount are not checked. */
  predicate ItemIncomplete(it: OrderItem)
  {
    it.producto == "" || it.precioUnitario <= 0.0
  }

  /** The three guards of `analyzeOrder`, first failing one first. */
  function Guard(selectedClient: string, items: seq<OrderItem>): (g: Option<Refusal>)
    ensures g.None? <==> selectedClient != "" && |items| > 0 && forall it :: it in items ==> !ItemIncomplete(it)
    ensures g == Some(NoClientSelected) <==> selectedClient == ""
    ensures g == Some(NoItems) <==> selectedClient != "" && items == []
  {
    if selectedClient == "" then Some(NoClientSelected)
    else if |items| == 0 then Some(NoItems)
    else if exists it :: it in items && ItemIncomplete(it) then Some(IncompleteItems)
    else None
  }

  /** Every item the backend accepts passes the page's check too. */
  lemma BackendValidPassesPageGuard(it: OrderItem)
    requires !AnalysisController.ItemInvalidAsWritten(it)
    ensures !ItemIncomplete(it)
  {
  }

  /** The page lets through items the backend refuses: a zero quantity, or a discount above 100. */
  lemma PageGuardWeakerThanBackend()
    ensures var zeroQty := OrderItem("1", "Arroz Premium 50kg", 0.0, 125000.0, 10.0, 0.0);
            var overDiscount := OrderItem("2", "Sal Marina 25kg", 5.0, 35000.0, 150.0, -87500.0);
            && Guard("clienteA", [zeroQty, overDiscount]).None?
            && AnalysisController.ItemInvalidAsWritten(zeroQty)
            && AnalysisController.ItemInvalidAsWritten(overDiscount)
  {
    var zeroQty := OrderItem("1", "Arroz Premium 50kg", 0.0, 125000.0, 10.0, 0.0);
    var overDiscount := OrderItem("2", "Sal Marina 25kg", 5.0, 35000.0, 150.0, -87500.0);
    assert forall it :: it in [zeroQty, overDiscount] ==> it == zeroQty || it == overDiscount;
  }

  /**
   * The evaluator block inside the page's `analyzeOrder` (run after the
   * guards, on the selected client's policy and the page's running total).
   * It compares the unclamped discount excess against the thresholds and
   * clamps it only in the result, and still computes exactly what the backend
   * evaluator computes.
   */
  method InlineEvaluator(clientData: ClientData, items: seq<OrderItem>, totalPedido: real) returns (r: RulesAnalysis)
    requires Rules.EvaluableOrder(clientData, items)
    requires totalPedido == Rules.TotalPedido(items)
    ensures r == Rules.Evaluate(clientData, items)
  {
    var itemsAnalysis := Rules.ItemsAnalysis(items);
    var margenPromedio := Rules.Mean(itemsAnalysis, Rules.Margin);
    var descuentoPromedio := Rules.Mean(items, Rules.Discount);

    var riesgos: seq<Risk> := [];
    var decision := Aprobar;
    var nivelRiesgo := Bajo;
    var motivoPrincipal := NoReason;
    var justificacion: seq<JustLine> := [];

    var descuentoExceso := descuentoPromedio - clientData.descuentoMaximo;
    ghost var ls := Rules.LevelsOf(clientData, Rules.Max0(descuentoExceso), margenPromedio, totalPedido);
    if descuentoExceso > 5.0 {
      riesgos := riesgos + [ExcessiveDiscounts];
      decision := Rechazar;
      motivoPrincipal := DiscountsExceedLimit;
    } else if descuentoExceso > 0.0 && descuentoExceso <= 5.0 {
      riesgos := riesgos + [DiscountsSlightlyAbove];
      if decision == Aprobar { decision := Ajustar; }
    }

    assert decision == Rules.LevelDecision(ls.discount) && riesgos == Rules.RiskOf(DiscountCheck, ls.discount);
    assert motivoPrincipal == (if ls.discount == Fail then DiscountsExceedLimit else NoReason);

    if margenPromedio < clientData.margenMinimo - 2.0 {
      riesgos := riesgos + [MarginVeryLow];
      decision := Rechazar;
      if motivoPrincipal == NoReason { motivoPrincipal := MarginBelowMinimum; }
    } else if margenPromedio < clientData.margenMinimo {
      riesgos := riesgos + [MarginNearLimit];
      if decision == Aprobar { decision := Ajustar; }
    }

    assert decision == MaxDecision(Rules.LevelDecision(ls.discount), Rules.LevelDecision(ls.margin));
    assert riesgos == Rules.RiskOf(DiscountCheck, ls.discount) + Rules.RiskOf(MarginCheck, ls.margin);

    var excesoCreditoFactor := totalPedido / clientData.limiteCredito;
    if excesoCreditoFactor > 1.1 {
      riesgos := riesgos + [CreditSignificantlyExceeded];
      decision := Rechazar;
      if motivoPrincipal == NoReason { motivoPrincipal := TotalExceedsCredit; }
    } else if excesoCreditoFactor > 1.0 {
      riesgos := riesgos + [CreditNearLimit];
      if decision == Aprobar { decision := Ajustar; }
    }

    assert decision == Rules.DecisionOf(ls) && riesgos == Rules.RisksOf(ls);
    assert motivoPrincipal == Rules.FirstFailReason(ls);
    ghost var firstFail := motivoPrincipal;

    if |riesgos| >= 3 || decision == Rechazar {
      nivelRiesgo := Alto;
    } else if |riesgos| >= 1 || decision == Ajustar {
      nivelRiesgo := Medio;
    }

    assert nivelRiesgo == Rules.NivelRiesgo(|riesgos|, decision);

    if decision == Aprobar {
      motivoPrincipal := MeetsAllPolicies;
      justificacion := [
        CheckLine(DiscountCheck, Pass),
        CheckLine(MarginCheck, Pass),
        CheckLine(CreditCheck, Pass),
        Closing(GoodPaymentHistory(clientData.categoria))];
    } else if decision == Ajustar {
      if motivoPrincipal == NoReason { motivoPrincipal := MinorAdjustmentsNeeded; }
      justificacion := [
        CheckLine(DiscountCheck, if descuentoExceso > 0.0 then Warn else Pass),
        CheckLine(MarginCheck, if margenPromedio < clientData.margenMinimo then Warn else Pass),
        CheckLine(CreditCheck, if excesoCreditoFactor > 1.0 then Warn else Pass),
        Closing(NegotiateTerms)];
    } else {
      justificacion := [
        CheckLine(DiscountCheck, if descuentoExceso > 5.0 then Fail else Pass),
        CheckLine(MarginCheck,
          if margenPromedio < clientData.margenMinimo - 2.0 then Fail
          else if margenPromedio < clientData.margenMinimo then Warn
          else Pass),
        CheckLine(CreditCheck, if excesoCreditoFactor > 1.1 then Fail else Pass),
        Closing(NeedsSubstantialChanges)];
    }

    assert justificacion == Rules.Justification(ls, decision, clientData.categoria);
    assert motivoPrincipal == Rules.FinalReason(firstFail, decision);

    r := RulesAnalysis(
      margenPromedio, descuentoPromedio, Rules.Max0(descuentoExceso), totalPedido, riesgos, decision,
      nivelRiesgo, motivoPrincipal, justificacion, itemsAnalysis);
  }

  // ------------------------------------------------------------- page state

  /** The page's order state: the selected client key and the item list. */
  class OrderForm {
    var selectedClient: string
    var items: seq<OrderItem>

    /** The selection is empty or one of the three keys the client picker offers. */
    predicate Valid()
      reads this
    {
      selectedClient == "" || MockData.IsCatalogued(selectedClient)
    }

    /** The initial state: no client selected, no items. */
    constructor()
      ensures Valid()
      ensures selectedClient == "" && items == []
    {
      selectedClient := "";
      items := [];
    }

    /** `totalPedido`: the sum of the current subtotals. */
    function TotalPedido(): real
      reads this
    {
      Rules.TotalPedido(items)
    }

    /** The client picker's `onValueChange`. */
    method SelectClient(clienteId: string)
      requires MockData.IsCatalogued(clienteId)
      modifies this
      ensures Valid()
      ensures selectedClient == clienteId && items == old(items)
    {
      selectedClient := clienteId;
    }

    /** `addItem`, with the random id supplied by the caller: one blank line appended, total unchanged. */
    method AddItem(id: string)
      requires Valid()
      modifies this
      ensures Valid()
      ensures items == old(items) + [NewItem(id)]
      ensures selectedClient == old(selectedClient)
      ensures TotalPedido() == old(TotalPedido())
    {
      var newItem := NewItem(id);
      Rules.TotalOfAppend(items, [newItem]);
      Rules.TotalOfSingle(newItem);
      items := items + [newItem];
    }

    /** `removeItem`: every line with the id dropped, the rest kept in order; the total loses exactly their subtotals. */
    method RemoveItem(id: string)
      requires Valid()
      modifies this
      ensures Valid()
      ensures items == Without(old(items), id)
      ensures selectedClient == old(selectedClient)
      ensures TotalPedido() == old(TotalPedido()) - Rules.TotalPedido(Matching(old(items), id))
    {
      RemovalSplitsTotal(items, id);
      items := Without(items, id);
    }

    /** `updateItem`: the edit applied to every line with the id, nothing else changed. */
    method UpdateItem(id: string, upd: FieldUpdate)
      requires Valid()
      modifies this
      ensures Valid()
      ensures items == Updated(old(items), id, upd)
      ensures selectedClient == old(selectedClient)
    {
      items := Updated(items, id, upd);
    }

    /** `resetForm`: back to the initial state. */
    method ResetForm()
      modifies this
      ensures Valid()
      ensures selectedClient == "" && items == []
    {
      selectedClient := "";
      items := [];
    }

    /**
     * `analyzeOrder`: the three guards, then the page's inline copy of the
     * rule evaluator. The copy compares the unclamped discount excess
     * against the thresholds and clamps it only in the result; it computes
     * exactly what the backend evaluator computes for the same client and
     * items. A discount of exactly 100 is outside the model (the margin
     * division is undefined there).
     */
    method AnalyzeOrder() returns (o: FrontOutcome)
      requires Valid()
      requires Guard(selectedClient, items).None? ==> forall it :: it in items ==> it.descuento != 100.0
      ensures o.Refused? <==> Guard(selectedClient, items).Some?
      ensures o.Refused? ==> o.why == Guard(selectedClient, items).value
      ensures o.Analysed? ==>
                && o.clientData == MockData.FindClient(selectedClient).value
                && Rules.EvaluableOrder(o.clientData, items)
                && o.analysis == Rules.Evaluate(o.clientData, items)
    {
      if selectedClient == "" {
        return Refused(NoClientSelected);
      }
      if |items| == 0 {
        return Refused(NoItems);
      }
      if exists it :: it in items && ItemIncomplete(it) {
        return Refused(IncompleteItems);
      }

      var clientData := MockData.FindClient(selectedClient).value;
      assert Rules.EvaluableOrder(clientData, items);
      var totalPedido := TotalPedido();
      var analysis := InlineEvaluator(clientData, items, totalPedido);
      o := Analysed(clientData, analysis);
    }
  }
}
