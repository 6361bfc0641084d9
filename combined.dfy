/**
 * The decision combiner (backend/src/services/combinedAnalysisService.ts):
 * a fixed matrix keyed by "RULES-AI", a confidence cap, an explanation
 * sentence and the action-item list.
 */
module CombinedAnalysisService {
  import opened Types

  /** A matrix cell: the combined decision and its base confidence. */
  datatype Entry = Entry(decision: Decision, confidence: real)

  /** The lookup key, `${rules}-${ai}`. */
  function Key(rules: Decision, ai: Decision): string
  {
    rules.Name() + "-" + ai.Name()
  }

  /** The decision matrix as a record keyed by string; `None` for any other key. */
  function MatrixEntry(key: string): Option<Entry>
  {
    if key == "APROBAR-APROBAR" then Some(Entry(Aprobar, 95.0))
    else if key == "APROBAR-AJUSTAR" then Some(Entry(Ajustar, 80.0))
    else if key == "APROBAR-RECHAZAR" then Some(Entry(Ajustar, 70.0))
    else if key == "AJUSTAR-APROBAR" then Some(Entry(Ajustar, 85.0))
    else if key == "AJUSTAR-AJUSTAR" then Some(Entry(Ajustar, 90.0))
    else if key == "AJUSTAR-RECHAZAR" then Some(Entry(Rechazar, 85.0))
    else if key == "RECHAZAR-APROBAR" then Some(Entry(Ajustar, 60.0))
    else if key == "RECHAZAR-AJUSTAR" then Some(Entry(Rechazar, 80.0))
    else if key == "RECHAZAR-RECHAZAR" then Some(Entry(Rechazar, 95.0))
    else None
  }

  /** The entry used when a key is not in the matrix. */
  const DefaultEntry := Entry(Ajustar, 50.0)

  /** Character 1 of a key tells the rules decision apart. */
  function RulesTag(d: Decision): char
  {
    match d
    case Aprobar => 'P'
    case Ajustar => 'J'
    case Rechazar => 'E'
  }

  /** Character |key| - 6 of a key tells the opinion's decision apart. */
  function AiTag(d: Decision): char
  {
    match d
    case Aprobar => 'P'
    case Ajustar => 'J'
    case Rechazar => 'C'
  }

  lemma KeyTags(rules: Decision, ai: Decision)
    ensures |Key(rules, ai)| >= 15
    ensures Key(rules, ai)[1] == RulesTag(rules)
    ensures Key(rules, ai)[|Key(rules, ai)| - 6] == AiTag(ai)
  {
    var k := Key(rules, ai);
    assert k[..|rules.Name()|] == rules.Name();
    assert k[|k| - |ai.Name()|..] == ai.Name();
  }

  /** Distinct decision pairs have distinct keys. */
  lemma KeyInjective(r1: Decision, a1: Decision, r2: Decision, a2: Decision)
    ensures Key(r1, a1) == Key(r2, a2) <==> r1 == r2 && a1 == a2
  {
    KeyTags(r1, a1);
    KeyTags(r2, a2);
  }

  /** The nine keys the matrix lists are the keys of the nine decision pairs. */
  lemma KeyLiterals()
    ensures Key(Aprobar, Aprobar) == "APROBAR-APROBAR"
    ensures Key(Aprobar, Ajustar) == "APROBAR-AJUSTAR"
    ensures Key(Aprobar, Rechazar) == "APROBAR-RECHAZAR"
    ensures Key(Ajustar, Aprobar) == "AJUSTAR-APROBAR"
    ensures Key(Ajustar, Ajustar) == "AJUSTAR-AJUSTAR"
    ensures Key(Ajustar, Rechazar) == "AJUSTAR-RECHAZAR"
    ensures Key(Rechazar, Aprobar) == "RECHAZAR-APROBAR"
    ensures Key(Rechazar, Ajustar) == "RECHAZAR-AJUSTAR"
    ensures Key(Rechazar, Rechazar) == "RECHAZAR-RECHAZAR"
  {
  }

  /** The entry of each pair, as the matrix lists it. */
  lemma MatrixCells(rules: Decision, ai: Decision)
    ensures MatrixEntry(Key(rules, ai)) == Some(
      match (rules, ai)
      case (Aprobar, Aprobar) => Entry(Aprobar, 95.0)
      case (Aprobar, Ajustar) => Entry(Ajustar, 80.0)
      case (Aprobar, Rechazar) => Entry(Ajustar, 70.0)
      case (Ajustar, Aprobar) => Entry(Ajustar, 85.0)
      case (Ajustar, Ajustar) => Entry(Ajustar, 90.0)
      case (Ajustar, Rechazar) => Entry(Rechazar, 85.0)
      case (Rechazar, Aprobar) => Entry(Ajustar, 60.0)
      case (Rechazar, Ajustar) => Entry(Rechazar, 80.0)
      case (Rechazar, Rechazar) => Entry(Rechazar, 95.0))
  {
    KeyLiterals();
    forall x, y ensures Key(rules, ai) == Key(x, y) <==> rules == x && ai == y {
      KeyInjective(rules, ai, x, y);
    }
  }

  /** Every one of the nine decision pairs has its own matrix entry, so the default is never used. */
  lemma MatrixTotal(rules: Decision, ai: Decision)
    ensures MatrixEntry(Key(rules, ai)).Some?
  {
    MatrixCells(rules, ai);
  }

  /**
   * `decisionMatrix[key] || default`. The combined decision is approval only
   * when both approve, rejection exactly when neither approves and one
   * rejects, equal inputs are kept, and the result always lies between the
   * two inputs in severity.
   */
  function Lookup(rules: Decision, ai: Decision): (e: Entry)
    ensures e.decision == Aprobar <==> rules == Aprobar && ai == Aprobar
    ensures e.decision == Rechazar <==> rules != Aprobar && ai != Aprobar && (rules == Rechazar || ai == Rechazar)
    ensures rules == ai ==> e.decision == rules
    ensures MinRank(rules, ai) <= e.decision.Rank() <= MaxRank(rules, ai)
    ensures 60.0 <= e.confidence <= 95.0
  {
    MatrixCells(rules, ai);
    match MatrixEntry(Key(rules, ai))
    case Some(e) => e
    case None => DefaultEntry
  }

  function MinRank(a: Decision, b: Decision): nat
  {
    if a.Rank() <= b.Rank() then a.Rank() else b.Rank()
  }

  function MaxRank(a: Decision, b: Decision): nat
  {
    if a.Rank() >= b.Rank() then a.Rank() else b.Rank()
  }

  function Min(a: real, b: real): real { if a <= b then a else b }

  /** The explanation sentence: agreement iff all three decisions match, otherwise chosen by the final decision. */
  function DecisionExplanation(rules: Decision, ai: Decision, final: Decision): (x: Explanation)
    ensures x == BothAgree <==> rules == ai && rules == final
    ensures x == BalanceRisks <==> !(rules == ai && rules == final) && final == Ajustar
    ensures x == ContextPermitsApproval <==> !(rules == ai && rules == final) && final == Aprobar
    ensures x == RisksJustifyRejection <==> !(rules == ai && rules == final) && final == Rechazar
  {
    if rules == ai && rules == final then BothAgree
    else if final == Ajustar then BalanceRisks
    else if final == Aprobar then ContextPermitsApproval
    else assert final == Rechazar; RisksJustifyRejection
  }

  /** Through the matrix, the explanation reports agreement exactly when the two analyses agree. */
  lemma AgreementIffSameInputs(rules: Decision, ai: Decision)
    ensures DecisionExplanation(rules, ai, Lookup(rules, ai).decision) == BothAgree <==> rules == ai
  {
  }

  /** Through the matrix, the "approve despite differences" sentence is never chosen. */
  lemma ApprovalDespiteDifferencesUnreachable(rules: Decision, ai: Decision)
    ensures DecisionExplanation(rules, ai, Lookup(rules, ai).decision) != ContextPermitsApproval
  {
  }

  /** What the combined reasoning text embeds: both analyses' headline figures and the explanation branch. */
  function BuildCombinedReasoning(rules: RulesAnalysis, ai: AIAnalysis, final: Decision): (x: Reasoning)
    ensures x.riskCount == |rules.riesgos|
    ensures x.rulesDecision == rules.decision && x.aiDecision == ai.decision && x.finalDecision == final
    ensures x.margenPromedio == rules.margenPromedio && x.descuentoPromedio == rules.descuentoPromedio
    ensures x.motivo == rules.motivoPrincipal
    ensures x.aiConfidence == ai.confidence && x.recommendation == ai.finalRecommendation
    ensures x.explanation == DecisionExplanation(rules.decision, ai.decision, final)
    ensures x.explanation == BothAgree <==> rules.decision == ai.decision && ai.decision == final
  {
    Reasoning(
      rules.decision, rules.margenPromedio, rules.descuentoPromedio, |rules.riesgos|, rules.motivoPrincipal,
      ai.decision, ai.confidence, ai.finalRecommendation, final,
      DecisionExplanation(rules.decision, ai.decision, final))
  }

  /**
   * `negotiationSuggestions.length` can be read: every JSON value except
   * `null` has properties (reading one off `null` throws).
   */
  predicate SuggestionsReadable(v: Json)
  {
    !v.JNull?
  }

  /**
   * Interpolating the value into a template string throws a TypeError. An
   * object with its own `toString` key has a `toString` that cannot be
   * called, and `valueOf` yields no primitive either; an array converts by
   * joining its elements, skipping `null`, so it throws when an element does.
   * Every other JSON value converts.
   */
  predicate StringConversionThrows(v: Json)
  {
    match v
    case JObj(members) => "toString" in members
    case JArr(es) => exists i :: 0 <= i < |es| && StringConversionThrows(es[i])
    case _ => false
  }

  /**
   * `combineAnalysis` throws: the reasoning text interpolates
   * `finalRecommendation`, and the action items read
   * `negotiationSuggestions.length`.
   */
  predicate CombinationThrows(ai: AIAnalysis)
  {
    StringConversionThrows(ai.finalRecommendation) || !SuggestionsReadable(ai.negotiationSuggestions)
  }

  /** Objects with a `toString` key throw, and so does any array that holds one; plain objects, strings and `null` do not. */
  lemma StringConversionCases(v: Json)
    ensures StringConversionThrows(JObj(map["toString" := v]))
    ensures StringConversionThrows(JArr([JNull, JArr([JObj(map["toString" := v])])]))
    ensures !StringConversionThrows(JObj(map["texto" := JObj(map["toString" := v])]))
    ensures !StringConversionThrows(JArr([JNull, JStr("ok"), JNum(1.0)]))
  {
    var inner := JArr([JObj(map["toString" := v])]);
    assert StringConversionThrows(inner.elems[0]);
    assert StringConversionThrows(JArr([JNull, inner]).elems[1]);
    var plain := JArr([JNull, JStr("ok"), JNum(1.0)]);
    assert forall i :: 0 <= i < |plain.elems| ==> !StringConversionThrows(plain.elems[i]);
  }

  /**
   * `negotiationSuggestions.length > 0`: arrays and strings by their length.
   * Booleans and numbers have no `length`; objects are taken to have none
   * either, whatever keys they carry.
   */
  predicate HasSuggestions(v: Json)
    requires SuggestionsReadable(v)
  {
    match v
    case JArr(es) => |es| > 0
    case JStr(s) => |s| > 0
    case _ => false
  }

  /** `rules.margenPromedio < rules.itemsAnalysis[0]?.margen || 0`: false on an empty list. */
  predicate MarginReviewNeeded(rules: RulesAnalysis)
  {
    |rules.itemsAnalysis| > 0 && rules.margenPromedio < rules.itemsAnalysis[0].margen
  }

  /** The items a final decision calls for, before the AI-strategy item. */
  function DecisionItems(rules: RulesAnalysis, final: Decision): seq<ActionItem>
  {
    match final
    case Aprobar =>
      [ProceedWithApproval, DocumentDecision, NotifyClientOfApproval]
      + (if |rules.riesgos| > 0 then [MonitorClosely] else [])
    case Ajustar =>
      [NegotiateAdjustments]
      + (if rules.descuentoExceso > 0.0 then [ReduceDiscountsBy(rules.descuentoExceso)] else [])
      + (if MarginReviewNeeded(rules) then [ReviewPrices] else [])
      + [ApplyAISuggestions]
    case Rechazar =>
      [RejectAsIs, CommunicateReasons, ProposeAlternatives, InviteResubmission]
  }

  /** The action items for a final decision, followed by the AI-strategy item when the opinion has suggestions. */
  function ActionItems(rules: RulesAnalysis, ai: AIAnalysis, final: Decision): seq<ActionItem>
    requires SuggestionsReadable(ai.negotiationSuggestions)
  {
    DecisionItems(rules, final) + (if HasSuggestions(ai.negotiationSuggestions) then [ImplementAIStrategies] else [])
  }

  /** `generateActionItems`: the list built by successive pushes inside a switch on the final decision. */
  method GenerateActionItems(rules: RulesAnalysis, ai: AIAnalysis, final: Decision) returns (actionItems: seq<ActionItem>)
    requires SuggestionsReadable(ai.negotiationSuggestions)
    ensures actionItems == ActionItems(rules, ai, final)
  {
    actionItems := [];
    match final {
      case Aprobar =>
        actionItems := actionItems + [ProceedWithApproval];
        actionItems := actionItems + [DocumentDecision];
        actionItems := actionItems + [NotifyClientOfApproval];
        if |rules.riesgos| > 0 {
          actionItems := actionItems + [MonitorClosely];
        }
      case Ajustar =>
        actionItems := actionItems + [NegotiateAdjustments];
        if rules.descuentoExceso > 0.0 {
          actionItems := actionItems + [ReduceDiscountsBy(rules.descuentoExceso)];
        }
        if |rules.itemsAnalysis| > 0 && rules.margenPromedio < rules.itemsAnalysis[0].margen {
          actionItems := actionItems + [ReviewPrices];
        }
        actionItems := actionItems + [ApplyAISuggestions];
      case Rechazar =>
        actionItems := actionItems + [RejectAsIs];
        actionItems := actionItems + [CommunicateReasons];
        actionItems := actionItems + [ProposeAlternatives];
        actionItems := actionItems + [InviteResubmission];
    }
    assert actionItems == DecisionItems(rules, final);
    if HasSuggestions(ai.negotiationSuggestions) {
      actionItems := actionItems + [ImplementAIStrategies];
    }
  }

  /** The action-item shapes: fixed heads per decision, the optional items exactly under their conditions, the AI-strategy item last exactly when there are suggestions. */
  lemma ActionItemShapes(rules: RulesAnalysis, ai: AIAnalysis, final: Decision)
    requires SuggestionsReadable(ai.negotiationSuggestions)
    ensures var xs := ActionItems(rules, ai, final);
            var extra := if HasSuggestions(ai.negotiationSuggestions) then 1 else 0;
            && (ImplementAIStrategies in xs <==> HasSuggestions(ai.negotiationSuggestions))
            && (HasSuggestions(ai.negotiationSuggestions) ==> xs[|xs| - 1] == ImplementAIStrategies)
            && (final == Aprobar ==>
                  && xs[..3] == [ProceedWithApproval, DocumentDecision, NotifyClientOfApproval]
                  && (MonitorClosely in xs <==> |rules.riesgos| > 0)
                  && |xs| == 3 + (if |rules.riesgos| > 0 then 1 else 0) + extra)
            && (final == Ajustar ==>
                  && xs[0] == NegotiateAdjustments
                  && (ReduceDiscountsBy(rules.descuentoExceso) in xs <==> rules.descuentoExceso > 0.0)
                  && (ReviewPrices in xs <==> MarginReviewNeeded(rules))
                  && xs[|xs| - 1 - extra] == ApplyAISuggestions
                  && |xs| == 2 + (if rules.descuentoExceso > 0.0 then 1 else 0)
                              + (if MarginReviewNeeded(rules) then 1 else 0) + extra)
            && (final == Rechazar ==>
                  && xs[..4] == [RejectAsIs, CommunicateReasons, ProposeAlternatives, InviteResubmission]
                  && |xs| == 4 + extra)
  {
  }

  /** When the rules approve only without risks, the combined items never ask to monitor flagged risks. */
  lemma MonitorNeedsRiskyApproval(rules: RulesAnalysis, ai: AIAnalysis)
    requires !CombinationThrows(ai)
    requires rules.decision == Aprobar ==> rules.riesgos == []
    ensures MonitorClosely !in CombineAnalysis(rules, ai).actionItems
  {
    var f := CombineAnalysis(rules, ai);
    ActionItemShapes(rules, ai, f.decision);
  }

  /** When the average margin is not below the first item's, the combined items never ask to review prices. */
  lemma PriceReviewNeedsLowAverage(rules: RulesAnalysis, ai: AIAnalysis)
    requires !CombinationThrows(ai)
    requires !MarginReviewNeeded(rules)
    ensures ReviewPrices !in CombineAnalysis(rules, ai).actionItems
  {
    var f := CombineAnalysis(rules, ai);
    ActionItemShapes(rules, ai, f.decision);
  }

  /** `combineAnalysis`: matrix lookup, confidence capped by the opinion's, reasoning and action items. */
  function CombineAnalysis(rules: RulesAnalysis, ai: AIAnalysis): (f: FinalDecision)
    requires !CombinationThrows(ai)
    ensures f.decision == Lookup(rules.decision, ai.decision).decision
    ensures f.confidence <= ai.confidence && f.confidence <= Lookup(rules.decision, ai.decision).confidence
    ensures f.confidence == ai.confidence || f.confidence == Lookup(rules.decision, ai.decision).confidence
    ensures 0.0 <= ai.confidence <= 100.0 ==> 0.0 <= f.confidence <= 100.0
    ensures f.actionItems == ActionItems(rules, ai, f.decision)
    ensures f.reasoning == BuildCombinedReasoning(rules, ai, f.decision)
    ensures f.reasoning.explanation == BothAgree <==> rules.decision == ai.decision
    ensures f.reasoning.explanation != ContextPermitsApproval
  {
    var result := Lookup(rules.decision, ai.decision);
    AgreementIffSameInputs(rules.decision, ai.decision);
    ApprovalDespiteDifferencesUnreachable(rules.decision, ai.decision);
    var adjustedConfidence := Min(result.confidence, ai.confidence);
    FinalDecision(
      result.decision,
      adjustedConfidence,
      BuildCombinedReasoning(rules, ai, result.decision),
      ActionItems(rules, ai, result.decision))
  }
}
