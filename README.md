# Order-approval engine, modelled in Dafny

This project models the decision engine of an institutional food-distribution
order pilot. A sales order is a list of items for one client. Each item has a
product, quantity, unit price, percentage discount and subtotal. The client
has a commercial policy: credit limit, maximum discount, minimum margin and
category. The engine:

- **evaluates the order against the policy** (`RulesAnalysisService`,
  `rules.dfy`):
  - per-item cost (60% of the price) and margin, taken on the discounted price;
  - unweighted average margin and average discount, and the total of the
    supplied subtotals;
  - three threshold checks (discount excess, margin, credit factor). Each can
    only escalate APROBAR → AJUSTAR → RECHAZAR;
  - the risk list, the risk level, the principal reason and a four-line
    justification.
- **asks a second opinion** from a language model (`AIAnalysisService`,
  `ai.dfy`):
  - the reply is validated: six required keys, a known decision, and a
    confidence that is a number in [0, 100];
  - every failure is replaced by a fallback opinion that repeats the rule
    decision at confidence 50.
- **combines the two** (`CombinedAnalysisService`, `combined.dfy`):
  - a 3×3 decision matrix keyed by the string `"RULES-AI"`;
  - the confidence capped by the opinion's;
  - one of four explanation sentences;
  - a list of action items.
- **serves it over HTTP** (`AnalysisController`, `controller.dfy`):
  - 400 for an incomplete request, 404 for an unknown client, 400 for an
    invalid item, with the item filter as written; a handler with the
    corrected filter stands beside it (see Findings);
  - otherwise the rules → opinion → combination pipeline;
  - a second, rules-only endpoint.
  - The client catalogue is `MockData` (`mock_data.dfy`).
- **duplicates the evaluator in the order page** (`IndexPage`,
  `index_page.dfy`):
  - the page keeps the item list in a class `OrderForm`, whose methods add,
    remove and edit items (editing recomputes the subtotal);
  - its analyse button re-implements the rule evaluator inline. That copy is
    proved to compute exactly the backend evaluator's result.

`scenarios.dfy` works three orders through the rule evaluator against the
catalogue policies, and two decision pairs through the matrix and the
fallback opinion. None of them goes through a handler.

Modelling conventions:

- JS numbers are `real`. The model has no NaN, no Infinity and no rounding.
- Message strings are represented by tags:
  - risks, reasons and action items are enum constructors;
  - a justification line is a (check, mark ✓/⚠/✗) pair;
  - the combined reasoning text is represented by the figures it embeds and
    by which explanation sentence it chooses.
- The opinion's reply is an untrusted record: each of the six keys is an
  optional JSON value. The chat-completion call is a function parameter
  returning `CallFailed`, `EmptyContent`, `Unparsable` or `Parsed(record)`.
- The source has two step-by-step copies of the rule evaluator, one in the
  backend service and one in the order page. The model states the evaluator
  once more as its own declarative reference, the function `Evaluate`, built
  from one `Level` (Pass, Warn or Fail) per check:
  - the backend copy is the method `AnalyzeOrder`, with a running decision, a
    risk list grown by appends and a reason set by the first failing check;
  - the page copy is the method `IndexPage.InlineEvaluator`;
  - both methods are proved equal to `Evaluate`, and the properties are
    proved about `Evaluate`.
- The combiner's "review prices" item compares the average margin with the
  *first* item's margin, not with the client's minimum. It is modelled as
  written. `AnalysisController.SingleItemNeverReviewsPrices` shows it never
  fires for a one-item order.

## Model

| member | source | states |
|---|---|---|
| Types.MaxDecision | backend/src/services/rulesAnalysisService.ts:29-57 | the escalation step: the result is one of the two decisions and at least as severe as both |
| Types.DecisionNameRoundTrip | backend/src/services/aiAnalysisService.ts:115-117 | parsing the wire spelling of any decision gives back that decision |
| RulesAnalysisService.SumOfAppend | backend/src/services/rulesAnalysisService.ts:7 | the sum over a concatenation is the sum of the sums over the parts |
| RulesAnalysisService.TotalOfAppend | backend/src/services/rulesAnalysisService.ts:7 | the order total of two lists joined is the sum of their totals |
| RulesAnalysisService.TotalOfSingle | backend/src/services/rulesAnalysisService.ts:7 | a one-line order totals that line's supplied subtotal; the subtotal is never recomputed |
| RulesAnalysisService.AnalyzeItem | backend/src/services/rulesAnalysisService.ts:10-15 | the entry keeps the item, cost is 0.6 × price, margin is 100 − 6000/(100 − discount), so it depends on the discount alone |
| RulesAnalysisService.MarginIdentity | backend/src/services/rulesAnalysisService.ts:11-13 | ((p(1 − d/100) − 0.6p)/(p(1 − d/100)))·100 = 100 − 6000/(100 − d) whenever p ≠ 0 and d ≠ 100 |
| RulesAnalysisService.ItemsAnalysis | backend/src/services/rulesAnalysisService.ts:10-15 | one analysis per item, same length and order |
| RulesAnalysisService.MeanAtMost | backend/src/services/rulesAnalysisService.ts:17-18 | a non-empty unweighted mean of terms each ≤ hi is ≤ hi |
| RulesAnalysisService.MeanAtLeast | backend/src/services/rulesAnalysisService.ts:17-18 | a non-empty unweighted mean of terms each ≥ lo is ≥ lo |
| RulesAnalysisService.MarginAtMostForty | backend/src/services/rulesAnalysisService.ts:10-15 | with a discount in [0, 100) an item's margin is ≤ 40, and exactly 40 without discount |
| RulesAnalysisService.AverageMarginAtMostForty | backend/src/services/rulesAnalysisService.ts:17 | the average margin of an order with discounts in [0, 100) is ≤ 40 |
| RulesAnalysisService.AverageDiscountBounds | backend/src/services/rulesAnalysisService.ts:18 | the average discount lies within any bounds every item's discount lies within |
| RulesAnalysisService.SingleItemAverage | backend/src/services/rulesAnalysisService.ts:17-18 | for one item the averages are that item's margin and discount |
| RulesAnalysisService.RiskOf | backend/src/services/rulesAnalysisService.ts:29-57 | a check records at most one risk, and records one exactly when it does not pass |
| RulesAnalysisService.TotalPedido | backend/src/services/rulesAnalysisService.ts:7 | the sum of the supplied subtotals, left to right from 0 |
| RulesAnalysisService.MargenPromedio | backend/src/services/rulesAnalysisService.ts:17 | the unweighted mean of the item margins |
| RulesAnalysisService.DescuentoPromedio | backend/src/services/rulesAnalysisService.ts:18 | the unweighted mean of the item discounts |
| RulesAnalysisService.NivelRiesgo | backend/src/services/rulesAnalysisService.ts:59-64 | ALTO for three risks or a rejection, else MEDIO for any risk or an adjustment, else BAJO |
| RulesAnalysisService.Evaluate | backend/src/services/rulesAnalysisService.ts:5-117 | the item analyses are `AnalyzeItem` of each item in order; the total is the sum of the supplied subtotals; the averages are the unweighted means of margins and discounts; the excess is the average discount over the client maximum, floored at 0; at most 3 risks; no risks iff APROBAR; 4 justification lines |
| RulesAnalysisService.AnalyzeOrder | backend/src/services/rulesAnalysisService.ts:5-117 | the step-by-step evaluator (running decision, appended risks, first-fail reason) computes exactly `Evaluate` |
| RulesAnalysisService.RatchetStep | backend/src/services/rulesAnalysisService.ts:29-57 | each check's update of the running decision is the maximum of it and the check's own decision, so no check lowers it |
| RulesAnalysisService.DecisionThresholds | backend/src/services/rulesAnalysisService.ts:28-57 | RECHAZAR iff excess > 5 or margin < min − 2 or factor > 1.1; else AJUSTAR iff excess > 0 or margin < min or factor > 1; else APROBAR |
| RulesAnalysisService.RisksPerCheck | backend/src/services/rulesAnalysisService.ts:29-57 | the risks are one per flagged check in the order discount, margin, credit; their count is the number of flagged checks |
| RulesAnalysisService.RiskLevelCharacterisation | backend/src/services/rulesAnalysisService.ts:59-64 | BAJO iff APROBAR; ALTO iff RECHAZAR or three risks; MEDIO iff AJUSTAR with fewer than three |
| RulesAnalysisService.ReasonCharacterisation | backend/src/services/rulesAnalysisService.ts:27-104 | APROBAR gives the compliance reason, AJUSTAR always the minor-adjustments default, RECHAZAR the first failing check's reason |
| RulesAnalysisService.JustificationPolarity | backend/src/services/rulesAnalysisService.ts:66-104 | four lines (discount, margin, credit, closing); ✗ only on rejection; approval all ✓; adjustment shows each check's level; rejection shows ✗ on failing discount/credit checks and ✓ otherwise, the margin line at its own level, so a discount warning shows ✓ although it is listed as a risk; the closing note is the category's payment history on approval, the negotiation note on adjustment, the substantial-changes note on rejection |
| CombinedAnalysisService.KeyInjective | backend/src/services/combinedAnalysisService.ts:18 | distinct decision pairs give distinct `${rules}-${ai}` keys |
| CombinedAnalysisService.KeyLiterals | backend/src/services/combinedAnalysisService.ts:6-18 | the nine matrix keys are exactly the keys of the nine decision pairs |
| CombinedAnalysisService.MatrixCells | backend/src/services/combinedAnalysisService.ts:6-16 | the matrix entry of every pair, as listed |
| CombinedAnalysisService.MatrixTotal | backend/src/services/combinedAnalysisService.ts:6-19 | every pair has an entry, so the (AJUSTAR, 50) default is never used |
| CombinedAnalysisService.MatrixEntry | backend/src/services/combinedAnalysisService.ts:6-16 | the nine `"RULES-AI"` keys and their (decision, confidence) cells; any other key has no entry |
| CombinedAnalysisService.Lookup | backend/src/services/combinedAnalysisService.ts:6-19 | APROBAR only when both approve; RECHAZAR iff neither approves and one rejects; equal inputs kept; severity between the inputs; base confidence in [60, 95] |
| CombinedAnalysisService.DecisionExplanation | backend/src/services/combinedAnalysisService.ts:58-76 | the agreement sentence iff rules, opinion and final decision are equal; otherwise the sentence of the final decision |
| CombinedAnalysisService.AgreementIffSameInputs | backend/src/services/combinedAnalysisService.ts:58-65 | through the matrix, agreement is reported exactly when rules and opinion agree |
| CombinedAnalysisService.ApprovalDespiteDifferencesUnreachable | backend/src/services/combinedAnalysisService.ts:71-73 | through the matrix, the "approve despite differences" sentence is never chosen |
| CombinedAnalysisService.BuildCombinedReasoning | backend/src/services/combinedAnalysisService.ts:32-56 | the reasoning carries both decisions, the final one, the rule figures (average margin and discount, risk count, principal reason), the opinion's confidence and recommendation, and the explanation sentence `DecisionExplanation` picks for the three decisions |
| CombinedAnalysisService.GenerateActionItems | backend/src/services/combinedAnalysisService.ts:78-121 | the push-by-push list equals the action-item specification |
| CombinedAnalysisService.ActionItemShapes | backend/src/services/combinedAnalysisService.ts:83-118 | APROBAR: 3 fixed items plus "monitor" iff risks; AJUSTAR: negotiate, reduce iff excess > 0, review iff average < first margin, apply suggestions; RECHAZAR: 4 fixed items; the AI-strategy item last iff suggestions are non-empty |
| CombinedAnalysisService.MonitorNeedsRiskyApproval | backend/src/services/combinedAnalysisService.ts:87-93 | if the rules approve only risk-free orders, the combined items never include "monitor closely" |
| CombinedAnalysisService.PriceReviewNeedsLowAverage | backend/src/services/combinedAnalysisService.ts:96-105 | if the average margin is not below the first item's, the combined items never include the price review |
| CombinedAnalysisService.HasSuggestions | backend/src/services/combinedAnalysisService.ts:116 | `length > 0`: a non-empty array or string |
| CombinedAnalysisService.MarginReviewNeeded | backend/src/services/combinedAnalysisService.ts:101 | the list has a first item and the average margin is below that item's margin; false on an empty list |
| CombinedAnalysisService.StringConversionThrows | backend/src/services/combinedAnalysisService.ts:49 | template interpolation throws on an object with its own `toString` key and on an array holding such a value at any depth; `null` elements are skipped |
| CombinedAnalysisService.StringConversionCases | backend/src/services/combinedAnalysisService.ts:49 | a `toString`-keyed object throws, alone or nested in arrays; an object nesting one under another key, and arrays of plain values, do not |
| CombinedAnalysisService.CombinationThrows | backend/src/services/combinedAnalysisService.ts:24-29 | `combineAnalysis` throws exactly when the recommendation's conversion throws or the suggestions are `null` |
| CombinedAnalysisService.CombineAnalysis | backend/src/services/combinedAnalysisService.ts:4-30 | defined on every opinion it does not throw on; matrix decision; confidence is one of base and opinion confidence, ≤ both, in [0, 100] when the opinion's is; the reasoning is `BuildCombinedReasoning` for the final decision, reports agreement iff the two inputs agree, and never uses the approval-despite-differences sentence; action items per the specification |
| AIAnalysisService.FirstMissing | backend/src/services/aiAnalysisService.ts:109-113 | none missing iff every listed key is present; a reported key is listed and absent |
| AIAnalysisService.FirstMissingFrom | backend/src/services/aiAnalysisService.ts:109-113 | once the first i keys are present, the first missing key is the first missing among the rest |
| AIAnalysisService.AsAnalysis | backend/src/services/aiAnalysisService.ts:40-45 | a validated reply read as an opinion writes back to the same reply: nothing is altered |
| AIAnalysisService.DecisionFromJson | backend/src/services/aiAnalysisService.ts:115-117 | a decision only for the strings `APROBAR`, `AJUSTAR`, `RECHAZAR` |
| AIAnalysisService.ConfidenceValid | backend/src/services/aiAnalysisService.ts:119-121 | the confidence is a number in [0, 100] |
| AIAnalysisService.Validate | backend/src/services/aiAnalysisService.ts:99-122 | accepted iff all six keys are present, the decision is a known spelling and the confidence is a number in [0, 100]; an accepted reply is returned unchanged; a reported missing key is absent |
| AIAnalysisService.ValidateAIResponse | backend/src/services/aiAnalysisService.ts:99-122 | the loop with early exits followed by the two value checks computes exactly `Validate` |
| AIAnalysisService.RejectedReplies | backend/src/services/aiAnalysisService.ts:109-121 | a missing key, an unknown decision or an out-of-range or non-number confidence each reject; 0, 100 and 42.5 pass the confidence check |
| AIAnalysisService.FallbackAnalysis | backend/src/services/aiAnalysisService.ts:124-141 | the rule decision at confidence 50, with three insights and three suggestions |
| AIAnalysisService.AnalyzeOrder | backend/src/services/aiAnalysisService.ts:6-52 | never fails; an accepted reply is returned as is, anything else yields the fallback; confidence always in [0, 100] |
| AIAnalysisService.FailuresFallBack | backend/src/services/aiAnalysisService.ts:35-51 | a thrown call, empty content, unparsable content or a rejected reply each give the rule decision at confidence 50 |
| MockData.FindClient | backend/src/data/mockData.ts:3-31 | a policy exactly for the three keys; it carries its key as id, a positive credit limit and a non-negative discount cap |
| AnalysisController.FullDiscountPassesFilter | backend/src/controllers/analysisController.ts:41-47 | a 100% discount passes the filter as written, although it leaves a discounted price of 0 to divide by |
| AnalysisController.CorrectedFilterDiffersOnlyAtFullDiscount | backend/src/controllers/analysisController.ts:41-47 | the corrected filter refuses what the written one refuses plus a discount of exactly 100 |
| AnalysisController.ValidItemEvaluable | backend/src/controllers/analysisController.ts:41-47 | an item passing the corrected filter has a defined margin, at most 40 |
| AnalysisController.Incomplete | backend/src/controllers/analysisController.ts:24 | the request lacks a client id (absent or empty), lacks items, or has an empty item list |
| AnalysisController.ItemInvalidAsWritten | backend/src/controllers/analysisController.ts:41-47 | an item is invalid when its product is empty, its quantity or price is ≤ 0, or its discount is < 0 or > 100 |
| AnalysisController.OrderData | backend/src/controllers/analysisController.ts:60-69 | the opinion source is told the client, items and conditions and exactly the rules analysis's total, averages, decision and risks |
| AnalysisController.RunPipeline | backend/src/controllers/analysisController.ts:56-86 | rules, then the opinion on them, then their combination; 500 exactly when the combiner throws (`CombinationThrows`: the recommendation cannot be converted to a string, or the suggestions are `null`); final confidence in [0, 100] |
| AnalysisController.AnalyzeOrderWithAI | backend/src/controllers/analysisController.ts:19-95 | 400 if incomplete, else 404 if unknown, else 400 if any item fails the filter as written (`descuento > 100`); the pipeline runs exactly for accepted requests |
| AnalysisController.AnalyzeOrderWithAICorrected | backend/src/controllers/analysisController.ts:19-95 | the same handler with the corrected filter (`descuento >= 100` refused): defined on every request, and every accepted order can be evaluated |
| AnalysisController.CorrectedHandlerDiffersOnlyAtFullDiscount | backend/src/controllers/analysisController.ts:41-47 | the corrected handler answers as the written one except on accepted requests with a 100% discount item, which it refuses with 400 |
| AnalysisController.AnalyzeOrderRulesOnly | backend/src/controllers/analysisController.ts:98-131 | the same 400 and 404 guards, then the rules analysis with no item validation |
| AnalysisController.GuardsPrecedeOpinion | backend/src/controllers/analysisController.ts:23-54 | a refused request is refused with a 400 or 404 whatever the opinion source would answer |
| AnalysisController.FallbackPipeline | backend/src/controllers/analysisController.ts:71-75 | with an unusable opinion source the final decision is the rule decision at confidence 50, and the AI-strategy item comes last |
| AnalysisController.MonitorItemUnreachable | backend/src/controllers/analysisController.ts:57-75 | the "monitor closely" action item is never emitted: approval needs rule approval, which needs no risks |
| AnalysisController.SingleItemNeverReviewsPrices | backend/src/controllers/analysisController.ts:57-75 | a one-item order never gets the price-review item |
| AnalysisController.SingleItemAverageIsFirst | backend/src/services/rulesAnalysisService.ts:12-17 | for a one-item order the average margin is that item's margin, so the price-review condition is false |
| AnalysisController.RulesOnlySkipsItemValidation | backend/src/controllers/analysisController.ts:100-117 | a negative-quantity order is analysed by the rules-only endpoint and refused by the full one |
| Scenarios.PremiumOrderApproved | backend/src/services/rulesAnalysisService.ts:5-117 | premium client, 10 × 125,000 at 10%: total 1,125,000, cost 75,000, margin ≈ 33.3, approved, low risk, no risks |
| Scenarios.PremiumOrderOverDiscountRejected | backend/src/services/rulesAnalysisService.ts:27-36 | the same at 35%: excess 15, excessive-discount risk, rejected at high risk for the discount |
| Scenarios.NewClientOverCreditRejected | backend/src/services/rulesAnalysisService.ts:48-57 | new client, total 11,500,000 against 10,000,000: credit risk, rejected for credit |
| Scenarios.ApprovalMeetsAdjustment | backend/src/services/combinedAnalysisService.ts:8-22 | rules approve, opinion adjusts at 60: matrix (AJUSTAR, 80), final confidence 60 |
| Scenarios.RejectionWithFailedOpinion | backend/src/services/aiAnalysisService.ts:47-51 | rules reject and the call fails: fallback (RECHAZAR, 50), combined to RECHAZAR at 50 |
| IndexPage.ApplyUpdate | frontend/src/pages/Index.tsx:93-103 | the edited field takes the value, the other fields are kept, the subtotal is recomputed as quantity × price × (1 − discount/100) unless the subtotal itself is set |
| IndexPage.Updated | frontend/src/pages/Index.tsx:90-107 | same length; lines with the id edited, all other lines untouched, in place |
| IndexPage.Without | frontend/src/pages/Index.tsx:86-88 | the survivors are exactly the lines without the id; a list with no such line is returned as is |
| IndexPage.WithoutDistributes | frontend/src/pages/Index.tsx:87 | removal keeps the survivors' order: filtering a concatenation filters each part |
| IndexPage.RemovalSplitsTotal | frontend/src/pages/Index.tsx:86-109 | the total before removal is the total after it plus the removed lines' subtotals |
| IndexPage.EditElsewhereKeepsTotal | frontend/src/pages/Index.tsx:90-109 | an edit addressed to an id no line carries changes neither the list nor the total |
| IndexPage.NewItem | frontend/src/pages/Index.tsx:74-84 | the new line has the given id, an empty name, quantity 1, zero price, discount and subtotal, and its subtotal is consistent |
| IndexPage.ItemIncomplete | frontend/src/pages/Index.tsx:120 | a line without a product name or with a price ≤ 0 |
| IndexPage.Guard | frontend/src/pages/Index.tsx:111-123 | refused iff no client, no items, or an item without a name or with price ≤ 0, reported in that order |
| IndexPage.BackendValidPassesPageGuard | frontend/src/pages/Index.tsx:120 | every item the backend accepts also passes the page's item check |
| IndexPage.PageGuardWeakerThanBackend | frontend/src/pages/Index.tsx:120 | the page lets through a zero quantity and a 150% discount, which the backend refuses |
| IndexPage.InlineEvaluator | frontend/src/pages/Index.tsx:128-242 | the page's evaluator, with the discount excess unclamped in the checks and clamped only in the result, computes exactly the backend `Evaluate` |
| IndexPage.OrderForm.constructor | frontend/src/pages/Index.tsx:68-69 | no client selected and no items |
| IndexPage.OrderForm.TotalPedido | frontend/src/pages/Index.tsx:109 | the page's running total: the sum of the lines' subtotals, as the backend computes it |
| IndexPage.OrderForm.SelectClient | frontend/src/pages/Index.tsx:324-332 | the selection becomes one of the three offered keys; the items are untouched |
| IndexPage.OrderForm.AddItem | frontend/src/pages/Index.tsx:74-84 | exactly one blank line appended; total unchanged |
| IndexPage.OrderForm.RemoveItem | frontend/src/pages/Index.tsx:86-88 | the list becomes `Without(id)`; the total drops by exactly the removed subtotals |
| IndexPage.OrderForm.UpdateItem | frontend/src/pages/Index.tsx:90-107 | the list becomes `Updated(id, edit)`; the selection is untouched |
| IndexPage.OrderForm.ResetForm | frontend/src/pages/Index.tsx:250-255 | back to no client and no items |
| IndexPage.OrderForm.AnalyzeOrder | frontend/src/pages/Index.tsx:111-247 | refused exactly by the guards, with their reason; otherwise the selected policy and the backend evaluator's result for it |

## Left out

- The chat-completion call, its prompt and the OpenAI client configuration (backend/src/services/aiAnalysisService.ts:17-33 and 54-97, backend/src/config/openai.ts). They are foreign network code. The call's outcome is a parameter of type `OrderContext -> Reply`. The configured timeout and retry count never reach the client, so there is no retry behaviour to model.
- Parsing: `Unparsable` stands for any content that `JSON.parse` rejects, and also for a parsed value that is not an object. The `in` operator throws on such a value, so it too falls back.
- AIAnalysisService.Validate: a `NaN` confidence passes the source's check. NaN is a number, and neither comparison rejects it. `real` has no NaN.
- RulesAnalysisService.Evaluate: requires a positive credit limit and, for every item, a non-zero price and a discount other than 100. In JS the margin would otherwise be `Infinity` or `NaN`, and the average would follow. Rounding, NaN and Infinity are not modelled.
- AnalysisController.AnalyzeOrderWithAI: requires that an accepted request has no item at exactly 100% discount (`NoAcceptedFullDiscount`). The filter as written lets such an item through, and the source then divides by a zero discounted price: the margin is `-Infinity`, the margin check rejects, and the endpoint answers 200. Infinity is not modelled. `AnalyzeOrderWithAICorrected` is the handler with the corrected filter, and `CorrectedHandlerDiffersOnlyAtFullDiscount` relates the two.
- AnalysisController.AnalyzeOrderRulesOnly: requires every item's margin to be defined when the request is complete and the client is catalogued, for the reason above. This endpoint does not validate items. Incomplete requests and unknown clients carry no requirement.
- IndexPage.OrderForm.AnalyzeOrder: requires no item discount of exactly 100 when the page's guards let the order through, for the same reason. The page's guard does not check discounts. Refused orders carry no requirement.
- AnalysisController.RunPipeline: the 500 path models the combiner's two throws, the string conversion of `finalRecommendation` and `negotiationSuggestions.length` on `null`. Request bodies whose items are not item records (a `null` entry, say) are outside the typed model.
- CombinedAnalysisService.HasSuggestions: a suggestions value that is an object counts as empty whatever its keys. In JavaScript an object whose own `length` property compares as greater than 0 (a positive number, a numeric string such as `"3"`, or `true`) would count as having suggestions.
- The response `timestamp`, `console.error` logging and the development-only error message (backend/src/controllers/analysisController.ts:83, 89-93). They are clock and environment reads.
- `MOCK_CLIENTS[clienteId]` on inherited property names such as `toString` is outside the model. The catalogue answers only for its three keys.
- `formatCurrency`, `toFixed` and all message wording (backend/src/data/mockData.ts:44-51). The model uses tags instead.
- The page's own client table (frontend/src/pages/Index.tsx:31-56) holds the same three policies as the backend catalogue, without the `id` field. The page model looks policies up in `MockData.FindClient`.
- Page UI behaviour (frontend/src/pages/Index.tsx:125-127, 244-246, 257-644), none of which bears on the decision:
  - rendering, toasts and the `isAnalyzing` flag;
  - the 2-second `setTimeout`;
  - the free-text conditions box.
  - The stored `analysisResult` is returned by `OrderForm.AnalyzeOrder` instead.
- The page's input conversions `parseInt(...) || 0` and `parseFloat(...) || 0` (frontend/src/pages/Index.tsx:373-393). Edits carry numbers directly.
- `addItem`'s random id is a parameter of `OrderForm.AddItem`.
- Express wiring, routes, the rate limiter, the client and product controllers, `MOCK_PRODUCTS`, the frontend API wrappers and the diagram scripts. They are plumbing and static lists with no decision logic.

## Findings

| source | as written | input that shows it | evidently intended | confidence | as-written member | corrected member |
|---|---|---|---|---|---|---|
| backend/src/controllers/analysisController.ts:46 | the item filter refuses `descuento > 100`, so a discount of exactly 100 is accepted | an item with price 125,000 and discount 100: the discounted price is 0, so the margin divides by zero (backend/src/services/rulesAnalysisService.ts:12-13) | refuse `descuento >= 100`, so every accepted item has a defined margin | not executed; medium (the evaluator's formula cannot give a margin at 100%) | AnalysisController.FullDiscountPassesFilter | AnalysisController.AnalyzeOrderWithAICorrected |
