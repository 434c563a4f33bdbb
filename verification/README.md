# Loan decision pipeline — a Dafny model

This project models the rule-based core of a loan-application pipeline. Four of its
five services are modelled; the fifth, the notifier, which only logs the final result,
is not:

- the **loan checker** validates required fields at the front door;
- the **loan router** flags the request's risk from a fixed item catalogue and picks a topic;
- a **processor** looks up the customer's credit score, computes a 0–100 risk score and
  inflates the requested value by 40%;
- the **approver** combines risk and credit into a final risk and a verdict
  (`denied`, `high_risk`, `approved`).

The router, risk scorer, enrichment and decision are total functions over immutable
records. The parts of the source that update state step by step are methods:

- the credit-score service is a class whose constructor fills its table;
- `validateRequest` is a method with a loop that pushes onto a list;
- the `/check` handler is a method that calls it.

Money, risk scores and final risks are exact `real`s. Credit scores are `int`s, as in
the source. Nullable strings are `Option<string>`.

Modules, one per source file plus two shared ones:

| file | module | source |
|---|---|---|
| `wrappers.dfy` | `Wrappers` | the `Option` type |
| `loan_records.dfy` | `LoanRecords` | `LoanRequest`, `ProcessedLoanRequest`, `ApprovalResult` |
| `credit_score.dfy` | `CreditScore` | `CreditScoreService.java` |
| `risk_calculation.dfy` | `RiskCalculation` | `RiskCalculationService.java` |
| `loan_consumer.dfy` | `LoanConsumer` | `LoanConsumer.java` |
| `approval_service.dfy` | `ApprovalService` | `ApprovalService.java` |
| `loan_router.dfy` | `LoanRouter` | `loan-router/Program.cs` |
| `loan_checker.dfy` | `LoanChecker` | `loan-checker/server.js` |
| `pipeline.dfy` | `Pipeline` | processor and approver composed |

Three facts about the code shape what the model promises:

- A null loan type makes `switch (loanType)` throw a NullPointerException
  (RiskCalculationService.java:20). The listener catches only JsonProcessingException
  (LoanConsumer.java:86), so for such a request nothing is built or sent. The model
  returns `None` from `CalculateRiskScore` and `Dropped(NullLoanType)` from
  `ConsumeLoanRequest`.
- The final loan risk is capped only from above (ApprovalService.java:35).
  `ApprovalService.NoLowerClamp` exhibits a negative value.
  `ApprovalService.FinalRiskNonNegative` shows the value is non-negative for every input
  the processors can produce.
- The calculated risk score never exceeds 84 (70 × 1.20), so the clamp of
  RiskCalculationService.java:87 never acts.

## Model

| member | source | states |
|---|---|---|
| `CreditScore.ScoreOf` | processors/src/main/java/com/dynatrace/bizevents/processors/service/CreditScoreService.java:28-30 | a known id answers its table entry; an unknown or null id answers -70 |
| `CreditScore.CreditScoreService.constructor` | processors/src/main/java/com/dynatrace/bizevents/processors/service/CreditScoreService.java:13-26 | after the ten puts the table, written nowhere else, is exactly the seeded map |
| `CreditScore.CreditScoreService.GetCreditScore` | processors/src/main/java/com/dynatrace/bizevents/processors/service/CreditScoreService.java:28-30 | the lookup modifies nothing, answers `getOrDefault(id, -70)`, and always answers -70 or a score in [590, 800] |
| `CreditScore.SeededScoresInRange` | processors/src/main/java/com/dynatrace/bizevents/processors/service/CreditScoreService.java:16-30 | every lookup in the seeded table is -70 or in [590, 800]; every seeded id is in [590, 800] |
| `CreditScore.SeededValues` | processors/src/main/java/com/dynatrace/bizevents/processors/service/CreditScoreService.java:16-25 | each of the ten seeded ids answers its own score (CUST-001 → 750, …, CUST-006 → 590) |
| `CreditScore.UnknownCustomers` | processors/src/main/java/com/dynatrace/bizevents/processors/service/CreditScoreService.java:29 | any id not seeded, and a null id, answer -70 |
| `RiskCalculation.BoundsFor` | processors/src/main/java/com/dynatrace/bizevents/processors/service/RiskCalculationService.java:20-42 | exactly personal, real_state and vehicle have bounds; each has 0 < min < max and its high threshold equals its max |
| `RiskCalculation.Position` | processors/src/main/java/com/dynatrace/bizevents/processors/service/RiskCalculationService.java:52-53 | an in-range value's position lies in [0, 1]; it is 0 at the minimum and 1 at the maximum |
| `RiskCalculation.Clamp` | processors/src/main/java/com/dynatrace/bizevents/processors/service/RiskCalculationService.java:87 | the result lies in [0, 100]: values above 100 become 100, values below 0 become 0, and values in [0, 100] are unchanged |
| `RiskCalculation.UnclampedBounds` | processors/src/main/java/com/dynatrace/bizevents/processors/service/RiskCalculationService.java:55-87 | after tiering and both multipliers the score lies in (0, 84], so the clamp never changes it |
| `RiskCalculation.CalculateRiskScore` | processors/src/main/java/com/dynatrace/bizevents/processors/service/RiskCalculationService.java:13-92 | fails exactly for a null loan type; otherwise the score lies in [0, 84]; it is 0 exactly when the type is unknown or the value lies outside [min, max] |
| `RiskCalculation.ScoredRanges` | processors/src/main/java/com/dynatrace/bizevents/processors/service/RiskCalculationService.java:20-49 | the score is positive exactly on personal [100, 10000], real_state [300000, 3000000] and vehicle [20000, 200000], endpoints included; any other non-null type scores 0 |
| `RiskCalculation.ThresholdsIgnored` | processors/src/main/java/com/dynatrace/bizevents/processors/service/RiskCalculationService.java:18-62 | two bounds with the same min and max but different thresholds give the same score |
| `RiskCalculation.ProcessorTypeIgnored` | processors/src/main/java/com/dynatrace/bizevents/processors/service/RiskCalculationService.java:13-91 | the processor type never changes the score |
| `RiskCalculation.InitialScoreAntitone` | processors/src/main/java/com/dynatrace/bizevents/processors/service/RiskCalculationService.java:55-62 | a larger position never gives a larger tier score |
| `RiskCalculation.TierScores` | processors/src/main/java/com/dynatrace/bizevents/processors/service/RiskCalculationService.java:51-62 | with no item flag and no high-risk flag, an in-range value scores 70 up to 30% of its range, 50 up to 60%, and 20 above, both boundaries inclusive |
| `RiskCalculation.PersonalTierBoundaries` | processors/src/main/java/com/dynatrace/bizevents/processors/service/RiskCalculationService.java:56-62 | a personal loan of 3070 (exactly 30%) scores 70 and 3071 scores 50; 6040 (exactly 60%) scores 50 and 6041 scores 20 |
| `RiskCalculation.LargerValueNeverRiskier` | processors/src/main/java/com/dynatrace/bizevents/processors/service/RiskCalculationService.java:51-87 | within a type's range, raising the requested value never raises the score |
| `RiskCalculation.ItemExistsEffect` | processors/src/main/java/com/dynatrace/bizevents/processors/service/RiskCalculationService.java:66-78 | for real_state and vehicle: an existing item scores 1.20 times the absent-flag score, a missing item 0.65 times |
| `RiskCalculation.ItemExistsIgnoredOutsideItemTypes` | processors/src/main/java/com/dynatrace/bizevents/processors/service/RiskCalculationService.java:66-78 | for personal and every other type the item flag never changes the score |
| `RiskCalculation.HighRiskFlagEffect` | processors/src/main/java/com/dynatrace/bizevents/processors/service/RiskCalculationService.java:80-84 | a "high_risk" flag scores 0.85 times the unflagged score for every type; any other flag, null included, changes nothing |
| `LoanConsumer.ConsumeLoanRequest` | processors/src/main/java/com/dynatrace/bizevents/processors/kafka/LoanConsumer.java:45-89 | a parse failure or a null loan type builds nothing. Otherwise the record copies the ten request fields and carries the credit lookup of the request's customer, the risk score of the same request (in [0, 84]), value × 1.40 and the configured processor type |
| `LoanConsumer.ForwardedCreditInRange` | processors/src/main/java/com/dynatrace/bizevents/processors/kafka/LoanConsumer.java:55 | with the seeded table the credit score carried forward is -70 or in [590, 800] |
| `ApprovalService.FinalLoanRisk` | loan-approver/src/main/java/com/dynatrace/bizevents/approver/service/ApprovalService.java:29-35 | the final risk is at most 100 and at most risk × (1 + credit/200); it is one of the two |
| `ApprovalService.Decide` | loan-approver/src/main/java/com/dynatrace/bizevents/approver/service/ApprovalService.java:40-53 | denied iff ≤ 50, high_risk iff in (50, 70], approved iff > 70 |
| `ApprovalService.ProcessApproval` | loan-approver/src/main/java/com/dynatrace/bizevents/approver/service/ApprovalService.java:26-79 | the result copies the ten passthrough fields and adds a final risk of at most 100. Its status and adjustment always form one of the three verdict pairs |
| `ApprovalService.ResultPairs` | loan-approver/src/main/java/com/dynatrace/bizevents/approver/service/ApprovalService.java:41-73 | the stored pair is ("denied", "N/A"), ("high_risk", "25% more expensive") or ("approved", "standard rate"), as the final risk selects |
| `ApprovalService.DecisionMonotone` | loan-approver/src/main/java/com/dynatrace/bizevents/approver/service/ApprovalService.java:44-53 | a larger final risk never gives a less favourable verdict |
| `ApprovalService.FinalRiskMonotone` | loan-approver/src/main/java/com/dynatrace/bizevents/approver/service/ApprovalService.java:32-35 | with a credit score of at least -200, a larger calculated risk never gives a smaller final risk |
| `ApprovalService.ZeroRiskDenied` | loan-approver/src/main/java/com/dynatrace/bizevents/approver/service/ApprovalService.java:32-46 | a calculated risk of 0 gives final risk 0 and is denied for every credit score |
| `ApprovalService.CapAtHundred` | loan-approver/src/main/java/com/dynatrace/bizevents/approver/service/ApprovalService.java:32-35 | a risk of at least 100 with a non-negative credit score ends at exactly 100, approved |
| `ApprovalService.NoLowerClamp` | loan-approver/src/main/java/com/dynatrace/bizevents/approver/service/ApprovalService.java:34-35 | risk 10 with credit -400 ends at -10: nothing clamps from below |
| `ApprovalService.FinalRiskNonNegative` | loan-approver/src/main/java/com/dynatrace/bizevents/approver/service/ApprovalService.java:32-35 | a non-negative risk with a credit score of at least -200 ends in [0, 100] |
| `ApprovalService.UnknownCustomerCapped` | loan-approver/src/main/java/com/dynatrace/bizevents/approver/service/ApprovalService.java:32-53 | credit -70 is a 0.65 multiplier, so a risk of at most 84 ends at most at 54.6 and is never approved |
| `LoanRouter.ItemExists` | loan-router/Program.cs:71-74 | an item exists exactly when it is one of the ten catalogued ids |
| `LoanRouter.CatalogueSize` | loan-router/Program.cs:62-66 | the catalogue holds exactly ten distinct ids |
| `LoanRouter.AssessItem` | loan-router/Program.cs:155-168 | the risk level is "high_risk" or "low_risk". It is "high_risk" exactly when a non-empty item outside the catalogue was given; the item flag is true exactly when a non-empty catalogued item was given |
| `LoanRouter.TopicFor` | loan-router/Program.cs:186-192 | the topic is always one of the four topic names |
| `LoanRouter.Topics` | loan-router/Program.cs:186-192 | personal, real_state and vehicle go to their own topics; everything else, null included, goes to loans-unknown |
| `LoanRouter.RouteLoan` | loan-router/Program.cs:148-218 | a null request id becomes "unknown" as the key. The message copies the eight fields and adds the assessed risk level and item flag. A failed send answers 500; a successful one answers success with the key, the topic and the risk level |
| `LoanRouter.ItemCases` | loan-router/Program.cs:156-168 | a null or empty item gives ("low_risk", false); a catalogued item ("low_risk", true); any other item ("high_risk", false) |
| `LoanRouter.HighRiskExcludesItem` | loan-router/Program.cs:156-183 | a routed message never says both that the item exists and that it is high risk |
| `LoanChecker.Or` | loan-checker/server.js:49 | the JavaScript or-default of a and b returns a unchanged when a is truthy and the default b when a is falsy; so it is truthy whenever b is |
| `LoanChecker.MissingAmong` | loan-checker/server.js:31-37 | never lists more fields than it checks |
| `LoanChecker.ValidateRequest` | loan-checker/server.js:30-44 | the loop's list is the in-order filter of the four required fields by falsiness; isValid iff the list is empty; at most four entries |
| `LoanChecker.MissingMembership` | loan-checker/server.js:34-37 | a field is listed exactly when it is checked and its value is falsy |
| `LoanChecker.RequiredFieldsInOrder` | loan-checker/server.js:31-37 | the list is loan_type, loan_requested_value, customer_id, partner_name, in that order, each present only when falsy |
| `LoanChecker.ZeroValueIsMissing` | loan-checker/server.js:35 | an absent, null, false, 0 or "" requested value is reported missing |
| `LoanChecker.HandleCheck` | loan-checker/server.js:47-128 | the request id is the body's id when truthy and 'unknown' otherwise, never falsy; loan type, customer and partner are likewise kept when truthy and 'unknown' otherwise. The event status is "success" exactly when the request is valid. An invalid request records the comma-joined missing list and its error message, answers 400 with the list and is not forwarded. A valid one is forwarded and answers 200 or 500 as the router call ends |
| `Pipeline.Process` | processors/src/main/java/com/dynatrace/bizevents/processors/kafka/LoanConsumer.java:59-84 | a result exists exactly for a parsed request with a non-null type; it keeps the request id and customer and carries value × 1.40 |
| `Pipeline.UnknownCustomerNeverApproved` | loan-approver/src/main/java/com/dynatrace/bizevents/approver/service/ApprovalService.java:44-53 | a customer missing from the credit table, or a null id, ends at a final risk of at most 54.6 and is never approved |
| `Pipeline.FinalRiskInRange` | loan-approver/src/main/java/com/dynatrace/bizevents/approver/service/ApprovalService.java:32-35 | with the seeded table every final risk lies in [0, 100] |
| `Pipeline.UnscorableDenied` | processors/src/main/java/com/dynatrace/bizevents/processors/service/RiskCalculationService.java:39-49 | an unknown type or an out-of-range value is denied whatever the customer |
| `Pipeline.PersonalUnknownCustomerScenario` | loan-approver/src/main/java/com/dynatrace/bizevents/approver/service/ApprovalService.java:26-79 | personal 5000 from an unknown customer: risk 50, credit -70, final 32.5, denied, final value 7000 |
| `Pipeline.VehicleKnownCustomerScenario` | loan-approver/src/main/java/com/dynatrace/bizevents/approver/service/ApprovalService.java:26-79 | vehicle 25000, existing item, high-risk flag, CUST-001: risk 71.4, credit 750, final 100, approved |

## Left out

- Transport: the send to the approver (`sendToApprover`), the send to the notifier
  (`sendToNotifier`), the Kafka producer and the axios forward to the router are not
  modelled. Where a caller branches on a send, the send is a boolean parameter:
  `sent` in `RouteLoan`, `routerAccepted` in `HandleCheck`.
- JSON parsing and serialisation: the processors' parse is an `Option` argument, and the
  checker's body is a map of JSON values. The wire format between router and processors
  is not modelled. The router serialises PascalCase names (`RequestId`, …), while the
  processors read snake_case names (`request_id`, …). With a mapper that skips unknown
  properties, every string and Boolean field of a routed message would read as null and
  the primitive `loanRequestedValue` as 0.0; with one that rejects them, the parse fails.
  In model terms such a message ends as `Dropped(NullLoanType)` or
  `Dropped(MalformedMessage)`.
- IEEE-754 doubles: all arithmetic is exact; rounding at the tier and verdict thresholds is
  not reproduced.
- JavaScript NaN is not modelled as a value: JSON cannot carry it.
- Logging, bizevent emission to Dynatrace, the clock timestamp of the checker's event,
  the router error's message text in the checker's 500 response, health endpoints, and
  dependency-injection wiring.
- The approver's HTTP controller, the notifier and the load generator are not part of
  this model.
- `LoanItemService` is a constant set with a membership function rather than a class:
  its set is never written after construction.
