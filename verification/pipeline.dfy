/** The processor and approver stages composed: what the pipeline as a whole
    guarantees about a consumed message. */
module Pipeline {
  import opened Wrappers
  import opened LoanRecords
  import CreditScore
  import RiskCalculation
  import LoanConsumer
  import ApprovalService

  /** The processors' output handed to the approver; `None` when the
      processor produced nothing. */
  function Process(parsed: Option<LoanRequest>, processorType: string,
                   creditScores: map<string, int>): (r: Option<ApprovalResult>)
    ensures r.Some? <==> parsed.Some? && parsed.value.loanType.Some?
    ensures r.Some? ==>
      && r.value.requestId == parsed.value.requestId
      && r.value.customerId == parsed.value.customerId
      && r.value.finalLoanValue == parsed.value.loanRequestedValue * 1.40
  {
    match LoanConsumer.ConsumeLoanRequest(parsed, processorType, creditScores)
    case Forwarded(p) => Some(ApprovalService.ProcessApproval(p))
    case Dropped(_) => None
  }

  /** A customer the credit table does not know (or a null id) is never
      approved: its risk is at most 84 and its multiplier 0.65. */
  lemma UnknownCustomerNeverApproved(parsed: Option<LoanRequest>, processorType: string,
                                     creditScores: map<string, int>)
    requires parsed.Some? && parsed.value.loanType.Some?
    requires parsed.value.customerId.None? || parsed.value.customerId.value !in creditScores
    ensures Process(parsed, processorType, creditScores).value.approvalStatus != "approved"
    ensures Process(parsed, processorType, creditScores).value.finalLoanRisk <= 54.6
  {
    var p := LoanConsumer.ConsumeLoanRequest(parsed, processorType, creditScores).processed;
    assert p.creditScore == -70;
    ApprovalService.UnknownCustomerCapped(p.calculatedRiskScore);
    var verdict := ApprovalService.Decide(ApprovalService.FinalLoanRisk(p.calculatedRiskScore, -70));
    assert verdict.Status() != "approved";
  }

  /** With the seeded table, every final risk lies in [0, 100]. */
  lemma FinalRiskInRange(parsed: Option<LoanRequest>, processorType: string)
    requires parsed.Some? && parsed.value.loanType.Some?
    ensures var r := Process(parsed, processorType, CreditScore.SeededScores).value;
      0.0 <= r.finalLoanRisk <= 100.0
  {
    var p := LoanConsumer.ConsumeLoanRequest(parsed, processorType, CreditScore.SeededScores).processed;
    LoanConsumer.ForwardedCreditInRange(parsed, processorType);
    ApprovalService.FinalRiskNonNegative(p.calculatedRiskScore, p.creditScore);
  }

  /** A request of unknown type, or outside its type's range, scores 0 and is
      denied whatever the customer. */
  lemma UnscorableDenied(parsed: Option<LoanRequest>, processorType: string,
                         creditScores: map<string, int>)
    requires parsed.Some? && parsed.value.loanType.Some?
    requires var b := RiskCalculation.BoundsFor(parsed.value.loanType.value);
      b.None? || !b.value.Contains(parsed.value.loanRequestedValue)
    ensures Process(parsed, processorType, creditScores).value.approvalStatus == "denied"
  {
    var p := LoanConsumer.ConsumeLoanRequest(parsed, processorType, creditScores).processed;
    assert p.calculatedRiskScore == 0.0;
    ApprovalService.ZeroRiskDenied(p.creditScore);
  }

  /** A personal loan of 5000 from an unknown customer: risk 50, final risk
      32.5, denied. */
  lemma PersonalUnknownCustomerScenario(processorType: string)
    ensures var request := LoanRequest(Some("REQ-A"), Some("personal"), 5000.0, None, None,
                                       Some("CUST-999"), Some("P"), Some("T"), None, None);
      var r := Process(Some(request), processorType, CreditScore.SeededScores).value;
      && r.calculatedRiskScore == 50.0 && r.creditScore == -70
      && r.finalLoanRisk == 32.5 && r.approvalStatus == "denied" && r.interestAdjustment == "N/A"
      && r.finalLoanValue == 7000.0
  {
  }

  /** A vehicle loan of 25000 for a catalogued item flagged high risk, from
      CUST-001: risk 71.4, final risk capped at 100, approved. */
  lemma VehicleKnownCustomerScenario(processorType: string)
    ensures var request := LoanRequest(Some("REQ-B"), Some("vehicle"), 25000.0, Some("CAR-001"), None,
                                       Some("CUST-001"), Some("P"), Some("T"), Some("high_risk"), Some(true));
      var r := Process(Some(request), processorType, CreditScore.SeededScores).value;
      && r.calculatedRiskScore == 71.4 && r.creditScore == 750
      && r.finalLoanRisk == 100.0 && r.approvalStatus == "approved"
      && r.interestAdjustment == "standard rate"
  {
    CreditScore.SeededValues();
  }
}
