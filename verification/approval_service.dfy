/** The approver's decision on an enriched request
    (loan-approver/.../service/ApprovalService.java, `processApproval`). */
module ApprovalService {
  import opened LoanRecords

  /** The three outcomes of the decision, with the strings the source writes
      into the result. */
  datatype Verdict = Denied | HighRisk | Approved
  {
    function Status(): string
    {
      match this
      case Denied => "denied"
      case HighRisk => "high_risk"
      case Approved => "approved"
    }

    function Adjustment(): string
    {
      match this
      case Denied => "N/A"
      case HighRisk => "25% more expensive"
      case Approved => "standard rate"
    }

    /** How favourable the verdict is to the customer. */
    function Rank(): nat
    {
      match this
      case Denied => 0
      case HighRisk => 1
      case Approved => 2
    }
  }

  /** `risk * (1 + credit / 200.0)` before the cap. */
  function RawFinalRisk(risk: real, credit: int): real
  {
    risk * (1.0 + credit as real / 200.0)
  }

  /** `Math.min(100, risk * (1 + credit / 200.0))`: capped above, never below. */
  function FinalLoanRisk(risk: real, credit: int): (f: real)
    ensures f <= 100.0
    ensures f <= RawFinalRisk(risk, credit)
    ensures f == 100.0 || f == RawFinalRisk(risk, credit)
  {
    if RawFinalRisk(risk, credit) < 100.0 then RawFinalRisk(risk, credit) else 100.0
  }

  /** The three-way branch on the final risk; both thresholds belong to the
      lower, less favourable band. */
  function Decide(finalLoanRisk: real): (v: Verdict)
    ensures v == Denied <==> finalLoanRisk <= 50.0
    ensures v == HighRisk <==> 50.0 < finalLoanRisk <= 70.0
    ensures v == Approved <==> 70.0 < finalLoanRisk
  {
    if finalLoanRisk <= 50.0 then Denied
    else if finalLoanRisk <= 70.0 then HighRisk
    else Approved
  }

  /** `processApproval` without the notifier call: the result copies ten
      fields of the request and adds the final risk and the verdict. */
  function ProcessApproval(request: ProcessedLoanRequest): (r: ApprovalResult)
    ensures r.requestId == request.requestId && r.loanType == request.loanType
    ensures r.loanRequestedValue == request.loanRequestedValue
    ensures r.finalLoanValue == request.finalLoanValue
    ensures r.customerId == request.customerId && r.partnerName == request.partnerName
    ensures r.creditScore == request.creditScore
    ensures r.calculatedRiskScore == request.calculatedRiskScore
    ensures r.processorType == request.processorType && r.timestamp == request.timestamp
    ensures r.finalLoanRisk == FinalLoanRisk(request.calculatedRiskScore, request.creditScore)
    ensures r.finalLoanRisk <= 100.0
    ensures exists v: Verdict :: r.approvalStatus == v.Status() && r.interestAdjustment == v.Adjustment()
  {
    var finalLoanRisk := FinalLoanRisk(request.calculatedRiskScore, request.creditScore);
    var verdict := Decide(finalLoanRisk);
    ApprovalResult(
      requestId := request.requestId,
      loanType := request.loanType,
      loanRequestedValue := request.loanRequestedValue,
      finalLoanValue := request.finalLoanValue,
      customerId := request.customerId,
      partnerName := request.partnerName,
      creditScore := request.creditScore,
      calculatedRiskScore := request.calculatedRiskScore,
      finalLoanRisk := finalLoanRisk,
      approvalStatus := verdict.Status(),
      interestAdjustment := verdict.Adjustment(),
      processorType := request.processorType,
      timestamp := request.timestamp)
  }

  /** The result's status and adjustment are always one of three pairs, and
      the pair is the one the final risk selects. */
  lemma ResultPairs(request: ProcessedLoanRequest)
    ensures var r := ProcessApproval(request);
      && (r.finalLoanRisk <= 50.0 ==> r.approvalStatus == "denied" && r.interestAdjustment == "N/A")
      && (50.0 < r.finalLoanRisk <= 70.0 ==>
            r.approvalStatus == "high_risk" && r.interestAdjustment == "25% more expensive")
      && (70.0 < r.finalLoanRisk ==>
            r.approvalStatus == "approved" && r.interestAdjustment == "standard rate")
  {
  }

  /** A larger final risk never gives a less favourable verdict. */
  lemma DecisionMonotone(f1: real, f2: real)
    requires f1 <= f2
    ensures Decide(f1).Rank() <= Decide(f2).Rank()
  {
  }

  /** The final risk grows with the calculated risk whenever the credit
      multiplier is not negative (every score of the table, and -70). */
  lemma FinalRiskMonotone(r1: real, r2: real, credit: int)
    requires r1 <= r2 && credit >= -200
    ensures FinalLoanRisk(r1, credit) <= FinalLoanRisk(r2, credit)
  {
    var m := 1.0 + credit as real / 200.0;
    assert m >= 0.0;
    assert r2 * m - r1 * m == (r2 - r1) * m;
    assert (r2 - r1) * m >= 0.0;
  }

  /** A calculated risk of 0 is denied whatever the credit score. */
  lemma ZeroRiskDenied(credit: int)
    ensures FinalLoanRisk(0.0, credit) == 0.0
    ensures Decide(FinalLoanRisk(0.0, credit)) == Denied
  {
  }

  /** A calculated risk of at least 100 with a non-negative credit score is
      capped to exactly 100 and approved. */
  lemma CapAtHundred(risk: real, credit: int)
    requires risk >= 100.0 && credit >= 0
    ensures FinalLoanRisk(risk, credit) == 100.0
    ensures Decide(FinalLoanRisk(risk, credit)) == Approved
  {
    var m := 1.0 + credit as real / 200.0;
    assert m >= 1.0;
    assert risk * m - risk == risk * (m - 1.0);
    assert risk * (m - 1.0) >= 0.0;
  }

  /** There is no lower clamp: a credit score below -200 makes the final
      risk negative. */
  lemma NoLowerClamp()
    ensures FinalLoanRisk(10.0, -400) == -10.0
  {
  }

  /** The final risk is never negative when both inputs are in the ranges
      the processors produce (risk in [0, 100], credit at least -200). */
  lemma FinalRiskNonNegative(risk: real, credit: int)
    requires 0.0 <= risk && credit >= -200
    ensures 0.0 <= FinalLoanRisk(risk, credit) <= 100.0
  {
    var m := 1.0 + credit as real / 200.0;
    assert m >= 0.0;
    assert risk * m >= 0.0;
  }

  /** With the unknown-customer score of -70 the multiplier is 0.65, so a
      calculated risk of at most 84 ends at most at 54.6: never approved. */
  lemma UnknownCustomerCapped(risk: real)
    requires 0.0 <= risk <= 84.0
    ensures RawFinalRisk(risk, -70) == risk * 0.65
    ensures FinalLoanRisk(risk, -70) <= 54.6
    ensures Decide(FinalLoanRisk(risk, -70)) != Approved
  {
  }
}
