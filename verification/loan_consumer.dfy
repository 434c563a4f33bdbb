/** The enrichment a processor performs on each message it consumes
    (processors/.../kafka/LoanConsumer.java, `consumeLoanRequest`). */
module LoanConsumer {
  import opened Wrappers
  import opened LoanRecords
  import CreditScore
  import RiskCalculation

  /** The inflation applied to every requested value. */
  const FinalValueFactor: real := 1.40

  /** Why a consumed message produced no processed request: a parse error
      (caught and logged), or a null loan type, whose NullPointerException
      in the risk calculation escapes the listener. */
  datatype DropReason = MalformedMessage | NullLoanType

  datatype ConsumeOutcome = Forwarded(processed: ProcessedLoanRequest) | Dropped(reason: DropReason)

  /** The record every field of which is copied from the raw request. */
  predicate CopiesRequest(p: ProcessedLoanRequest, request: LoanRequest)
  {
    && p.requestId == request.requestId
    && p.loanType == request.loanType
    && p.loanRequestedValue == request.loanRequestedValue
    && p.loanItem == request.loanItem
    && p.loanItemName == request.loanItemName
    && p.customerId == request.customerId
    && p.partnerName == request.partnerName
    && p.timestamp == request.timestamp
    && p.riskLevel == request.riskLevel
    && p.itemExists == request.itemExists
  }

  /** `consumeLoanRequest` after parsing: `parsed` is the outcome of
      `objectMapper.readValue`, `None` when it throws; `creditScores` is the
      credit service's table; the send to the approver is left out. */
  function ConsumeLoanRequest(parsed: Option<LoanRequest>, processorType: string,
                              creditScores: map<string, int>): (out: ConsumeOutcome)
    ensures parsed.None? ==> out == Dropped(MalformedMessage)
    ensures parsed.Some? && parsed.value.loanType.None? ==> out == Dropped(NullLoanType)
    ensures out.Forwarded? <==> parsed.Some? && parsed.value.loanType.Some?
    ensures out.Forwarded? ==>
      var request, p := parsed.value, out.processed;
      && CopiesRequest(p, request)
      && p.finalLoanValue == request.loanRequestedValue * 1.40
      && p.creditScore == CreditScore.ScoreOf(creditScores, request.customerId)
      && Some(p.calculatedRiskScore)
         == RiskCalculation.CalculateRiskScore(request, Some(processorType))
      && 0.0 <= p.calculatedRiskScore <= 84.0
      && p.processorType == Some(processorType)
  {
    match parsed
    case None => Dropped(MalformedMessage)
    case Some(request) =>
      var creditScore := CreditScore.ScoreOf(creditScores, request.customerId);
      match RiskCalculation.CalculateRiskScore(request, Some(processorType))
      case None => Dropped(NullLoanType)
      case Some(riskScore) =>
        var finalLoanValue := request.loanRequestedValue * FinalValueFactor;
        Forwarded(ProcessedLoanRequest(
          requestId := request.requestId,
          loanType := request.loanType,
          loanRequestedValue := request.loanRequestedValue,
          finalLoanValue := finalLoanValue,
          loanItem := request.loanItem,
          loanItemName := request.loanItemName,
          customerId := request.customerId,
          partnerName := request.partnerName,
          timestamp := request.timestamp,
          riskLevel := request.riskLevel,
          itemExists := request.itemExists,
          creditScore := creditScore,
          calculatedRiskScore := riskScore,
          processorType := Some(processorType)))
  }

  /** With the seeded table, the credit score carried forward is either the
      unknown-customer score or a seeded score in [590, 800]. */
  lemma ForwardedCreditInRange(parsed: Option<LoanRequest>, processorType: string)
    requires ConsumeLoanRequest(parsed, processorType, CreditScore.SeededScores).Forwarded?
    ensures var c := ConsumeLoanRequest(parsed, processorType, CreditScore.SeededScores).processed.creditScore;
      c == -70 || 590 <= c <= 800
  {
    CreditScore.SeededScoresInRange(parsed.value.customerId);
  }
}
