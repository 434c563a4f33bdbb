/** The records passed between the stages of the loan pipeline.
    Every Java `String`/`Boolean` field may be null and is an `Option`;
    every Java `double` is an exact `real`; every `int` an `int`. */
module LoanRecords {
  import opened Wrappers

  /** A raw loan request as the processors read it from the message bus
      (processors/.../model/LoanRequest.java). */
  datatype LoanRequest = LoanRequest(
    requestId: Option<string>,
    loanType: Option<string>,
    loanRequestedValue: real,
    loanItem: Option<string>,
    loanItemName: Option<string>,
    customerId: Option<string>,
    partnerName: Option<string>,
    timestamp: Option<string>,
    riskLevel: Option<string>,
    itemExists: Option<bool>)

  /** A request enriched by a processor and consumed by the approver
      (loan-approver/.../model/ProcessedLoanRequest.java; the processors
      side uses a record with the same fields). */
  datatype ProcessedLoanRequest = ProcessedLoanRequest(
    requestId: Option<string>,
    loanType: Option<string>,
    loanRequestedValue: real,
    finalLoanValue: real,
    loanItem: Option<string>,
    loanItemName: Option<string>,
    customerId: Option<string>,
    partnerName: Option<string>,
    timestamp: Option<string>,
    riskLevel: Option<string>,
    itemExists: Option<bool>,
    creditScore: int,
    calculatedRiskScore: real,
    processorType: Option<string>)

  /** The terminal record built by the approver
      (loan-approver/.../model/ApprovalResult.java). */
  datatype ApprovalResult = ApprovalResult(
    requestId: Option<string>,
    loanType: Option<string>,
    loanRequestedValue: real,
    finalLoanValue: real,
    customerId: Option<string>,
    partnerName: Option<string>,
    creditScore: int,
    calculatedRiskScore: real,
    finalLoanRisk: real,
    approvalStatus: string,
    interestAdjustment: string,
    processorType: Option<string>,
    timestamp: Option<string>)
}
