/** The risk score a processor computes for a raw loan request
    (processors/.../service/RiskCalculationService.java). */
module RiskCalculation {
  import opened Wrappers
  import opened LoanRecords

  /** The value range of one loan type, with the two thresholds the
      source also assigns (and never reads again). */
  datatype Bounds = Bounds(minValue: real, maxValue: real,
                           lowRiskThreshold: real, highRiskThreshold: real)
  {
    predicate WellFormed() { 0.0 < minValue < maxValue }

    predicate Contains(v: real) { minValue <= v <= maxValue }
  }

  /** The per-type table of the `switch`; `None` is its `default` branch. */
  function BoundsFor(loanType: string): (b: Option<Bounds>)
    ensures b.Some? <==> loanType in {"personal", "real_state", "vehicle"}
    ensures b.Some? ==> b.value.WellFormed() && b.value.highRiskThreshold == b.value.maxValue
  {
    if loanType == "personal" then Some(Bounds(100.0, 10000.0, 7000.0, 10000.0))
    else if loanType == "real_state" then Some(Bounds(300000.0, 3000000.0, 2000000.0, 3000000.0))
    else if loanType == "vehicle" then Some(Bounds(20000.0, 200000.0, 150000.0, 200000.0))
    else None
  }

  /** Where a value lies in its range: 0 at the minimum, 1 at the maximum. */
  function Position(b: Bounds, v: real): (p: real)
    requires b.WellFormed() && b.Contains(v)
    ensures 0.0 <= p <= 1.0
    ensures v == b.minValue ==> p == 0.0
    ensures v == b.maxValue ==> p == 1.0
  {
    (v - b.minValue) / (b.maxValue - b.minValue)
  }

  /** The three tiers of the initial score. */
  function InitialScore(p: real): real
  {
    if p <= 0.30 then 70.0 else if p <= 0.60 then 50.0 else 20.0
  }

  /** The item adjustment, applied to real-estate and vehicle loans only. */
  function ItemAdjusted(loanType: string, itemExists: Option<bool>, score: real): real
  {
    if loanType == "real_state" || loanType == "vehicle" then
      match itemExists
      case Some(true) => score * 1.20
      case Some(false) => score * 0.65
      case None => score
    else score
  }

  /** The high-risk flag adjustment; a null flag never equals "high_risk". */
  function FlagAdjusted(riskLevel: Option<string>, score: real): real
  {
    if riskLevel == Some("high_risk") then score * 0.85 else score
  }

  /** `Math.max(0, Math.min(100, s))`. */
  function Clamp(s: real): (c: real)
    ensures 0.0 <= c <= 100.0
    ensures 0.0 <= s <= 100.0 ==> c == s
    ensures s > 100.0 ==> c == 100.0
    ensures s < 0.0 ==> c == 0.0
  {
    if s > 100.0 then 100.0 else if s < 0.0 then 0.0 else s
  }

  /** The score of an in-range value before the final clamp. */
  function Unclamped(loanType: string, b: Bounds, request: LoanRequest): real
    requires b.WellFormed() && b.Contains(request.loanRequestedValue)
  {
    FlagAdjusted(request.riskLevel,
      ItemAdjusted(loanType, request.itemExists,
        InitialScore(Position(b, request.loanRequestedValue))))
  }

  /** The unclamped score is positive and at most 70 * 1.20 = 84, so the
      clamp of RiskCalculationService.java:87 never changes it. */
  lemma UnclampedBounds(loanType: string, b: Bounds, request: LoanRequest)
    requires b.WellFormed() && b.Contains(request.loanRequestedValue)
    ensures 0.0 < Unclamped(loanType, b, request) <= 84.0
    ensures Clamp(Unclamped(loanType, b, request)) == Unclamped(loanType, b, request)
  {
    var s0 := InitialScore(Position(b, request.loanRequestedValue));
    assert s0 == 70.0 || s0 == 50.0 || s0 == 20.0;
    var s1 := ItemAdjusted(loanType, request.itemExists, s0);
    assert 0.0 < s1 <= 84.0;
  }

  /** `calculateRiskScore`: `None` stands for the NullPointerException that
      `switch` on a null loan type throws; `processorType` is never read. */
  function CalculateRiskScore(request: LoanRequest, processorType: Option<string>): (r: Option<real>)
    ensures r.None? <==> request.loanType.None?
    ensures r.Some? ==> 0.0 <= r.value <= 84.0
    ensures r.Some? ==>
      (r.value == 0.0 <==>
        (BoundsFor(request.loanType.value).None?
         || !BoundsFor(request.loanType.value).value.Contains(request.loanRequestedValue)))
  {
    match request.loanType
    case None => None
    case Some(loanType) =>
      match BoundsFor(loanType)
      case None => Some(0.0)
      case Some(b) =>
        if request.loanRequestedValue < b.minValue || request.loanRequestedValue > b.maxValue then
          Some(0.0)
        else
          UnclampedBounds(loanType, b, request);
          Some(Clamp(Unclamped(loanType, b, request)))
  }

  /** The scored range of each known type, endpoints included: the score is
      positive exactly inside [min, max] and 0 outside it. */
  lemma ScoredRanges(request: LoanRequest, processorType: Option<string>)
    requires request.loanType.Some?
    ensures var r := CalculateRiskScore(request, processorType).value;
      var v := request.loanRequestedValue;
      && (request.loanType.value == "personal" ==> (r > 0.0 <==> 100.0 <= v <= 10000.0))
      && (request.loanType.value == "real_state" ==> (r > 0.0 <==> 300000.0 <= v <= 3000000.0))
      && (request.loanType.value == "vehicle" ==> (r > 0.0 <==> 20000.0 <= v <= 200000.0))
      && (request.loanType.value !in {"personal", "real_state", "vehicle"} ==> r == 0.0)
  {
  }

  /** The tiers depend on the position only: two bounds with the same range
      and different thresholds give the same score. */
  lemma ThresholdsIgnored(loanType: string, b1: Bounds, b2: Bounds, request: LoanRequest)
    requires b1.WellFormed() && b1.Contains(request.loanRequestedValue)
    requires b2.minValue == b1.minValue && b2.maxValue == b1.maxValue
    ensures Unclamped(loanType, b1, request) == Unclamped(loanType, b2, request)
  {
  }

  /** The `processorType` argument never influences the score. */
  lemma ProcessorTypeIgnored(request: LoanRequest, p1: Option<string>, p2: Option<string>)
    ensures CalculateRiskScore(request, p1) == CalculateRiskScore(request, p2)
  {
  }

  /** Tier scores never rise as the position rises. */
  lemma InitialScoreAntitone(p1: real, p2: real)
    requires p1 <= p2
    ensures InitialScore(p2) <= InitialScore(p1)
  {
  }

  /** Within one type, a larger requested value never scores higher. */
  lemma LargerValueNeverRiskier(request: LoanRequest, v: real, processorType: Option<string>)
    requires request.loanType.Some?
    requires request.loanRequestedValue <= v
    requires BoundsFor(request.loanType.value).Some?
    requires BoundsFor(request.loanType.value).value.Contains(request.loanRequestedValue)
    requires BoundsFor(request.loanType.value).value.Contains(v)
    ensures CalculateRiskScore(request.(loanRequestedValue := v), processorType).value
            <= CalculateRiskScore(request, processorType).value
  {
    var t := request.loanType.value;
    var b := BoundsFor(t).value;
    var larger := request.(loanRequestedValue := v);
    var p1, p2 := Position(b, request.loanRequestedValue), Position(b, v);
    assert p1 <= p2 by {
      DivideMonotone(request.loanRequestedValue - b.minValue, v - b.minValue, b.maxValue - b.minValue);
    }
    InitialScoreAntitone(p1, p2);
    var s1, s2 := InitialScore(p1), InitialScore(p2);
    assert ItemAdjusted(t, request.itemExists, s2) <= ItemAdjusted(t, request.itemExists, s1);
    UnclampedBounds(t, b, request);
    UnclampedBounds(t, b, larger);
  }

  lemma DivideMonotone(x: real, y: real, d: real)
    requires x <= y && 0.0 < d
    ensures x / d <= y / d
  {
    assert y / d - x / d == (y - x) / d;
  }

  /** For real-estate and vehicle loans an existing item multiplies the
      score by 1.20, a missing one by 0.65, and an absent flag leaves it. */
  lemma ItemExistsEffect(request: LoanRequest, processorType: Option<string>)
    requires request.loanType == Some("real_state") || request.loanType == Some("vehicle")
    ensures var base := CalculateRiskScore(request.(itemExists := None), processorType).value;
      && CalculateRiskScore(request.(itemExists := Some(true)), processorType).value == base * 1.20
      && CalculateRiskScore(request.(itemExists := Some(false)), processorType).value == base * 0.65
  {
    var t := request.loanType.value;
    var b := BoundsFor(t).value;
    if b.Contains(request.loanRequestedValue) {
      UnclampedBounds(t, b, request.(itemExists := None));
      UnclampedBounds(t, b, request.(itemExists := Some(true)));
      UnclampedBounds(t, b, request.(itemExists := Some(false)));
    }
  }

  /** For personal loans (and unknown types) the item flag never matters. */
  lemma ItemExistsIgnoredOutsideItemTypes(request: LoanRequest, flag: Option<bool>, processorType: Option<string>)
    requires request.loanType.Some?
    requires request.loanType.value != "real_state" && request.loanType.value != "vehicle"
    ensures CalculateRiskScore(request.(itemExists := flag), processorType)
            == CalculateRiskScore(request, processorType)
  {
  }

  /** The "high_risk" flag multiplies the score by 0.85 for every type; any
      other flag, null included, leaves it unchanged. */
  lemma HighRiskFlagEffect(request: LoanRequest, other: Option<string>, processorType: Option<string>)
    requires request.loanType.Some?
    requires other != Some("high_risk")
    ensures var base := CalculateRiskScore(request.(riskLevel := None), processorType).value;
      && CalculateRiskScore(request.(riskLevel := Some("high_risk")), processorType).value == base * 0.85
      && CalculateRiskScore(request.(riskLevel := other), processorType).value == base
  {
    var t := request.loanType.value;
    if BoundsFor(t).Some? && BoundsFor(t).value.Contains(request.loanRequestedValue) {
      var b := BoundsFor(t).value;
      UnclampedBounds(t, b, request.(riskLevel := None));
      UnclampedBounds(t, b, request.(riskLevel := Some("high_risk")));
      UnclampedBounds(t, b, request.(riskLevel := other));
    }
  }

  /** The three tiers of RiskCalculationService.java:55-62, with both boundaries inclusive: on an
      in-range value with no item flag and no high-risk flag the score is 70
      up to 30% of the range, 50 up to 60%, and 20 above. */
  lemma TierScores(request: LoanRequest, processorType: Option<string>)
    requires request.loanType.Some? && BoundsFor(request.loanType.value).Some?
    requires BoundsFor(request.loanType.value).value.Contains(request.loanRequestedValue)
    requires request.itemExists.None? && request.riskLevel != Some("high_risk")
    ensures var b := BoundsFor(request.loanType.value).value;
      var v := request.loanRequestedValue;
      var d := b.maxValue - b.minValue;
      var r := CalculateRiskScore(request, processorType).value;
      && (v - b.minValue <= 0.30 * d ==> r == 70.0)
      && (0.30 * d < v - b.minValue <= 0.60 * d ==> r == 50.0)
      && (0.60 * d < v - b.minValue ==> r == 20.0)
  {
    var t := request.loanType.value;
    var b := BoundsFor(t).value;
    var v, d := request.loanRequestedValue, b.maxValue - b.minValue;
    var p := Position(b, v);
    assert p * d == v - b.minValue;
    UnclampedBounds(t, b, request);
    if v - b.minValue <= 0.30 * d {
      assert p <= 0.30;
    } else if v - b.minValue <= 0.60 * d {
      assert 0.30 < p <= 0.60;
    } else {
      assert 0.60 < p;
    }
  }

  /** The tier boundaries of a personal loan: 3070 sits exactly at 30% of
      [100, 10000] and still scores 70; 6040 sits exactly at 60% and still
      scores 50; one unit above each falls to the next tier. */
  lemma PersonalTierBoundaries(processorType: Option<string>)
    ensures var request := LoanRequest(None, Some("personal"), 3070.0, None, None, None, None, None, None, None);
      && CalculateRiskScore(request, processorType) == Some(70.0)
      && CalculateRiskScore(request.(loanRequestedValue := 3071.0), processorType) == Some(50.0)
      && CalculateRiskScore(request.(loanRequestedValue := 6040.0), processorType) == Some(50.0)
      && CalculateRiskScore(request.(loanRequestedValue := 6041.0), processorType) == Some(20.0)
  {
    var request := LoanRequest(None, Some("personal"), 3070.0, None, None, None, None, None, None, None);
    TierScores(request, processorType);
    TierScores(request.(loanRequestedValue := 3071.0), processorType);
    TierScores(request.(loanRequestedValue := 6040.0), processorType);
    TierScores(request.(loanRequestedValue := 6041.0), processorType);
  }
}
