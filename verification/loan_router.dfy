/** The router's classification of a checked request (loan-router/Program.cs):
    the item catalogue, the risk flag, the topic and the HTTP response. */
module LoanRouter {
  import opened Wrappers

  /** The router's view of a request: eight nullable fields. */
  datatype RouterRequest = RouterRequest(
    requestId: Option<string>,
    loanType: Option<string>,
    loanRequestedValue: real,
    loanItem: Option<string>,
    loanItemName: Option<string>,
    customerId: Option<string>,
    partnerName: Option<string>,
    timestamp: Option<string>)

  /** The anonymous object serialised onto the topic: the eight original
      fields plus the two derived ones. */
  datatype RoutedMessage = RoutedMessage(
    requestId: Option<string>,
    loanType: Option<string>,
    loanRequestedValue: real,
    loanItem: Option<string>,
    loanItemName: Option<string>,
    customerId: Option<string>,
    partnerName: Option<string>,
    timestamp: Option<string>,
    riskLevel: string,
    itemExists: bool)

  /** The two responses of `RouteLoan`. */
  datatype RouteResponse =
    | RouteOk(requestId: string, topic: string, riskLevel: string)
    | RouteError(message: string)
  {
    function StatusCode(): int
    {
      if RouteOk? then 200 else 500
    }

    function Status(): string
    {
      if RouteOk? then "success" else "error"
    }
  }

  /** Everything one call of `RouteLoan` decides: the message key, the topic,
      the message sent, and the response returned. */
  datatype RouteOutcome = RouteOutcome(key: string, topic: string,
                                       message: RoutedMessage, response: RouteResponse)

  /** The catalogue of `LoanItemService`, in the order it is written. */
  const Catalogue: seq<string> := ["CAR-001", "CAR-002", "CAR-003", "CAR-004", "CAR-005",
    "HOUSE-001", "HOUSE-002", "HOUSE-003", "HOUSE-004", "HOUSE-005"]

  const ValidItems: set<string> := set id | id in Catalogue

  /** `LoanItemService.ItemExists`: membership in the fixed catalogue. */
  function ItemExists(itemId: string): (b: bool)
    ensures b <==> itemId in Catalogue
  {
    itemId in ValidItems
  }

  predicate Distinct(ids: seq<string>)
  {
    forall i, j | 0 <= i < j < |ids| :: ids[i] != ids[j]
  }

  lemma {:induction false} DistinctCardinality(ids: seq<string>)
    requires Distinct(ids)
    ensures |set id | id in ids| == |ids|
  {
    if ids != [] {
      var init := ids[..|ids| - 1];
      DistinctCardinality(init);
      assert (set id | id in ids) == (set id | id in init) + {ids[|ids| - 1]};
      assert ids[|ids| - 1] !in init;
    }
  }

  /** The catalogue holds exactly ten distinct ids, five cars and five houses. */
  lemma CatalogueSize()
    ensures |ValidItems| == 10
  {
    forall i, j | 0 <= i < j < |Catalogue| ensures Catalogue[i] != Catalogue[j] {
      var a, b := Catalogue[i], Catalogue[j];
      assert a[0] != b[0] || a[|a| - 1] != b[|b| - 1];
    }
    DistinctCardinality(Catalogue);
  }

  /** `string.IsNullOrEmpty`. */
  predicate IsNullOrEmpty(s: Option<string>)
  {
    s.None? || s.value == ""
  }

  /** The risk flag and item flag of loan-router/Program.cs:156-168. */
  function AssessItem(loanItem: Option<string>): (assessment: (string, bool))
    ensures assessment.0 == "high_risk" || assessment.0 == "low_risk"
    ensures assessment.1 <==> !IsNullOrEmpty(loanItem) && loanItem.value in ValidItems
    ensures assessment.0 == "high_risk" <==> !IsNullOrEmpty(loanItem) && loanItem.value !in ValidItems
  {
    if IsNullOrEmpty(loanItem) then ("low_risk", false)
    else
      var itemExists := ItemExists(loanItem.value);
      (if itemExists then "low_risk" else "high_risk", itemExists)
  }

  /** The `switch` on the loan type. */
  function TopicFor(loanType: Option<string>): (topic: string)
    ensures topic in {"loans-personal", "loans-real-state", "loans-vehicle", "loans-unknown"}
  {
    if loanType == Some("personal") then "loans-personal"
    else if loanType == Some("real_state") then "loans-real-state"
    else if loanType == Some("vehicle") then "loans-vehicle"
    else "loans-unknown"
  }

  /** `RouteLoan`; `sent` is what the producer's send reported. */
  function RouteLoan(request: RouterRequest, sent: bool): (out: RouteOutcome)
    ensures out.key == (if request.requestId.Some? then request.requestId.value else "unknown")
    ensures out.topic == TopicFor(request.loanType)
    ensures (out.message.riskLevel, out.message.itemExists) == AssessItem(request.loanItem)
    ensures && out.message.requestId == request.requestId
            && out.message.loanType == request.loanType
            && out.message.loanRequestedValue == request.loanRequestedValue
            && out.message.loanItem == request.loanItem
            && out.message.loanItemName == request.loanItemName
            && out.message.customerId == request.customerId
            && out.message.partnerName == request.partnerName
            && out.message.timestamp == request.timestamp
    ensures out.response.StatusCode() == 500 <==> !sent
    ensures sent ==> out.response == RouteOk(out.key, out.topic, out.message.riskLevel)
  {
    var requestId := if request.requestId.Some? then request.requestId.value else "unknown";
    var (riskLevel, itemExists) := AssessItem(request.loanItem);
    var message := RoutedMessage(
      request.requestId, request.loanType, request.loanRequestedValue, request.loanItem,
      request.loanItemName, request.customerId, request.partnerName, request.timestamp,
      riskLevel, itemExists);
    var topic := TopicFor(request.loanType);
    var response := if !sent then RouteError("Failed to send to Kafka")
                    else RouteOk(requestId, topic, riskLevel);
    RouteOutcome(requestId, topic, message, response)
  }

  /** The topic table, case by case. */
  lemma Topics(loanType: Option<string>)
    ensures TopicFor(Some("personal")) == "loans-personal"
    ensures TopicFor(Some("real_state")) == "loans-real-state"
    ensures TopicFor(Some("vehicle")) == "loans-vehicle"
    ensures loanType !in {Some("personal"), Some("real_state"), Some("vehicle")} ==>
      TopicFor(loanType) == "loans-unknown"
  {
  }

  /** With no item the request is low risk and has no item; a catalogued item
      is low risk; any other item is high risk. */
  lemma ItemCases(item: string)
    ensures AssessItem(None) == ("low_risk", false) && AssessItem(Some("")) == ("low_risk", false)
    ensures item in Catalogue ==> AssessItem(Some(item)) == ("low_risk", true)
    ensures item != "" && item !in Catalogue ==> AssessItem(Some(item)) == ("high_risk", false)
  {
  }

  /** The routed message never says both that the item exists and that the
      request is high risk. */
  lemma HighRiskExcludesItem(request: RouterRequest, sent: bool)
    ensures var m := RouteLoan(request, sent).message;
      !(m.itemExists && m.riskLevel == "high_risk")
  {
  }
}
