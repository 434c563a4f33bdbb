/** The front-door validation of the loan checker (loan-checker/server.js):
    `validateRequest` and the valid/invalid decision of the `/check` handler. */
module LoanChecker {

  /** A JSON value as JavaScript sees it once parsed; `Undefined` is what an
      absent property reads as; objects and arrays are `Composite`. */
  datatype JsValue = Undefined | Null | Bool(b: bool) | Number(n: real) | Str(s: string) | Composite

  /** A parsed request body: its own properties. */
  type Body = map<string, JsValue>

  /** `request[field]`. */
  function Get(body: Body, field: string): JsValue
  {
    if field in body then body[field] else Undefined
  }

  /** JavaScript falsiness of a JSON value (JSON cannot carry NaN). */
  predicate Falsy(v: JsValue)
  {
    match v
    case Undefined => true
    case Null => true
    case Bool(b) => !b
    case Number(n) => n == 0.0
    case Str(s) => s == ""
    case Composite => false
  }

  /** `a || b` on two values. */
  function Or(a: JsValue, b: JsValue): (r: JsValue)
    ensures r == a || r == b
    ensures !Falsy(a) ==> r == a
    ensures Falsy(a) ==> r == b
    ensures !Falsy(b) ==> !Falsy(r)
    ensures !Falsy(r) ==> !Falsy(a) || r == b
  {
    if Falsy(a) then b else a
  }

  const RequiredFields: seq<string> := ["loan_type", "loan_requested_value", "customer_id", "partner_name"]

  /** The fields of `fields` that `body` leaves falsy, in order. */
  function MissingAmong(body: Body, fields: seq<string>): (missing: seq<string>)
    ensures |missing| <= |fields|
  {
    if fields == [] then []
    else
      var field := fields[|fields| - 1];
      MissingAmong(body, fields[..|fields| - 1]) + (if Falsy(Get(body, field)) then [field] else [])
  }

  /** `validateRequest`: a loop over the required fields that pushes each
      falsy one onto `missingFields`. */
  method ValidateRequest(body: Body) returns (isValid: bool, missingFields: seq<string>)
    ensures missingFields == MissingAmong(body, RequiredFields)
    ensures isValid <==> |missingFields| == 0
    ensures |missingFields| <= 4
  {
    missingFields := [];
    for i := 0 to |RequiredFields|
      invariant missingFields == MissingAmong(body, RequiredFields[..i])
    {
      var field := RequiredFields[i];
      assert RequiredFields[..i + 1][..i] == RequiredFields[..i];
      if Falsy(Get(body, field)) {
        missingFields := missingFields + [field];
      }
    }
    assert RequiredFields[..|RequiredFields|] == RequiredFields;
    isValid := |missingFields| == 0;
  }

  /** A field is reported exactly when it is one of those checked and falsy. */
  lemma {:induction false} MissingMembership(body: Body, fields: seq<string>, f: string)
    ensures f in MissingAmong(body, fields) <==> f in fields && Falsy(Get(body, f))
  {
    if fields != [] {
      var init := fields[..|fields| - 1];
      MissingMembership(body, init, f);
      assert fields == init + [fields[|fields| - 1]];
    }
  }

  /** The reported fields as an explicit list: each required field in turn,
      when it is falsy. */
  lemma RequiredFieldsInOrder(body: Body)
    ensures MissingAmong(body, RequiredFields)
      == (if Falsy(Get(body, "loan_type")) then ["loan_type"] else [])
       + (if Falsy(Get(body, "loan_requested_value")) then ["loan_requested_value"] else [])
       + (if Falsy(Get(body, "customer_id")) then ["customer_id"] else [])
       + (if Falsy(Get(body, "partner_name")) then ["partner_name"] else [])
  {
    var f1: seq<string> := ["loan_type"];
    var f2 := f1 + ["loan_requested_value"];
    var f3 := f2 + ["customer_id"];
    assert f2[..1] == f1 && f3[..2] == f2 && RequiredFields[..3] == f3;
    var m1 := if Falsy(Get(body, "loan_type")) then ["loan_type"] else [];
    var m2 := if Falsy(Get(body, "loan_requested_value")) then ["loan_requested_value"] else [];
    var m3 := if Falsy(Get(body, "customer_id")) then ["customer_id"] else [];
    var m4 := if Falsy(Get(body, "partner_name")) then ["partner_name"] else [];
    assert f1[..0] == [];
    assert MissingAmong(body, f1) == m1;
    assert MissingAmong(body, f2) == m1 + m2;
    assert MissingAmong(body, f3) == m1 + m2 + m3;
    assert MissingAmong(body, RequiredFields) == m1 + m2 + m3 + m4;
  }

  /** A requested value of 0 is reported missing, as is every other falsy value. */
  lemma ZeroValueIsMissing(body: Body)
    requires Get(body, "loan_requested_value") in {Undefined, Null, Bool(false), Number(0.0), Str("")}
    ensures "loan_requested_value" in MissingAmong(body, RequiredFields)
  {
    MissingMembership(body, RequiredFields, "loan_requested_value");
  }

  /** `array.join(sep)` on strings. */
  function Join(parts: seq<string>, sep: string): string
  {
    if parts == [] then ""
    else if |parts| == 1 then parts[0]
    else parts[0] + sep + Join(parts[1..], sep)
  }

  /** The business-event attributes that depend on the request (the clock
      timestamp is left out); the last two are set only when invalid. */
  datatype BizEvent = BizEvent(
    requestId: JsValue,
    loanType: JsValue,
    customerId: JsValue,
    partnerName: JsValue,
    status: string,
    missingFields: JsValue,
    errorMessage: JsValue)

  /** The three responses of `/check`; the router error's text is left out. */
  datatype CheckResponse =
    | Rejected(missingFields: seq<string>)
    | Forwarded(requestId: JsValue)
    | ForwardFailed
  {
    function StatusCode(): int
    {
      match this
      case Rejected(_) => 400
      case Forwarded(_) => 200
      case ForwardFailed => 500
    }

    function Status(): string
    {
      match this
      case Rejected(_) => "failed"
      case Forwarded(_) => "success"
      case ForwardFailed => "error"
    }
  }

  /** What one `/check` request produces: the event, whether the request
      was sent on to the router, and the response. */
  datatype CheckOutcome = CheckOutcome(event: BizEvent, forwarded: bool, response: CheckResponse)

  /** The `/check` handler; `routerAccepted` is how the router call (made
      only for a valid request) ended. */
  method HandleCheck(body: Body, routerAccepted: bool) returns (out: CheckOutcome)
    ensures out.event.requestId == Or(Get(body, "request_id"), Str("unknown"))
    ensures !Falsy(out.event.requestId)
    ensures Falsy(Get(body, "request_id")) ==> out.event.requestId == Str("unknown")
    ensures !Falsy(Get(body, "request_id")) ==> out.event.requestId == Get(body, "request_id")
    ensures && !Falsy(out.event.loanType) && !Falsy(out.event.customerId) && !Falsy(out.event.partnerName)
    ensures && (!Falsy(Get(body, "loan_type")) ==> out.event.loanType == Get(body, "loan_type"))
            && (!Falsy(Get(body, "customer_id")) ==> out.event.customerId == Get(body, "customer_id"))
            && (!Falsy(Get(body, "partner_name")) ==> out.event.partnerName == Get(body, "partner_name"))
    ensures && out.event.loanType == Or(Get(body, "loan_type"), Str("unknown"))
            && out.event.customerId == Or(Get(body, "customer_id"), Str("unknown"))
            && out.event.partnerName == Or(Get(body, "partner_name"), Str("unknown"))
    ensures out.event.status == "success" <==> MissingAmong(body, RequiredFields) == []
    ensures out.event.status in {"success", "failed"}
    ensures out.forwarded <==> MissingAmong(body, RequiredFields) == []
    ensures !out.forwarded ==>
      && out.response == Rejected(MissingAmong(body, RequiredFields))
      && out.response.StatusCode() == 400
      && out.event.missingFields == Str(Join(MissingAmong(body, RequiredFields), ","))
      && out.event.errorMessage
         == Str("Missing required fields: " + Join(MissingAmong(body, RequiredFields), ", "))
    ensures out.forwarded ==>
      && out.event.missingFields == Undefined && out.event.errorMessage == Undefined
      && out.response == (if routerAccepted then Forwarded(out.event.requestId) else ForwardFailed)
  {
    var requestId := Or(Get(body, "request_id"), Str("unknown"));
    var isValid, missingFields := ValidateRequest(body);
    var event := BizEvent(
      requestId := requestId,
      loanType := Or(Get(body, "loan_type"), Str("unknown")),
      customerId := Or(Get(body, "customer_id"), Str("unknown")),
      partnerName := Or(Get(body, "partner_name"), Str("unknown")),
      status := if isValid then "success" else "failed",
      missingFields := Undefined,
      errorMessage := Undefined);
    if !isValid {
      event := event.(
        missingFields := Str(Join(missingFields, ",")),
        errorMessage := Str("Missing required fields: " + Join(missingFields, ", ")));
      out := CheckOutcome(event, false, Rejected(missingFields));
      return;
    }
    var response := if routerAccepted then Forwarded(requestId) else ForwardFailed;
    out := CheckOutcome(event, true, response);
  }
}
