/**
 * The server-side check `paygw_helloasso_verify_payment` runs before an order
 * is delivered: the browser's redirect parameters are never trusted, the
 * checkout intent is read back from the provider and must match the local
 * payment in order id, amount, settled payment and metadata.
 */
module Verification {
  import opened Wrappers
  import opened Php
  import opened Money
  import opened Host
  import opened Logger
  import opened Gateway

  /** One entry of `order.payments`; both fields may be missing. */
  datatype PaymentJson = PaymentJson(state: Option<string>, amount: Option<int>)

  /** The `order` object; `payments` is None when it is missing or not a list. */
  datatype OrderJson = OrderJson(id: Option<int>, total: Option<int>, payments: Option<seq<PaymentJson>>)

  /** The decoded checkout intent; `metadataPaymentId` is `metadata.moodle_payment_id` when set. */
  datatype IntentJson = IntentJson(order: Option<OrderJson>, metadataPaymentId: Option<int>)

  /** The GET that reads a checkout intent back. */
  datatype IntentRequest = IntentRequest(url: string, bearer: string)

  /** A provider payment counts as settled in state Authorized or Processed. */
  predicate Settled(p: PaymentJson) {
    p.state == Some("Authorized") || p.state == Some("Processed")
  }

  /** The index of the first settled payment, the one the loop stops at. */
  function FirstSettled(ps: seq<PaymentJson>): (r: Option<nat>)
    ensures r.Some? ==> r.value < |ps| && Settled(ps[r.value]) && forall k :: 0 <= k < r.value ==> !Settled(ps[k])
    ensures r.None? ==> forall k :: 0 <= k < |ps| ==> !Settled(ps[k])
  {
    if ps == [] then None
    else if Settled(ps[0]) then Some(0)
    else
      match FirstSettled(ps[1..])
      case None => None
      case Some(k) => Some(k + 1)
  }

  /** What the payments loop decides: the first settled payment exists and carries the expected amount. */
  predicate PaymentsSettle(ps: seq<PaymentJson>, expected: int) {
    FirstSettled(ps).Some? && ps[FirstSettled(ps).value].amount.GetOr(0) == expected
  }

  /**
   * The loop over `order.payments`: stops at the first settled payment and
   * accepts exactly when its amount is the expected one; payments after it
   * are never looked at.
   */
  method ScanPayments(ps: seq<PaymentJson>, expected: int) returns (paymentstatus: bool)
    ensures paymentstatus <==>
      exists k :: 0 <= k < |ps| && Settled(ps[k]) && (forall j :: 0 <= j < k ==> !Settled(ps[j]))
                  && ps[k].amount.GetOr(0) == expected
  {
    paymentstatus := false;
    var i := 0;
    while i < |ps|
      invariant 0 <= i <= |ps|
      invariant forall j :: 0 <= j < i ==> !Settled(ps[j])
      invariant !paymentstatus
    {
      var p := ps[i];
      if Settled(p) {
        var paymentamount := p.amount.GetOr(0);
        if paymentamount != expected {
          return false;
        }
        paymentstatus := true;
        break;
      }
      i := i + 1;
    }
  }

  /** `intval(round($payment->amount * 100))`. */
  function ExpectedAmount(payment: PaymentRecord): int {
    Cents(payment.amount)
  }

  /** The checks made on the provider's answer, in the order the code makes them. */
  function ResponseVerdict(response: Option<IntentJson>, orderid: Option<int>, payment: PaymentRecord): bool {
    if response.None? then false
    else
      var data := response.value;
      if data.order.None? || data.order.value.id.None? then false
      else
        var order := data.order.value;
        if TruthyInt(orderid) && order.id.value != orderid.value then false
        else if ExpectedAmount(payment) != order.total.GetOr(0) then false
        else if order.payments.None? || !PaymentsSettle(order.payments.value, ExpectedAmount(payment)) then false
        else if data.metadataPaymentId.Some? && data.metadataPaymentId.value != payment.id then false
        else true
  }

  /** A token is requested only when an intent id was returned and the org slug is configured. */
  predicate TokenRequested(checkoutintentid: Option<int>, orgslug: string) {
    !EmptyIntParam(checkoutintentid) && !EmptyString(orgslug)
  }

  /** The whole effect of one verification: the verdict, the rows logged and the GET sent, if any. */
  datatype VerifyOutcome = VerifyOutcome(verified: bool, entries: seq<Entry>, request: Option<IntentRequest>)

  function IntentUrl(baseUrl: Option<string>, orgslug: string, checkoutintentid: int): string {
    ApiUrl(baseUrl) + "/v5/organizations/" + orgslug + "/checkout-intents/" + IntToString(checkoutintentid)
  }

  function VerifyOutcomeOf(checkoutintentid: Option<int>, orderid: Option<int>, payment: PaymentRecord,
                           orgslug: string, baseUrl: Option<string>, tokenResp: TokenResponse,
                           response: Option<IntentJson>): VerifyOutcome
  {
    if !TokenRequested(checkoutintentid, orgslug) then VerifyOutcome(false, [], None)
    else if !HasToken(tokenResp) then VerifyOutcome(false, [TokenEntry(tokenResp)], None)
    else
      VerifyOutcome(ResponseVerdict(response, orderid, payment), [TokenEntry(tokenResp)],
                    Some(IntentRequest(IntentUrl(baseUrl, orgslug, checkoutintentid.value), TokenOf(tokenResp).value)))
  }

  /**
   * Every condition under which the payment is accepted, stated at once:
   * the reference definition the step-by-step verdict is proved against.
   */
  ghost predicate AllChecksHold(checkoutintentid: Option<int>, orderid: Option<int>, payment: PaymentRecord,
                                orgslug: string, tokenResp: TokenResponse, response: Option<IntentJson>)
  {
    && checkoutintentid.Some? && checkoutintentid.value != 0
    && orgslug != "" && orgslug != "0"
    && HasToken(tokenResp)
    && response.Some? && response.value.order.Some?
    && var order := response.value.order.value;
    && order.id.Some?
    && (orderid.Some? && orderid.value != 0 ==> order.id == orderid)
    && order.total.GetOr(0) == Cents(payment.amount)
    && order.payments.Some?
    && (exists k :: 0 <= k < |order.payments.value| && Settled(order.payments.value[k])
           && (forall j :: 0 <= j < k ==> !Settled(order.payments.value[j]))
           && order.payments.value[k].amount.GetOr(0) == Cents(payment.amount))
    && (response.value.metadataPaymentId.Some? ==> response.value.metadataPaymentId.value == payment.id)
  }

  lemma FirstSettledUnique(ps: seq<PaymentJson>, k: nat)
    requires k < |ps| && Settled(ps[k]) && forall j :: 0 <= j < k ==> !Settled(ps[j])
    ensures FirstSettled(ps) == Some(k)
  {
  }

  /** The verdict is true exactly when every check holds. */
  lemma VerifiedIffAllChecksHold(checkoutintentid: Option<int>, orderid: Option<int>, payment: PaymentRecord,
                                 orgslug: string, baseUrl: Option<string>, tokenResp: TokenResponse,
                                 response: Option<IntentJson>)
    ensures VerifyOutcomeOf(checkoutintentid, orderid, payment, orgslug, baseUrl, tokenResp, response).verified
            <==> AllChecksHold(checkoutintentid, orderid, payment, orgslug, tokenResp, response)
  {
    if AllChecksHold(checkoutintentid, orderid, payment, orgslug, tokenResp, response) {
      var ps := response.value.order.value.payments.value;
      var k :| 0 <= k < |ps| && Settled(ps[k]) && (forall j :: 0 <= j < k ==> !Settled(ps[j]))
               && ps[k].amount.GetOr(0) == Cents(payment.amount);
      FirstSettledUnique(ps, k);
    }
  }

  /**
   * `paygw_helloasso_verify_payment`: the checks in order, with the token
   * request logged as `get_helloasso_token` logs it.
   */
  method VerifyPayment(log: AuditLog, checkoutintentid: Option<int>, orderid: Option<int>, payment: PaymentRecord,
                       orgslug: string, baseUrl: Option<string>, tokenResp: TokenResponse,
                       response: Option<IntentJson>, env: Env)
    returns (verified: bool, request: Option<IntentRequest>)
    requires log.Valid()
    modifies log
    ensures log.Valid()
    ensures var o := VerifyOutcomeOf(checkoutintentid, orderid, payment, orgslug, baseUrl, tokenResp, response);
      && verified == o.verified && request == o.request
      && log.records == old(log.records) + Stamp(o.entries, old(log.nextId), env)
      && log.nextId == old(log.nextId) + |o.entries|
  {
    if EmptyIntParam(checkoutintentid) {
      return false, None;
    }
    if EmptyString(orgslug) {
      return false, None;
    }
    var token := FetchToken(log, tokenResp, env);
    if token.None? || EmptyString(token.value) {
      return false, None;
    }
    var apiurl := ApiUrl(baseUrl);
    request := Some(IntentRequest(apiurl + "/v5/organizations/" + orgslug + "/checkout-intents/"
                                  + IntToString(checkoutintentid.value), token.value));
    verified := CheckResponse(response, orderid, payment);
  }

  /** The checks `paygw_helloasso_verify_payment` makes on the decoded intent, in order. */
  method CheckResponse(response: Option<IntentJson>, orderid: Option<int>, payment: PaymentRecord)
    returns (verified: bool)
    ensures verified == ResponseVerdict(response, orderid, payment)
  {
    if response.None? {
      return false;
    }
    var checkoutdata := response.value;
    if checkoutdata.order.None? || checkoutdata.order.value.id.None? {
      return false;
    }
    var order := checkoutdata.order.value;
    if TruthyInt(orderid) && order.id.value != orderid.value {
      return false;
    }
    var expectedamount := Cents(payment.amount);
    var actualamount := order.total.GetOr(0);
    if expectedamount != actualamount {
      return false;
    }
    var paymentstatus := false;
    if order.payments.Some? {
      paymentstatus := ScanPayments(order.payments.value, expectedamount);
      if paymentstatus {
        var k :| 0 <= k < |order.payments.value| && Settled(order.payments.value[k])
                 && (forall j :: 0 <= j < k ==> !Settled(order.payments.value[j]))
                 && order.payments.value[k].amount.GetOr(0) == expectedamount;
        FirstSettledUnique(order.payments.value, k);
      }
    }
    if !paymentstatus {
      return false;
    }
    if checkoutdata.metadataPaymentId.Some? && checkoutdata.metadataPaymentId.value != payment.id {
      return false;
    }
    return true;
  }

  // ---------------------------------------------------------------- properties

  /** Without an intent id or a configured org slug nothing is requested, logged or accepted. */
  lemma NoRequestWithoutIntentOrSlug(checkoutintentid: Option<int>, orderid: Option<int>, payment: PaymentRecord,
                                     orgslug: string, baseUrl: Option<string>, tokenResp: TokenResponse,
                                     response: Option<IntentJson>)
    requires EmptyIntParam(checkoutintentid) || EmptyString(orgslug)
    ensures VerifyOutcomeOf(checkoutintentid, orderid, payment, orgslug, baseUrl, tokenResp, response)
            == VerifyOutcome(false, [], None)
  {
  }

  /** A truthy order id in the redirect that differs from the intent's order is a rejection. */
  lemma OrderMismatchRejects(checkoutintentid: Option<int>, orderid: Option<int>, payment: PaymentRecord,
                             orgslug: string, baseUrl: Option<string>, tokenResp: TokenResponse,
                             response: Option<IntentJson>)
    requires TruthyInt(orderid)
    requires response.Some? && response.value.order.Some? && response.value.order.value.id != orderid
    ensures !VerifyOutcomeOf(checkoutintentid, orderid, payment, orgslug, baseUrl, tokenResp, response).verified
  {
  }

  /** An absent or zero order id skips the order comparison entirely. */
  lemma ZeroOrderIdSkipsCheck(checkoutintentid: Option<int>, payment: PaymentRecord,
                              orgslug: string, baseUrl: Option<string>, tokenResp: TokenResponse,
                              response: Option<IntentJson>)
    ensures VerifyOutcomeOf(checkoutintentid, Some(0), payment, orgslug, baseUrl, tokenResp, response)
            == VerifyOutcomeOf(checkoutintentid, None, payment, orgslug, baseUrl, tokenResp, response)
    ensures response.Some? && response.value.order.Some? && response.value.order.value.id.Some? ==>
      forall other: int ::
        var r2 := Some(response.value.(order := Some(response.value.order.value.(id := Some(other)))));
        VerifyOutcomeOf(checkoutintentid, None, payment, orgslug, baseUrl, tokenResp, r2).verified
        == VerifyOutcomeOf(checkoutintentid, None, payment, orgslug, baseUrl, tokenResp, response).verified
  {
  }

  /** The intent's metadata, when present, must name this payment. */
  lemma MetadataBindsPayment(checkoutintentid: Option<int>, orderid: Option<int>, payment: PaymentRecord,
                             orgslug: string, baseUrl: Option<string>, tokenResp: TokenResponse,
                             response: Option<IntentJson>)
    requires response.Some? && response.value.metadataPaymentId.Some?
    requires response.value.metadataPaymentId.value != payment.id
    ensures !VerifyOutcomeOf(checkoutintentid, orderid, payment, orgslug, baseUrl, tokenResp, response).verified
  {
  }

  /** An accepted payment's order total and settled payment both equal the local amount in cents. */
  lemma VerifiedAmountMatches(checkoutintentid: Option<int>, orderid: Option<int>, payment: PaymentRecord,
                              orgslug: string, baseUrl: Option<string>, tokenResp: TokenResponse,
                              response: Option<IntentJson>)
    requires VerifyOutcomeOf(checkoutintentid, orderid, payment, orgslug, baseUrl, tokenResp, response).verified
    ensures var order := response.value.order.value;
      && order.total.GetOr(0) == Cents(payment.amount)
      && order.payments.Some? && FirstSettled(order.payments.value).Some?
      && order.payments.value[FirstSettled(order.payments.value).value].amount.GetOr(0) == Cents(payment.amount)
  {
  }

  /** The first settled payment of a prefix is the first settled payment of any extension of it. */
  lemma {:induction false} FirstSettledInPrefix(ps: seq<PaymentJson>, more: seq<PaymentJson>)
    requires FirstSettled(ps).Some?
    ensures FirstSettled(ps + more) == FirstSettled(ps)
  {
    if !Settled(ps[0]) {
      assert (ps + more)[1..] == ps[1..] + more;
      FirstSettledInPrefix(ps[1..], more);
    }
  }

  /** Only the first settled payment is examined: payments after it never change the verdict. */
  lemma LaterPaymentsIgnored(ps: seq<PaymentJson>, more: seq<PaymentJson>, expected: int)
    requires exists k :: 0 <= k < |ps| && Settled(ps[k])
    ensures PaymentsSettle(ps + more, expected) == PaymentsSettle(ps, expected)
  {
    var k :| 0 <= k < |ps| && Settled(ps[k]);
    FirstSettledInPrefix(ps, more);
    assert (ps + more)[FirstSettled(ps).value] == ps[FirstSettled(ps).value];
  }

  /** The total sent when the intent was created is exactly the total the check expects back. */
  lemma SentAmountIsExpectedAmount(payment: PaymentRecord, useremail: string, itemname: string,
                                   payerinfo: Option<map<string, string>>, sesskey: string)
    ensures CheckoutDataOf(payment.id, payment.amount, useremail, itemname, payerinfo, payment.userid, sesskey)
              .totalAmount == ExpectedAmount(payment)
    ensures CheckoutDataOf(payment.id, payment.amount, useremail, itemname, payerinfo, payment.userid, sesskey)
              .metadata.moodlePaymentId == payment.id
  {
  }

  /**
   * A worked example: payment 42 of 10.00, the redirect names order 7, the
   * intent holds order 7 with total 1000, one Processed payment of 1000 and
   * metadata 42; the payment is accepted, and rejected when the metadata
   * names payment 99 instead.
   */
  lemma WorkedExample(tokenResp: TokenResponse)
    requires HasToken(tokenResp)
    ensures var payment := PaymentRecord(42, "enrol_fee", "fee", 3, 5, 10.0, "EUR", "helloasso");
      var order := OrderJson(Some(7), Some(1000), Some([PaymentJson(Some("Processed"), Some(1000))]));
      && VerifyOutcomeOf(Some(555), Some(7), payment, "my-org", None, tokenResp,
                         Some(IntentJson(Some(order), Some(42)))).verified
      && !VerifyOutcomeOf(Some(555), Some(7), payment, "my-org", None, tokenResp,
                          Some(IntentJson(Some(order), Some(99)))).verified
  {
    CentsOfWholeCents(1000);
    assert 1000 as real / 100.0 == 10.0;
  }
}
