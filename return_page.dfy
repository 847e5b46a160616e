/**
 * `return.php`: the page the provider redirects the browser to after a
 * checkout. It checks the session key, loads the payment, requires the
 * `succeeded` code, verifies the intent server-side, and only then delivers
 * the order. Every exception is caught, logged and swallowed.
 */
module ReturnPage {
  import opened Wrappers
  import opened Php
  import opened Host
  import opened Logger
  import opened Gateway
  import opened Verification

  /** The query parameters; the provider's three are optional integers or a string defaulting to "". */
  datatype ReturnRequest = ReturnRequest(
    paymentid: int, checkoutintentid: Option<int>, code: string, orderid: Option<int>)

  /** Everything a request does: the rows it logs, the order it delivers and the page it renders. */
  datatype ReturnOutcome = ReturnOutcome(entries: seq<Entry>, delivery: Option<DeliverOrder>, page: Page)

  function ReturnRow(req: ReturnRequest, userid: int, status: string, amount: real, message: string,
                     responseCode: Option<int> := None, reference: string := ""): Entry
  {
    LogEntry(req.paymentid, userid, "payment_return", status, amount, message, responseCode, reference)
  }

  /** The row the catch block writes; the amount is 0 while no payment record is loaded. */
  function CatchRow(req: ReturnRequest, userid: int, record: Option<PaymentRecord>, e: PaymentError): Entry {
    ReturnRow(req, userid, ERROR, if record.Some? then record.value.amount else 0.0, ErrorCode(e))
  }

  function CheckoutRef(req: ReturnRequest): string {
    "CHECKOUT-" + IntParamText(req.checkoutintentid)
  }

  /** What happens once the page has a valid session key, the record and the `succeeded` code. */
  function ConfirmedOutcome(req: ReturnRequest, userid: int, payment: PaymentRecord, orgslug: string,
                            baseUrl: Option<string>, tokenResp: TokenResponse, response: Option<IntentJson>): ReturnOutcome
  {
    var v := VerifyOutcomeOf(req.checkoutintentid, req.orderid, payment, orgslug, baseUrl, tokenResp, response);
    if v.verified then
      ReturnOutcome(v.entries + [ReturnRow(req, userid, SUCCESS, payment.amount,
                                           "Payment verified and processed. OrderID: " + IntParamText(req.orderid),
                                           Some(200), CheckoutRef(req))],
                    Some(DeliverOrder(payment.component, payment.paymentarea, payment.itemid, req.paymentid, userid)),
                    Notification("payment_success", "notifysuccess", ""))
    else
      ReturnOutcome(v.entries + [ReturnRow(req, userid, ERROR, payment.amount,
                                           "Payment verification failed via API", Some(400), CheckoutRef(req)),
                                 CatchRow(req, userid, Some(payment), VerificationFailed)], None, NoOutput)
  }

  function ReturnOutcomeOf(req: ReturnRequest, userid: int, sesskeyValid: bool, record: Option<PaymentRecord>,
                           orgslug: string, baseUrl: Option<string>, tokenResp: TokenResponse,
                           response: Option<IntentJson>): ReturnOutcome
  {
    if !sesskeyValid then
      ReturnOutcome([ReturnRow(req, userid, FRAUD_DETECTED, 0.0, "Invalid session key"),
                     CatchRow(req, userid, None, InvalidSesskey)], None, NoOutput)
    else if record.None? then
      ReturnOutcome([CatchRow(req, userid, None, RecordNotFound)], None, NoOutput)
    else if req.code != "succeeded" then
      ReturnOutcome([ReturnRow(req, userid, ERROR, record.value.amount,
                               "Payment not succeeded. Code: " + req.code + ", CheckoutIntent: "
                                 + IntParamText(req.checkoutintentid), Some(400), CheckoutRef(req)),
                     CatchRow(req, userid, record, PaymentNotCompleted)], None, NoOutput)
    else
      ConfirmedOutcome(req, userid, record.value, orgslug, baseUrl, tokenResp, response)
  }

  /** The verification and its consequences: delivery after a success row, or an error row and the catch row. */
  method Confirm(log: AuditLog, req: ReturnRequest, userid: int, payment: PaymentRecord, orgslug: string,
                 baseUrl: Option<string>, tokenResp: TokenResponse, response: Option<IntentJson>, env: Env)
    returns (delivery: Option<DeliverOrder>, page: Page)
    requires log.Valid()
    modifies log
    ensures log.Valid()
    ensures var o := ConfirmedOutcome(req, userid, payment, orgslug, baseUrl, tokenResp, response);
      && delivery == o.delivery && page == o.page
      && log.records == old(log.records) + Stamp(o.entries, old(log.nextId), env)
      && log.nextId == old(log.nextId) + |o.entries|
  {
    ghost var before := log.records;
    ghost var id0 := log.nextId;
    ghost var v := VerifyOutcomeOf(req.checkoutintentid, req.orderid, payment, orgslug, baseUrl, tokenResp, response);
    var verified, request := VerifyPayment(log, req.checkoutintentid, req.orderid, payment, orgslug, baseUrl,
                                           tokenResp, response, env);
    ghost var mid := log.records;
    ghost var midId := log.nextId;
    if verified {
      var success := ReturnRow(req, userid, SUCCESS, payment.amount,
                               "Payment verified and processed. OrderID: " + IntParamText(req.orderid),
                               Some(200), CheckoutRef(req));
      log.LogAction(success, env);
      AppendedTwice(before, mid, log.records, v.entries, [success], id0, midId, env);
      delivery := Some(DeliverOrder(payment.component, payment.paymentarea, payment.itemid, req.paymentid, userid));
      page := Notification("payment_success", "notifysuccess", "");
    } else {
      var failed := ReturnRow(req, userid, ERROR, payment.amount, "Payment verification failed via API",
                              Some(400), CheckoutRef(req));
      LogTwo(log, failed, CatchRow(req, userid, Some(payment), VerificationFailed), env);
      AppendedTwice(before, mid, log.records, v.entries, [failed, CatchRow(req, userid, Some(payment), VerificationFailed)],
                    id0, midId, env);
      delivery, page := None, NoOutput;
    }
  }

  /**
   * `return.php`. `sesskeyValid` is what `confirm_sesskey` answers and
   * `record` what the `MUST_EXIST` lookup finds (None: it throws).
   */
  method HandleReturn(log: AuditLog, req: ReturnRequest, userid: int, sesskeyValid: bool,
                      record: Option<PaymentRecord>, orgslug: string, baseUrl: Option<string>,
                      tokenResp: TokenResponse, response: Option<IntentJson>, env: Env)
    returns (delivery: Option<DeliverOrder>, page: Page)
    requires record.Some? ==> record.value.id == req.paymentid
    requires log.Valid()
    modifies log
    ensures log.Valid()
    ensures var o := ReturnOutcomeOf(req, userid, sesskeyValid, record, orgslug, baseUrl, tokenResp, response);
      && delivery == o.delivery && page == o.page
      && log.records == old(log.records) + Stamp(o.entries, old(log.nextId), env)
      && log.nextId == old(log.nextId) + |o.entries|
  {
    if !sesskeyValid {
      LogTwo(log, ReturnRow(req, userid, FRAUD_DETECTED, 0.0, "Invalid session key"),
             CatchRow(req, userid, None, InvalidSesskey), env);
      return None, NoOutput;
    }
    if record.None? {
      log.LogAction(CatchRow(req, userid, None, RecordNotFound), env);
      return None, NoOutput;
    }
    var payment := record.value;
    if req.code != "succeeded" {
      LogTwo(log, ReturnRow(req, userid, ERROR, payment.amount,
                            "Payment not succeeded. Code: " + req.code + ", CheckoutIntent: "
                              + IntParamText(req.checkoutintentid), Some(400), CheckoutRef(req)),
             CatchRow(req, userid, record, PaymentNotCompleted), env);
      return None, NoOutput;
    }
    delivery, page := Confirm(log, req, userid, payment, orgslug, baseUrl, tokenResp, response, env);
  }

  // ---------------------------------------------------------------- properties

  /**
   * A forged or stale session key is recorded as fraud, followed by the catch
   * block's error row; no token is requested and nothing is delivered.
   */
  lemma InvalidSesskeyIsFraud(req: ReturnRequest, userid: int, record: Option<PaymentRecord>, orgslug: string,
                              baseUrl: Option<string>, tokenResp: TokenResponse, response: Option<IntentJson>)
    ensures var o := ReturnOutcomeOf(req, userid, false, record, orgslug, baseUrl, tokenResp, response);
      && |o.entries| == 2
      && o.entries[0].status == FRAUD_DETECTED && o.entries[0].amount == 0.0
      && o.entries[1].status == ERROR && o.entries[1].message == ErrorCode(InvalidSesskey)
      && (forall e :: e in o.entries ==> e.action == "payment_return")
      && o.delivery.None? && o.page == NoOutput
  {
  }

  /** A fraud row is written exactly when the session key is invalid. */
  lemma FraudOnlyOnBadSesskey(req: ReturnRequest, userid: int, sesskeyValid: bool, record: Option<PaymentRecord>,
                              orgslug: string, baseUrl: Option<string>, tokenResp: TokenResponse,
                              response: Option<IntentJson>)
    ensures var o := ReturnOutcomeOf(req, userid, sesskeyValid, record, orgslug, baseUrl, tokenResp, response);
      (exists e :: e in o.entries && e.status == FRAUD_DETECTED) <==> !sesskeyValid
  {
    var o := ReturnOutcomeOf(req, userid, sesskeyValid, record, orgslug, baseUrl, tokenResp, response);
    if !sesskeyValid {
      assert o.entries[0].status == FRAUD_DETECTED;
    } else if record.Some? && req.code == "succeeded" {
      var v := VerifyOutcomeOf(req.checkoutintentid, req.orderid, record.value, orgslug, baseUrl, tokenResp, response);
      assert forall e :: e in v.entries ==> e.status != FRAUD_DETECTED;
    }
  }

  /** A missing payment record is logged once, by the catch block, with amount 0. */
  lemma MissingRecordLoggedOnce(req: ReturnRequest, userid: int, orgslug: string, baseUrl: Option<string>,
                                tokenResp: TokenResponse, response: Option<IntentJson>)
    ensures var o := ReturnOutcomeOf(req, userid, true, None, orgslug, baseUrl, tokenResp, response);
      && o.entries == [LogEntry(req.paymentid, userid, "payment_return", ERROR, 0.0, ErrorCode(RecordNotFound))]
      && o.delivery.None?
  {
  }

  /**
   * A code other than `succeeded` is an error, not fraud: it is logged with
   * HTTP 400 and the intent reference, the provider is never asked, and
   * nothing is delivered.
   */
  lemma NotSucceededSkipsVerification(req: ReturnRequest, userid: int, payment: PaymentRecord, orgslug: string,
                                      baseUrl: Option<string>, tokenResp: TokenResponse, response: Option<IntentJson>)
    requires req.code != "succeeded"
    ensures var o := ReturnOutcomeOf(req, userid, true, Some(payment), orgslug, baseUrl, tokenResp, response);
      && |o.entries| == 2
      && o.entries[0].status == ERROR && o.entries[0].responseCode == Some(400)
      && o.entries[0].reference == CheckoutRef(req) && o.entries[0].amount == payment.amount
      && (forall e :: e in o.entries ==> e.action != "token_request" && e.status == ERROR)
      && o.delivery.None?
  {
  }

  /**
   * The order is delivered exactly when the session key is valid, the
   * record exists, the code is `succeeded` and the server-side check
   * accepts; it is then delivered for the loaded payment and the current
   * user, after a success row with HTTP 200, and the success page is shown.
   */
  lemma DeliveryIffVerified(req: ReturnRequest, userid: int, sesskeyValid: bool, record: Option<PaymentRecord>,
                            orgslug: string, baseUrl: Option<string>, tokenResp: TokenResponse,
                            response: Option<IntentJson>)
    ensures var o := ReturnOutcomeOf(req, userid, sesskeyValid, record, orgslug, baseUrl, tokenResp, response);
      && (o.delivery.Some? <==>
            sesskeyValid && record.Some? && req.code == "succeeded"
            && AllChecksHold(req.checkoutintentid, req.orderid, record.value, orgslug, tokenResp, response))
      && (o.delivery.Some? ==>
            && o.delivery.value == DeliverOrder(record.value.component, record.value.paymentarea,
                                                record.value.itemid, req.paymentid, userid)
            && o.entries[|o.entries| - 1].status == SUCCESS
            && o.entries[|o.entries| - 1].responseCode == Some(200))
      && (o.page.Notification? <==> o.delivery.Some?)
  {
    if sesskeyValid && record.Some? && req.code == "succeeded" {
      VerifiedIffAllChecksHold(req.checkoutintentid, req.orderid, record.value, orgslug, baseUrl, tokenResp, response);
    }
  }

  /**
   * Every request ends with a `payment_return` row, and that row is a
   * success exactly when the order is delivered.
   */
  lemma EveryReturnEndsWithItsRow(req: ReturnRequest, userid: int, sesskeyValid: bool, record: Option<PaymentRecord>,
                                  orgslug: string, baseUrl: Option<string>, tokenResp: TokenResponse,
                                  response: Option<IntentJson>)
    ensures var o := ReturnOutcomeOf(req, userid, sesskeyValid, record, orgslug, baseUrl, tokenResp, response);
      && |o.entries| > 0
      && o.entries[|o.entries| - 1].action == "payment_return"
      && (o.entries[|o.entries| - 1].status == SUCCESS <==> o.delivery.Some?)
  {
  }
}
