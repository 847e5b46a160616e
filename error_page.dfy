/**
 * `error.php`: the page the provider sends the browser to on a technical
 * failure. It checks the session key, loads the payment, records the
 * provider's error code and shows a notice, with the raw codes when debug
 * mode is on. An exception is shown to the user and not logged.
 */
module ErrorPage {
  import opened Wrappers
  import opened Php
  import opened Host
  import opened Logger

  /** The query parameters; `error` is "unknown" when absent. */
  datatype ErrorRequest = ErrorRequest(paymentid: int, checkoutintentid: Option<int>, error: Option<string>)

  /** The rows a request writes and the page it renders. */
  datatype ErrorOutcome = ErrorOutcome(entries: seq<Entry>, page: Page)

  function ErrorText(req: ErrorRequest): string {
    req.error.GetOr("unknown")
  }

  /** The notice the catch block renders for an exception. */
  function ExceptionPage(e: PaymentError): Page {
    Notification("payment_error" + ": " + ErrorCode(e), "notifyproblem", "")
  }

  function DebugLine(req: ErrorRequest): string {
    "Debug info: Error code = " + ErrorText(req) + ", CheckoutIntentId = " + IntParamText(req.checkoutintentid)
  }

  function TechnicalRow(req: ErrorRequest, userid: int, payment: PaymentRecord): Entry {
    LogEntry(req.paymentid, userid, "payment_technical_error", ERROR, payment.amount,
             "Technical error during payment. Error code: " + ErrorText(req) + ", CheckoutIntent: "
               + IntParamText(req.checkoutintentid),
             Some(500), "CHECKOUT-" + IntParamText(req.checkoutintentid))
  }

  /**
   * The effect of a request. `sesskeyValid` is what `confirm_sesskey`
   * answers, `record` what the `MUST_EXIST` lookup finds (None: it throws),
   * `debugmode` the raw setting.
   */
  function ErrorOutcomeOf(req: ErrorRequest, userid: int, sesskeyValid: bool, record: Option<PaymentRecord>,
                          debugmode: string): ErrorOutcome
  {
    if !sesskeyValid then
      ErrorOutcome([LogEntry(req.paymentid, userid, "payment_error_page", FRAUD_DETECTED, 0.0, "Invalid session key")],
                   ExceptionPage(InvalidSesskey))
    else if record.None? then
      ErrorOutcome([], ExceptionPage(RecordNotFound))
    else
      ErrorOutcome([TechnicalRow(req, userid, record.value)],
                   Notification("payment_technical_error", "notifyproblem",
                                if EmptyString(debugmode) then "" else DebugLine(req)))
  }

  method HandleError(log: AuditLog, req: ErrorRequest, userid: int, sesskeyValid: bool,
                     record: Option<PaymentRecord>, debugmode: string, env: Env)
    returns (page: Page)
    requires record.Some? ==> record.value.id == req.paymentid
    requires log.Valid()
    modifies log
    ensures log.Valid()
    ensures var o := ErrorOutcomeOf(req, userid, sesskeyValid, record, debugmode);
      && page == o.page
      && log.records == old(log.records) + Stamp(o.entries, old(log.nextId), env)
      && log.nextId == old(log.nextId) + |o.entries|
  {
    var error := req.error.GetOr("unknown");
    if !sesskeyValid {
      log.LogAction(LogEntry(req.paymentid, userid, "payment_error_page", FRAUD_DETECTED, 0.0,
                             "Invalid session key"), env);
      return ExceptionPage(InvalidSesskey);
    }
    if record.None? {
      return ExceptionPage(RecordNotFound);
    }
    var payment := record.value;
    var intent := IntParamText(req.checkoutintentid);
    log.LogAction(LogEntry(req.paymentid, userid, "payment_technical_error", ERROR, payment.amount,
                           "Technical error during payment. Error code: " + error + ", CheckoutIntent: " + intent,
                           Some(500), "CHECKOUT-" + intent), env);
    var debug := "";
    if !EmptyString(debugmode) {
      debug := "Debug info: Error code = " + error + ", CheckoutIntentId = " + intent;
    }
    page := Notification("payment_technical_error", "notifyproblem", debug);
  }

  /**
   * A request logs at most one row: fraud when the session key is invalid,
   * the technical error (HTTP 500, with the intent reference and the stored
   * amount) when the record exists, and nothing when the lookup throws.
   */
  lemma AtMostOneRow(req: ErrorRequest, userid: int, sesskeyValid: bool, record: Option<PaymentRecord>,
                     debugmode: string)
    ensures var o := ErrorOutcomeOf(req, userid, sesskeyValid, record, debugmode);
      && |o.entries| <= 1
      && (!sesskeyValid ==> |o.entries| == 1 && o.entries[0].status == FRAUD_DETECTED && o.entries[0].amount == 0.0)
      && (sesskeyValid && record.None? ==> o.entries == [])
      && (sesskeyValid && record.Some? ==>
            && |o.entries| == 1 && o.entries[0].status == ERROR
            && o.entries[0].responseCode == Some(500)
            && o.entries[0].amount == record.value.amount
            && o.entries[0].reference == "CHECKOUT-" + IntParamText(req.checkoutintentid))
  {
  }

  /** The raw codes are shown exactly when debug mode is on and the technical notice is rendered. */
  lemma DebugInfoOnlyInDebugMode(req: ErrorRequest, userid: int, sesskeyValid: bool, record: Option<PaymentRecord>,
                                 debugmode: string)
    ensures var o := ErrorOutcomeOf(req, userid, sesskeyValid, record, debugmode);
      && o.page.Notification?
      && (o.page.debugInfo != "" <==> sesskeyValid && record.Some? && !EmptyString(debugmode))
      && (o.page.debugInfo != "" ==> o.page.debugInfo == DebugLine(req))
  {
  }

  /** Both exceptions are shown to the user with the error prefix. */
  lemma ExceptionsAreShown(req: ErrorRequest, userid: int, record: Option<PaymentRecord>, debugmode: string)
    ensures ErrorOutcomeOf(req, userid, false, record, debugmode).page.message
            == "payment_error: " + ErrorCode(InvalidSesskey)
    ensures ErrorOutcomeOf(req, userid, true, None, debugmode).page.message
            == "payment_error: " + ErrorCode(RecordNotFound)
  {
  }
}
