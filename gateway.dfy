/**
 * The gateway class: the OAuth2 token request, the construction and posting
 * of a checkout intent, and `initiate_payment`. Every outbound attempt writes
 * to the audit log.
 */
module Gateway {
  import opened Wrappers
  import opened Php
  import opened Money
  import opened Host
  import opened Logger

  /** `get_supported_currencies`. */
  function SupportedCurrencies(): seq<string> {
    ["EUR"]
  }

  /** `can_refund`: refunds are not supported. */
  function CanRefund(): (r: bool)
    ensures !r
  {
    false
  }

  /**
   * `get_api_url`. The setting is read with `get_config`, which yields false,
   * never null, when it is unset, so the `?? 'helloasso.com'` default never
   * applies and an unset setting gives "https://api.".
   */
  function ApiUrl(baseUrl: Option<string>): string {
    "https://api." + baseUrl.GetOr("")
  }

  lemma ApiUrlDefaultNeverApplies(domain: string)
    ensures ApiUrl(Some(domain)) == "https://api." + domain
    ensures ApiUrl(None) == "https://api."
  {
  }

  // ---------------------------------------------------------------- token

  /** The decoded body of the token endpoint's answer; every field may be missing. */
  datatype TokenJson = TokenJson(
    accessToken: Option<string>, error: Option<string>, errorDescription: Option<string>)

  /** The token endpoint's answer: no body at all (None) or a decoded one, and the HTTP code. */
  datatype TokenResponse = TokenResponse(body: Option<TokenJson>, httpCode: int)

  /** The token `get_helloasso_token` returns for an answer. */
  function TokenOf(resp: TokenResponse): Option<string> {
    if resp.body.Some? then resp.body.value.accessToken else None
  }

  /** `if (!$token)` fails: no token, or a falsy string. */
  predicate HasToken(resp: TokenResponse) {
    TokenOf(resp).Some? && !EmptyString(TokenOf(resp).value)
  }

  /** The one audit entry a token request writes. */
  function TokenEntry(resp: TokenResponse): (e: Entry)
    ensures e.paymentid == 0 && e.userid == 0 && e.amount == 0.0
    ensures e.action == "token_request" && e.responseCode == Some(resp.httpCode)
    ensures e.status == (if TokenOf(resp).Some? then SUCCESS else ERROR)
  {
    if resp.body.None? then
      LogEntry(0, 0, "token_request", ERROR, 0.0, "Token request failed - no response", Some(resp.httpCode))
    else
      var json := resp.body.value;
      if json.accessToken.Some? then
        LogEntry(0, 0, "token_request", SUCCESS, 0.0, "Token obtained successfully", Some(resp.httpCode))
      else
        LogEntry(0, 0, "token_request", ERROR, 0.0,
                 "Token error: " + json.error.GetOr("Unknown error") + " - " + json.errorDescription.GetOr(""),
                 Some(resp.httpCode))
  }

  /** The HTTP status code plays no part in whether a token is returned. */
  lemma TokenIgnoresHttpCode(resp: TokenResponse, code: int)
    ensures TokenOf(resp.(httpCode := code)) == TokenOf(resp)
    ensures TokenOf(resp).Some? <==> resp.body.Some? && resp.body.value.accessToken.Some?
  {
  }

  /**
   * `get_helloasso_token`: returns the access token when the body is non-empty
   * and holds one, and appends exactly one `token_request` row either way.
   */
  method FetchToken(log: AuditLog, resp: TokenResponse, env: Env) returns (token: Option<string>)
    requires log.Valid()
    modifies log
    ensures log.Valid()
    ensures token == TokenOf(resp)
    ensures log.records == old(log.records) + Stamp([TokenEntry(resp)], old(log.nextId), env)
    ensures log.nextId == old(log.nextId) + 1
  {
    if resp.body.None? {
      log.LogAction(LogEntry(0, 0, "token_request", ERROR, 0.0, "Token request failed - no response",
                             Some(resp.httpCode)), env);
      return None;
    }
    var json := resp.body.value;
    if json.accessToken.Some? {
      token := json.accessToken;
      log.LogAction(LogEntry(0, 0, "token_request", SUCCESS, 0.0, "Token obtained successfully",
                             Some(resp.httpCode)), env);
    } else {
      var errormsg := json.error.GetOr("Unknown error");
      var errordesc := json.errorDescription.GetOr("");
      log.LogAction(LogEntry(0, 0, "token_request", ERROR, 0.0, "Token error: " + errormsg + " - " + errordesc,
                             Some(resp.httpCode)), env);
      token := None;
    }
  }

  /** A failed token request's row. */
  predicate IsTokenError(e: Entry) {
    e.action == "token_request" && e.status == ERROR
  }

  /** The most recent `token_request` row with status `error`, if any. */
  function LastTokenError(logged: seq<Entry>): (r: Option<Entry>)
    ensures r.Some? ==> exists i :: 0 <= i < |logged| && logged[i] == r.value && IsTokenError(r.value)
                                    && forall j :: i < j < |logged| ==> !IsTokenError(logged[j])
    ensures r.None? ==> forall e :: e in logged ==> !IsTokenError(e)
  {
    if logged == [] then None
    else
      var last := logged[|logged| - 1];
      if IsTokenError(last) then Some(last)
      else
        var init := logged[..|logged| - 1];
        var earlier := LastTokenError(init);
        assert forall e :: e in logged ==> e in init || e == last;
        assert forall k :: 0 <= k < |init| ==> logged[k] == init[k];
        earlier
  }

  /** The message of the exception raised when no token could be obtained. */
  function TokenFailureDetail(logged: seq<Entry>): string {
    var base := "Failed to obtain authentication token";
    match LastTokenError(logged)
    case None => base
    case Some(e) =>
      if EmptyString(e.message) then base
      else if TruthyInt(e.responseCode) then base + ": " + e.message + " (HTTP " + IntToString(e.responseCode.value) + ")"
      else base + ": " + e.message
  }

  /**
   * When the token request just logged has failed, the detail attached to
   * the exception is that request's own failure.
   */
  lemma TokenFailureNamesThisAttempt(logged: seq<Entry>, resp: TokenResponse)
    requires TokenOf(resp).None?
    ensures LastTokenError(logged + [TokenEntry(resp)]) == Some(TokenEntry(resp))
  {
  }

  /**
   * After a failed token request, the exception's detail is that request's
   * own message, followed by its HTTP code unless the code is 0.
   */
  lemma TokenFailureMessageForAttempt(logged: seq<Entry>, resp: TokenResponse)
    requires TokenOf(resp).None?
    ensures TokenFailureDetail(logged + [TokenEntry(resp)])
            == "Failed to obtain authentication token: " + TokenEntry(resp).message
               + (if resp.httpCode != 0 then " (HTTP " + IntToString(resp.httpCode) + ")" else "")
  {
    TokenFailureNamesThisAttempt(logged, resp);
    var m := TokenEntry(resp).message;
    assert |m| > 2 && m[1] != '0';
  }

  // ---------------------------------------------------------------- checkout intent

  /** A `moodle_url`: a path and its query parameters. */
  datatype MoodleUrl = MoodleUrl(path: string, params: seq<(string, string)>)

  /** The correlation data the provider returns verbatim with the intent. */
  datatype Metadata = Metadata(moodlePaymentId: int, moodleUserId: int)

  /** The checkout-intent payload. */
  datatype CheckoutData = CheckoutData(
    totalAmount: int, initialAmount: int, itemName: string,
    backUrl: MoodleUrl, errorUrl: MoodleUrl, returnUrl: MoodleUrl,
    containsDonation: bool, metadata: Metadata, payer: Option<map<string, string>>)

  /** The POST that creates a checkout intent: endpoint, bearer token and payload. */
  datatype CheckoutRequest = CheckoutRequest(url: string, bearer: string, body: CheckoutData)

  /** The decoded body of the checkout-intents answer; every field may be missing. */
  datatype CreateJson = CreateJson(id: Option<int>, redirectUrl: Option<string>, message: Option<string>)

  /** The checkout-intents answer: no body at all (None) or a decoded one, and the HTTP code. */
  datatype CreateResponse = CreateResponse(body: Option<CreateJson>, httpCode: int)

  /** The configuration array lacks the org slug, the client id or the client secret. */
  predicate ConfigIncomplete(config: map<string, string>) {
    || EmptyString(ValueOr(config, "org_slug", ""))
    || EmptyString(ValueOr(config, "clientid", ""))
    || EmptyString(ValueOr(config, "clientsecret", ""))
  }

  function CheckoutEndpoint(config: map<string, string>): string {
    "https://api." + ValueOr(config, "base_url", "helloasso.com")
      + "/v5/organizations/" + ValueOr(config, "org_slug", "") + "/checkout-intents"
  }

  function ReturnUrl(paymentid: int, sesskey: string): MoodleUrl {
    MoodleUrl("/payment/gateway/helloasso/return.php", [("paymentid", IntToString(paymentid)), ("sesskey", sesskey)])
  }

  function BackUrl(paymentid: int): MoodleUrl {
    MoodleUrl("/payment/gateway/helloasso/cancel.php", [("paymentid", IntToString(paymentid))])
  }

  function ErrorUrl(paymentid: int, sesskey: string): MoodleUrl {
    MoodleUrl("/payment/gateway/helloasso/error.php", [("paymentid", IntToString(paymentid)), ("sesskey", sesskey)])
  }

  /** A payer array is truthy when it is non-empty. */
  predicate HasPayerInfo(payerinfo: Option<map<string, string>>) {
    payerinfo.Some? && |payerinfo.value| > 0
  }

  /**
   * The payer block of the payload: a copy of the payer info without a
   * two-letter country; else the bare email when there is one; else none.
   */
  function PayerBlock(payerinfo: Option<map<string, string>>, useremail: string): (r: Option<map<string, string>>)
    ensures HasPayerInfo(payerinfo) ==>
      && r.Some?
      && (forall k :: k in r.value <==> k in payerinfo.value && !(k == "country" && |payerinfo.value[k]| == 2))
      && (forall k :: k in r.value ==> r.value[k] == payerinfo.value[k])
    ensures !HasPayerInfo(payerinfo) && !EmptyString(useremail) ==>
      r.Some? && r.value.Keys == {"email"} && r.value["email"] == useremail
    ensures !HasPayerInfo(payerinfo) && EmptyString(useremail) ==> r.None?
  {
    if HasPayerInfo(payerinfo) then
      var payer := payerinfo.value;
      var country := ValueOr(payer, "country", "");
      if !EmptyString(country) && |country| == 2 then Some(payer - {"country"}) else Some(payer)
    else if !EmptyString(useremail) then
      Some(map["email" := useremail])
    else
      None
  }

  /**
   * The payload: both amounts are the amount in cents, the metadata binds the
   * intent to the local payment and user, the return and error URLs carry the
   * payment id and the session key, the back URL only the payment id.
   */
  function CheckoutDataOf(paymentid: int, amount: real, useremail: string, itemname: string,
                          payerinfo: Option<map<string, string>>, userid: int, sesskey: string): (d: CheckoutData)
    ensures d.totalAmount == Cents(amount) && d.initialAmount == d.totalAmount
    ensures d.metadata.moodlePaymentId == paymentid && d.metadata.moodleUserId == userid
    ensures ("paymentid", IntToString(paymentid)) in d.returnUrl.params && ("sesskey", sesskey) in d.returnUrl.params
    ensures ("paymentid", IntToString(paymentid)) in d.errorUrl.params && ("sesskey", sesskey) in d.errorUrl.params
    ensures d.backUrl.params == [("paymentid", IntToString(paymentid))]
    ensures d.returnUrl.path == "/payment/gateway/helloasso/return.php"
    ensures d.backUrl.path == "/payment/gateway/helloasso/cancel.php"
    ensures d.errorUrl.path == "/payment/gateway/helloasso/error.php"
    ensures d.itemName == itemname && !d.containsDonation
  {
    var cents := Cents(amount);
    CheckoutData(cents, cents, itemname, BackUrl(paymentid), ErrorUrl(paymentid, sesskey),
                 ReturnUrl(paymentid, sesskey), false, Metadata(paymentid, userid),
                 PayerBlock(payerinfo, useremail))
  }

  /** The checkout-intents answer is accepted: a body, HTTP 200 and a redirect URL. */
  predicate CheckoutAccepted(resp: CreateResponse) {
    resp.body.Some? && resp.httpCode == 200 && resp.body.value.redirectUrl.Some?
  }

  /** The rows written after the POST: one on failure; on success, one only if the answer has an id. */
  function CreationEntries(paymentid: int, userid: int, amount: real, resp: CreateResponse): (es: seq<Entry>)
    ensures !CheckoutAccepted(resp) ==>
      |es| == 1 && es[0].action == "checkout_intent_creation" && es[0].status == ERROR
      && es[0].responseCode == Some(resp.httpCode)
    ensures CheckoutAccepted(resp) ==>
      |es| == (if TruthyInt(resp.body.value.id) then 1 else 0)
      && (forall e :: e in es ==>
            (e.action == "checkout_intent_creation" && e.status == SUCCESS
             && e.reference == "CHECKOUT-" + IntToString(resp.body.value.id.value)))
  {
    if resp.body.None? then
      [LogEntry(paymentid, userid, "checkout_intent_creation", ERROR, amount, "No response from API", Some(resp.httpCode))]
    else if !CheckoutAccepted(resp) then
      [LogEntry(paymentid, userid, "checkout_intent_creation", ERROR, amount,
                "HTTP " + IntToString(resp.httpCode) + ": " + resp.body.value.message.GetOr("Unknown error"),
                Some(resp.httpCode))]
    else if TruthyInt(resp.body.value.id) then
      var id := IntToString(resp.body.value.id.value);
      [LogEntry(paymentid, userid, "checkout_intent_creation", SUCCESS, amount,
                "Checkout intent created: " + id, Some(resp.httpCode), "CHECKOUT-" + id)]
    else
      []
  }

  /** What the POST's answer makes of the call: the redirect URL, or `checkoutfailed`. */
  function CreationResult(resp: CreateResponse): Result<string, PaymentError> {
    if resp.body.None? then Failure(CheckoutFailed(""))
    else if !CheckoutAccepted(resp) then Failure(CheckoutFailed(resp.body.value.message.GetOr("Unknown error")))
    else Success(resp.body.value.redirectUrl.value)
  }

  /** The whole effect of a call: its result, the rows it appends and the POST it sends, if any. */
  datatype Outcome = Outcome(result: Result<string, PaymentError>, entries: seq<Entry>, request: Option<CheckoutRequest>)

  /**
   * `generate_payment_url`, as a function of its arguments, of the rows
   * already logged and of the provider's two answers.
   */
  function GenerateOutcome(config: map<string, string>, paymentid: int, amount: real, useremail: string,
                           itemname: string, payerinfo: Option<map<string, string>>, userid: int,
                           sesskey: string, logged: seq<Entry>,
                           tokenResp: TokenResponse, createResp: CreateResponse): Outcome
  {
    if ConfigIncomplete(config) then Outcome(Failure(MissingConfig), [], None)
    else if amount <= 0.0 then Outcome(Failure(InvalidAmount), [], None)
    else
      var tokenEntry := TokenEntry(tokenResp);
      if !HasToken(tokenResp) then
        Outcome(Failure(TokenFailed(TokenFailureDetail(logged + [tokenEntry]))), [tokenEntry], None)
      else
        var request := CheckoutRequest(CheckoutEndpoint(config), TokenOf(tokenResp).value,
                                       CheckoutDataOf(paymentid, amount, useremail, itemname, payerinfo, userid, sesskey));
        Outcome(CreationResult(createResp), [tokenEntry] + CreationEntries(paymentid, userid, amount, createResp),
                Some(request))
  }

  /** The exception message built from the most recent failed token request, as the code assembles it. */
  method TokenFailureMessage(logged: seq<Entry>) returns (errormsg: string)
    ensures errormsg == TokenFailureDetail(logged)
  {
    var lastlog := LastTokenError(logged);
    errormsg := "Failed to obtain authentication token";
    if lastlog.Some? && !EmptyString(lastlog.value.message) {
      errormsg := errormsg + ": " + lastlog.value.message;
      if TruthyInt(lastlog.value.responseCode) {
        errormsg := errormsg + " (HTTP " + IntToString(lastlog.value.responseCode.value) + ")";
      }
    }
  }

  /** Builds the payload field by field, then the payer block, as the code does. */
  method BuildCheckoutData(paymentid: int, amount: real, useremail: string, itemname: string,
                           payerinfo: Option<map<string, string>>, userid: int, sesskey: string)
    returns (checkoutdata: CheckoutData)
    ensures checkoutdata == CheckoutDataOf(paymentid, amount, useremail, itemname, payerinfo, userid, sesskey)
  {
    var returnurl := ReturnUrl(paymentid, sesskey);
    var backurl := BackUrl(paymentid);
    var errorurl := ErrorUrl(paymentid, sesskey);
    var amountcentimes := Cents(amount);
    checkoutdata := CheckoutData(amountcentimes, amountcentimes, itemname, backurl, errorurl, returnurl,
                                 false, Metadata(paymentid, userid), None);
    if HasPayerInfo(payerinfo) {
      checkoutdata := checkoutdata.(payer := payerinfo);
      var country := ValueOr(checkoutdata.payer.value, "country", "");
      if !EmptyString(country) && |country| == 2 {
        checkoutdata := checkoutdata.(payer := Some(checkoutdata.payer.value - {"country"}));
      }
    } else if !EmptyString(useremail) {
      checkoutdata := checkoutdata.(payer := Some(map["email" := useremail]));
    }
  }

  /** Reads the checkout-intents answer and logs it. */
  method ReadCreation(log: AuditLog, paymentid: int, userid: int, amount: real, createResp: CreateResponse, env: Env)
    returns (result: Result<string, PaymentError>)
    requires log.Valid()
    modifies log
    ensures log.Valid()
    ensures result == CreationResult(createResp)
    ensures log.records == old(log.records) + Stamp(CreationEntries(paymentid, userid, amount, createResp), old(log.nextId), env)
    ensures log.nextId == old(log.nextId) + |CreationEntries(paymentid, userid, amount, createResp)|
  {
    var httpcode := createResp.httpCode;
    if createResp.body.None? {
      log.LogAction(LogEntry(paymentid, userid, "checkout_intent_creation", ERROR, amount,
                             "No response from API", Some(httpcode)), env);
      return Failure(CheckoutFailed(""));
    }
    var response := createResp.body.value;
    if httpcode != 200 || response.redirectUrl.None? {
      var errormsg := response.message.GetOr("Unknown error");
      log.LogAction(LogEntry(paymentid, userid, "checkout_intent_creation", ERROR, amount,
                             "HTTP " + IntToString(httpcode) + ": " + errormsg, Some(httpcode)), env);
      return Failure(CheckoutFailed(errormsg));
    }
    var checkoutintentid := response.id;
    if TruthyInt(checkoutintentid) {
      var id := IntToString(checkoutintentid.value);
      log.LogAction(LogEntry(paymentid, userid, "checkout_intent_creation", SUCCESS, amount,
                             "Checkout intent created: " + id, Some(httpcode), "CHECKOUT-" + id), env);
    }
    result := Success(response.redirectUrl.value);
  }

  /**
   * `generate_payment_url`: checks the configuration, then the amount, then
   * obtains a token, builds the payload and posts it.
   */
  method GeneratePaymentUrl(log: AuditLog, config: map<string, string>, paymentid: int, amount: real,
                            useremail: string, itemname: string, payerinfo: Option<map<string, string>>,
                            userid: int, sesskey: string, tokenResp: TokenResponse, createResp: CreateResponse,
                            env: Env)
    returns (result: Result<string, PaymentError>, request: Option<CheckoutRequest>)
    requires log.Valid()
    modifies log
    ensures log.Valid()
    ensures var o := GenerateOutcome(config, paymentid, amount, useremail, itemname, payerinfo, userid, sesskey,
                                     EntriesOf(old(log.records)), tokenResp, createResp);
      && result == o.result && request == o.request
      && log.records == old(log.records) + Stamp(o.entries, old(log.nextId), env)
      && log.nextId == old(log.nextId) + |o.entries|
  {
    var orgslug := ValueOr(config, "org_slug", "");
    var clientid := ValueOr(config, "clientid", "");
    var clientsecret := ValueOr(config, "clientsecret", "");
    var baseurl := ValueOr(config, "base_url", "helloasso.com");
    var apiurl := "https://api." + baseurl;

    if EmptyString(orgslug) || EmptyString(clientid) || EmptyString(clientsecret) {
      return Failure(MissingConfig), None;
    }
    if amount <= 0.0 {
      return Failure(InvalidAmount), None;
    }

    ghost var before := log.records;
    ghost var id0 := log.nextId;
    var token := FetchToken(log, tokenResp, env);
    if token.None? || EmptyString(token.value) {
      EntriesOfStamped(before, [TokenEntry(tokenResp)], id0, env);
      var errormsg := TokenFailureMessage(EntriesOf(log.records));
      return Failure(TokenFailed(errormsg)), None;
    }

    var checkoutdata := BuildCheckoutData(paymentid, amount, useremail, itemname, payerinfo, userid, sesskey);
    request := Some(CheckoutRequest(apiurl + "/v5/organizations/" + orgslug + "/checkout-intents", token.value,
                                    checkoutdata));
    ghost var mid := log.records;
    ghost var midId := log.nextId;
    result := ReadCreation(log, paymentid, userid, amount, createResp, env);
    AppendedTwice(before, mid, log.records, [TokenEntry(tokenResp)],
                  CreationEntries(paymentid, userid, amount, createResp), id0, midId, env);
  }

  /** The configuration is checked before anything else: nothing is logged and nothing is sent. */
  lemma ConfigCheckedFirst(config: map<string, string>, paymentid: int, amount: real, useremail: string,
                           itemname: string, payerinfo: Option<map<string, string>>, userid: int,
                           sesskey: string, logged: seq<Entry>, tokenResp: TokenResponse, createResp: CreateResponse)
    requires ConfigIncomplete(config)
    ensures GenerateOutcome(config, paymentid, amount, useremail, itemname, payerinfo, userid, sesskey,
                            logged, tokenResp, createResp) == Outcome(Failure(MissingConfig), [], None)
  {
  }

  /** A non-positive amount is refused before any token request. */
  lemma AmountCheckedBeforeToken(config: map<string, string>, paymentid: int, amount: real, useremail: string,
                                 itemname: string, payerinfo: Option<map<string, string>>, userid: int,
                                 sesskey: string, logged: seq<Entry>, tokenResp: TokenResponse,
                                 createResp: CreateResponse)
    requires !ConfigIncomplete(config) && amount <= 0.0
    ensures GenerateOutcome(config, paymentid, amount, useremail, itemname, payerinfo, userid, sesskey,
                            logged, tokenResp, createResp) == Outcome(Failure(InvalidAmount), [], None)
  {
  }

  /**
   * Once the checks pass, the first row is the token request's, no other row
   * is a token request, and each outbound attempt that fails writes exactly
   * one row; a checkout POST is sent only with a usable token.
   */
  lemma OneEntryPerFailedAttempt(config: map<string, string>, paymentid: int, amount: real, useremail: string,
                                 itemname: string, payerinfo: Option<map<string, string>>, userid: int,
                                 sesskey: string, logged: seq<Entry>, tokenResp: TokenResponse,
                                 createResp: CreateResponse)
    requires !ConfigIncomplete(config) && amount > 0.0
    ensures var o := GenerateOutcome(config, paymentid, amount, useremail, itemname, payerinfo, userid, sesskey,
                                     logged, tokenResp, createResp);
      && 1 <= |o.entries| <= 2
      && o.entries[0] == TokenEntry(tokenResp)
      && (forall i :: 1 <= i < |o.entries| ==> o.entries[i].action == "checkout_intent_creation")
      && (o.request.Some? <==> HasToken(tokenResp))
      && (!HasToken(tokenResp) ==> |o.entries| == 1 && o.result.Failure? && o.result.error.TokenFailed?)
      && (HasToken(tokenResp) && !CheckoutAccepted(createResp) ==>
            |o.entries| == 2 && o.entries[1].status == ERROR && o.result.Failure? && o.result.error.CheckoutFailed?)
  {
  }

  /**
   * An accepted answer returns its redirect URL, and a success row is written
   * only when the answer carries an intent id.
   */
  lemma SuccessReturnsRedirect(config: map<string, string>, paymentid: int, amount: real, useremail: string,
                               itemname: string, payerinfo: Option<map<string, string>>, userid: int,
                               sesskey: string, logged: seq<Entry>, tokenResp: TokenResponse,
                               createResp: CreateResponse)
    requires !ConfigIncomplete(config) && amount > 0.0 && HasToken(tokenResp) && CheckoutAccepted(createResp)
    ensures var o := GenerateOutcome(config, paymentid, amount, useremail, itemname, payerinfo, userid, sesskey,
                                     logged, tokenResp, createResp);
      && o.result == Success(createResp.body.value.redirectUrl.value)
      && |o.entries| == (if TruthyInt(createResp.body.value.id) then 2 else 1)
      && o.request.Some? && o.request.value.body.totalAmount == Cents(amount)
      && o.request.value.body.metadata == Metadata(paymentid, userid)
  {
  }

  /** The payment transaction `initiate_payment` is given. */
  datatype Transaction = Transaction(id: int, amount: real)

  /** The row `initiate_payment` writes before delegating. */
  function InitiationStart(payment: Transaction, user: User): Entry {
    LogEntry(payment.id, user.id, "payment_initiation_server", SUCCESS, payment.amount,
             "Payment initiated from server (gateway.php)")
  }

  /** The effect of `initiate_payment` around the delegated call's outcome `g`. */
  function InitiateAround(payment: Transaction, user: User, g: Outcome): Outcome {
    if g.result.Success? then Outcome(g.result, [InitiationStart(payment, user)] + g.entries, g.request)
    else
      var failed := LogEntry(payment.id, user.id, "payment_initiation_server", ERROR, payment.amount,
                             ErrorCode(g.result.error));
      Outcome(g.result, [InitiationStart(payment, user)] + g.entries + [failed], g.request)
  }

  /** The call `initiate_payment` delegates to: default item name, no payer info. */
  function DelegatedOutcome(config: map<string, string>, payment: Transaction, user: User, sesskey: string,
                            logged: seq<Entry>, tokenResp: TokenResponse, createResp: CreateResponse): Outcome
  {
    GenerateOutcome(config, payment.id, payment.amount, user.email, "Paiement Moodle", None, user.id,
                    sesskey, logged + [InitiationStart(payment, user)], tokenResp, createResp)
  }

  /**
   * `initiate_payment`: logs the initiation, delegates with the default item
   * name and no payer info, and on failure logs an error row and rethrows the
   * same exception.
   */
  function InitiateOutcome(config: map<string, string>, payment: Transaction, user: User, sesskey: string,
                           logged: seq<Entry>, tokenResp: TokenResponse, createResp: CreateResponse): Outcome
  {
    InitiateAround(payment, user, DelegatedOutcome(config, payment, user, sesskey, logged, tokenResp, createResp))
  }

  lemma InitiateRethrowsSameError(config: map<string, string>, payment: Transaction, user: User, sesskey: string,
                                  logged: seq<Entry>, tokenResp: TokenResponse, createResp: CreateResponse)
    ensures var g := DelegatedOutcome(config, payment, user, sesskey, logged, tokenResp, createResp);
      var o := InitiateOutcome(config, payment, user, sesskey, logged, tokenResp, createResp);
      && o.result == g.result && o.request == g.request
      && o.entries[0].action == "payment_initiation_server" && o.entries[0].status == SUCCESS
      && o.entries[1..1 + |g.entries|] == g.entries
      && (o.result.Failure? <==> |o.entries| == |g.entries| + 2)
      && (o.result.Failure? ==> o.entries[|o.entries| - 1].status == ERROR
                                && o.entries[|o.entries| - 1].action == "payment_initiation_server")
  {
  }

  /**
   * The account configuration never holds the credentials (the account form
   * adds no field), so `initiate_payment` as written always fails for
   * missing configuration: its start row, then its error row, and no POST.
   */
  lemma AccountConfigAlwaysMissing(config: map<string, string>, payment: Transaction, user: User, sesskey: string,
                                   logged: seq<Entry>, tokenResp: TokenResponse, createResp: CreateResponse)
    requires "clientid" !in config
    ensures InitiateOutcome(config, payment, user, sesskey, logged, tokenResp, createResp)
            == Outcome(Failure(MissingConfig),
                       [InitiationStart(payment, user),
                        LogEntry(payment.id, user.id, "payment_initiation_server", ERROR, payment.amount,
                                 ErrorCode(MissingConfig))],
                       None)
  {
  }

  method InitiatePayment(log: AuditLog, config: map<string, string>, payment: Transaction, user: User,
                         sesskey: string, tokenResp: TokenResponse, createResp: CreateResponse, env: Env)
    returns (result: Result<string, PaymentError>, ghost delegated: Outcome)
    requires log.Valid()
    modifies log
    ensures log.Valid()
    ensures delegated == DelegatedOutcome(config, payment, user, sesskey, EntriesOf(old(log.records)), tokenResp, createResp)
    ensures var o := InitiateAround(payment, user, delegated);
      && result == o.result
      && log.records == old(log.records) + Stamp(o.entries, old(log.nextId), env)
      && log.nextId == old(log.nextId) + |o.entries|
  {
    ghost var before := log.records;
    ghost var id0 := log.nextId;
    var start := InitiationStart(payment, user);
    log.LogAction(start, env);
    EntriesOfStamped(before, [start], id0, env);
    ghost var mid := log.records;
    ghost var midId := log.nextId;
    delegated := DelegatedOutcome(config, payment, user, sesskey, EntriesOf(before), tokenResp, createResp);
    var request;
    result, request := GeneratePaymentUrl(log, config, payment.id, payment.amount, user.email, "Paiement Moodle",
                                          None, user.id, sesskey, tokenResp, createResp, env);
    AppendedTwice(before, mid, log.records, [start], delegated.entries, id0, midId, env);
    if result.Failure? {
      ghost var sofar := log.records;
      ghost var sofarId := log.nextId;
      var failed := LogEntry(payment.id, user.id, "payment_initiation_server", ERROR, payment.amount,
                             ErrorCode(result.error));
      log.LogAction(failed, env);
      AppendedTwice(before, sofar, log.records, [start] + delegated.entries, [failed], id0, sofarId, env);
    }
  }
}
