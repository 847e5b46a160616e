/**
 * The external service `get_config_for_js::execute`, called by the browser
 * to start a payment: it finds the active account, prices the item, checks
 * the amount and the currency, records a pending payment, builds the payer
 * block from the user's profile and returns the provider's checkout URL.
 */
module Initiation {
  import opened Wrappers
  import opened Php
  import opened Host
  import opened Logger
  import opened Gateway

  /** The plugin settings read with `get_config`; an unset one reads as "". */
  datatype Settings = Settings(clientid: string, clientsecret: string, orgSlug: string, baseUrl: string)

  /** The configuration array handed to the gateway; all four keys are always present. */
  function ConfigArray(s: Settings): (config: map<string, string>)
    ensures config.Keys == {"clientid", "clientsecret", "org_slug", "base_url"}
    ensures config["clientid"] == s.clientid && config["clientsecret"] == s.clientsecret
    ensures config["org_slug"] == s.orgSlug && config["base_url"] == s.baseUrl
  {
    map["clientid" := s.clientid, "clientsecret" := s.clientsecret, "org_slug" := s.orgSlug,
        "base_url" := s.baseUrl]
  }

  /** The configuration built from the plugin settings passes the gateway's check exactly when the three credentials are set. */
  lemma SettingsPassConfigCheck(s: Settings)
    ensures !ConfigIncomplete(ConfigArray(s))
            <==> !EmptyString(s.orgSlug) && !EmptyString(s.clientid) && !EmptyString(s.clientsecret)
  {
  }

  /**
   * `initiate_payment` as its documentation describes it: the configuration
   * comes from the global plugin settings, as this service reads it, so the
   * call fails for missing configuration exactly when a credential is unset.
   */
  function InitiateFromSettings(settings: Settings, payment: Transaction, user: User, sesskey: string,
                                logged: seq<Entry>, tokenResp: TokenResponse, createResp: CreateResponse)
    : (o: Outcome)
    ensures |o.entries| > 0 && o.entries[0] == InitiationStart(payment, user)
    ensures o.result == Failure(MissingConfig)
            <==> EmptyString(settings.orgSlug) || EmptyString(settings.clientid) || EmptyString(settings.clientsecret)
  {
    SettingsPassConfigCheck(settings);
    InitiateOutcome(ConfigArray(settings), payment, user, sesskey, logged, tokenResp, createResp)
  }

  /** The fee enrolment instance the item id names: its cost, its currency and its course. */
  datatype EnrolInstance = EnrolInstance(cost: real, currency: string, courseid: int)

  /** A non-empty answer of the component's `get_payable` callback. */
  datatype Payable = Payable(amount: Option<real>, currency: string)

  /** The arguments of `core_payment\helper::save_payment`. */
  datatype SavedPayment = SavedPayment(
    accountid: int, component: string, paymentarea: string, itemid: int, userid: int,
    amount: real, currency: string, gateway: string)

  /** What the host answers to the lookups the service makes. */
  datatype Site = Site(
    accountid: Option<int>,          // the active account with an enabled gateway, if any
    enrol: Option<EnrolInstance>,    // the `MUST_EXIST` fee instance lookup (None: it throws)
    payable: Option<Payable>,        // the callback's answer (None: null or empty)
    courseName: Option<string>,      // the course of the fee instance, if found
    newPaymentId: int)               // the id `save_payment` hands out

  predicate IsFeeEnrolment(component: string, paymentarea: string) {
    component == "enrol_fee" && paymentarea == "fee"
  }

  /** The amount (None: undetermined) and the currency of the item; a missing fee instance throws. */
  function Pricing(component: string, paymentarea: string, site: Site): Result<(Option<real>, string), PaymentError> {
    if IsFeeEnrolment(component, paymentarea) then
      if site.enrol.None? then Failure(RecordNotFound)
      else Success((Some(site.enrol.value.cost), site.enrol.value.currency))
    else if site.payable.Some? then Success((site.payable.value.amount, site.payable.value.currency))
    else Success((None, "EUR"))
  }

  /** The amount must be known and positive, then the currency must be EUR. */
  function ValidatePrice(amount: Option<real>, currency: string): (r: Result<real, PaymentError>)
    ensures r.Success? <==> amount.Some? && amount.value > 0.0 && currency == "EUR"
    ensures r.Success? ==> r.value == amount.value
    ensures r.Failure? ==> r.error == (if amount.None? || amount.value <= 0.0 then InvalidAmount else InvalidCurrency)
  {
    if amount.None? || amount.value <= 0.0 then Failure(InvalidAmount)
    else if currency != "EUR" then Failure(InvalidCurrency)
    else Success(amount.value)
  }

  /**
   * The payer block built from the profile: present only when both names are
   * non-empty; then email and both names, the city when non-empty and the
   * upper-cased country when non-empty.
   */
  function PayerInfo(user: User): (r: Option<map<string, string>>)
    ensures r.Some? <==> !EmptyString(user.firstname) && !EmptyString(user.lastname)
    ensures r.Some? ==>
      && r.value.Keys == {"email", "firstName", "lastName"}
                         + (if EmptyString(user.city) then {} else {"city"})
                         + (if EmptyString(user.country) then {} else {"country"})
      && r.value["email"] == user.email
      && r.value["firstName"] == user.firstname && r.value["lastName"] == user.lastname
      && ("city" in r.value ==> r.value["city"] == user.city)
      && ("country" in r.value ==> r.value["country"] == ToUpper(user.country))
  {
    if EmptyString(user.firstname) || EmptyString(user.lastname) then None
    else
      var base := map["email" := user.email, "firstName" := user.firstname, "lastName" := user.lastname];
      var withCity := if EmptyString(user.city) then base else base["city" := user.city];
      Some(if EmptyString(user.country) then withCity else withCity["country" := ToUpper(user.country)])
  }

  /** Builds the payer block field by field, as the service does. */
  method BuildPayerInfo(user: User) returns (payerinfo: Option<map<string, string>>)
    ensures payerinfo == PayerInfo(user)
  {
    payerinfo := None;
    if !EmptyString(user.firstname) && !EmptyString(user.lastname) {
      var payer := map["email" := user.email, "firstName" := user.firstname, "lastName" := user.lastname];
      if !EmptyString(user.city) {
        payer := payer["city" := user.city];
      }
      if !EmptyString(user.country) {
        payer := payer["country" := ToUpper(user.country)];
      }
      payerinfo := Some(payer);
    }
  }

  /** The item name: the course name for a fee enrolment whose course is found, else the component. */
  function ItemName(component: string, paymentarea: string, site: Site): string {
    if IsFeeEnrolment(component, paymentarea) && site.enrol.Some? && site.courseName.Some? then
      "Inscription - " + site.courseName.value
    else
      "Paiement Moodle - " + component
  }

  /** The whole effect of a call: result, the payment recorded, the rows logged and the POST sent. */
  datatype ExecuteOutcome = ExecuteOutcome(
    result: Result<string, PaymentError>, saved: Option<SavedPayment>, entries: seq<Entry>,
    request: Option<CheckoutRequest>)

  function InitiationRow(paymentid: int, userid: int, amount: real, g: Outcome): Entry {
    if g.result.Success? then
      LogEntry(paymentid, userid, "payment_initiation_js", SUCCESS, amount, "Payment initiated from JavaScript",
               Some(200), "PAY-" + IntToString(paymentid))
    else
      LogEntry(paymentid, userid, "payment_initiation_js", ERROR, amount, ErrorCode(g.result.error), Some(500))
  }

  /** The outcome of the gateway call once the payment `paymentid` of `amount` is recorded. */
  function DelegateOutcome(component: string, paymentarea: string, user: User, settings: Settings, site: Site,
                           amount: real, sesskey: string, logged: seq<Entry>,
                           tokenResp: TokenResponse, createResp: CreateResponse): Outcome
  {
    GenerateOutcome(ConfigArray(settings), site.newPaymentId, amount, user.email,
                    ItemName(component, paymentarea, site), PayerInfo(user), user.id, sesskey, logged,
                    tokenResp, createResp)
  }

  function ExecuteOutcomeOf(component: string, paymentarea: string, itemid: int, user: User, settings: Settings,
                            site: Site, sesskey: string, logged: seq<Entry>,
                            tokenResp: TokenResponse, createResp: CreateResponse): ExecuteOutcome
  {
    if site.accountid.None? then ExecuteOutcome(Failure(AccountNotFound), None, [], None)
    else
      match Pricing(component, paymentarea, site)
      case Failure(e) => ExecuteOutcome(Failure(e), None, [], None)
      case Success(price) =>
        match ValidatePrice(price.0, price.1)
        case Failure(e) => ExecuteOutcome(Failure(e), None, [], None)
        case Success(amount) =>
          var saved := SavedPayment(site.accountid.value, component, paymentarea, itemid, user.id, amount,
                                    "EUR", "helloasso");
          var g := DelegateOutcome(component, paymentarea, user, settings, site, amount, sesskey, logged,
                                   tokenResp, createResp);
          ExecuteOutcome(g.result, Some(saved), g.entries + [InitiationRow(site.newPaymentId, user.id, amount, g)],
                         g.request)
  }

  /**
   * `get_config_for_js::execute`. Exceptions raised before the payment is
   * recorded are rethrown unlogged; after it, they are logged with HTTP 500
   * and rethrown.
   */
  method Execute(log: AuditLog, component: string, paymentarea: string, itemid: int, user: User,
                 settings: Settings, site: Site, sesskey: string,
                 tokenResp: TokenResponse, createResp: CreateResponse, env: Env)
    returns (result: Result<string, PaymentError>, saved: Option<SavedPayment>)
    requires log.Valid()
    modifies log
    ensures log.Valid()
    ensures var o := ExecuteOutcomeOf(component, paymentarea, itemid, user, settings, site, sesskey,
                                      EntriesOf(old(log.records)), tokenResp, createResp);
      && result == o.result && saved == o.saved
      && log.records == old(log.records) + Stamp(o.entries, old(log.nextId), env)
      && log.nextId == old(log.nextId) + |o.entries|
  {
    if site.accountid.None? {
      return Failure(AccountNotFound), None;
    }
    var accountid := site.accountid.value;
    var config := ConfigArray(settings);

    var amount: Option<real> := None;
    var currency := "EUR";
    if component == "enrol_fee" && paymentarea == "fee" {
      if site.enrol.None? {
        return Failure(RecordNotFound), None;
      }
      amount := Some(site.enrol.value.cost);
      currency := site.enrol.value.currency;
    } else if site.payable.Some? {
      amount := site.payable.value.amount;
      currency := site.payable.value.currency;
    }
    if amount.None? || amount.value <= 0.0 {
      return Failure(InvalidAmount), None;
    }
    if currency != "EUR" {
      return Failure(InvalidCurrency), None;
    }

    var paymentid := site.newPaymentId;
    saved := Some(SavedPayment(accountid, component, paymentarea, itemid, user.id, amount.value, "EUR", "helloasso"));
    var payerinfo := BuildPayerInfo(user);
    var itemname := ItemName(component, paymentarea, site);

    ghost var before := log.records;
    ghost var id0 := log.nextId;
    ghost var g := DelegateOutcome(component, paymentarea, user, settings, site, amount.value, sesskey,
                                   EntriesOf(before), tokenResp, createResp);
    var request;
    result, request := GeneratePaymentUrl(log, config, paymentid, amount.value, user.email, itemname, payerinfo,
                                          user.id, sesskey, tokenResp, createResp, env);
    ghost var mid := log.records;
    ghost var midId := log.nextId;
    var row;
    if result.Success? {
      row := LogEntry(paymentid, user.id, "payment_initiation_js", SUCCESS, amount.value,
                      "Payment initiated from JavaScript", Some(200), "PAY-" + IntToString(paymentid));
    } else {
      row := LogEntry(paymentid, user.id, "payment_initiation_js", ERROR, amount.value, ErrorCode(result.error),
                      Some(500));
    }
    log.LogAction(row, env);
    AppendedTwice(before, mid, log.records, g.entries, [row], id0, midId, env);
  }

  // ---------------------------------------------------------------- properties

  /** The currency check accepts exactly the currencies the gateway declares. */
  lemma CurrencyAcceptedIffSupported(amount: real, currency: string)
    requires amount > 0.0
    ensures ValidatePrice(Some(amount), currency).Success? <==> currency in SupportedCurrencies()
  {
  }

  /**
   * A payment is recorded only for an active account and a positive amount
   * in EUR, and it is recorded in EUR for this gateway with the validated
   * amount, for the current user and the requested item.
   */
  lemma RecordedOnlyWhenValid(component: string, paymentarea: string, itemid: int, user: User, settings: Settings,
                              site: Site, sesskey: string, logged: seq<Entry>,
                              tokenResp: TokenResponse, createResp: CreateResponse)
    ensures var o := ExecuteOutcomeOf(component, paymentarea, itemid, user, settings, site, sesskey, logged,
                                      tokenResp, createResp);
      && (o.saved.Some? <==>
            site.accountid.Some? && Pricing(component, paymentarea, site).Success?
            && ValidatePrice(Pricing(component, paymentarea, site).value.0,
                             Pricing(component, paymentarea, site).value.1).Success?)
      && (o.saved.Some? ==>
            && o.saved.value.currency == "EUR" && o.saved.value.gateway == "helloasso"
            && o.saved.value.amount > 0.0
            && o.saved.value.amount == Pricing(component, paymentarea, site).value.0.value
            && o.saved.value.userid == user.id && o.saved.value.accountid == site.accountid.value
            && o.saved.value.component == component && o.saved.value.paymentarea == paymentarea
            && o.saved.value.itemid == itemid)
  {
  }

  /**
   * Failures before the payment is recorded log nothing; once it is
   * recorded, the call ends with one `payment_initiation_js` row for it:
   * success with HTTP 200 and the `PAY-` reference when a URL is returned,
   * error with HTTP 500 and the exception's message when one is rethrown.
   */
  lemma InitiationRowFollowsRecord(component: string, paymentarea: string, itemid: int, user: User,
                                   settings: Settings, site: Site, sesskey: string, logged: seq<Entry>,
                                   tokenResp: TokenResponse, createResp: CreateResponse)
    ensures var o := ExecuteOutcomeOf(component, paymentarea, itemid, user, settings, site, sesskey, logged,
                                      tokenResp, createResp);
      && (o.saved.None? ==> o.entries == [] && o.result.Failure? && o.request.None?)
      && (o.saved.Some? ==>
            var last := o.entries[|o.entries| - 1];
            && last.action == "payment_initiation_js" && last.paymentid == site.newPaymentId
            && last.amount == o.saved.value.amount
            && (o.result.Success? ==> last.status == SUCCESS && last.responseCode == Some(200)
                                      && last.reference == "PAY-" + IntToString(site.newPaymentId))
            && (o.result.Failure? ==> last.status == ERROR && last.responseCode == Some(500)
                                      && last.message == ErrorCode(o.result.error)))
  {
  }

  /**
   * The checks made before the payment is recorded fail in the program's
   * order, each with its own error: no active account, then a fee
   * enrolment that is not found, then a missing or non-positive amount,
   * then a currency other than EUR.
   */
  lemma PreSaveErrors(component: string, paymentarea: string, itemid: int, user: User, settings: Settings,
                      site: Site, sesskey: string, logged: seq<Entry>,
                      tokenResp: TokenResponse, createResp: CreateResponse)
    ensures var o := ExecuteOutcomeOf(component, paymentarea, itemid, user, settings, site, sesskey, logged,
                                      tokenResp, createResp);
      var p := Pricing(component, paymentarea, site);
      && (site.accountid.None? ==> o.result == Failure(AccountNotFound))
      && (site.accountid.Some? && p.Failure? ==> o.result == Failure(p.error))
      && ((site.accountid.Some? && IsFeeEnrolment(component, paymentarea) && site.enrol.None?)
            ==> o.result == Failure(RecordNotFound))
      && ((site.accountid.Some? && p.Success? && ValidatePrice(p.value.0, p.value.1).Failure?)
            ==> o.result == Failure(ValidatePrice(p.value.0, p.value.1).error))
  {
  }

  /**
   * Once recorded, the call returns and rethrows exactly what the gateway
   * returned or raised for that payment, its amount, the user's email, the
   * item name and the payer block.
   */
  lemma DelegatesToGateway(component: string, paymentarea: string, itemid: int, user: User, settings: Settings,
                           site: Site, sesskey: string, logged: seq<Entry>,
                           tokenResp: TokenResponse, createResp: CreateResponse)
    requires site.accountid.Some? && IsFeeEnrolment(component, paymentarea) && site.enrol.Some?
    requires site.enrol.value.cost > 0.0 && site.enrol.value.currency == "EUR"
    ensures var o := ExecuteOutcomeOf(component, paymentarea, itemid, user, settings, site, sesskey, logged,
                                      tokenResp, createResp);
      var g := GenerateOutcome(ConfigArray(settings), site.newPaymentId, site.enrol.value.cost, user.email,
                               ItemName(component, paymentarea, site), PayerInfo(user), user.id, sesskey,
                               logged, tokenResp, createResp);
      && o.result == g.result && o.request == g.request
      && o.entries[..|g.entries|] == g.entries
  {
  }

  /** A fee enrolment whose course is found is named after the course. */
  lemma FeeItemNamedAfterCourse(site: Site)
    requires site.enrol.Some? && site.courseName.Some?
    ensures ItemName("enrol_fee", "fee", site) == "Inscription - " + site.courseName.value
    ensures ItemName("enrol_fee", "other", site) == "Paiement Moodle - enrol_fee"
  {
  }
}
