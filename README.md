# HelloAsso payment gateway for Moodle — a Dafny model

This project models the core of the `paygw_helloasso` Moodle payment gateway:

- the audit log written by every step, and its queries (`classes/logger.php`);
- the gateway (`classes/gateway.php`):
  - obtaining an OAuth2 token from HelloAsso;
  - creating a checkout intent: validating the configuration and the amount, converting the amount to cents, choosing the payer block, and logging each failed call;
- the return endpoint (`return.php`):
  - the session-key gate, which logs `fraud_detected`;
  - the code check;
  - the server-side verification of a claimed payment against HelloAsso's own record of the intent (order id, amount, first settled payment, metadata binding);
  - delivering the order only when that verification passes;
- the cancel and error endpoints (`cancel.php`, `error.php`);
- the web service that records a payment and starts it (`classes/external/get_config_for_js.php`);
- the privacy provider's listing, export and erasure of log rows (`classes/privacy/provider.php`).

## How the model is built

Shared values:
- The log is a class, `Logger.AuditLog`. Its `records` field is a sequence of rows with increasing ids. `LogAction` appends one row, as `log_action` inserts one.
- Outbound HTTP answers are parameters: `TokenResponse`, `CreateResponse` and the decoded intent `IntentJson`. The same goes for the time and client address of a request (`Logger.Env`), the session-key test and the database rows a handler reads. Each request is modelled with one clock reading.
- Exceptions are `Host.PaymentError` values. Their messages are modelled by the error identifier (`Host.ErrorCode`).

Handlers:
- Each request handler is a method that changes the log: `GeneratePaymentUrl`, `InitiatePayment`, `VerifyPayment`, `HandleReturn`, `HandleCancel`, `HandleError`, `Execute` and the privacy deletions.
- Each is proved to append exactly the rows computed by a pure outcome function. The same function computes its result.
- The properties the plugin promises are proved as lemmas about those outcome functions.

PHP and Moodle semantics that are written out:
- `empty()` is true for `""` and `"0"` (`Php.EmptyString`).
- An optional integer parameter that defaults to `''` is an `Option<int>`.
- `round` rounds half away from zero (`Money.Round`).
- The `get_records(..., 'timecreated DESC')` reads are filtered, then reversed by row id (`Logger.Where`, `Logger.Reverse`).
- A `MUST_EXIST` lookup that fails throws into the handler's catch block.

## Model

| member | source | states |
|---|---|---|
| Php.ToUpper | classes/external/get_config_for_js.php:213 | the upper-cased country code keeps its length and upper-cases each character |
| Money.Round | classes/gateway.php:173 | the result is within half a unit of the amount, and a tie goes away from zero |
| Money.CentsOfWholeCents | classes/gateway.php:173 | an amount that is a whole number of cents converts to exactly that number of cents |
| Money.SubHalfCentIsZero | classes/gateway.php:173 | a positive amount below half a cent passes the `amount > 0` check but converts to 0 cents |
| Money.CentsMonotone | classes/gateway.php:173 | the conversion to cents never reverses the order of two amounts |
| Logger.AuditLog.LogAction | classes/logger.php:36-52 | appends exactly one row, holding the next id, the caller's fields and the request's client address and time; the earlier rows are unchanged |
| Logger.LogTwo | classes/logger.php:36-52 | two consecutive `log_action` calls append the two rows in order |
| Logger.AuditLog.DeleteAll | classes/privacy/provider.php:180 | every row is removed |
| Logger.AuditLog.DeleteUsers | classes/privacy/provider.php:188-222 | exactly the rows of the listed users are removed; the others keep their order |
| Logger.Where | classes/logger.php:57-88 | a row is kept exactly when it is in the log and meets the criterion, in log order |
| Logger.ReverseReverse | classes/logger.php:59 | reversing twice gives back the original rows, and reversing keeps each row exactly as often as it occurs |
| Logger.ReverseMembers | classes/logger.php:59 | reversing keeps exactly the same rows |
| Logger.PaymentLogs | classes/logger.php:57-60 | returns exactly the rows of that payment |
| Logger.ErrorLogs | classes/logger.php:65-74 | returns at most `limit` rows, all of them errors (default limit 100) |
| Logger.FraudAlerts | classes/logger.php:79-88 | returns at most `limit` rows, all of them fraud alerts (default limit 50) |
| Logger.WherePairwise | classes/logger.php:57-88 | filtering keeps every ordering relation that held between the rows of the log |
| Logger.WhereAscending | classes/logger.php:57-88 | filtering keeps ids ascending and times non-decreasing |
| Logger.WhereIdempotent | classes/privacy/provider.php:188-200 | filtering twice by the same criterion is the same as filtering once |
| Logger.NewestFirst | classes/logger.php:59 | a filtered read is in descending id order, and newest first by time when the log is chronological |
| Logger.PaymentLogsNewestFirst | classes/logger.php:57-60 | a payment's history holds exactly its rows, newest first |
| Logger.LimitedReadIsMostRecent | classes/logger.php:65-88 | a limited read returns the `limit` most recent rows with that status, newest first; an older row is omitted only when `limit` newer ones are returned |
| Logger.ErrorLogsAreMostRecent | classes/logger.php:65-74 | the error listing is in descending id order; an error row is left out only when `limit` rows are returned, every one of them newer than it |
| Logger.FraudAlertsAreMostRecent | classes/logger.php:79-88 | the fraud listing is in descending id order; a fraud row is left out only when `limit` rows are returned, every one of them newer than it |
| Logger.AppendKeepsChronological | classes/logger.php:36-52 | appending rows stamped with a time no earlier than the last row keeps the log ordered by time |
| Gateway.CanRefund | classes/gateway.php:347-349 | pins the constant answer: the gateway never offers refunds |
| Gateway.ApiUrlDefaultNeverApplies | classes/gateway.php:294-297 | pins the API address for every setting value: `https://api.` followed by the configured domain; an unset setting reads as `false`, so the `??` default is never used |
| Gateway.TokenEntry | classes/gateway.php:321-339 | one `token_request` row with payment and user 0 and the HTTP code; it is a success exactly when an access token came back |
| Gateway.TokenIgnoresHttpCode | classes/gateway.php:318-340 | the token depends only on the body, and exists exactly when the body decodes and carries `access_token` |
| Gateway.FetchToken | classes/gateway.php:304-340 | returns the token and logs exactly one row for the attempt |
| Gateway.LastTokenError | classes/gateway.php:133-153 | a failed `token_request` row of the log with no failed `token_request` row after it, or none when the log has no such row |
| Gateway.TokenFailureNamesThisAttempt | classes/gateway.php:129-153 | after a failed attempt, the error detail is read from that attempt's own row |
| Gateway.TokenFailureMessage | classes/gateway.php:139-152 | builds the detail of the exception thrown when no token comes back, as given by the last failed token row |
| Gateway.TokenFailureMessageForAttempt | classes/gateway.php:139-152 | after a failed token request, the detail is `Failed to obtain authentication token: ` and that request's own message, followed by ` (HTTP <code>)` exactly when the code is not 0 |
| Gateway.PayerBlock | classes/gateway.php:189-200 | a non-empty payer info is copied with a two-letter country removed and every other field kept; otherwise the email alone when it is non-empty; otherwise no payer block |
| Gateway.CheckoutDataOf | classes/gateway.php:156-200 | total and initial amounts are the amount in cents, no donation, the metadata binds the payment and user ids, the return and error URLs carry the payment id and session key, the back URL only the payment id; the return, back and error URLs point at `return.php`, `cancel.php` and `error.php` of the gateway |
| Gateway.BuildCheckoutData | classes/gateway.php:156-200 | builds exactly that checkout body |
| Gateway.CreationEntries | classes/gateway.php:214-240 | a refused answer logs one error row with the HTTP code; an accepted one logs one success row only when it carries an id |
| Gateway.ReadCreation | classes/gateway.php:214-242 | returns the redirect URL or the checkout error, and logs those rows |
| Gateway.GeneratePaymentUrl | classes/gateway.php:96-243 | the result, the request sent and the rows appended are those of `generate_payment_url`'s outcome |
| Gateway.ConfigCheckedFirst | classes/gateway.php:102-123 | missing credentials or slug fail before anything is logged or sent |
| Gateway.AmountCheckedBeforeToken | classes/gateway.php:125-127 | a non-positive amount fails before any token request |
| Gateway.OneEntryPerFailedAttempt | classes/gateway.php:129-240 | the first row is the token row; each failed outbound call writes exactly one row; the checkout POST is sent exactly when a token was obtained |
| Gateway.SuccessReturnsRedirect | classes/gateway.php:173-242 | an accepted answer returns its redirect URL; the POST carried the amount in cents and the payment and user ids; a success row is written only when the answer carries an intent id |
| Gateway.InitiateRethrowsSameError | classes/gateway.php:254-287 | `initiate_payment` logs its start, passes on the delegated rows, result and request unchanged, and adds one error row exactly when it rethrows |
| Gateway.InitiatePayment | classes/gateway.php:254-287 | returns and logs what that outcome says |
| Gateway.AccountConfigAlwaysMissing | classes/gateway.php:254-287 | with a configuration lacking `clientid`, as the account configuration always does, `initiate_payment` fails with `missingconfig` after exactly its start row and its error row, and sends nothing |
| Verification.FirstSettled | return.php:213-227 | the index of the first payment in state `Authorized` or `Processed`, or none when there is no such payment |
| Verification.FirstSettledUnique | return.php:213-227 | the first settled payment is unique |
| Verification.ScanPayments | return.php:213-231 | the payments are accepted exactly when some payment is the first settled one and carries the expected amount |
| Verification.VerifiedIffAllChecksHold | return.php:153-243 | the server-side check accepts exactly when an intent id and a slug are present, a token is obtained, the intent is found, a non-zero order id matches, the total and the first settled payment equal the amount in cents, and any metadata payment id equals the payment's id |
| Verification.VerifyPayment | return.php:153-243 | returns that verdict, sends the intent request only when the earlier checks allow, and logs the token row |
| Verification.CheckResponse | return.php:185-242 | the decoded intent is accepted exactly by the step-by-step checks: present order with an id, matching non-zero order id, total equal to the expected cents, first settled payment with that amount, metadata naming this payment |
| Verification.NoRequestWithoutIntentOrSlug | return.php:156-164 | without an intent id or an organisation slug, verification fails with no token request and no row |
| Verification.OrderMismatchRejects | return.php:200-203 | a non-zero order id that differs from the intent's order is rejected |
| Verification.ZeroOrderIdSkipsCheck | return.php:200-203 | an order id of 0 skips the order comparison |
| Verification.MetadataBindsPayment | return.php:235-239 | an intent whose metadata names another payment is rejected |
| Verification.VerifiedAmountMatches | return.php:205-231 | when verification accepts, the order total and a settled payment's amount both equal the expected cents |
| Verification.FirstSettledInPrefix | return.php:213-227 | payments after the first settled one do not change which one is first |
| Verification.LaterPaymentsIgnored | return.php:213-231 | payments listed after a settled one do not change the verdict |
| Verification.SentAmountIsExpectedAmount | return.php:205-210 | the amount checked on return is the amount in cents that the checkout POST sent for the same payment |
| Verification.WorkedExample | return.php:153-243 | worked example on fixed values: a payment of 10.00 settled as 1000 cents with matching metadata is accepted; the same intent with another payment's metadata is rejected |
| ReturnPage.Confirm | return.php:87-125 | after a succeeded code, the order is delivered with a success row when verification accepts; otherwise a failure row and the catch block's row are written |
| ReturnPage.HandleReturn | return.php:26-142 | the rows appended, the order delivered and the page shown are those of the return outcome |
| ReturnPage.InvalidSesskeyIsFraud | return.php:38-49 | a bad session key writes a fraud row and then the catch block's error row, requests no token and delivers nothing |
| ReturnPage.FraudOnlyOnBadSesskey | return.php:38-49 | a fraud row is written exactly when the session key is invalid |
| ReturnPage.MissingRecordLoggedOnce | return.php:53 | an unknown payment id is logged once by the catch block, with amount 0 |
| ReturnPage.NotSucceededSkipsVerification | return.php:69-82 | a code other than `succeeded` is logged as an error with HTTP 400, asks HelloAsso nothing and delivers nothing |
| ReturnPage.DeliveryIffVerified | return.php:87-111 | the order is delivered exactly when the session key is valid, the record exists, the code is `succeeded` and every server-side check holds; it is delivered for the loaded payment and the current user, after a success row with HTTP 200 |
| ReturnPage.EveryReturnEndsWithItsRow | return.php:26-142 | every request ends with a `payment_return` row, which is a success exactly when the order is delivered |
| CancelPage.HandleCancel | cancel.php:27-43 | shows the cancellation notice and appends the cancellation rows, with the record looked up by the payment id |
| CancelPage.CancelLoggedIffPositiveId | cancel.php:27-38 | one `cancelled` row is written exactly when the payment id is positive; it carries the stored amount, or 0 when the payment does not exist |
| ErrorPage.HandleError | error.php:22-84 | the rows appended and the page shown are those of the error outcome |
| ErrorPage.AtMostOneRow | error.php:31-67 | at most one row: fraud for a bad session key, the technical error with HTTP 500 for a known payment, nothing when the lookup throws |
| ErrorPage.DebugInfoOnlyInDebugMode | error.php:69-77 | the raw error codes are shown exactly when debug mode is on and the technical notice is rendered |
| ErrorPage.ExceptionsAreShown | error.php:79-84 | pins the page for both exception kinds: both exceptions are shown to the user with the `payment_error` prefix |
| Initiation.SettingsPassConfigCheck | classes/external/get_config_for_js.php:122-127 | the configuration built from the plugin settings passes the gateway's configuration check exactly when the slug, the client id and the client secret are all set |
| Initiation.InitiateFromSettings | classes/gateway.php:254-287 | `initiate_payment` reading the global settings starts with its start row, and fails with `missingconfig` exactly when a credential is unset |
| Initiation.ValidatePrice | classes/external/get_config_for_js.php:165-177 | the price is accepted exactly when it is set, positive and in EUR; otherwise the amount error comes before the currency error |
| Initiation.PayerInfo | classes/external/get_config_for_js.php:200-215 | a payer block exists exactly when the user has a first and last name; it then holds the names, the email, the city and the upper-cased country |
| Initiation.BuildPayerInfo | classes/external/get_config_for_js.php:200-215 | builds exactly that payer block |
| Initiation.Execute | classes/external/get_config_for_js.php:66-277 | the result, the payment saved and the rows appended are those of the web service's outcome |
| Initiation.CurrencyAcceptedIffSupported | classes/external/get_config_for_js.php:172-177 | for a positive amount, a currency is accepted exactly when the gateway lists it as supported |
| Initiation.PreSaveErrors | classes/external/get_config_for_js.php:89-177 | the checks before the save fail in order, each with its own error: no active account gives `accountnotfound`; a failed pricing gives its own error, `invalidrecord` (the `MUST_EXIST` lookup's error) for a missing fee enrolment; a valid pricing with a missing or non-positive amount gives `invalidamount`, with a currency other than EUR the currency error |
| Initiation.RecordedOnlyWhenValid | classes/external/get_config_for_js.php:89-193 | a payment is saved exactly when the account is active and the price is valid; it is saved in EUR for this gateway, user, account and item |
| Initiation.InitiationRowFollowsRecord | classes/external/get_config_for_js.php:184-276 | a failure before the save logs nothing; after the save the call ends with one row for the payment: success with HTTP 200 and the `PAY-` reference, or error with HTTP 500 and the exception's message |
| Initiation.DelegatesToGateway | classes/external/get_config_for_js.php:218-234 | a fee enrolment passes the new payment, the course cost, the user's email, the item name and the payer block to `generate_payment_url`, and returns its result unchanged |
| Initiation.FeeItemNamedAfterCourse | classes/external/get_config_for_js.php:218-224 | pins the item name: a fee enrolment is named after its course; other payment areas get the generic name |
| Privacy.UsersInContext | classes/privacy/provider.php:114-125 | in the system context, the users listed are exactly those with a log row; elsewhere none |
| Privacy.DeleteAllUsersInContext | classes/privacy/provider.php:173-181 | in the system context every row is removed; elsewhere nothing changes |
| Privacy.DeleteForUser | classes/privacy/provider.php:188-200 | when a system context is approved, exactly that user's rows are removed; otherwise nothing changes |
| Privacy.DeleteForUsers | classes/privacy/provider.php:207-222 | in the system context with a non-empty user list, exactly those users' rows are removed; otherwise nothing changes |
| Privacy.ErasureIsExact | classes/privacy/provider.php:188-222 | erasure keeps exactly the other users' rows, never adds a row, and is idempotent |
| Privacy.ErasedUserHasNoData | classes/privacy/provider.php:114-125 | after erasure the user is no longer listed in any context |
| Privacy.UserRows | classes/privacy/provider.php:142-157 | there is one exported row per log row of the user, in the order of the user's rows newest first (row i is the export of the i-th such row); every row of the user is exported, and every exported row comes from a row of the user |
| Privacy.ExportUserData | classes/privacy/provider.php:132-166 | exports, for each approved system context, the user's rows newest first |
| Privacy.UserLogsAreTheUsersNewestFirst | classes/privacy/provider.php:142 | the export reads exactly the user's rows, newest first |
| Privacy.ExportsHoldTheUsersRows | classes/privacy/provider.php:132-166 | every export is for a system context and holds exactly the user's rows |
| Privacy.NothingToExport | classes/privacy/provider.php:132-166 | a user with no rows, or a request with no system context, exports nothing |
| Privacy.ExportAsWritten | classes/privacy/provider.php:156 | the export as written fails exactly when a system context is approved and the user has a row |
| Privacy.ExportAsWrittenFailsOnAnyRow | classes/privacy/provider.php:156 | worked example on a fixed log: one row for user 7 makes the export as written fail, while the corrected export returns that row |

## Left out

- HTTP, JSON decoding and curl errors: each answer is a parameter of the operation that reads it, already decoded, so a malformed body is an absent field.
- Session handling, `require_login`, `require_sesskey`/`confirm_sesskey` and the `PARAM_*` cleaning of request parameters: the session-key test is a boolean parameter, and parameters arrive already cleaned.
- Page rendering, redirects, language strings and `debugging()` output: a page is its notification text, style and debug line.
- Exception messages: they are modelled by the error identifier, not by the translated string.
- Log table names: `classes/logger.php` reads and writes `payment_helloasso_logs`. The only table the upgrade script creates is `paygw_helloasso_logs`, which the token-failure query in `classes/gateway.php`, the payments page and the privacy provider use. The model merges the two into one log. If only the upgrade script's table exists, every `log_action` throws a database exception, including the one in `return.php`'s catch block, and this is not modelled.
- Gateway.TokenFailureNamesThisAttempt and Gateway.TokenFailureMessageForAttempt hold only for the merged log. In the program, the token-failure query reads a table that `log_action` never writes, so the detail cannot name the attempt that just failed.
- Logger.PaymentLogs, Logger.ErrorLogs, Logger.FraudAlerts, Logger.NewestFirst, Logger.PaymentLogsNewestFirst, Logger.LimitedReadIsMostRecent, Logger.ErrorLogsAreMostRecent, Logger.FraudAlertsAreMostRecent, Privacy.UserLogs, Privacy.UserLogsAreTheUsersNewestFirst and Gateway.LastTokenError: the source orders by `timecreated DESC`. Times have one-second resolution, and the database leaves rows with equal times in no fixed order. The model breaks such ties by descending row id and, for the time-order clauses, assumes the clock never goes back. "Newest first" and "this attempt" are the model's tie-break, not a guarantee of the program. Rows of one request all share one time in the model.
- The `MUST_EXIST` read of `payment_gateways` at `classes/external/get_config_for_js.php:114-117` cannot fail after the join at lines 89-97 found an enabled gateway for that account, and the `!$payment` branches after `MUST_EXIST` reads of the payment (`return.php:54-65` and `error.php:45-55`) cannot be reached; neither is modelled.
- `core_payment\helper::deliver_order` failing: delivery is an output value, and a throwing delivery is not modelled.
- `component_callback` for areas other than fee enrolments: its answer is a parameter, either an amount and a currency or nothing. The callback returns an object, and indexing it as an array raises a PHP `Error`, which `catch (\Exception)` does not catch. That `Error` is not modelled.
- `get_contexts_for_userid`, `get_metadata`, the admin settings form, the payments report page and the install/upgrade scripts are not part of this model.
- Floating point: amounts are reals, so `round($amount * 100)` is exact here. A binary float such as 0.285 can round to the other cent in PHP.
- Gateway.InitiatePayment: it accepts any configuration map. As written, the account configuration it reads never holds the credentials (see Findings), so the program always takes the `missingconfig` path (`Gateway.AccountConfigAlwaysMissing`).

## Findings

| source | as written | input that shows it | evidently intended | confidence | as-written member | corrected member |
|---|---|---|---|---|---|---|
| classes/privacy/provider.php:156 | `transform::datetime` is called without a `use` of `core_privacy\local\request\transform`, so the name resolves to `paygw_helloasso\privacy\transform`, which does not exist, and the export throws | a user with one log row and an approved system context | the export writes the user's rows with a formatted date | not executed | Privacy.ExportAsWritten | Privacy.ExportUserData |
| classes/gateway.php:254-287 | `initiate_payment` takes its credentials from `$this->get_configuration()`, the payment account's gateway configuration. The account form adds no field (gateway.php:58-67), so that configuration never holds `clientid`, `clientsecret` or `org_slug`, and `generate_payment_url` throws `missingconfig` | any call of `initiate_payment` | read the global plugin settings, as the documentation at gateway.php:58-60 and `get_config_for_js.php:122-127` do | not executed | Gateway.AccountConfigAlwaysMissing | Initiation.InitiateFromSettings |
