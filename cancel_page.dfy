/**
 * `cancel.php`: the page the provider sends the browser back to when the
 * user abandons the checkout. It records the cancellation when it is given
 * a positive payment id and always shows the cancellation notice.
 */
module CancelPage {
  import opened Wrappers
  import opened Host
  import opened Logger

  /** The row written for a cancellation; the amount is the record's, or 0 when the lookup found nothing. */
  function CancelRow(paymentid: int, userid: int, record: Option<PaymentRecord>): Entry {
    LogEntry(paymentid, userid, "payment_cancelled", CANCELLED, if record.Some? then record.value.amount else 0.0,
             "User cancelled payment on HelloAsso page")
  }

  /** The rows a cancellation writes: one for a positive payment id, none otherwise. */
  function CancelEntries(paymentid: int, userid: int, record: Option<PaymentRecord>): seq<Entry> {
    if paymentid > 0 then [CancelRow(paymentid, userid, record)] else []
  }

  /** The page every cancellation renders. */
  function CancelPageShown(): Page {
    Notification("payment_cancelled", "notifyproblem", "")
  }

  /**
   * `cancel.php`. `paymentid` is 0 when the parameter is absent; `record` is
   * what the plain lookup returns for it (None: no such row), used only when
   * the id is positive.
   */
  method HandleCancel(log: AuditLog, paymentid: int, userid: int, record: Option<PaymentRecord>, env: Env)
    returns (page: Page)
    requires log.Valid()
    requires paymentid > 0 && record.Some? ==> record.value.id == paymentid
    modifies log
    ensures log.Valid()
    ensures page == CancelPageShown()
    ensures log.records == old(log.records) + Stamp(CancelEntries(paymentid, userid, record), old(log.nextId), env)
    ensures log.nextId == old(log.nextId) + |CancelEntries(paymentid, userid, record)|
  {
    if paymentid > 0 {
      var amount := if record.Some? then record.value.amount else 0.0;
      log.LogAction(LogEntry(paymentid, userid, "payment_cancelled", CANCELLED, amount,
                             "User cancelled payment on HelloAsso page"), env);
    }
    page := Notification("payment_cancelled", "notifyproblem", "");
  }

  /**
   * A cancellation is logged exactly when the payment id is positive, as one
   * `cancelled` row for that payment and user carrying the stored amount, or
   * 0 when no such payment exists; it is never a success or fraud row.
   */
  lemma CancelLoggedIffPositiveId(paymentid: int, userid: int, record: Option<PaymentRecord>)
    ensures var es := CancelEntries(paymentid, userid, record);
      && (|es| > 0 <==> paymentid > 0)
      && |es| <= 1
      && (forall e :: e in es ==>
            && e.paymentid == paymentid && e.userid == userid
            && e.status == CANCELLED && e.action == "payment_cancelled"
            && e.amount == (if record.Some? then record.value.amount else 0.0))
  {
  }
}
