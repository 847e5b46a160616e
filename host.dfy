/**
 * What the plugin receives from, and hands back to, the Moodle host: the
 * records it reads, the exceptions it raises, the order it asks the host to
 * deliver and the page a request renders.
 */
module Host {

  /** The context level of the system context. */
  const CONTEXT_SYSTEM: int := 10

  /** A row of the host's `payments` table. */
  datatype PaymentRecord = PaymentRecord(
    id: int, component: string, paymentarea: string, itemid: int,
    userid: int, amount: real, currency: string, gateway: string)

  /** The arguments of `core_payment\helper::deliver_order`. */
  datatype DeliverOrder = DeliverOrder(
    component: string, paymentarea: string, itemid: int, paymentid: int, userid: int)

  /** The profile fields of the current user that the plugin reads. */
  datatype User = User(
    id: int, email: string, firstname: string, lastname: string, city: string, country: string)

  /** A privacy context: its id and its level. */
  datatype Context = Context(id: int, contextlevel: int)

  /** The exceptions raised along the payment lifecycle. */
  datatype PaymentError =
    | MissingConfig
    | InvalidAmount
    | TokenFailed(detail: string)
    | CheckoutFailed(detail: string)
    | AccountNotFound
    | RecordNotFound
    | InvalidCurrency
    | InvalidSesskey
    | PaymentNotCompleted
    | VerificationFailed

  /**
   * The message of an exception as `getMessage()` gives it; the model uses the
   * error identifier in place of its localised text.
   */
  function ErrorCode(e: PaymentError): string {
    match e
    case MissingConfig => "missingconfig"
    case InvalidAmount => "invalidamount"
    case TokenFailed(_) => "tokenfailed"
    case CheckoutFailed(_) => "checkoutfailed"
    case AccountNotFound => "accountnotfound"
    case RecordNotFound => "invalidrecord"
    case InvalidCurrency => "Currency must be EUR for HelloAsso"
    case InvalidSesskey => "invalidsesskey"
    case PaymentNotCompleted => "paymentnotcompleted"
    case VerificationFailed => "paymentverificationfailed"
  }

  /**
   * What a request renders: a notification (its string identifier, its style
   * and any debug line) or nothing at all.
   */
  datatype Page =
    | Notification(message: string, style: string, debugInfo: string)
    | NoOutput
}
