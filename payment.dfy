/**
 * The payment record of the `orders.payments` table, its status vocabulary, and the
 * errors the payment lifecycle can raise.
 */
module Payments {
  import opened Wrappers

  /**
   * Local payment statuses. REFUNDED is not in the enum as declared next to the
   * Payment interface, but the status mapper returns it, so the model includes it.
   */
  datatype PaymentStatus = PENDING | INITIATED | AUTHORIZED | CAPTURED | FAILED | CANCELLED | REFUNDED

  /** The string value of each enum member (each equals its member's name). */
  function StatusName(s: PaymentStatus): string {
    match s
    case PENDING => "PENDING"
    case INITIATED => "INITIATED"
    case AUTHORIZED => "AUTHORIZED"
    case CAPTURED => "CAPTURED"
    case FAILED => "FAILED"
    case CANCELLED => "CANCELLED"
    case REFUNDED => "REFUNDED"
  }

  /** Distinct statuses have distinct names, so a status string in a response identifies the status. */
  lemma StatusNameInjective(a: PaymentStatus, b: PaymentStatus)
    ensures StatusName(a) == StatusName(b) ==> a == b
  {
    if StatusName(a) == StatusName(b) {
      assert StatusName(a)[0] == StatusName(b)[0];
      assert |StatusName(a)| == |StatusName(b)|;
    }
  }

  /** A row of `orders.payments`; `createdAt` is an opaque timestamp. */
  datatype Payment = Payment(
    id: string,
    amount: int,
    currency: string,
    receipt: string,
    status: PaymentStatus,
    sessionId: Option<string>,
    sessionUrl: Option<string>,
    createdAt: nat)

  /**
   * The statements of the payment service at which the database can throw: each
   * names one call site, so a fault can be placed on any one of them.
   */
  datatype Step =
    | Connect        // pool.connect()
    | Begin          // BEGIN
    | Insert         // INSERT ... RETURNING *
    | AttachSession  // UPDATE ... SET session_id, session_url
    | CommitSession  // COMMIT after the session update
    | MarkFailed     // UPDATE ... SET status = FAILED (compensation)
    | CommitFailed   // COMMIT after the compensation
    | SelectById     // SELECT ... WHERE id
    | SelectAll      // SELECT * FROM orders.payments
    | UpdateStatus   // UPDATE ... SET status (reconciliation)

  /** What the payment service can throw. */
  datatype Error =
    | StoreError(step: Step)        // the database rejected the statement at `step`
    | GatewayError(message: string) // the checkout provider call failed
    | Thrown(message: string)       // `throw new Error(message)` in the service itself

  const OrderNotFoundMessage := "Order not found"
  const NoSessionMessage := "No payment session found for this order"
}
