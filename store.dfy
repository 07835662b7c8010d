/** The tables the API routes read and write, the answers of the store and of the
    payment gateways as inputs, and the store operations the routes perform. A
    Supabase call that returns `{ error }` is modelled by a flag in `Faults`: the
    call then has no effect. */
module Store {
  import opened Wrappers
  import opened Js
  import opened Database

  /** The tables as one value: bookings by id, and the payments, notifications and
      tracking rows in insertion order. */
  datatype Tables = Tables(
    bookings: map<string, Booking>,
    payments: seq<Payment>,
    notifications: seq<Notification>,
    tracking: seq<Tracking>)

  /** Which store calls of one request return an error. */
  datatype Faults = Faults(
    bookingRead: bool,
    paymentWrite: bool,
    bookingWrite: bool,
    notificationWrite: bool,
    trackingWrite: bool)

  /** No store call fails. */
  const NoFaults := Faults(false, false, false, false, false)

  /** A Razorpay order as the gateway returns it. */
  datatype GatewayOrder = GatewayOrder(id: string, amount: int, currency: string)

  /** A Stripe payment intent as the gateway returns it. */
  datatype Intent = Intent(id: string, status: string)

  /** What a route sends to a payment gateway. */
  datatype GatewayRequest =
    | OrderRequest(amount: int, currency: string, receipt: string, paymentCapture: int,
                   noteBookingId: string, noteUserId: string)
    | IntentRequest(amount: int, currency: string, paymentMethod: string, confirm: bool)

  /** The JSON response of a route. */
  datatype Response =
    | Failure(status: int, message: string)
    | OrderCreated(order: GatewayOrder)
    | PaymentVerified
    | PaymentProcessed(intentId: string, intentStatus: string)
    | LocationUpdated
  {
    /** The HTTP status code of the response. */
    function Code(): int {
      if Failure? then status else 200
    }
  }

  /** Everything one request does: the tables afterwards, the response, and the call
      made to a payment gateway, if any. */
  datatype Effect = Effect(tables: Tables, response: Response, gatewayCall: Option<GatewayRequest>)

  /** An early return: an error response and no write at all. */
  function Reject(t: Tables, status: int, message: string): (e: Effect)
    ensures e.tables == t && e.gatewayCall.None? && e.response.Code() == status
  {
    Effect(t, Failure(status, message), None)
  }

  /** The message of a 500 answer from the `catch` block: `error.message || fallback`. */
  function ThrownMessage(message: string, fallback: string): string {
    if message != "" then message else fallback
  }

  /** `select("*").eq("id", id).single()`: the booking, or `None` when the read fails
      or no row has that id. */
  function LookupBooking(t: Tables, id: string, faults: Faults): (r: Option<Booking>)
    ensures r.Some? <==> !faults.bookingRead && id in t.bookings
    ensures r.Some? ==> r.value == t.bookings[id]
  {
    if faults.bookingRead || id !in t.bookings then None else Some(t.bookings[id])
  }

  // ---------------------------------------------------------------------------
  // Writes

  /** `payments.insert(p)`: one row appended, unless the insert fails. */
  function InsertPayment(t: Tables, p: Payment, faults: Faults): (r: Tables)
    ensures r.bookings == t.bookings && r.notifications == t.notifications && r.tracking == t.tracking
    ensures r.payments == if faults.paymentWrite then t.payments else t.payments + [p]
  {
    if faults.paymentWrite then t else t.(payments := t.payments + [p])
  }

  /** `bookings.update({ status }).eq("id", id)`: the row with that id, if any, gets the
      new status and keeps every other column; nothing changes if the update fails. */
  function SetBookingStatus(t: Tables, id: string, status: string, faults: Faults): (r: Tables)
    ensures r.payments == t.payments && r.notifications == t.notifications && r.tracking == t.tracking
    ensures r.bookings.Keys == t.bookings.Keys
    ensures forall k :: k in t.bookings && k != id ==> r.bookings[k] == t.bookings[k]
    ensures id in t.bookings ==>
      r.bookings[id] == if faults.bookingWrite then t.bookings[id] else t.bookings[id].(status := status)
  {
    if faults.bookingWrite || id !in t.bookings then t
    else t.(bookings := t.bookings[id := t.bookings[id].(status := status)])
  }

  /** `notifications.insert(n)`: one row appended, unless the insert fails. */
  function AddNotification(t: Tables, n: Notification, faults: Faults): (r: Tables)
    ensures r.bookings == t.bookings && r.payments == t.payments && r.tracking == t.tracking
    ensures r.notifications == if faults.notificationWrite then t.notifications else t.notifications + [n]
  {
    if faults.notificationWrite then t else t.(notifications := t.notifications + [n])
  }

  /** A payment row that `update(...).eq("booking_id", bookingId).eq("transaction_id", orderId)`
      selects. */
  predicate MatchesOrder(p: Payment, bookingId: string, orderId: string) {
    p.bookingId == bookingId && p.transactionId == orderId
  }

  /** The payment update of the verify route: every row of the booking whose
      transaction id is the order id gets the payment id as transaction id and the
      status completed; every other row is left as it is, and no row is added or
      removed. */
  function SettleRows(ps: seq<Payment>, bookingId: string, orderId: string, paymentId: string): (r: seq<Payment>)
    ensures |r| == |ps|
    ensures forall i :: 0 <= i < |ps| ==>
      r[i] == if MatchesOrder(ps[i], bookingId, orderId)
              then ps[i].(transactionId := paymentId, status := PaymentCompleted)
              else ps[i]
  {
    if ps == [] then []
    else
      var p := ps[0];
      var q := if MatchesOrder(p, bookingId, orderId)
               then p.(transactionId := paymentId, status := PaymentCompleted) else p;
      [q] + SettleRows(ps[1..], bookingId, orderId, paymentId)
  }

  /** The notification a laborer receives when a payment is recorded; `symbol` is the
      currency sign of the route (₹ or $). */
  function PaymentNotification(booking: Booking, symbol: string, amount: Option<real>): (n: Notification)
    ensures n.userId == booking.laborerId && n.kind == "payment" && !n.isRead
  {
    Notification(booking.laborerId, "payment", "Payment Received",
                 "Payment of " + symbol + FormatAmount(amount) + " has been received for booking \""
                 + booking.title + "\"", false)
  }

  const Rupee := "\U{20B9}"
  const Dollar := "$"
}
