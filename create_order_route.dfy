/** POST /api/payments/create-order: creates a Razorpay order for a booking and
    records a pending payment whose transaction id is the order id. */
module CreateOrderRoute {
  import opened Wrappers
  import opened Js
  import opened Database
  import opened Store

  datatype CreateOrderBody = CreateOrderBody(bookingId: Option<string>, amount: Option<real>)

  /** The order options sent to Razorpay: the amount in paise, rupees, a receipt named
      after the booking, automatic capture, and notes naming the booking and the payer. */
  function OrderOptions(bookingId: string, amount: real, uid: string): (o: GatewayRequest)
    ensures o.OrderRequest? && o.currency == "INR" && o.receipt == "booking_" + bookingId
    ensures o.paymentCapture == 1 && o.noteBookingId == bookingId && o.noteUserId == uid
    ensures amount * 100.0 - 0.5 < o.amount as real <= amount * 100.0 + 0.5
  {
    OrderRequest(MinorUnits(amount), "INR", "booking_" + bookingId, 1, bookingId, uid)
  }

  /** What one create-order request does. `gateway` is the answer of
      `razorpay.orders.create`, which may throw. A failed insert of the payment row is
      only logged: the answer is still the order. */
  function CreateOrderEffect(t: Tables, session: Option<string>, body: Outcome<CreateOrderBody>,
                             gateway: Outcome<GatewayOrder>, faults: Faults): (e: Effect)
    ensures e.response.Failure? || e.response.OrderCreated?
    ensures e.response.Failure? ==> e.tables == t
    ensures e.response.OrderCreated? ==> gateway.Ok? && e.response.order == gateway.value && e.gatewayCall.Some?
  {
    if session.None? then Reject(t, 401, "Unauthorized")
    else if body.Throws? then Reject(t, 500, ThrownMessage(body.message, "Order creation failed"))
    else if !TruthyString(body.value.bookingId) || !TruthyNumber(body.value.amount) then
      Reject(t, 400, "Missing required fields")
    else
      var id := body.value.bookingId.value;
      var amount := body.value.amount.value;
      match LookupBooking(t, id, faults)
      case None => Reject(t, 404, "Booking not found")
      case Some(booking) =>
        if booking.clientId != session.value then
          Reject(t, 403, "Unauthorized to make payment for this booking")
        else
          var options := OrderOptions(id, amount, session.value);
          match gateway
          case Throws(m) => Effect(t, Failure(500, ThrownMessage(m, "Order creation failed")), Some(options))
          case Ok(order) =>
            var row := Payment(id, amount, order.id, "razorpay", PaymentPending);
            Effect(InsertPayment(t, row, faults), OrderCreated(order), Some(options))
  }

  // ---------------------------------------------------------------------------
  // Properties

  /** 401, then 400 (missing booking id, or an absent or zero amount), then
      404, then 403; all of them before any gateway call and without any write. */
  lemma CreateOrderGuards(t: Tables, session: Option<string>, body: Outcome<CreateOrderBody>,
                          gateway: Outcome<GatewayOrder>, faults: Faults)
    ensures var e := CreateOrderEffect(t, session, body, gateway, faults);
      && (e.gatewayCall.None? ==> e.response.Failure? && e.tables == t)
      && (session.None? ==> e.response.Code() == 401)
      && (session.Some? && body.Ok? && (!TruthyString(body.value.bookingId) || !TruthyNumber(body.value.amount)) ==>
            e.response.Code() == 400)
      && (session.Some? && body.Ok? && TruthyString(body.value.bookingId) && TruthyNumber(body.value.amount) ==>
            var id := body.value.bookingId.value;
            && (LookupBooking(t, id, faults).None? ==> e.response.Code() == 404 && e.gatewayCall.None?)
            && (LookupBooking(t, id, faults).Some? && t.bookings[id].clientId != session.value ==>
                  e.response.Code() == 403 && e.gatewayCall.None?))
  {
  }

  /** The gateway is called iff every guard passed, and then with the order options of
      the booking, the requested amount and the caller. */
  lemma CreateOrderCallsGateway(t: Tables, session: Option<string>, body: Outcome<CreateOrderBody>,
                                gateway: Outcome<GatewayOrder>, faults: Faults)
    ensures var e := CreateOrderEffect(t, session, body, gateway, faults);
      e.gatewayCall.Some? <==>
        && session.Some? && body.Ok? && TruthyString(body.value.bookingId) && TruthyNumber(body.value.amount)
        && LookupBooking(t, body.value.bookingId.value, faults).Some?
        && t.bookings[body.value.bookingId.value].clientId == session.value
    ensures var e := CreateOrderEffect(t, session, body, gateway, faults);
      e.gatewayCall.Some? ==>
        e.gatewayCall.value == OrderOptions(body.value.bookingId.value, body.value.amount.value, session.value)
  {
  }

  /** After a successful gateway call exactly one payment row is appended: the booking,
      the requested amount, the order id as transaction id, method "razorpay", status
      pending. If that insert fails nothing is written, and the answer is the same
      order either way. The route never touches bookings, notifications or tracking. */
  lemma CreateOrderRecordsPendingPayment(t: Tables, uid: string, b: CreateOrderBody,
                                         order: GatewayOrder, faults: Faults)
    requires CreateOrderEffect(t, Some(uid), Ok(b), Ok(order), faults).gatewayCall.Some?
    ensures var e := CreateOrderEffect(t, Some(uid), Ok(b), Ok(order), faults);
      && e.response == OrderCreated(order)
      && e.response == CreateOrderEffect(t, Some(uid), Ok(b), Ok(order), faults.(paymentWrite := !faults.paymentWrite)).response
      && e.tables.payments == if faults.paymentWrite then t.payments
         else t.payments + [Payment(b.bookingId.value, b.amount.value, order.id, "razorpay", PaymentPending)]
  {
  }

  /** If the gateway throws no payment row is written, and once the guards have passed
      (so the gateway was called) the answer is a 500 carrying the thrown message. */
  lemma CreateOrderGatewayFailure(t: Tables, session: Option<string>, body: Outcome<CreateOrderBody>,
                                  message: string, faults: Faults)
    ensures var e := CreateOrderEffect(t, session, body, Throws(message), faults);
      && e.response.Failure? && e.tables == t
      && (e.gatewayCall.Some? ==> e.response == Failure(500, ThrownMessage(message, "Order creation failed")))
  {
  }

  /** Whatever happens, create-order changes only the payments table, and only by
      appending. */
  lemma CreateOrderOnlyAppendsPayments(t: Tables, session: Option<string>, body: Outcome<CreateOrderBody>,
                                       gateway: Outcome<GatewayOrder>, faults: Faults)
    ensures var e := CreateOrderEffect(t, session, body, gateway, faults);
      && e.tables.bookings == t.bookings && e.tables.notifications == t.notifications
      && e.tables.tracking == t.tracking
      && t.payments <= e.tables.payments && |e.tables.payments| <= |t.payments| + 1
  {
  }
}
