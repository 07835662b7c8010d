/** POST /api/payments/process: confirms a Stripe card payment intent, records the
    payment, and settles the booking only when the intent succeeded. */
module ProcessRoute {
  import opened Wrappers
  import opened Js
  import opened Database
  import opened Store

  datatype ProcessBody = ProcessBody(paymentMethodId: Option<string>, bookingId: Option<string>, amount: Option<real>)

  predicate HasRequiredFields(b: ProcessBody) {
    TruthyString(b.paymentMethodId) && TruthyString(b.bookingId) && TruthyNumber(b.amount)
  }

  /** The intent request: the amount in cents, dollars, the card, confirmed at once. */
  function IntentOptions(amount: real, paymentMethodId: string): (o: GatewayRequest)
    ensures o.IntentRequest? && o.currency == "usd" && o.paymentMethod == paymentMethodId && o.confirm
    ensures amount * 100.0 - 0.5 < o.amount as real <= amount * 100.0 + 0.5
  {
    IntentRequest(MinorUnits(amount), "usd", paymentMethodId, true)
  }

  /** Payment status recorded for an intent: completed iff it succeeded. */
  function IntentPaymentStatus(intentStatus: string): (s: PaymentStatus)
    ensures s == PaymentCompleted <==> intentStatus == "succeeded"
    ensures s != PaymentCompleted ==> s == PaymentPending
  {
    if intentStatus == "succeeded" then PaymentCompleted else PaymentPending
  }

  /** What one process request does. `gateway` is the answer of
      `stripe.paymentIntents.create`, which may throw. The insert error is only logged,
      and the booking update and notification run only for a succeeded intent. */
  function ProcessEffect(t: Tables, session: Option<string>, body: Outcome<ProcessBody>,
                         gateway: Outcome<Intent>, faults: Faults): (e: Effect)
    ensures e.response.Failure? || e.response.PaymentProcessed?
    ensures e.response.Failure? ==> e.tables == t
    ensures e.response.PaymentProcessed? ==>
      gateway.Ok? && e.response == PaymentProcessed(gateway.value.id, gateway.value.status) && e.gatewayCall.Some?
    ensures e.tables.tracking == t.tracking
  {
    if session.None? then Reject(t, 401, "Unauthorized")
    else if body.Throws? then Reject(t, 500, ThrownMessage(body.message, "Payment processing failed"))
    else if !HasRequiredFields(body.value) then Reject(t, 400, "Missing required fields")
    else
      var b := body.value;
      var id := b.bookingId.value;
      match LookupBooking(t, id, faults)
      case None => Reject(t, 404, "Booking not found")
      case Some(booking) =>
        if booking.clientId != session.value then
          Reject(t, 403, "Unauthorized to make payment for this booking")
        else
          var options := IntentOptions(b.amount.value, b.paymentMethodId.value);
          match gateway
          case Throws(m) => Effect(t, Failure(500, ThrownMessage(m, "Payment processing failed")), Some(options))
          case Ok(intent) =>
            var row := Payment(id, b.amount.value, intent.id, "card", IntentPaymentStatus(intent.status));
            var t1 := InsertPayment(t, row, faults);
            var t3 :=
              if intent.status == "succeeded" then
                AddNotification(SetBookingStatus(t1, id, InProgress.Name(), faults),
                                PaymentNotification(booking, Dollar, b.amount), faults)
              else t1;
            Effect(t3, PaymentProcessed(intent.id, intent.status), Some(options))
  }

  // ---------------------------------------------------------------------------
  // Properties

  /** 401, then 400 unless the payment method, booking id and a non-zero amount are all
      given, then 404, then 403; none of them writes or calls the gateway. */
  lemma ProcessGuards(t: Tables, session: Option<string>, body: Outcome<ProcessBody>,
                      gateway: Outcome<Intent>, faults: Faults)
    ensures var e := ProcessEffect(t, session, body, gateway, faults);
      && (e.gatewayCall.None? ==> e.response.Failure? && e.tables == t)
      && (session.None? ==> e.response.Code() == 401)
      && (session.Some? && body.Ok? && !HasRequiredFields(body.value) ==> e.response.Code() == 400)
      && (session.Some? && body.Ok? && HasRequiredFields(body.value) ==>
            var id := body.value.bookingId.value;
            && (LookupBooking(t, id, faults).None? ==> e.response.Code() == 404 && e.gatewayCall.None?)
            && (LookupBooking(t, id, faults).Some? && t.bookings[id].clientId != session.value ==>
                  e.response.Code() == 403 && e.gatewayCall.None?))
  {
  }

  /** Once the intent exists: one "card" payment row with the intent id is appended
      (unless the insert fails, which does not change the answer), completed iff the
      intent succeeded and pending otherwise; the booking moves to in_progress and one
      laborer notification of type "payment" is appended iff the intent succeeded
      (each unless its own write fails); the answer echoes the intent id and status. */
  lemma ProcessSettlesIffSucceeded(t: Tables, uid: string, b: ProcessBody, intent: Intent, faults: Faults)
    requires ProcessEffect(t, Some(uid), Ok(b), Ok(intent), faults).gatewayCall.Some?
    ensures var e := ProcessEffect(t, Some(uid), Ok(b), Ok(intent), faults);
      var id := b.bookingId.value;
      var booking := t.bookings[id];
      var succeeded := intent.status == "succeeded";
      && e.response == PaymentProcessed(intent.id, intent.status)
      && e.response == ProcessEffect(t, Some(uid), Ok(b), Ok(intent), faults.(paymentWrite := !faults.paymentWrite)).response
      && e.tables.payments == (if faults.paymentWrite then t.payments
           else t.payments + [Payment(id, b.amount.value, intent.id, "card",
                                      if succeeded then PaymentCompleted else PaymentPending)])
      && e.tables.bookings[id].status ==
           (if succeeded && !faults.bookingWrite then "in_progress" else booking.status)
      && (forall k :: k in t.bookings && k != id ==> k in e.tables.bookings && e.tables.bookings[k] == t.bookings[k])
      && e.tables.bookings ==
           (if succeeded && !faults.bookingWrite then t.bookings[id := booking.(status := "in_progress")]
            else t.bookings)
      && e.tables.notifications ==
           (if succeeded && !faults.notificationWrite
            then t.notifications + [PaymentNotification(booking, Dollar, b.amount)]
            else t.notifications)
      && e.tables.tracking == t.tracking
  {
  }
}
