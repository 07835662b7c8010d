/** The four API route handlers as methods of one backend object whose fields are the
    tables. Each handler runs its guards with early returns and then its writes one
    after another, and is proved to have exactly the effect its route module
    specifies. */
module Api {
  import opened Wrappers
  import opened Js
  import opened Database
  import opened Store
  import opened VerifyRoute
  import opened CreateOrderRoute
  import opened ProcessRoute
  import opened TrackingRoute

  class Backend {
    var bookings: map<string, Booking>
    var payments: seq<Payment>
    var notifications: seq<Notification>
    var tracking: seq<Tracking>

    /** The tables as a value. */
    function Snapshot(): Tables
      reads this
    {
      Tables(bookings, payments, notifications, tracking)
    }

    constructor (t: Tables)
      ensures Snapshot() == t
    {
      bookings, payments, notifications, tracking := t.bookings, t.payments, t.notifications, t.tracking;
    }

    /** POST /api/payments/create-order. `gateway` is what `razorpay.orders.create` gives
        back for the options in `sent`. */
    method CreateOrder(session: Option<string>, body: Outcome<CreateOrderBody>,
                       gateway: Outcome<GatewayOrder>, faults: Faults)
      returns (response: Response, sent: Option<GatewayRequest>)
      modifies this
      ensures Effect(Snapshot(), response, sent) == CreateOrderEffect(old(Snapshot()), session, body, gateway, faults)
    {
      sent := None;
      if session.None? {
        return Failure(401, "Unauthorized"), sent;
      }
      if body.Throws? {
        return Failure(500, ThrownMessage(body.message, "Order creation failed")), sent;
      }
      var b := body.value;
      if !TruthyString(b.bookingId) || !TruthyNumber(b.amount) {
        return Failure(400, "Missing required fields"), sent;
      }
      var id := b.bookingId.value;
      if faults.bookingRead || id !in bookings {
        return Failure(404, "Booking not found"), sent;
      }
      var booking := bookings[id];
      if booking.clientId != session.value {
        return Failure(403, "Unauthorized to make payment for this booking"), sent;
      }
      sent := Some(OrderOptions(id, b.amount.value, session.value));
      if gateway.Throws? {
        return Failure(500, ThrownMessage(gateway.message, "Order creation failed")), sent;
      }
      var order := gateway.value;
      if !faults.paymentWrite {
        payments := payments + [Payment(id, b.amount.value, order.id, "razorpay", PaymentPending)];
      }
      response := OrderCreated(order);
    }

    /** POST /api/payments/verify. `hmacHex(secret, m)` is the hex HMAC-SHA256 of `m`. */
    method Verify(session: Option<string>, body: Outcome<VerifyBody>,
                  secret: string, hmacHex: (string, string) -> string, faults: Faults)
      returns (response: Response)
      modifies this
      ensures Effect(Snapshot(), response, None) == VerifyEffect(old(Snapshot()), session, body, secret, hmacHex, faults)
    {
      if session.None? {
        return Failure(401, "Unauthorized");
      }
      if body.Throws? {
        return Failure(500, ThrownMessage(body.message, "Payment verification failed"));
      }
      var b := body.value;
      if !TruthyString(b.bookingId) || !TruthyString(b.paymentId) || !TruthyString(b.orderId)
         || !TruthyString(b.signature) {
        return Failure(400, "Missing required fields");
      }
      var id := b.bookingId.value;
      if faults.bookingRead || id !in bookings {
        return Failure(404, "Booking not found");
      }
      var booking := bookings[id];
      if booking.clientId != session.value {
        return Failure(403, "Unauthorized to verify payment for this booking");
      }
      var generated := hmacHex(secret, b.orderId.value + "|" + b.paymentId.value);
      if generated != b.signature.value {
        return Failure(400, "Invalid payment signature");
      }
      if faults.paymentWrite {
        return Failure(500, "Error updating payment record");
      }
      payments := SettleRows(payments, id, b.orderId.value, b.paymentId.value);
      if !faults.bookingWrite && id in bookings {
        bookings := bookings[id := bookings[id].(status := "in_progress")];
      }
      if !faults.notificationWrite {
        notifications := notifications + [PaymentNotification(booking, Rupee, b.amount)];
      }
      response := PaymentVerified;
    }

    /** POST /api/payments/process. `gateway` is what `stripe.paymentIntents.create`
        gives back for the request in `sent`. */
    method Process(session: Option<string>, body: Outcome<ProcessBody>,
                   gateway: Outcome<Intent>, faults: Faults)
      returns (response: Response, sent: Option<GatewayRequest>)
      modifies this
      ensures Effect(Snapshot(), response, sent) == ProcessEffect(old(Snapshot()), session, body, gateway, faults)
    {
      sent := None;
      if session.None? {
        return Failure(401, "Unauthorized"), sent;
      }
      if body.Throws? {
        return Failure(500, ThrownMessage(body.message, "Payment processing failed")), sent;
      }
      var b := body.value;
      if !TruthyString(b.paymentMethodId) || !TruthyString(b.bookingId) || !TruthyNumber(b.amount) {
        return Failure(400, "Missing required fields"), sent;
      }
      var id := b.bookingId.value;
      if faults.bookingRead || id !in bookings {
        return Failure(404, "Booking not found"), sent;
      }
      var booking := bookings[id];
      if booking.clientId != session.value {
        return Failure(403, "Unauthorized to make payment for this booking"), sent;
      }
      sent := Some(IntentOptions(b.amount.value, b.paymentMethodId.value));
      if gateway.Throws? {
        return Failure(500, ThrownMessage(gateway.message, "Payment processing failed")), sent;
      }
      var intent := gateway.value;
      var status := if intent.status == "succeeded" then PaymentCompleted else PaymentPending;
      if !faults.paymentWrite {
        payments := payments + [Payment(id, b.amount.value, intent.id, "card", status)];
      }
      if intent.status == "succeeded" {
        if !faults.bookingWrite && id in bookings {
          bookings := bookings[id := bookings[id].(status := "in_progress")];
        }
        if !faults.notificationWrite {
          notifications := notifications + [PaymentNotification(booking, Dollar, b.amount)];
        }
      }
      response := PaymentProcessed(intent.id, intent.status);
    }

    /** POST /api/tracking/update. */
    method UpdateTracking(session: Option<string>, body: Outcome<TrackingBody>, faults: Faults)
      returns (response: Response)
      modifies this
      ensures Effect(Snapshot(), response, None) == TrackingEffect(old(Snapshot()), session, body, faults)
    {
      if session.None? {
        return Failure(401, "Unauthorized");
      }
      if body.Throws? {
        return Failure(500, ThrownMessage(body.message, "Location update failed"));
      }
      var b := body.value;
      if !TruthyString(b.bookingId) || b.latitude.None? || b.longitude.None? {
        return Failure(400, "Missing required fields");
      }
      var id := b.bookingId.value;
      if faults.bookingRead || id !in bookings {
        return Failure(404, "Booking not found");
      }
      var booking := bookings[id];
      if booking.laborerId != session.value {
        return Failure(403, "Unauthorized to update tracking for this booking");
      }
      if faults.trackingWrite {
        return Failure(500, "Error updating tracking");
      }
      var reported := if TruthyString(b.status) then b.status.value else booking.status;
      tracking := tracking + [Tracking(id, session.value, b.latitude.value, b.longitude.value, reported)];
      if TruthyString(b.status) && b.status.value != booking.status {
        if !faults.bookingWrite && id in bookings {
          bookings := bookings[id := bookings[id].(status := b.status.value)];
        }
        if !faults.notificationWrite {
          notifications := notifications + [StatusNotification(booking, b.status.value)];
        }
      }
      response := LocationUpdated;
    }
  }
}
