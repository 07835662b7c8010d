/** Properties of the payment lifecycle that involve more than one route: a payment is
    created pending by create-order and settled by verify; no route deletes a row,
    reopens a completed payment, or removes a notification. */
module PaymentLifecycle {
  import opened Wrappers
  import opened Js
  import opened Database
  import opened Store
  import opened VerifyRoute
  import opened CreateOrderRoute
  import opened ProcessRoute
  import opened TrackingRoute

  /** A payment row kept by a later state: same booking, amount and method, and
      completed stays completed. */
  predicate PaymentKept(before: Payment, after: Payment) {
    && after.bookingId == before.bookingId
    && after.amount == before.amount
    && after.paymentMethod == before.paymentMethod
    && (before.status == PaymentCompleted ==> after.status == PaymentCompleted)
  }

  /** `after` keeps every payment row of `before` at its place, and the notifications and
      tracking rows of `before` as a prefix. */
  ghost predicate KeepsHistory(before: Tables, after: Tables) {
    && |before.payments| <= |after.payments|
    && (forall i :: 0 <= i < |before.payments| ==> PaymentKept(before.payments[i], after.payments[i]))
    && before.notifications <= after.notifications
    && before.tracking <= after.tracking
  }

  /** Appending rows keeps the history. */
  lemma AppendKeepsHistory(before: Tables, after: Tables)
    requires before.payments <= after.payments
    requires before.notifications <= after.notifications && before.tracking <= after.tracking
    ensures KeepsHistory(before, after)
  {
    forall i | 0 <= i < |before.payments|
      ensures PaymentKept(before.payments[i], after.payments[i])
    {
      assert after.payments[i] == before.payments[i];
    }
  }

  /** Create-order only appends a pending payment row. */
  lemma CreateOrderKeepsHistory(t: Tables, session: Option<string>, body: Outcome<CreateOrderBody>,
                                order: Outcome<GatewayOrder>, faults: Faults)
    ensures KeepsHistory(t, CreateOrderEffect(t, session, body, order, faults).tables)
  {
    CreateOrderOnlyAppendsPayments(t, session, body, order, faults);
    AppendKeepsHistory(t, CreateOrderEffect(t, session, body, order, faults).tables);
  }

  /** Verify only settles payment rows, which end completed, and appends a notification. */
  lemma VerifyKeepsHistory(t: Tables, session: Option<string>, body: Outcome<VerifyBody>,
                           secret: string, hmacHex: (string, string) -> string, faults: Faults)
    ensures KeepsHistory(t, VerifyEffect(t, session, body, secret, hmacHex, faults).tables)
  {
    var e := VerifyEffect(t, session, body, secret, hmacHex, faults);
    VerifyGuards(t, session, body, secret, hmacHex, faults);
    if e.response.Failure? {
      AppendKeepsHistory(t, e.tables);
    } else {
      assert session.Some? && body.Ok?;
      VerifySettlement(t, session, body.value, secret, hmacHex, faults);
      assert t.notifications <= e.tables.notifications;
    }
  }

  /** Process only appends a payment row and possibly a notification. */
  lemma ProcessKeepsHistory(t: Tables, session: Option<string>, body: Outcome<ProcessBody>,
                            intent: Outcome<Intent>, faults: Faults)
    ensures KeepsHistory(t, ProcessEffect(t, session, body, intent, faults).tables)
  {
    var e := ProcessEffect(t, session, body, intent, faults);
    ProcessGuards(t, session, body, intent, faults);
    if e.gatewayCall.None? || intent.Throws? {
      AppendKeepsHistory(t, e.tables);
    } else {
      assert session.Some? && body.Ok?;
      ProcessSettlesIffSucceeded(t, session.value, body.value, intent.value, faults);
      assert t.payments <= e.tables.payments;
      assert t.notifications <= e.tables.notifications;
      AppendKeepsHistory(t, e.tables);
    }
  }

  /** Tracking never touches payments and only appends rows. */
  lemma TrackingKeepsHistory(t: Tables, session: Option<string>, body: Outcome<TrackingBody>, faults: Faults)
    ensures KeepsHistory(t, TrackingEffect(t, session, body, faults).tables)
  {
    var e := TrackingEffect(t, session, body, faults);
    TrackingGuards(t, session, body, faults);
    if e.response.Failure? {
      AppendKeepsHistory(t, e.tables);
    } else {
      OnlyLaborerUpdatesTracking(t, session, body, faults);
      TrackingUpdate(t, session.value, body.value, faults);
      assert t.tracking <= e.tables.tracking;
      assert t.notifications <= e.tables.notifications;
      AppendKeepsHistory(t, e.tables);
    }
  }

  /** The checkout scenario: a client creates an order for their booking, the gateway
      answers with order `orderId`, and the client then reports payment `paymentId`
      with the gateway's signature. Then the verification succeeds, the booking is
      in_progress, the payment row that create-order appended now carries the payment
      id and is completed, and exactly one notification, for the laborer, was added. */
  lemma {:induction false} CreateThenVerify(t: Tables, client: string, bookingId: string, amount: real,
                                            order: GatewayOrder, paymentId: string,
                                            secret: string, hmacHex: (string, string) -> string)
    requires bookingId in t.bookings && t.bookings[bookingId].clientId == client
    requires bookingId != "" && amount != 0.0 && order.id != "" && paymentId != ""
    requires hmacHex(secret, order.id + "|" + paymentId) != ""
    ensures var created := CreateOrderEffect(t, Some(client), Ok(CreateOrderBody(Some(bookingId), Some(amount))),
                                             Ok(order), NoFaults);
      var signature := hmacHex(secret, order.id + "|" + paymentId);
      var verified := VerifyEffect(created.tables, Some(client),
                                   Ok(VerifyBody(Some(bookingId), Some(amount), Some(paymentId), Some(order.id), Some(signature))),
                                   secret, hmacHex, NoFaults);
      && created.response == OrderCreated(order)
      && verified.response == PaymentVerified
      && verified.tables.bookings[bookingId].status == "in_progress"
      && |verified.tables.payments| == |t.payments| + 1
      && verified.tables.payments[|t.payments|] == Payment(bookingId, amount, paymentId, "razorpay", PaymentCompleted)
      && verified.tables.notifications == t.notifications + [PaymentNotification(t.bookings[bookingId], Rupee, Some(amount))]
  {
    var created := CreateOrderEffect(t, Some(client), Ok(CreateOrderBody(Some(bookingId), Some(amount))),
                                     Ok(order), NoFaults);
    var row := Payment(bookingId, amount, order.id, "razorpay", PaymentPending);
    assert created.tables == t.(payments := t.payments + [row]);
    var signature := hmacHex(secret, order.id + "|" + paymentId);
    var body := VerifyBody(Some(bookingId), Some(amount), Some(paymentId), Some(order.id), Some(signature));
    assert SignatureValid(hmacHex, secret, order.id, paymentId, signature);
    var verified := VerifyEffect(created.tables, Some(client), Ok(body), secret, hmacHex, NoFaults);
    assert verified.response == PaymentVerified;
    VerifySettlement(created.tables, Some(client), body, secret, hmacHex, NoFaults);
    assert created.tables.payments[|t.payments|] == row;
    assert MatchesOrder(row, bookingId, order.id);
  }

  /** With a signature that differs from the gateway's, the same scenario ends with a
      400 and the tables exactly as create-order left them. */
  lemma TamperedSignatureRejected(t: Tables, client: string, b: VerifyBody,
                                  secret: string, hmacHex: (string, string) -> string)
    requires VerifyRoute.HasRequiredFields(b) && b.bookingId.value in t.bookings
    requires t.bookings[b.bookingId.value].clientId == client
    requires b.signature.value != hmacHex(secret, b.orderId.value + "|" + b.paymentId.value)
    ensures VerifyEffect(t, Some(client), Ok(b), secret, hmacHex, NoFaults)
              == Effect(t, Failure(400, "Invalid payment signature"), None)
  {
  }
}
