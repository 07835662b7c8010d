/** POST /api/payments/verify: checks the Razorpay signature of a completed checkout,
    then marks the payment completed, moves the booking to in_progress and notifies
    the laborer. */
module VerifyRoute {
  import opened Wrappers
  import opened Js
  import opened Database
  import opened Store

  /** The JSON body; `amount` is optional and only appears in the notification text. */
  datatype VerifyBody = VerifyBody(
    bookingId: Option<string>,
    amount: Option<real>,
    paymentId: Option<string>,
    orderId: Option<string>,
    signature: Option<string>)

  /** The four fields whose absence (or emptiness) is a 400. */
  predicate HasRequiredFields(b: VerifyBody) {
    TruthyString(b.bookingId) && TruthyString(b.paymentId) && TruthyString(b.orderId)
    && TruthyString(b.signature)
  }

  /** The message Razorpay signs: `${order_id}|${payment_id}`. */
  function SignedMessage(orderId: string, paymentId: string): string {
    orderId + "|" + paymentId
  }

  /** The signature is accepted iff it equals the hex HMAC-SHA256 of the signed
      message under the secret (section 2 of RFC 2104 with SHA-256); `hmacHex` stands
      for that digest. */
  predicate SignatureValid(hmacHex: (string, string) -> string, secret: string,
                           orderId: string, paymentId: string, signature: string) {
    hmacHex(secret, SignedMessage(orderId, paymentId)) == signature
  }

  /** What one verify request does to the tables and what it answers: the guards in
      the order the handler runs them, then the three writes. Only the payment update's
      error is looked at; the booking update and the notification insert may fail
      without changing the answer. */
  function VerifyEffect(t: Tables, session: Option<string>, body: Outcome<VerifyBody>,
                        secret: string, hmacHex: (string, string) -> string, faults: Faults): (e: Effect)
    ensures e.gatewayCall.None?
    ensures e.response.Failure? || e.response == PaymentVerified
    ensures e.response.Failure? ==> e.tables == t
    ensures e.tables.tracking == t.tracking
  {
    if session.None? then Reject(t, 401, "Unauthorized")
    else if body.Throws? then Reject(t, 500, ThrownMessage(body.message, "Payment verification failed"))
    else if !HasRequiredFields(body.value) then Reject(t, 400, "Missing required fields")
    else
      var b := body.value;
      var id := b.bookingId.value;
      match LookupBooking(t, id, faults)
      case None => Reject(t, 404, "Booking not found")
      case Some(booking) =>
        if booking.clientId != session.value then
          Reject(t, 403, "Unauthorized to verify payment for this booking")
        else if !SignatureValid(hmacHex, secret, b.orderId.value, b.paymentId.value, b.signature.value) then
          Reject(t, 400, "Invalid payment signature")
        else if faults.paymentWrite then
          Reject(t, 500, "Error updating payment record")
        else
          var t1 := t.(payments := SettleRows(t.payments, id, b.orderId.value, b.paymentId.value));
          var t2 := SetBookingStatus(t1, id, InProgress.Name(), faults);
          var t3 := AddNotification(t2, PaymentNotification(booking, Rupee, b.amount), faults);
          Effect(t3, PaymentVerified, None)
  }

  // ---------------------------------------------------------------------------
  // Properties

  /** The guards run in order (401, then 400 for missing fields, 404, 403, then 400 for a
      bad signature), each answer is determined by the first guard that fails, and no
      error answer writes anything or calls a gateway. */
  lemma VerifyGuards(t: Tables, session: Option<string>, body: Outcome<VerifyBody>,
                     secret: string, hmacHex: (string, string) -> string, faults: Faults)
    ensures var e := VerifyEffect(t, session, body, secret, hmacHex, faults);
      && e.gatewayCall.None?
      && (e.response.Failure? ==> e.tables == t)
      && (session.None? ==> e.response.Code() == 401)
      && (session.Some? && body.Ok? && !HasRequiredFields(body.value) ==> e.response.Code() == 400)
      && (session.Some? && body.Ok? && HasRequiredFields(body.value) ==>
            var id := body.value.bookingId.value;
            && (LookupBooking(t, id, faults).None? ==> e.response.Code() == 404)
            && (LookupBooking(t, id, faults).Some? && t.bookings[id].clientId != session.value ==>
                  e.response.Code() == 403))
  {
  }

  /** The signed message names one (order, payment) pair: as long as order ids contain
      no "|", two pairs with the same message are the same pair, so a signature that
      is valid for one pair is checked against no other. */
  lemma {:induction false} SignedMessageDeterminesPair(o1: string, p1: string, o2: string, p2: string)
    requires '|' !in o1 && '|' !in o2
    requires SignedMessage(o1, p1) == SignedMessage(o2, p2)
    ensures o1 == o2 && p1 == p2
  {
    var m := SignedMessage(o1, p1);
    assert |o1| == |o2| by {
      assert m[|o1|] == '|' && m[|o2|] == '|';
    }
    assert o1 == m[..|o1|] == o2;
    assert p1 == m[|o1| + 1..] == p2;
  }

  /** Amount is not a required field: a request without it passes the field check. */
  lemma VerifyAmountOptional(b: VerifyBody)
    requires HasRequiredFields(b)
    ensures HasRequiredFields(b.(amount := None))
  {
  }

  /** Under passed guards, the request succeeds iff the signature is valid and the
      payment update does not fail; with an invalid signature the answer is 400, and
      with a valid one whose payment update fails it is 500; in both cases the
      payments, bookings and notifications are all unchanged. */
  lemma VerifySignatureGate(t: Tables, uid: string, b: VerifyBody,
                            secret: string, hmacHex: (string, string) -> string, faults: Faults)
    requires HasRequiredFields(b)
    requires LookupBooking(t, b.bookingId.value, faults).Some?
    requires t.bookings[b.bookingId.value].clientId == uid
    ensures var e := VerifyEffect(t, Some(uid), Ok(b), secret, hmacHex, faults);
      && (e.response == PaymentVerified <==>
            SignatureValid(hmacHex, secret, b.orderId.value, b.paymentId.value, b.signature.value)
            && !faults.paymentWrite)
      && (!SignatureValid(hmacHex, secret, b.orderId.value, b.paymentId.value, b.signature.value) ==>
            e.response == Failure(400, "Invalid payment signature") && e.tables == t)
      && (SignatureValid(hmacHex, secret, b.orderId.value, b.paymentId.value, b.signature.value)
          && faults.paymentWrite ==>
            e.response == Failure(500, "Error updating payment record") && e.tables == t)
  {
  }

  /** On success: exactly the payment rows of (bookingId, orderId) are settled with the
      payment id and status completed, all others unchanged; the booking's status is
      in_progress unless its update failed; exactly one notification addressed to the
      laborer, of type "payment" and unread, is appended unless its insert failed; the
      tracking table is untouched. */
  lemma VerifySettlement(t: Tables, session: Option<string>, b: VerifyBody,
                         secret: string, hmacHex: (string, string) -> string, faults: Faults)
    requires VerifyEffect(t, session, Ok(b), secret, hmacHex, faults).response.PaymentVerified?
    ensures var e := VerifyEffect(t, session, Ok(b), secret, hmacHex, faults);
      var id := b.bookingId.value;
      var booking := t.bookings[id];
      && id in t.bookings && booking.clientId == session.value
      && |e.tables.payments| == |t.payments|
      && (forall i :: 0 <= i < |t.payments| ==>
            if MatchesOrder(t.payments[i], id, b.orderId.value)
            then e.tables.payments[i] == t.payments[i].(transactionId := b.paymentId.value, status := PaymentCompleted)
            else e.tables.payments[i] == t.payments[i])
      && e.tables.bookings.Keys == t.bookings.Keys
      && (forall k :: k in t.bookings && k != id ==> e.tables.bookings[k] == t.bookings[k])
      && e.tables.bookings[id] == (if faults.bookingWrite then booking else booking.(status := "in_progress"))
      && (faults.notificationWrite ==> e.tables.notifications == t.notifications)
      && (!faults.notificationWrite ==>
            && |e.tables.notifications| == |t.notifications| + 1
            && e.tables.notifications[..|t.notifications|] == t.notifications
            && var n := e.tables.notifications[|t.notifications|];
               n.userId == booking.laborerId && n.kind == "payment" && !n.isRead)
      && e.tables.tracking == t.tracking
  {
    var e := VerifyEffect(t, session, Ok(b), secret, hmacHex, faults);
    if !faults.notificationWrite {
      assert e.tables.notifications[..|t.notifications|] == t.notifications;
    }
  }

  /** As written, a verified signature for which no payment row matches still succeeds:
      no payment row changes, yet the booking moves to in_progress and the laborer is
      notified. */
  lemma {:induction false} VerifyWithoutMatchingRowStillSettles(t: Tables, uid: string, b: VerifyBody,
                                        secret: string, hmacHex: (string, string) -> string)
    requires HasRequiredFields(b) && b.bookingId.value in t.bookings
    requires t.bookings[b.bookingId.value].clientId == uid
    requires SignatureValid(hmacHex, secret, b.orderId.value, b.paymentId.value, b.signature.value)
    requires forall i :: 0 <= i < |t.payments| ==> !MatchesOrder(t.payments[i], b.bookingId.value, b.orderId.value)
    ensures var e := VerifyEffect(t, Some(uid), Ok(b), secret, hmacHex, NoFaults);
      && e.response == PaymentVerified
      && e.tables.payments == t.payments
      && e.tables.bookings[b.bookingId.value].status == "in_progress"
      && |e.tables.notifications| == |t.notifications| + 1
  {
    var e := VerifyEffect(t, Some(uid), Ok(b), secret, hmacHex, NoFaults);
    var settled := SettleRows(t.payments, b.bookingId.value, b.orderId.value, b.paymentId.value);
    assert settled == t.payments;
  }

  /** Replaying a successful verify request succeeds again and appends a second
      notification: the route is not idempotent. */
  lemma VerifyReplayNotifiesTwice(t: Tables, uid: string, b: VerifyBody,
                                  secret: string, hmacHex: (string, string) -> string)
    requires VerifyEffect(t, Some(uid), Ok(b), secret, hmacHex, NoFaults).response.PaymentVerified?
    ensures var once := VerifyEffect(t, Some(uid), Ok(b), secret, hmacHex, NoFaults);
      var twice := VerifyEffect(once.tables, Some(uid), Ok(b), secret, hmacHex, NoFaults);
      twice.response.PaymentVerified? && |twice.tables.notifications| == |t.notifications| + 2
  {
    var once := VerifyEffect(t, Some(uid), Ok(b), secret, hmacHex, NoFaults);
    var id := b.bookingId.value;
    assert once.tables.bookings[id].clientId == t.bookings[id].clientId;
  }
}
