/** POST /api/tracking/update: the booking's laborer reports a position and possibly
    a new status; a changed status is written to the booking and the client is
    notified. */
module TrackingRoute {
  import opened Wrappers
  import opened Js
  import opened Database
  import opened Store

  /** The JSON body; an absent coordinate is `None` (the handler tests `=== undefined`). */
  datatype TrackingBody = TrackingBody(
    bookingId: Option<string>,
    latitude: Option<real>,
    longitude: Option<real>,
    status: Option<string>)

  predicate HasRequiredFields(b: TrackingBody) {
    TruthyString(b.bookingId) && b.latitude.Some? && b.longitude.Some?
  }

  /** The status the tracking row records: the supplied one if truthy, else the
      booking's current one. */
  function ReportedStatus(supplied: Option<string>, current: string): (s: string)
    ensures TruthyString(supplied) ==> s == supplied.value
    ensures !TruthyString(supplied) ==> s == current
  {
    if TruthyString(supplied) then supplied.value else current
  }

  /** The booking status is rewritten iff a truthy status different from the current
      one is supplied, that is iff the status the tracking row records differs from the
      booking's. */
  predicate ChangesStatus(supplied: Option<string>, current: string): (b: bool)
    ensures b <==> ReportedStatus(supplied, current) != current
  {
    TruthyString(supplied) && supplied.value != current
  }

  /** The client's notification of a status change; the text shows the status with its
      first "_" turned into a space. */
  function StatusNotification(booking: Booking, status: string): (n: Notification)
    ensures n.userId == booking.clientId && n.kind == "status_update" && !n.isRead
  {
    Notification(booking.clientId, "status_update", "Booking Status Updated",
                 "The status of your booking \"" + booking.title + "\" has been updated to "
                 + ReplaceFirst(status, '_', ' '), false)
  }

  /** What one tracking request does: guards, then the tracking row (a failure of which
      is a 500), then the conditional status change and notification, whose errors are
      not looked at. */
  function TrackingEffect(t: Tables, session: Option<string>, body: Outcome<TrackingBody>, faults: Faults): (e: Effect)
    ensures e.gatewayCall.None?
    ensures e.response.Failure? || e.response == LocationUpdated
    ensures e.response.Failure? ==> e.tables == t
    ensures e.tables.payments == t.payments
  {
    if session.None? then Reject(t, 401, "Unauthorized")
    else if body.Throws? then Reject(t, 500, ThrownMessage(body.message, "Location update failed"))
    else if !HasRequiredFields(body.value) then Reject(t, 400, "Missing required fields")
    else
      var b := body.value;
      var id := b.bookingId.value;
      match LookupBooking(t, id, faults)
      case None => Reject(t, 404, "Booking not found")
      case Some(booking) =>
        if booking.laborerId != session.value then
          Reject(t, 403, "Unauthorized to update tracking for this booking")
        else if faults.trackingWrite then
          Reject(t, 500, "Error updating tracking")
        else
          var row := Tracking(id, session.value, b.latitude.value, b.longitude.value,
                              ReportedStatus(b.status, booking.status));
          var t1 := t.(tracking := t.tracking + [row]);
          var t3 :=
            if ChangesStatus(b.status, booking.status) then
              AddNotification(SetBookingStatus(t1, id, b.status.value, faults),
                              StatusNotification(booking, b.status.value), faults)
            else t1;
          Effect(t3, LocationUpdated, None)
  }

  // ---------------------------------------------------------------------------
  // Properties

  /** 401, then 400 for a falsy booking id or an absent coordinate, then 404, then 403
      for anyone but the booking's laborer (the client included); no error answer
      writes anything. */
  lemma TrackingGuards(t: Tables, session: Option<string>, body: Outcome<TrackingBody>, faults: Faults)
    ensures var e := TrackingEffect(t, session, body, faults);
      && e.gatewayCall.None?
      && (e.response.Failure? ==> e.tables == t)
      && (session.None? ==> e.response.Code() == 401)
      && (session.Some? && body.Ok? && !HasRequiredFields(body.value) ==> e.response.Code() == 400)
      && (session.Some? && body.Ok? && HasRequiredFields(body.value) ==>
            var id := body.value.bookingId.value;
            && (LookupBooking(t, id, faults).None? ==> e.response.Code() == 404)
            && (LookupBooking(t, id, faults).Some? && t.bookings[id].laborerId != session.value ==>
                  e.response.Code() == 403))
  {
  }

  /** Only the booking's laborer can get a success; in particular a client who is not
      also its laborer gets 403. */
  lemma OnlyLaborerUpdatesTracking(t: Tables, session: Option<string>, body: Outcome<TrackingBody>, faults: Faults)
    ensures var e := TrackingEffect(t, session, body, faults);
      e.response == LocationUpdated ==>
        session.Some? && body.Ok? && body.value.bookingId.Some?
        && body.value.bookingId.value in t.bookings
        && t.bookings[body.value.bookingId.value].laborerId == session.value
  {
  }

  /** Coordinates of zero are accepted: only their absence is a 400. */
  lemma ZeroCoordinatesAccepted(b: TrackingBody)
    requires TruthyString(b.bookingId)
    ensures HasRequiredFields(b.(latitude := Some(0.0), longitude := Some(0.0)))
  {
  }

  /** On success one tracking row is appended, carrying the caller as laborer and the
      reported status; the booking status is replaced and exactly one unread
      "status_update" notification for the client is appended iff a truthy status
      different from the booking's was supplied (each unless its own write fails);
      payments are never touched. */
  lemma TrackingUpdate(t: Tables, uid: string, b: TrackingBody, faults: Faults)
    requires TrackingEffect(t, Some(uid), Ok(b), faults).response == LocationUpdated
    ensures var e := TrackingEffect(t, Some(uid), Ok(b), faults);
      var id := b.bookingId.value;
      var booking := t.bookings[id];
      var changes := ChangesStatus(b.status, booking.status);
      && e.tables.tracking == t.tracking + [Tracking(id, uid, b.latitude.value, b.longitude.value,
                                                     ReportedStatus(b.status, booking.status))]
      && e.tables.bookings[id].status == (if changes && !faults.bookingWrite then b.status.value else booking.status)
      && (forall k :: k in t.bookings && k != id ==> k in e.tables.bookings && e.tables.bookings[k] == t.bookings[k])
      && e.tables.bookings ==
           (if changes && !faults.bookingWrite then t.bookings[id := booking.(status := b.status.value)]
            else t.bookings)
      && e.tables.notifications ==
           (if changes && !faults.notificationWrite
            then t.notifications + [StatusNotification(booking, b.status.value)]
            else t.notifications)
      && e.tables.payments == t.payments
  {
  }

  /** A failing tracking write changes no table; once the guards have passed it is a
      500 "Error updating tracking", with no booking change and no notification. */
  lemma TrackingWriteFailure(t: Tables, session: Option<string>, body: Outcome<TrackingBody>, faults: Faults)
    requires faults.trackingWrite
    ensures var e := TrackingEffect(t, session, body, faults);
      && e.tables == t
      && (session.Some? && body.Ok? && HasRequiredFields(body.value)
          && LookupBooking(t, body.value.bookingId.value, faults).Some?
          && t.bookings[body.value.bookingId.value].laborerId == session.value ==>
            e.response == Failure(500, "Error updating tracking"))
  {
  }

  /** The supplied status is written to the booking unchecked: a laborer can leave a
      booking in a status outside the booking status enumeration. */
  lemma {:induction false} StatusOutsideEnumerationWritten(t: Tables, uid: string, id: string, lat: real, lon: real)
    requires id != "" && id in t.bookings && t.bookings[id].laborerId == uid
    ensures var e := TrackingEffect(t, Some(uid), Ok(TrackingBody(Some(id), Some(lat), Some(lon), Some("on_the_way"))), NoFaults);
      e.response == LocationUpdated && ParseBookingStatus(e.tables.bookings[id].status).None?
  {
    var booking := t.bookings[id];
    if booking.status == "on_the_way" {
      assert ParseBookingStatus(booking.status).None?;
    } else {
      assert ParseBookingStatus("on_the_way").None?;
    }
  }

  /** The notification text turns only the first "_" into a space. */
  lemma StatusTextReplacesFirstUnderscore()
    ensures ReplaceFirst("in_progress", '_', ' ') == "in progress"
    ensures ReplaceFirst("on_the_way", '_', ' ') == "on the_way"
  {
    ReplaceFirstAt("in_progress", '_', ' ', 2);
    ReplaceFirstAt("on_the_way", '_', ' ', 2);
  }
}
