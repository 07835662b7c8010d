/** Row shapes and status enumerations of the marketplace's tables (bookings,
    payments, notifications, tracking) and of a user profile's role. Timestamps and
    generated row ids are not modelled. */
module Database {
  import opened Wrappers

  // ---------------------------------------------------------------------------
  // Enumerations and their string forms as stored in the tables

  /** The declared statuses of a booking. */
  datatype BookingStatus = Pending | Accepted | InProgress | Completed | Cancelled {
    function Name(): string {
      match this
      case Pending => "pending"
      case Accepted => "accepted"
      case InProgress => "in_progress"
      case Completed => "completed"
      case Cancelled => "cancelled"
    }
  }

  /** Reads a stored booking status: exactly the five names parse, each to the status
      it names. */
  function ParseBookingStatus(s: string): (r: Option<BookingStatus>)
    ensures r.Some? <==> s in ["pending", "accepted", "in_progress", "completed", "cancelled"]
    ensures r.Some? ==> r.value.Name() == s
  {
    if s == "pending" then Some(Pending)
    else if s == "accepted" then Some(Accepted)
    else if s == "in_progress" then Some(InProgress)
    else if s == "completed" then Some(Completed)
    else if s == "cancelled" then Some(Cancelled)
    else None
  }

  /** Parsing inverts `Name`: distinct statuses have distinct names. */
  lemma BookingStatusRoundTrip(b: BookingStatus)
    ensures ParseBookingStatus(b.Name()) == Some(b)
  {
  }

  /** The declared statuses of a payment. */
  datatype PaymentStatus = PaymentPending | PaymentCompleted | Failed | Refunded {
    function Name(): string {
      match this
      case PaymentPending => "pending"
      case PaymentCompleted => "completed"
      case Failed => "failed"
      case Refunded => "refunded"
    }
  }

  /** Reads a stored payment status: exactly the four names parse. */
  function ParsePaymentStatus(s: string): (r: Option<PaymentStatus>)
    ensures r.Some? <==> s in ["pending", "completed", "failed", "refunded"]
    ensures r.Some? ==> r.value.Name() == s
  {
    if s == "pending" then Some(PaymentPending)
    else if s == "completed" then Some(PaymentCompleted)
    else if s == "failed" then Some(Failed)
    else if s == "refunded" then Some(Refunded)
    else None
  }

  /** Parsing inverts `Name`. */
  lemma PaymentStatusRoundTrip(p: PaymentStatus)
    ensures ParsePaymentStatus(p.Name()) == Some(p)
  {
  }

  /** The role of a profile. */
  datatype Role = Client | Laborer {
    function Name(): string {
      match this
      case Client => "client"
      case Laborer => "laborer"
    }
  }

  /** Reads a stored role: exactly "client" and "laborer" parse. */
  function ParseRole(s: string): (r: Option<Role>)
    ensures r.Some? <==> s == "client" || s == "laborer"
    ensures r.Some? ==> r.value.Name() == s
  {
    if s == "client" then Some(Client) else if s == "laborer" then Some(Laborer) else None
  }

  /** Parsing inverts `Name`. */
  lemma RoleRoundTrip(r: Role)
    ensures ParseRole(r.Name()) == Some(r)
  {
  }

  // ---------------------------------------------------------------------------
  // Rows

  /** A booking row. Its status is kept as the stored string: the declared type is
      `BookingStatus`, but the tracking route writes whatever string it is given. */
  datatype Booking = Booking(
    id: string,
    title: string,
    status: string,
    clientId: string,
    laborerId: string)

  /** A payment row, matched by the routes on (bookingId, transactionId). */
  datatype Payment = Payment(
    bookingId: string,
    amount: real,
    transactionId: string,
    paymentMethod: string,
    status: PaymentStatus)

  /** A notification row; `kind` is the `type` column, an unconstrained string. */
  datatype Notification = Notification(
    userId: string,
    kind: string,
    title: string,
    message: string,
    isRead: bool)

  /** A tracking row; unlike a booking's, its status is any string by declaration. */
  datatype Tracking = Tracking(
    bookingId: string,
    laborerId: string,
    latitude: real,
    longitude: real,
    status: string)
}
