/** The dashboard's figures and per-row mappings, computed from the bookings and
    payments it has loaded. */
module Dashboard {
  import opened Wrappers
  import opened Js
  import opened Database
  import opened Seqs

  /** `reduce((sum, p) => sum + Number(p.amount), 0)`, from the left. */
  function SumAmounts(ps: seq<Payment>): real {
    if ps == [] then 0.0 else SumAmounts(ps[..|ps| - 1]) + ps[|ps| - 1].amount
  }

  function IsCompleted(p: Payment): bool {
    p.status == PaymentCompleted
  }

  /** `totalEarnings`: the sum of the completed payments' amounts; it is never
      negative while no amount is. */
  function TotalEarnings(payments: seq<Payment>): (r: real)
    ensures (forall p :: p in payments ==> p.amount >= 0.0) ==> r >= 0.0
  {
    SumAmountsNonNegative(Filter(payments, IsCompleted));
    SumAmounts(Filter(payments, IsCompleted))
  }

  /** The number of bookings whose status is `status`. */
  function CountWithStatus(bookings: seq<Booking>, status: string): (n: nat)
    ensures n <= |bookings|
  {
    |Filter(bookings, (b: Booking) => b.status == status)|
  }

  /** The three counters on the dashboard's cards. */
  datatype Counters = Counters(pending: nat, active: nat, completed: nat)

  /** `pendingBookings`, `activeBookings` and `completedBookings`. A status is counted
      by at most one counter, so together they never exceed the number of bookings. */
  function BookingCounters(bookings: seq<Booking>): (c: Counters)
    ensures c.pending + c.active + c.completed <= |bookings|
  {
    DistinctCountsBounded(bookings, Pending.Name(), InProgress.Name(), Completed.Name());
    Counters(CountWithStatus(bookings, Pending.Name()),
             CountWithStatus(bookings, InProgress.Name()),
             CountWithStatus(bookings, Completed.Name()))
  }

  datatype BadgeVariant = Default | Secondary | Outline | Destructive

  /** The booking badge: completed, in_progress and pending each have their own variant;
      every other status (accepted, cancelled, or any string) is destructive. */
  function Badge(status: string): (v: BadgeVariant)
    ensures v == Default <==> status == Completed.Name()
    ensures v == Secondary <==> status == InProgress.Name()
    ensures v == Outline <==> status == Pending.Name()
  {
    if status == "completed" then Default
    else if status == "in_progress" then Secondary
    else if status == "pending" then Outline
    else Destructive
  }

  /** The badge text: `status.replace("_", " ")`, the status with its first underscore
      (if any) shown as a space and every other character kept. */
  function StatusLabel(status: string): (s: string)
    ensures |s| == |status|
    ensures forall k :: 0 <= k < |s| ==> s[k] == if k == IndexOf(status, '_') then ' ' else status[k]
  {
    ReplaceFirst(status, '_', ' ')
  }

  datatype Colour = Green | Amber | Red

  /** The payment icon's colour: green when completed, amber when pending, red otherwise. */
  function PaymentColour(status: PaymentStatus): (c: Colour)
    ensures c == Green <==> status == PaymentCompleted
    ensures c == Amber <==> status == PaymentPending
  {
    if status == PaymentCompleted then Green
    else if status == PaymentPending then Amber
    else Red
  }

  /** The role test `profile?.role === "client"`; a missing profile is not a client. */
  predicate IsClient(role: Option<Role>) {
    role == Some(Client)
  }

  /** The buttons on a booking row, in order: "Details" always, then at most one more
      depending on the status and on whether the viewer is a client. */
  function ActionButtons(status: string, role: Option<Role>): (r: seq<string>)
    ensures 1 <= |r| <= 2 && r[0] == "Details"
    ensures |r| == 2 <==> status in {Pending.Name(), InProgress.Name()} || (status == Completed.Name() && IsClient(role))
    ensures "Review" in r <==> status == Completed.Name() && IsClient(role)
    ensures status == Pending.Name() ==> r == ["Details", if IsClient(role) then "Edit" else "Accept"]
    ensures status == InProgress.Name() ==> r == ["Details", if IsClient(role) then "Track" else "Update"]
    ensures status == Completed.Name() ==> r == if IsClient(role) then ["Details", "Review"] else ["Details"]
    ensures status !in {Pending.Name(), InProgress.Name(), Completed.Name()} ==> r == ["Details"]
  {
    ["Details"]
    + (if status == "pending" then [if IsClient(role) then "Edit" else "Accept"] else [])
    + (if status == "in_progress" then [if IsClient(role) then "Track" else "Update"] else [])
    + (if status == "completed" && IsClient(role) then ["Review"] else [])
  }

  // ---------------------------------------------------------------------------
  // Properties

  lemma {:induction false} SumAmountsAppend(a: seq<Payment>, b: seq<Payment>)
    ensures SumAmounts(a + b) == SumAmounts(a) + SumAmounts(b)
    decreases |b|
  {
    if b == [] {
      assert a + b == a;
    } else {
      assert (a + b)[..|a + b| - 1] == a + b[..|b| - 1];
      SumAmountsAppend(a, b[..|b| - 1]);
    }
  }

  lemma {:induction false} SumAmountsNonNegative(ps: seq<Payment>)
    ensures (forall p :: p in ps ==> p.amount >= 0.0) ==> SumAmounts(ps) >= 0.0
    decreases |ps|
  {
    if ps != [] {
      SumAmountsNonNegative(ps[..|ps| - 1]);
      assert forall p :: p in ps[..|ps| - 1] ==> p in ps;
      assert ps[|ps| - 1] in ps;
    }
  }

  /** A counter starts at zero and a new booking adds one to the counter of its own
      status and nothing to any other. */
  lemma {:induction false} CountWithStatusAppend(bookings: seq<Booking>, b: Booking, status: string)
    ensures CountWithStatus([], status) == 0
    ensures CountWithStatus(bookings + [b], status) ==
            CountWithStatus(bookings, status) + (if b.status == status then 1 else 0)
  {
    var p := (x: Booking) => x.status == status;
    FilterAppend(bookings, [b], p);
    assert Filter([b], p) == if b.status == status then [b] else [];
  }

  /** Counters of three different statuses add up to at most the number of bookings. */
  lemma {:induction false} DistinctCountsBounded(bookings: seq<Booking>, s1: string, s2: string, s3: string)
    requires s1 != s2 && s1 != s3 && s2 != s3
    ensures CountWithStatus(bookings, s1) + CountWithStatus(bookings, s2) + CountWithStatus(bookings, s3)
            <= |bookings|
  {
    if bookings != [] {
      DistinctCountsBounded(bookings[1..], s1, s2, s3);
    }
  }

  /** A new payment row adds its amount to the earnings iff it is completed. */
  lemma {:induction false} TotalEarningsAppend(payments: seq<Payment>, p: Payment)
    ensures TotalEarnings(payments + [p]) ==
            TotalEarnings(payments) + (if p.status == PaymentCompleted then p.amount else 0.0)
  {
    FilterAppend(payments, [p], IsCompleted);
    SumAmountsAppend(Filter(payments, IsCompleted), Filter([p], IsCompleted));
    if p.status == PaymentCompleted {
      assert Filter([p], IsCompleted) == [p];
      assert SumAmounts([p]) == SumAmounts([]) + p.amount;
    } else {
      assert Filter([p], IsCompleted) == [];
    }
  }

  /** Payments that are not completed contribute nothing. */
  lemma {:induction false} NoCompletedNoEarnings(payments: seq<Payment>)
    requires forall p :: p in payments ==> p.status != PaymentCompleted
    ensures TotalEarnings(payments) == 0.0
  {
    FilterNone(payments, IsCompleted);
  }

  /** The earnings are the sum over the rows shown in green. */
  lemma {:induction false} EarningsAreGreenRows(payments: seq<Payment>)
    ensures TotalEarnings(payments) == SumAmounts(Filter(payments, (p: Payment) => PaymentColour(p.status) == Green))
  {
    FilterSameTest(payments, IsCompleted, (p: Payment) => PaymentColour(p.status) == Green);
  }

  /** Accepted and cancelled bookings (and any other status) are counted by none of the
      counters. */
  lemma {:induction false} UncountedStatusChangesNoCounter(bookings: seq<Booking>, b: Booking)
    requires Badge(b.status) == Destructive
    ensures BookingCounters(bookings + [b]) == BookingCounters(bookings)
  {
    forall status | status in {Pending.Name(), InProgress.Name(), Completed.Name()}
      ensures CountWithStatus(bookings + [b], status) == CountWithStatus(bookings, status)
    {
      var p := (x: Booking) => x.status == status;
      FilterAppend(bookings, [b], p);
      assert Filter([b], p) == [];
    }
  }

  /** The badges of the three counted statuses differ from each other. */
  lemma CountedBadgesDistinct(a: BookingStatus, b: BookingStatus)
    requires a in {Pending, InProgress, Completed} && b in {Pending, InProgress, Completed}
    requires Badge(a.Name()) == Badge(b.Name())
    ensures a == b
  {
  }

  /** The label shows the five booking statuses with the underscore of in_progress
      turned into a space and the others unchanged. */
  lemma StatusLabels()
    ensures StatusLabel(InProgress.Name()) == "in progress"
    ensures forall b :: b != InProgress ==> StatusLabel(b.Name()) == b.Name()
  {
    ReplaceFirstAt("in_progress", '_', ' ', 2);
    assert '_' !in Pending.Name();
    assert '_' !in Accepted.Name();
    assert '_' !in Completed.Name();
    assert '_' !in Cancelled.Name();
  }

  /** Without a profile the buttons are those of a laborer. */
  lemma MissingProfileActsAsLaborer(status: string)
    ensures ActionButtons(status, None) == ActionButtons(status, Some(Laborer))
  {
  }
}
