/** The entities of the booking system: table rows, wire messages, and the reservation lifecycle. */
module BookingTypes {

  /** A table id. Uuids are modelled as positions in insertion order; nothing depends on their value. */
  type Id = nat

  /** Milliseconds since the epoch, from 1970 on. */
  type Instant = nat

  datatype Option<+T> = None | Some(value: T)

  datatype Status = HELD | CONFIRMED | EXPIRED | CANCELLED | COMPLETED

  /** The only legal moves of a reservation. */
  function AllowedTransitions(from: Status): set<Status> {
    match from
    case HELD => {CONFIRMED, CANCELLED, EXPIRED}
    case CONFIRMED => {CANCELLED, COMPLETED}
    case EXPIRED => {}
    case CANCELLED => {}
    case COMPLETED => {}
  }

  /** The statuses the exclusion constraint's WHERE clause counts. */
  predicate Active(st: Status) {
    st == HELD || st == CONFIRMED
  }

  /** A stay that is still claimed or was honoured: what a guest would call "booked". */
  predicate Booked(st: Status) {
    Active(st) || st == COMPLETED
  }

  /** `readAt` is the instant at which `hold` read its clock, `insertedAt` the instant of the insert. */
  datatype Reservation = Reservation(
    listing: Id,
    checkIn: Instant,
    checkOut: Instant,
    status: Status,
    priceTotalCents: nat,
    holdExpiresAt: Instant,
    readAt: Instant,
    insertedAt: Instant)

  datatype BookingHeld = BookingHeld(reservationId: Id, idempotencyKey: Id, amountCents: int)

  /** `enqueues` counts how often a relay handed the row to the charge queue. */
  datatype OutboxRow = OutboxRow(event: BookingHeld, createdAt: Instant, published: bool, enqueues: nat)

  datatype PaymentStatus = PENDING | SUCCEEDED | FAILED | REFUNDED

  datatype Payment = Payment(
    reservationId: Id,
    status: PaymentStatus,
    amountCents: int,
    providerRef: Option<Id>)

  /** What the provider answers. The reference is derived from the key, so it is modelled by the key. */
  datatype ChargeOutcome = Charged(providerRef: Id) | Declined

  datatype LedgerEntry = LedgerEntry(outcome: ChargeOutcome, amountCents: int)

  /** Money actually moved by the provider. */
  datatype MoneyMove = Take(key: Id, amountCents: int) | GiveBack(key: Id, amountCents: int)

  datatype ChargeJob = ChargeJob(event: BookingHeld, attemptsMade: nat)

  datatype PaymentResult =
    | PaymentSucceeded(reservationId: Id, idempotencyKey: Id, amountCents: int, providerRef: Id)
    | PaymentFailed(reservationId: Id, idempotencyKey: Id)

  datatype RefundRequested = RefundRequested(reservationId: Id, idempotencyKey: Id)

  /** How many times the charge queue runs one job. */
  const CHARGE_ATTEMPTS: nat := 5
}
