/** booking_db as the running program sees it: one field per table, updated in place. */
module BookingDb {
  import opened Basics
  import opened Schema

  class Database {
    var flights: map<Id, Flight>
    var fares: map<(Id, FareClass), nat>
    var seats: map<SeatKey, Seat>
    var bookings: map<Id, Booking>
    var payments: map<Id, Payment>
    var keys: map<KeyId, KeyRow>
    var audit: seq<AuditEntry>
    var outbox: seq<OutboxRow>

    function Contents(): (t: Tables)
      reads this
    {
      Tables(flights, fares, seats, bookings, payments, keys, audit, outbox)
    }

    constructor ()
      ensures Contents() == Tables(map[], map[], map[], map[], map[], map[], [], [])
    {
      flights, fares, seats, bookings, payments, keys, audit, outbox := map[], map[], map[], map[], map[], map[], [], [];
    }

    /** ROLLBACK: every table as the transaction found it. */
    method Rollback(start: Tables)
      modifies this
      ensures Contents() == start
    {
      flights, fares, seats, bookings := start.flights, start.fares, start.seats, start.bookings;
      payments, keys, audit, outbox := start.payments, start.keys, start.audit, start.outbox;
    }

    method Record(action: AuditAction, actor: Actor, target: Id, now: Instant)
      modifies `audit
      ensures audit == old(audit) + [AuditEntry(action, actor, target, now)]
    {
      audit := audit + [AuditEntry(action, actor, target, now)];
    }

    method Enqueue(event: Event, now: Instant)
      modifies `outbox
      ensures outbox == old(outbox) + [OutboxRow(event, now)]
    {
      outbox := outbox + [OutboxRow(event, now)];
    }
  }
}
