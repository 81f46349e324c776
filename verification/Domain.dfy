/** The rows, messages and identifiers the two services exchange. */
module Domain {

  datatype Option<+T> = None | Some(value: T)

  // A database-generated identifier. Identity is all that matters about it.
  type Uuid = nat

  // How a statement ends for its caller: an error may hide that it has taken effect.
  datatype Reply = Answered | Failed | FailedUnheard {
    predicate TakesEffect() { !Failed? }
  }

  // Minutes since the Unix epoch for slots; ticks of the database clock for rows.
  type Time = int

  datatype Schedule = Schedule(days: seq<int>, startMin: int, endMin: int)

  datatype Slot = Slot(id: Uuid, roomId: Uuid, startAt: Time, endAt: Time)

  datatype Status = Active | Cancelled

  datatype Booking = Booking(id: Uuid, slotId: Uuid, userId: Uuid, status: Status,
                             link: Option<string>, createdAt: Time)

  datatype EventType = BookingCreated | BookingCancelled | OtherEvent(name: string)

  datatype Event = Event(eventId: Uuid, eventType: EventType, occurredAt: Time, bookingId: Uuid, userId: Uuid,
                         roomId: Uuid, roomName: string, slotStart: Time, slotEnd: Time)

  // Bytes on the wire: either they decode as a booking event or they do not.
  datatype Payload = Json(event: Event) | Malformed

  datatype OutboxRow = OutboxRow(id: Uuid, eventType: EventType, payload: Payload,
                                 createdAt: Time, sentAt: Option<Time>)

  datatype NotifType = NotifCreated | NotifCancelled

  datatype Notification = Notification(id: Uuid, userId: Uuid, kind: NotifType, bookingId: Uuid, roomName: string,
                                       slotStart: Time, slotEnd: Time, isRead: bool, createdAt: Time)

  // The payload carries the transition `ty` of booking `b`.
  predicate IsEventOf(p: Payload, b: Uuid, ty: EventType) {
    p.Json? && p.event.bookingId == b && p.event.eventType == ty
  }

  type User = Uuid

  ghost predicate Ascending(xs: seq<int>) {
    forall i, j :: 0 <= i < j < |xs| ==> xs[i] < xs[j]
  }

  predicate Above(n: nat, ids: set<nat>) {
    forall i :: i in ids ==> i < n
  }

  lemma SomethingIsAbove(ids: set<nat>) returns (n: nat)
    ensures Above(n, ids)
  {
    n := 0;
    var rest := ids;
    while rest != {}
      invariant rest <= ids && forall i :: i in ids && i !in rest ==> i < n
    {
      var i :| i in rest;
      n := if i < n then n else i + 1;
      rest := rest - {i};
    }
  }
}
