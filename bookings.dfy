/**
 * The booking record of the restaurant dashboard and the predicates the seating
 * engine is specified with.
 */
module Bookings {
  import opened ArrayOps

  datatype Status = Confirmed | Arrived | Completed | Cancelled | NoShow

  /**
   * A reservation. `table` is absent while the party is unseated. `date` and
   * `time` are informational text the engine never reads.
   */
  datatype Booking = Booking(
    id: string,
    customerName: string,
    time: string,
    date: string,
    guests: int,
    status: Status,
    table: Option<string>,
    notes: Option<string>)

  /** Completed and cancelled bookings no longer take part in seating. */
  predicate IsActive(b: Booking) {
    b.status != Completed && b.status != Cancelled
  }

  /** The booking is an active one seated at table `t` (stale references excluded). */
  predicate Occupies(b: Booking, t: string) {
    b.table == Some(t) && IsActive(b)
  }

  /** JavaScript falsiness of the optional `table` string: absent or empty. */
  predicate HasNoTable(b: Booking) {
    b.table == None || b.table == Some("")
  }

  /** Booking ids are keys: no two records share one. */
  predicate UniqueIds(bs: seq<Booking>) {
    forall i, j :: 0 <= i < j < |bs| ==> bs[i].id != bs[j].id
  }

  /** At most one active booking refers to any given table. */
  predicate SingleOccupancy(bs: seq<Booking>) {
    forall i, j :: 0 <= i < j < |bs| && IsActive(bs[i]) && IsActive(bs[j]) && bs[i].table.Some? ==>
      bs[i].table != bs[j].table
  }
}
