/**
 * The seating engine of the Bookings screen: every operation takes the current
 * booking list and returns the next one together with the toast it shows.
 * Tables are plain strings; a booking whose status is completed or cancelled may
 * keep a stale `table`, and the engine skips it wherever it looks for occupants.
 */
module Seating {
  import opened ArrayOps
  import opened Bookings

  /** The notifications the screen raises, with their exact wording. */
  datatype Toast =
    | Seated(guest: string, table: string)
    | Swapped(mover: string, occupant: string)
    | RemovedFromTable
    | CheckedIn
    | MarkedNoShow
  {
    function Text(): string {
      match this
      case Seated(guest, table) => guest + " placerad på bord " + table
      case Swapped(mover, occupant) => "Växlade plats: " + mover + " <-> " + occupant
      case RemovedFromTable => "Bokning borttagen från bord"
      case CheckedIn => "Gäst incheckad"
      case MarkedNoShow => "Gäst markerad som No-show"
    }
  }

  /** The next booking list and the toast shown, if any. */
  datatype Outcome = Outcome(bookings: seq<Booking>, toast: Option<Toast>)

  /** Position of the first ACTIVE booking at table `t`; stale references are skipped. */
  function OccupantIndex(bs: seq<Booking>, t: string): (r: Option<nat>)
    ensures r.Some? ==> r.value < |bs| && Occupies(bs[r.value], t)
    ensures r.Some? ==> forall j :: 0 <= j < r.value ==> !Occupies(bs[j], t)
    ensures r.None? ==> forall j :: 0 <= j < |bs| ==> !Occupies(bs[j], t)
  {
    FindIndex(bs, (b: Booking) => b.table == Some(t) && IsActive(b))
  }

  /** The booking a table tile shows. */
  function OccupantOf(bs: seq<Booking>, t: string): (r: Option<Booking>)
    ensures r.Some? ==> r.value in bs && r.value.table == Some(t)
    ensures r.Some? ==> r.value.status != Completed && r.value.status != Cancelled
    ensures r.None? <==> forall j :: 0 <= j < |bs| ==> !Occupies(bs[j], t)
  {
    match OccupantIndex(bs, t)
    case None => None
    case Some(k) => Some(bs[k])
  }

  /**
   * Drop the dragged booking `bookingId` on table `tableId`: an empty id, an
   * unknown id or a drop on the booking's own table does nothing; otherwise the
   * booking takes the table and the table's active occupant, if any, takes the
   * booking's previous table.
   */
  function DropOnTable(bs: seq<Booking>, bookingId: string, tableId: string): (r: Outcome)
    ensures |r.bookings| == |bs|
    ensures forall i :: 0 <= i < |bs| ==> r.bookings[i] == bs[i].(table := r.bookings[i].table)
    ensures r.toast.None? ==> r.bookings == bs
  {
    if bookingId == "" then Outcome(bs, None)
    else match FindIndex(bs, (b: Booking) => b.id == bookingId)
      case None => Outcome(bs, None)
      case Some(s) =>
        var source := bs[s];
        if source.table == Some(tableId) then Outcome(bs, None)
        else
          var occupant := match OccupantIndex(bs, tableId)
            case None => None
            case Some(k) => Some(bs[k]);
          var moved := seq(|bs|, i requires 0 <= i < |bs| =>
            if bs[i].id == bookingId then bs[i].(table := Some(tableId))
            else if occupant.Some? && bs[i].id == occupant.value.id then bs[i].(table := source.table)
            else bs[i]);
          Outcome(moved,
            Some(if occupant.Some? then Swapped(source.customerName, occupant.value.customerName)
                 else Seated(source.customerName, tableId)))
  }

  /** Drop the dragged booking on the waiting-list zone: it loses its table. */
  function DropToUnseated(bs: seq<Booking>, bookingId: string): (r: Outcome)
    ensures |r.bookings| == |bs|
    ensures forall i :: 0 <= i < |bs| ==> r.bookings[i] == bs[i].(table := r.bookings[i].table)
    ensures bookingId == "" ==> r == Outcome(bs, None)
    ensures bookingId != "" ==> r.toast == Some(RemovedFromTable)
    ensures bookingId != "" ==> r.toast.value.Text() == "Bokning borttagen från bord"
    ensures bookingId != "" ==> forall i :: 0 <= i < |bs| ==>
      r.bookings[i].table == (if bs[i].id == bookingId then None else bs[i].table)
  {
    if bookingId == "" then Outcome(bs, None)
    else
      Outcome(seq(|bs|, i requires 0 <= i < |bs| =>
                if bs[i].id == bookingId then bs[i].(table := None) else bs[i]),
              Some(RemovedFromTable))
  }

  /** The test the waiting list applies to each booking. */
  predicate IsWaiting(b: Booking) {
    HasNoTable(b) && IsActive(b)
  }

  /** The waiting list: active bookings without a table, in list order. */
  function UnseatedBookings(bs: seq<Booking>): (r: seq<Booking>)
    ensures |r| <= |bs|
    ensures forall i :: 0 <= i < |r| ==>
      r[i] in bs && (r[i].table == None || r[i].table == Some("")) &&
      r[i].status != Cancelled && r[i].status != Completed
    ensures forall i :: 0 <= i < |bs| && HasNoTable(bs[i]) && IsActive(bs[i]) ==> bs[i] in r
  {
    Filter(bs, IsWaiting)
  }

  /** Set the status of the booking `id`; check-in and no-show raise a toast. */
  function UpdateStatus(bs: seq<Booking>, id: string, status: Status): (r: Outcome)
    ensures |r.bookings| == |bs|
    ensures forall i :: 0 <= i < |bs| ==> r.bookings[i] == bs[i].(status := r.bookings[i].status)
    ensures forall i :: 0 <= i < |bs| ==>
      r.bookings[i].status == (if bs[i].id == id then status else bs[i].status)
    ensures r.toast.Some? <==> status == Arrived || status == NoShow
    ensures status == Arrived ==> r.toast == Some(CheckedIn)
    ensures status == NoShow ==> r.toast == Some(MarkedNoShow)
    ensures status == Arrived ==> r.toast.value.Text() == "Gäst incheckad"
    ensures status == NoShow ==> r.toast.value.Text() == "Gäst markerad som No-show"
  {
    var updated := seq(|bs|, i requires 0 <= i < |bs| =>
      if bs[i].id == id then bs[i].(status := status) else bs[i]);
    Outcome(updated,
      if status == Arrived then Some(CheckedIn)
      else if status == NoShow then Some(MarkedNoShow)
      else None)
  }

  // ---------------------------------------------------------------------------
  // Lookup lemmas

  /** With unique ids, the first booking with the id of `bs[s]` is `bs[s]` itself. */
  lemma FindsUniqueId(bs: seq<Booking>, s: nat)
    requires UniqueIds(bs) && s < |bs|
    ensures FindIndex(bs, (b: Booking) => b.id == bs[s].id) == Some(s)
  {
  }

  /** Under single occupancy, the tile of a table shows its one active booking. */
  lemma OccupantIsUnique(bs: seq<Booking>, i: nat, t: string)
    requires SingleOccupancy(bs) && i < |bs| && Occupies(bs[i], t)
    ensures OccupantIndex(bs, t) == Some(i)
    ensures OccupantOf(bs, t) == Some(bs[i])
  {
  }

  // ---------------------------------------------------------------------------
  // Drop on a table

  /** The drop does nothing, and shows nothing, exactly in the three guarded cases. */
  lemma DropIgnored(bs: seq<Booking>, bookingId: string, tableId: string)
    requires UniqueIds(bs)
    ensures DropOnTable(bs, bookingId, tableId).toast.None? <==>
      bookingId == "" ||
      (forall i :: 0 <= i < |bs| ==> bs[i].id != bookingId) ||
      (exists i :: 0 <= i < |bs| && bs[i].id == bookingId && bs[i].table == Some(tableId))
    ensures DropOnTable(bs, bookingId, tableId).toast.None? ==>
      DropOnTable(bs, bookingId, tableId).bookings == bs
  {
  }

  /** Drop on a table no active booking holds: the dragged booking alone changes. */
  lemma DropOnFreeTable(bs: seq<Booking>, s: nat, tableId: string)
    requires UniqueIds(bs) && s < |bs|
    requires bs[s].id != "" && bs[s].table != Some(tableId)
    requires forall j :: 0 <= j < |bs| ==> !Occupies(bs[j], tableId)
    ensures DropOnTable(bs, bs[s].id, tableId) ==
      Outcome(bs[s := bs[s].(table := Some(tableId))], Some(Seated(bs[s].customerName, tableId)))
    ensures DropOnTable(bs, bs[s].id, tableId).toast.value.Text() ==
      bs[s].customerName + " placerad på bord " + tableId
  {
  }

  /**
   * Drop on a table whose first active booking is `bs[k]`: a swap. The dragged
   * booking takes the table, `bs[k]` takes the dragged booking's previous table
   * (none if it was unseated), and no other booking changes.
   */
  lemma DropOnTakenTable(bs: seq<Booking>, s: nat, k: nat, tableId: string)
    requires UniqueIds(bs) && s < |bs| && k < |bs|
    requires bs[s].id != "" && bs[s].table != Some(tableId)
    requires Occupies(bs[k], tableId)
    requires forall j :: 0 <= j < k ==> !Occupies(bs[j], tableId)
    ensures s != k
    ensures DropOnTable(bs, bs[s].id, tableId) ==
      Outcome(bs[s := bs[s].(table := Some(tableId))][k := bs[k].(table := bs[s].table)],
              Some(Swapped(bs[s].customerName, bs[k].customerName)))
    ensures DropOnTable(bs, bs[s].id, tableId).toast.value.Text() ==
      "Växlade plats: " + bs[s].customerName + " <-> " + bs[k].customerName
  {
  }

  /** Moving an active booking to a table no active booking holds keeps single occupancy. */
  lemma MoveKeepsSingleOccupancy(bs: seq<Booking>, s: nat, t: string)
    requires SingleOccupancy(bs) && s < |bs| && IsActive(bs[s])
    requires forall j :: 0 <= j < |bs| ==> !Occupies(bs[j], t)
    ensures SingleOccupancy(bs[s := bs[s].(table := Some(t))])
  {
  }

  /**
   * Swapping an active booking with the active occupant `bs[k]` of table `t`
   * keeps single occupancy: each of the two lands where only the other was.
   */
  lemma SwapKeepsSingleOccupancy(bs: seq<Booking>, s: nat, k: nat, t: string)
    requires SingleOccupancy(bs) && s < |bs| && k < |bs| && s != k
    requires IsActive(bs[s]) && Occupies(bs[k], t) && bs[s].table != Some(t)
    ensures SingleOccupancy(bs[s := bs[s].(table := Some(t))][k := bs[k].(table := bs[s].table)])
  {
  }

  /**
   * Dropping an ACTIVE booking keeps at most one active booking per table, and
   * ids stay unique. The screen only lets active bookings be dragged.
   */
  lemma DropKeepsSingleOccupancy(bs: seq<Booking>, bookingId: string, tableId: string)
    requires UniqueIds(bs) && SingleOccupancy(bs)
    requires forall i :: 0 <= i < |bs| && bs[i].id == bookingId ==> IsActive(bs[i])
    ensures UniqueIds(DropOnTable(bs, bookingId, tableId).bookings)
    ensures SingleOccupancy(DropOnTable(bs, bookingId, tableId).bookings)
  {
    var r := DropOnTable(bs, bookingId, tableId).bookings;
    assert forall i :: 0 <= i < |r| ==> r[i].id == bs[i].id;
    DropIgnored(bs, bookingId, tableId);
    if DropOnTable(bs, bookingId, tableId).toast.Some? {
      var s :| 0 <= s < |bs| && bs[s].id == bookingId;
      match OccupantIndex(bs, tableId)
      case None =>
        DropOnFreeTable(bs, s, tableId);
        MoveKeepsSingleOccupancy(bs, s, tableId);
      case Some(k) =>
        DropOnTakenTable(bs, s, k, tableId);
        SwapKeepsSingleOccupancy(bs, s, k, tableId);
    }
  }

  // ---------------------------------------------------------------------------
  // Drop to the waiting list

  /** Unseating twice is unseating once. */
  lemma UnseatIdempotent(bs: seq<Booking>, bookingId: string)
    ensures DropToUnseated(DropToUnseated(bs, bookingId).bookings, bookingId) ==
      DropToUnseated(bs, bookingId)
  {
  }

  /** Unseating keeps ids unique and at most one active booking per table. */
  lemma UnseatKeepsSingleOccupancy(bs: seq<Booking>, bookingId: string)
    requires UniqueIds(bs) && SingleOccupancy(bs)
    ensures UniqueIds(DropToUnseated(bs, bookingId).bookings)
    ensures SingleOccupancy(DropToUnseated(bs, bookingId).bookings)
  {
  }

  /** An active booking that is unseated appears on the waiting list afterwards. */
  lemma UnseatedJoinsWaitingList(bs: seq<Booking>, i: nat)
    requires i < |bs| && bs[i].id != "" && IsActive(bs[i])
    ensures bs[i].(table := None) in UnseatedBookings(DropToUnseated(bs, bs[i].id).bookings)
  {
  }

  // ---------------------------------------------------------------------------
  // The waiting list

  /**
   * The waiting list keeps list order: around any one booking `b` it is the
   * waiting list of what precedes, then `b` if it waits, then that of what follows.
   */
  lemma WaitingListOrder(before: seq<Booking>, b: Booking, after: seq<Booking>)
    ensures UnseatedBookings(before + [b] + after) ==
      UnseatedBookings(before) + (if HasNoTable(b) && IsActive(b) then [b] else []) +
      UnseatedBookings(after)
  {
    var single := if IsWaiting(b) then [b] else [];
    calc {
      UnseatedBookings(before + [b] + after);
      Filter(before + [b] + after, IsWaiting);
      { FilterConcat(before + [b], after, IsWaiting); }
      Filter(before + [b], IsWaiting) + Filter(after, IsWaiting);
      { FilterConcat(before, [b], IsWaiting); FilterSingleton(b, IsWaiting); }
      Filter(before, IsWaiting) + single + Filter(after, IsWaiting);
    }
  }

  // ---------------------------------------------------------------------------
  // Status updates

  /** A status update never moves anyone and keeps ids. */
  lemma StatusKeepsTables(bs: seq<Booking>, id: string, status: Status)
    ensures forall i :: 0 <= i < |bs| ==>
      UpdateStatus(bs, id, status).bookings[i].table == bs[i].table &&
      UpdateStatus(bs, id, status).bookings[i].id == bs[i].id
  {
  }

  /**
   * A status update that does not bring a completed or cancelled booking back to
   * an active status keeps single occupancy.
   */
  lemma StatusKeepsSingleOccupancy(bs: seq<Booking>, id: string, status: Status)
    requires UniqueIds(bs) && SingleOccupancy(bs)
    requires status == Completed || status == Cancelled ||
      forall i :: 0 <= i < |bs| && bs[i].id == id ==> IsActive(bs[i])
    ensures UniqueIds(UpdateStatus(bs, id, status).bookings)
    ensures SingleOccupancy(UpdateStatus(bs, id, status).bookings)
  {
  }

  /**
   * Completing a seated booking frees its table for the tile lookup, although the
   * booking keeps its now stale table reference.
   */
  lemma CompletingFreesTable(bs: seq<Booking>, i: nat, t: string)
    requires UniqueIds(bs) && SingleOccupancy(bs) && i < |bs| && Occupies(bs[i], t)
    ensures UpdateStatus(bs, bs[i].id, Completed).bookings[i].table == Some(t)
    ensures OccupantOf(UpdateStatus(bs, bs[i].id, Completed).bookings, t).None?
  {
  }
}
