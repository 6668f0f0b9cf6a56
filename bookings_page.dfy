/**
 * How the Bookings screen drives the seating engine: the twelve table tiles, the
 * bookings a user can pick up (a tile's occupant or a waiting-list card), and the
 * user actions that replace the booking list. The drag token is the booking id.
 */
module BookingsPage {
  import opened ArrayOps
  import opened Bookings
  import Seating

  /** The floor plan's table labels, "1" to "12". */
  const TableIds: seq<string> := ["1", "2", "3", "4", "5", "6", "7", "8", "9", "10", "11", "12"]

  /** What each tile shows, tile k for table TableIds[k]. */
  function FloorPlan(bs: seq<Booking>): (r: seq<Option<Booking>>)
    ensures |r| == 12
    ensures forall k :: 0 <= k < 12 && r[k].Some? ==>
      r[k].value in bs && Occupies(r[k].value, TableIds[k])
    ensures forall k :: 0 <= k < 12 && r[k].None? ==>
      forall j :: 0 <= j < |bs| ==> !Occupies(bs[j], TableIds[k])
  {
    seq(12, k requires 0 <= k < 12 => Seating.OccupantOf(bs, TableIds[k]))
  }

  /** Every active booking seated at one of the twelve tables is shown on its tile. */
  lemma FloorPlanShowsSeated(bs: seq<Booking>, i: nat, k: nat)
    requires SingleOccupancy(bs) && i < |bs| && k < 12 && Occupies(bs[i], TableIds[k])
    ensures FloorPlan(bs)[k] == Some(bs[i])
  {
  }

  /**
   * A booking can be picked up from its tile or from the waiting list; either
   * way it is an active booking of the list.
   */
  predicate Draggable(bs: seq<Booking>, id: string)
    ensures Draggable(bs, id) ==> exists i :: 0 <= i < |bs| && bs[i].id == id && IsActive(bs[i])
  {
    (exists k :: 0 <= k < 12 && FloorPlan(bs)[k].Some? && FloorPlan(bs)[k].value.id == id) ||
    (exists b :: b in Seating.UnseatedBookings(bs) && b.id == id)
  }

  /** Whatever the screen lets a user drag is an active booking. */
  lemma DraggableIsActive(bs: seq<Booking>, id: string)
    requires UniqueIds(bs) && Draggable(bs, id)
    ensures exists i :: 0 <= i < |bs| && bs[i].id == id
    ensures forall i :: 0 <= i < |bs| && bs[i].id == id ==> IsActive(bs[i])
  {
  }

  /** The user actions of the screen that change the booking list. */
  datatype Event =
    | TableDrop(bookingId: string, tableId: string)   // a card or tile dropped on a tile
    | WaitingListDrop(bookingId: string)              // dropped on the waiting-list panel
    | CheckInClicked(id: string)                      // "Checka in" in the list view
    | NoShowClicked(id: string)                       // "No-show" in the list view
  {
    /** The booking the action is about. */
    function Target(): string {
      match this
      case TableDrop(id, _) => id
      case WaitingListDrop(id) => id
      case CheckInClicked(id) => id
      case NoShowClicked(id) => id
    }
  }

  /** The actions the screen offers in state `bs`. */
  predicate Enabled(bs: seq<Booking>, e: Event)
    ensures Enabled(bs, e) ==> exists i :: 0 <= i < |bs| && bs[i].id == e.Target() && IsActive(bs[i])
    ensures Enabled(bs, e) && e.TableDrop? ==> e.tableId in TableIds
  {
    match e
    case TableDrop(id, t) => Draggable(bs, id) && t in TableIds
    case WaitingListDrop(id) => Draggable(bs, id)
    case CheckInClicked(id) => exists i :: 0 <= i < |bs| && bs[i].id == id && bs[i].status == Confirmed
    case NoShowClicked(id) => exists i :: 0 <= i < |bs| && bs[i].id == id && bs[i].status == Confirmed
  }

  /** The booking list after one action. */
  function Apply(bs: seq<Booking>, e: Event): (r: seq<Booking>)
    ensures |r| == |bs|
    ensures forall i :: 0 <= i < |bs| ==>
      r[i] == bs[i].(table := r[i].table, status := r[i].status)
    ensures (e.TableDrop? || e.WaitingListDrop?) ==>
      forall i :: 0 <= i < |bs| ==> r[i].status == bs[i].status
    ensures (e.CheckInClicked? || e.NoShowClicked?) ==>
      forall i :: 0 <= i < |bs| ==> r[i].table == bs[i].table
  {
    match e
    case TableDrop(id, t) => Seating.DropOnTable(bs, id, t).bookings
    case WaitingListDrop(id) => Seating.DropToUnseated(bs, id).bookings
    case CheckInClicked(id) => Seating.UpdateStatus(bs, id, Arrived).bookings
    case NoShowClicked(id) => Seating.UpdateStatus(bs, id, NoShow).bookings
  }

  /** Every action of `es` is offered in the state it is taken in. */
  predicate ValidTrace(bs: seq<Booking>, es: seq<Event>)
    decreases |es|
  {
    |es| == 0 || (Enabled(bs, es[0]) && ValidTrace(Apply(bs, es[0]), es[1..]))
  }

  /** The booking list after a sequence of actions. */
  function Run(bs: seq<Booking>, es: seq<Event>): seq<Booking>
    decreases |es|
  {
    if |es| == 0 then bs else Run(Apply(bs, es[0]), es[1..])
  }

  /** Every action the screen offers keeps ids unique and single occupancy. */
  lemma StepKeepsSingleOccupancy(bs: seq<Booking>, e: Event)
    requires UniqueIds(bs) && SingleOccupancy(bs) && Enabled(bs, e)
    ensures UniqueIds(Apply(bs, e)) && SingleOccupancy(Apply(bs, e))
  {
    match e
    case TableDrop(id, t) =>
      DraggableIsActive(bs, id);
      Seating.DropKeepsSingleOccupancy(bs, id, t);
    case WaitingListDrop(id) =>
      Seating.UnseatKeepsSingleOccupancy(bs, id);
    case CheckInClicked(id) =>
      Seating.StatusKeepsSingleOccupancy(bs, id, Arrived);
    case NoShowClicked(id) =>
      Seating.StatusKeepsSingleOccupancy(bs, id, NoShow);
  }

  /**
   * Single occupancy holds in every state the screen can reach: from a list with
   * unique ids and at most one active booking per table, any sequence of offered
   * actions leads to such a list again.
   */
  lemma {:induction false} ReachableKeepsSingleOccupancy(bs: seq<Booking>, es: seq<Event>)
    requires UniqueIds(bs) && SingleOccupancy(bs) && ValidTrace(bs, es)
    ensures UniqueIds(Run(bs, es)) && SingleOccupancy(Run(bs, es))
    decreases |es|
  {
    if |es| > 0 {
      StepKeepsSingleOccupancy(bs, es[0]);
      ReachableKeepsSingleOccupancy(Apply(bs, es[0]), es[1..]);
    }
  }
}
