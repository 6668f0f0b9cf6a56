/**
 * The demo data the screens start from: the reservations of the Bookings screen,
 * with what the seating engine does to them, and the menu of the point of sale.
 * Every booking in the demo is dated today, which is a parameter here.
 */
module MockData {
  import opened ArrayOps
  import opened Bookings
  import opened Seating
  import BookingsPage
  import Pos

  function Reservation(id: string, name: string, time: string, today: string, guests: int,
                       status: Status, table: Option<string>): Booking
  {
    Booking(id, name, time, today, guests, status, table, None)
  }

  /** The initial booking list of the screen. */
  function MockBookings(today: string): (r: seq<Booking>)
    ensures |r| == 7
    ensures forall i :: 0 <= i < |r| ==> r[i].date == today && r[i].notes.None? && r[i].guests > 0
  {
    [ Reservation("B1", "Anna Lindberg", "17:00", today, 2, Arrived, Some("4")),
      Reservation("B2", "Johan Ek", "17:30", today, 4, Confirmed, Some("6")),
      Reservation("B3", "Företaget AB", "18:00", today, 8, Confirmed, Some("12")),
      Reservation("B4", "Maria Svensson", "18:30", today, 2, Confirmed, None),
      Reservation("B5", "Erik Granqvist", "19:00", today, 3, NoShow, None),
      Reservation("B6", "Lars Larsson", "19:30", today, 2, Confirmed, None),
      Reservation("B7", "Karin Persson", "20:00", today, 5, Confirmed, None) ]
  }

  /** The demo list has unique ids and one party per table (B1 at 4, B2 at 6, B3 at 12). */
  lemma MockIsWellFormed(today: string)
    ensures UniqueIds(MockBookings(today)) && SingleOccupancy(MockBookings(today))
  {
  }

  /** No sequence of actions the screen offers breaks single occupancy of the demo list. */
  lemma MockStaysSingleOccupied(today: string, es: seq<BookingsPage.Event>)
    requires BookingsPage.ValidTrace(MockBookings(today), es)
    ensures SingleOccupancy(BookingsPage.Run(MockBookings(today), es))
  {
    MockIsWellFormed(today);
    BookingsPage.ReachableKeepsSingleOccupancy(MockBookings(today), es);
  }

  /** In the demo list, only tables 4, 6 and 12 have an active booking. */
  lemma MockOccupiedTables(today: string, t: string)
    ensures (exists j :: 0 <= j < 7 && Occupies(MockBookings(today)[j], t)) <==> t in {"4", "6", "12"}
  {
    var bs := MockBookings(today);
    assert Occupies(bs[0], "4") && Occupies(bs[1], "6") && Occupies(bs[2], "12");
  }

  /** The tiles of tables 4, 6 and 12 show B1, B2 and B3; the other nine are free. */
  lemma MockFloorPlan(today: string)
    ensures BookingsPage.FloorPlan(MockBookings(today))[3] == Some(MockBookings(today)[0])
    ensures BookingsPage.FloorPlan(MockBookings(today))[5] == Some(MockBookings(today)[1])
    ensures BookingsPage.FloorPlan(MockBookings(today))[11] == Some(MockBookings(today)[2])
    ensures forall k :: 0 <= k < 12 && k != 3 && k != 5 && k != 11 ==>
      BookingsPage.FloorPlan(MockBookings(today))[k].None?
  {
    var bs := MockBookings(today);
    MockIsWellFormed(today);
    var fp := BookingsPage.FloorPlan(bs);
    forall k | 0 <= k < 12 && k != 3 && k != 5 && k != 11 ensures fp[k].None? {
      MockOccupiedTables(today, BookingsPage.TableIds[k]);
    }
    BookingsPage.FloorPlanShowsSeated(bs, 0, 3);
    BookingsPage.FloorPlanShowsSeated(bs, 1, 5);
    BookingsPage.FloorPlanShowsSeated(bs, 2, 11);
  }

  /** The waiting list of the demo is B4, B5 (a no-show), B6 and B7, in that order. */
  lemma MockWaitingList(today: string)
    ensures UnseatedBookings(MockBookings(today)) == MockBookings(today)[3..]
  {
    var bs := MockBookings(today);
    var seated, waiting := bs[..3], bs[3..];
    assert forall i :: 0 <= i < |seated| ==> !IsWaiting(seated[i]);
    assert forall i :: 0 <= i < |waiting| ==> IsWaiting(waiting[i]);
    assert bs == seated + waiting;
    FilterDropsAll(seated, IsWaiting);
    FilterKeepsAll(waiting, IsWaiting);
    FilterConcat(seated, waiting, IsWaiting);
  }

  /** Dropping the unseated B4 on table 4 swaps it with B1, who becomes unseated. */
  lemma DropB4OnTable4(today: string)
    ensures DropOnTable(MockBookings(today), "B4", "4").bookings[3].table == Some("4")
    ensures DropOnTable(MockBookings(today), "B4", "4").bookings[0].table == None
    ensures DropOnTable(MockBookings(today), "B4", "4").toast ==
      Some(Swapped("Maria Svensson", "Anna Lindberg"))
  {
  }

  /** Dropping B1 (table 4) on table 6 swaps it with B2, who moves to table 4. */
  lemma DropB1OnTable6(today: string)
    ensures DropOnTable(MockBookings(today), "B1", "6").bookings[0].table == Some("6")
    ensures DropOnTable(MockBookings(today), "B1", "6").bookings[1].table == Some("4")
    ensures DropOnTable(MockBookings(today), "B1", "6").bookings[2..] == MockBookings(today)[2..]
  {
  }

  /** Dropping B6 on the free table 9 seats it there and changes nothing else. */
  lemma DropB6OnTable9(today: string)
    ensures DropOnTable(MockBookings(today), "B6", "9") ==
      Outcome(MockBookings(today)[5 := MockBookings(today)[5].(table := Some("9"))],
              Some(Seated("Lars Larsson", "9")))
  {
  }

  /**
   * Once B1 is completed it keeps its stale table 4, yet B4 dropped on table 4 is
   * simply seated there: the stale reference neither blocks nor gets swapped.
   */
  lemma StaleTableDoesNotBlock(today: string)
    ensures var done := UpdateStatus(MockBookings(today), "B1", Completed).bookings;
      && done[0].table == Some("4")
      && DropOnTable(done, "B4", "4") ==
         Outcome(done[3 := done[3].(table := Some("4"))], Some(Seated("Maria Svensson", "4")))
  {
  }

  /** Two bookings: B1 arrived at table 4, B2 unseated; B2 dropped on 4 swaps them. */
  lemma TwoBookingSwap(today: string)
    ensures var bs := [Reservation("B1", "A", "17:00", today, 2, Arrived, Some("4")),
                       Reservation("B2", "B", "17:30", today, 2, Confirmed, None)];
      DropOnTable(bs, "B2", "4") ==
        Outcome([bs[0].(table := None), bs[1].(table := Some("4"))], Some(Swapped("B", "A")))
  {
  }

  /**
   * Why the screen's rule that only active bookings can be dragged matters: A is
   * at table 4, completed C still refers to table 4, D is at table 6. Dropping C on
   * table 6 sends D to C's stale table 4, where A already sits.
   */
  lemma StaleSourceBreaksOccupancy(today: string)
    ensures var bs := [Reservation("A", "A", "17:00", today, 2, Arrived, Some("4")),
                       Reservation("C", "C", "17:30", today, 2, Completed, Some("4")),
                       Reservation("D", "D", "18:00", today, 2, Confirmed, Some("6"))];
      && UniqueIds(bs) && SingleOccupancy(bs)
      && !SingleOccupancy(DropOnTable(bs, "C", "6").bookings)
  {
    var bs := [Reservation("A", "A", "17:00", today, 2, Arrived, Some("4")),
               Reservation("C", "C", "17:30", today, 2, Completed, Some("4")),
               Reservation("D", "D", "18:00", today, 2, Confirmed, Some("6"))];
    DropOnTakenTable(bs, 1, 2, "6");
    var r := DropOnTable(bs, "C", "6").bookings;
    assert r[0].table == r[2].table == Some("4");
  }

  // ---------------------------------------------------------------------------
  // The menu

  /** The point-of-sale menu: twelve available dishes and drinks, priced in whole kronor. */
  function MockMenu(): (r: seq<Pos.MenuItem>)
    ensures |r| == 12
    ensures forall i :: 0 <= i < |r| ==> r[i].price > 0 && r[i].available
    ensures forall i, j :: 0 <= i < j < |r| ==> r[i].id != r[j].id
  {
    [
    Pos.MenuItem("1", "Löjromstoast", Pos.Starter, 195, "Kalix löjrom, smetana, rödlök", true),
    Pos.MenuItem("2", "Råbiff", Pos.Starter, 165, "Svensk oxrulle, dijonnaise, kapris", true),
    Pos.MenuItem("3", "Grillad Röding", Pos.MainCourse, 295, "Sandefjordsås, forellrom, dillpotatis", true),
    Pos.MenuItem("4", "Oxfilé Provencale", Pos.MainCourse, 345, "Råstekt potatis, vitlökssmör, haricots verts", true),
    Pos.MenuItem("5", "Wallenbergare", Pos.MainCourse, 225, "Potatispuré, gröna ärtor, lingon", true),
    Pos.MenuItem("6", "Tryffelpasta", Pos.MainCourse, 245, "Färsk tryffel, parmesan, grädde", true),
    Pos.MenuItem("7", "Crème Brûlée", Pos.Dessert, 115, "Klassisk vanilj", true),
    Pos.MenuItem("8", "Chokladfondant", Pos.Dessert, 125, "Vaniljglass, hallon", true),
    Pos.MenuItem("9", "Husets Rödvin", Pos.Drink, 110, "Glas", true),
    Pos.MenuItem("10", "IPA Fat", Pos.Drink, 89, "40cl", true),
    Pos.MenuItem("11", "Cola Zero", Pos.Drink, 39, "33cl", true),
    Pos.MenuItem("12", "Kaffe", Pos.Drink, 35, "Brygg", true) ]
  }

  /**
   * A fillet of beef and a glass of house red come to 455 kronor; paying sends
   * them to the kitchen and leaves an empty cart.
   */
  lemma DinnerForOne()
    ensures Pos.Total(Pos.AddToCart(Pos.AddToCart([], MockMenu()[3]), MockMenu()[8])) == 455
    ensures Pos.Checkout(Pos.AddToCart(Pos.AddToCart([], MockMenu()[3]), MockMenu()[8])).0 == []
  {
    Pos.TotalAfterAdd([], MockMenu()[3]);
    Pos.TotalAfterAdd(Pos.AddToCart([], MockMenu()[3]), MockMenu()[8]);
  }
}
