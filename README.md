# Noory Restaurant OS: the seating engine, in Dafny

This project models the logic of a restaurant back-office dashboard. The dashboard is a single-page
app whose state lives in memory. Its one piece of real logic is the seating engine of the Bookings
screen. The engine maps reservations onto twelve numbered tables. A user drags a reservation card
or an occupied table tile, and drops it either on a table or on the waiting-list panel:

- A drop on a free table seats the party there.
- A drop on an occupied table swaps the two parties. The occupant goes wherever the dragged party
  came from, which is the waiting list if it was unseated.
- A drop on the waiting list takes the party off its table.
- Check-in and no-show buttons change a reservation's status.

A completed or cancelled reservation may keep a stale table number. The engine ignores such
reservations wherever it looks for a table's occupant.

Every operation is a pure function. It takes the booking list and returns the next list together
with the toast message it raises. The model keeps that shape:

- `array_ops.dfy` (`ArrayOps`): the JavaScript `find` and `filter` the engine is written with.
- `bookings.dfy` (`Bookings`): the booking record, plus the two invariants (ids are unique, and
  each table has at most one active booking).
- `seating.dfy` (`Seating`): drop on a table, drop on the waiting list, the waiting list, a table's
  occupant and status updates, with their lemmas.
- `bookings_page.dfy` (`BookingsPage`): the twelve tiles and what the screen lets a user drag or
  click. It proves that single occupancy holds in every state the screen can reach.
- `mock_data.dfy` (`MockData`): the demo reservations and menu, plus concrete scenarios.
- `pos.dfy` (`Pos`): the point-of-sale cart and its bill.
- `session.dfy` (`Session`): the demo sign-in, sign-out, the four-step onboarding wizard, and which
  top-level view is shown.

Some inputs come from outside the engine, and the model takes them as plain parameters:

- The drag token is the booking id carried by the drag event.
- The demo reservations are dated "today" by the clock.
- A toast is modelled as the returned message. Its three-second expiry is not modelled.

Details of `App.tsx` the model keeps:

- Dropping on the waiting list shows its toast even when no booking has the dragged id. Only an
  empty id is ignored.
- A status update toasts for check-in and no-show whether or not the id exists.
- The waiting list tests the table with JavaScript truthiness, so an empty table string also
  counts as unseated.
- No-show bookings are active. They can occupy a table and they appear on the waiting list.

## Model

| member | source | states |
|---|---|---|
| `ArrayOps.FindIndex` | App.tsx:415 | `find` yields the first element satisfying the predicate, and nothing only when no element does |
| `ArrayOps.Filter` | App.tsx:453 | `filter` keeps exactly the elements satisfying the predicate and never lengthens the list |
| `ArrayOps.FilterConcat` | App.tsx:453 | filtering keeps relative order: filtering a concatenation concatenates the filtered parts |
| `Seating.OccupantIndex` | App.tsx:420 | the occupant lookup finds the first booking at the table that is neither completed nor cancelled, and finds none only if there is no such booking |
| `Seating.OccupantOf` | App.tsx:533-534 | a tile shows a booking from the list that sits at that table and is neither completed nor cancelled; it is empty exactly when no active booking sits there |
| `Seating.DropOnTable` | App.tsx:410-441 | the list keeps its length and order, only `table` fields change, and a drop without a toast changes nothing |
| `Seating.DropToUnseated` | App.tsx:444-451 | an empty id changes nothing; otherwise the booking with that id loses its table, every other table is kept, and the toast "Bokning borttagen från bord" is shown even when no booking has that id |
| `Seating.UnseatedBookings` | App.tsx:453 | the waiting list holds exactly the bookings whose table is absent or empty and whose status is neither cancelled nor completed, so no-show bookings are included |
| `Seating.UpdateStatus` | App.tsx:393-397 | only the status of the matching booking changes; a toast appears exactly for arrived ("Gäst incheckad") and no-show ("Gäst markerad som No-show") |
| `Seating.FindsUniqueId` | App.tsx:415 | with unique ids, the lookup by id finds that very booking |
| `Seating.OccupantIsUnique` | App.tsx:534 | under single occupancy, a table's lookup returns its one active booking |
| `Seating.DropIgnored` | App.tsx:412-418 | a drop changes nothing and shows no toast exactly when the id is empty, unknown, or names a booking already at that table |
| `Seating.DropOnFreeTable` | App.tsx:420-440 | a drop on a table with no active booking seats the dragged booking there, leaves every other record as it was, and toasts "<guest> placerad på bord <table>" |
| `Seating.DropOnTakenTable` | App.tsx:420-437 | a drop on a table with an active occupant is a swap: the dragged booking gets the table, the occupant gets the dragged booking's previous table (absent if it was unseated), nothing else changes, and the toast "Växlade plats: <guest> <-> <occupant>" names both guests |
| `Seating.MoveKeepsSingleOccupancy` | App.tsx:422-426 | seating an active booking at a table no active booking holds keeps single occupancy |
| `Seating.SwapKeepsSingleOccupancy` | App.tsx:422-432 | swapping an active booking with a table's active occupant keeps single occupancy |
| `Seating.DropKeepsSingleOccupancy` | App.tsx:410-441 | when the dragged booking is active, a drop keeps ids unique and at most one active booking per table |
| `Seating.UnseatIdempotent` | App.tsx:449 | unseating twice equals unseating once, toast included |
| `Seating.UnseatKeepsSingleOccupancy` | App.tsx:449 | unseating keeps ids unique and single occupancy |
| `Seating.UnseatedJoinsWaitingList` | App.tsx:449-453 | an active booking that is unseated then appears on the waiting list |
| `Seating.WaitingListOrder` | App.tsx:453 | the waiting list keeps list order: any booking that waits sits between the waiting lists of the bookings before and after it |
| `Seating.StatusKeepsTables` | App.tsx:394 | a status update never changes any `table` or `id` |
| `Seating.StatusKeepsSingleOccupancy` | App.tsx:393-397 | a status update that does not reactivate a completed or cancelled booking keeps single occupancy |
| `Seating.CompletingFreesTable` | App.tsx:394 | completing a seated booking keeps its stale table reference but frees the table for the tile lookup |
| `BookingsPage.FloorPlan` | App.tsx:533-534 | twelve tiles; tile k shows only an active booking seated at table k+1, and it is empty when there is none |
| `BookingsPage.FloorPlanShowsSeated` | App.tsx:533-551 | under single occupancy, every active booking at one of the twelve tables is shown on its tile |
| `BookingsPage.Draggable` | App.tsx:540-586 | a booking can be picked up from an occupied tile or a waiting-list card, and either way it is an existing active booking |
| `BookingsPage.Enabled` | App.tsx:513-586 | the screen offers drops of a draggable booking on one of the twelve tiles or on the waiting list, and check-in or no-show only for a confirmed booking; every offered action names an existing active booking |
| `BookingsPage.Apply` | App.tsx:513-571 | each action keeps the list's length and every field except table and status; drops change no status and the status buttons move no one |
| `BookingsPage.DraggableIsActive` | App.tsx:533-586 | anything the screen lets a user drag (an occupied tile or a waiting-list card) is an existing, active booking |
| `BookingsPage.StepKeepsSingleOccupancy` | App.tsx:513-586 | every drop or button the screen offers keeps unique ids and single occupancy |
| `BookingsPage.ReachableKeepsSingleOccupancy` | App.tsx:387-453 | every sequence of offered actions from a well-formed list ends in a well-formed list |
| `MockData.MockBookings` | services/mockData.ts:25-33 | the demo holds seven reservations, each dated today, for a positive number of guests and without notes |
| `MockData.MockIsWellFormed` | services/mockData.ts:25-33 | the demo list has unique ids and one party per table |
| `MockData.MockStaysSingleOccupied` | App.tsx:389 | starting from the demo list, no sequence of offered actions breaks single occupancy |
| `MockData.MockOccupiedTables` | services/mockData.ts:26-28 | in the demo, exactly tables 4, 6 and 12 have an active booking |
| `MockData.MockFloorPlan` | App.tsx:533-534 | on the demo floor, tiles 4, 6 and 12 show B1, B2 and B3, and the other nine are free |
| `MockData.MockWaitingList` | App.tsx:453 | the demo waiting list is B4, B5 (a no-show), B6 and B7, in that order |
| `MockData.DropB4OnTable4` | App.tsx:420-437 | dropping B4 on table 4 seats B4 there, leaves B1 unseated, and toasts the swap |
| `MockData.DropB1OnTable6` | App.tsx:420-437 | dropping B1 on table 6 gives B1 table 6 and B2 table 4, and leaves the rest as it was |
| `MockData.DropB6OnTable9` | App.tsx:420-440 | dropping B6 on the free table 9 seats it there with the "placed" toast and changes nothing else |
| `MockData.StaleTableDoesNotBlock` | App.tsx:420 | after B1 is completed it keeps table 4, yet B4 dropped on table 4 is simply seated; the stale booking is neither swapped nor blocking |
| `MockData.TwoBookingSwap` | App.tsx:420-437 | with B1 arrived at table 4 and B2 unseated, dropping B2 on table 4 unseats B1 and seats B2 |
| `MockData.StaleSourceBreaksOccupancy` | App.tsx:420-432 | without the "dragged booking is active" precondition, a stale completed source breaks single occupancy |
| `MockData.MockMenu` | services/mockData.ts:10-23 | the demo menu holds twelve available items with distinct ids and positive prices |
| `MockData.DinnerForOne` | App.tsx:635-643 | fillet of beef plus a glass of house red come to 455 kronor, and checkout empties the cart |
| `Pos.AddToCart` | App.tsx:635 | the item is appended after the unchanged cart |
| `Pos.Total` | App.tsx:636 | the bill is the sum of the prices from 0, and it is never negative when no price is |
| `Pos.TotalAfterAdd` | App.tsx:635-636 | adding an item raises the bill by exactly its price |
| `Pos.TotalConcat` | App.tsx:636 | the bill of two carts put together is the sum of their bills |
| `Pos.TotalBoundsPrices` | App.tsx:636 | with non-negative prices the bill is non-negative and at least any one item's price |
| `Pos.Checkout` | App.tsx:639-643 | an empty cart is left as is with no toast; otherwise the order goes to the kitchen and the cart is emptied |
| `Pos.ClearCart` | App.tsx:700 | the cart is emptied and its bill is zero |
| `Pos.ItemsIn` | App.tsx:661 | the menu cards shown are exactly the items of the selected category |
| `Session.Includes` | App.tsx:150 | `includes` holds for a prefix of the string and never for a substring longer than the string |
| `Session.IncludesIffOccurs` | App.tsx:150 | `includes` holds exactly when the substring occurs at some position |
| `Session.RoleFor` | App.tsx:150 | the role is admin if and only if "admin" occurs in the e-mail address |
| `Session.Login` | App.tsx:802-804 | signing in stores the user with id "1", the given address and role, and the display name "Ägare" for the owner or "Personal" for staff, and keeps the restaurant name and the onboarded flag |
| `Session.SubmitSignIn` | App.tsx:146-155 | submitting the form stores user "1" with the address, the role derived from it and the matching display name, keeps the restaurant name and the onboarded flag, and greets the owner or the staff |
| `Session.Logout` | App.tsx:806-810 | signing out resets the user, the onboarded flag and the restaurant name to the initial state |
| `Session.CurrentScreen` | App.tsx:765-775 | the sign-in page shows exactly when no one is signed in, the wizard exactly when a signed-in user is not onboarded, and the layout otherwise |
| `Session.ScreenOrder` | App.tsx:765-775 | the sign-in page is shown first, then the wizard, then the layout; signing out and in again goes back through the wizard |
| `Session.NextStep` | App.tsx:200-207 | "next" advances steps 1-3 and changes nothing else; at step 4 it sets the restaurant name, completes onboarding and toasts |
| `Session.PreviousStep` | App.tsx:291 | "back" goes one step down and is not offered on step 1 |
| `Session.StepStaysInRange` | App.tsx:197-207 | the wizard step stays within 1 to 4 |
| `Session.FourNextsFinishOnboarding` | App.tsx:197-207 | from step 1, three presses reach step 4 without touching the app state, and the fourth finishes onboarding and shows the layout |
| `Session.DemoAccounts` | App.tsx:142-186 | the admin demo address signs in as owner and the staff demo address as staff |

## Left out

- Rendering, JSX, routing and the React context that hands state to the screens carry no behaviour
  beyond passing values around.
- The drag-and-drop event machinery (`handleDragStart`, `handleDragOver`, `dataTransfer`) is not
  modelled. The booking id it carries is an argument; a foreign drag gives an empty id.
- The simulated 800 ms sign-in delay, the `loading` flag and the three-second toast expiry are
  timers and are not modelled.
- Dark mode toggles a CSS class on the document. It is a DOM side effect and is not modelled.
- The dashboard charts and KPI cards are display code over a charting library. The staff schedule
  and alert cards are fixed markup. None of them are modelled.
- The "new booking" modal only closes itself and toasts; it creates nothing, so it is not modelled.
- components/UI.tsx only assembles CSS class names and is not part of this model.
- The inventory, order, modifier and restaurant-info types have no code acting on them. Those
  screens fall through to a placeholder route.
- Optional menu fields (cost price, sales count, image, ingredients, modifiers) are not read by any
  modelled code, so `MenuItem` omits them.
- Prices are JavaScript floating-point numbers in the app. Here they are integers (whole kronor, as
  in the demo menu).
- The wizard's other form fields (address, hours, phone, invitations) are uncontrolled inputs. They
  keep no state and are not modelled. The restaurant-name input is modelled as the `name` field of
  the wizard state.
- Selecting a POS category is a plain state setter. `ItemsIn` models only the filter it feeds.
- Unique booking ids are assumed, as in the demo data; the lemmas that need it say so with
  `UniqueIds`.
- Strings are sequences of Unicode characters, not UTF-16 code units. For the ASCII address test
  ("admin") the two agree.
