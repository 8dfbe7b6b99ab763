# Seat booking and ticket issuance: a Dafny model

This project models the booking workflow of the Tap & Travel mobile client.

On the seat-selection screen (`BookTicket`), the rider:

- taps seats to select or deselect them (booked seats are refused);
- picks a gender per selected seat, subject to the seat's `neighborGender` field;
- confirms. Confirming needs a stored sign-in token and a gender on every selected seat, and charges one fare per seat.

The payment component (`Payment`) then:

1. prepares the hosted payment sheet, with a `loading` flag raised while it waits;
2. presents the sheet when the rider pays;
3. after a successful payment, commits the seats as booked;
4. only if that commit worked, asks the backend for the tickets.

Files:

- `types.dfy` defines `Types`: `Option`, `Gender`, the `Seat` record.
- `text.dfy` defines `Text`: the JavaScript operations the screen uses. These are `split` on one character, `Number(...)` on decimal strings, and printing a whole number.
- `book_ticket.dfy` defines `BookTicket`:
  - the selection operations as functions over the list of selected seats (`Toggle`, `Without`, `Assign`, `DecideGender`, `ConfirmBooking`);
  - the display rules (`Status`, `SeatLabel`, `FormatTime`);
  - the lemmas about them;
  - the class `SeatSelection`. It holds the screen's state (`selectedSeats`, `currentSeatForGender`, `genderModalVisible`), and its handler methods update that state.
- `payment.dfy` defines `Payment`:
  - the request payloads;
  - the three steps as functions of the answers they get (`Initialization`, `Checkout`, `TicketGeneration`), each giving the requests issued, in order, and the outcome;
  - the lemmas about them;
  - the class `PaymentSession`. It holds the component's inputs, `loading`, and the log `calls` of every request sent to the backend or to the payment provider.
- `workflow.dfy` defines `Workflow`: what a confirmed selection leads the payment component to send, assuming the route's values reach it unchanged as its props.

The backend and the payment provider are not modelled. Each of their answers is a method parameter:

- whether the intent request succeeded and what it returned;
- the sheet-preparation error, if any;
- the error from presenting the sheet, if any;
- whether the seat commit succeeded;
- whether the ticket request succeeded.

Notices (toasts) and the move to the ticket view are returned outcome values. `TicketNotice`, `CheckoutNotice` and `InitNotice` give their texts, and `ShowsTickets` says when the ticket view is reached.

Some behaviour a reader might expect is absent from the code, and the model follows the code:

- `neighborGender` is a field of the seat record. Nothing computes it from the seat number.
- "Confirm" does not itself check that a seat is selected. Only the button's render guard (`BookTicket.js:222`) does. So `ConfirmBooking` on an empty list proceeds with amount 0 (`ConfirmEmptySelection`). The guard is the precondition of `SeatSelection.Confirm`.
- Both post-payment requests are inside one `try`, and any failure shows the single message "Something went wrong while booking tickets." (`Payment.js:100-106`).
- A cancelled payment sheet is the provider's error like any other, shown as "Payment Failed!" with its message.
- A sheet-preparation error shows no notice. Only a failed intent request does.
- The sheet is prepared once, when the component mounts. There is no retry that asks for a fresh intent.

## Model

| member | source | states |
|---|---|---|
| `Text.Split` | src/Screens/BookTicket/BookTicket.js:153 | `split` on one character gives at least one piece, and no piece contains the separator. It gives exactly one piece iff the string has no separator. |
| `Text.JoinSplit` | src/Screens/BookTicket/BookTicket.js:153 | Joining the pieces of a split with the separator gives the string back. |
| `Text.SplitAt` | src/Screens/BookTicket/BookTicket.js:145 | The first piece ends at the first separator, and the rest is split on its own. |
| `Text.SplitWithout` | src/Screens/BookTicket/BookTicket.js:153 | A string without the separator splits into itself alone. |
| `Text.NatToString` | src/Screens/BookTicket/BookTicket.js:156 | A whole number prints as a non-empty string of digits, one digit long exactly below 10, with no leading zero. |
| `Text.NatToStringRoundTrip` | src/Screens/BookTicket/BookTicket.js:156 | Reading the printed number back gives the number. |
| `Text.ToNumberOfNatToString` | src/Screens/BookTicket/BookTicket.js:154-156 | Converting a printed whole number back with `Number` gives that number. |
| `BookTicket.FindSeat` | src/Screens/BookTicket/BookTicket.js:46-48 | `find` by seat number finds nothing iff no entry has the number. What it finds is an entry of the list with that number. |
| `BookTicket.Without` | src/Screens/BookTicket/BookTicket.js:51-53 | The filter keeps exactly the entries with a different number, and never grows the list. |
| `BookTicket.WithoutDeletesOne` | src/Screens/BookTicket/BookTicket.js:51-53 | On a list with unique numbers, filtering out the number of entry `i` deletes just that entry and keeps the others in order. |
| `BookTicket.WithoutKeepsUnique` | src/Screens/BookTicket/BookTicket.js:51-53 | Filtering keeps seat numbers unique. |
| `BookTicket.Toggle` | src/Screens/BookTicket/BookTicket.js:43-60 | The tap handler, as a function of the old selection. What it promises is stated by `ToggleRefusesBooked`, `ToggleAppends`, `ToggleRemoves`, `ToggleTwiceRestores` and `ToggleKeepsInvariant`. |
| `BookTicket.ToggleRefusesBooked` | src/Screens/BookTicket/BookTicket.js:43-44 | Tapping a booked seat leaves the selection unchanged. |
| `BookTicket.ToggleAppends` | src/Screens/BookTicket/BookTicket.js:54-58 | Tapping a free, unselected seat appends exactly one entry at the end. The entry has that number, the seat's other fields, and no gender. Earlier entries are unchanged. |
| `BookTicket.ToggleRemoves` | src/Screens/BookTicket/BookTicket.js:46-53 | Tapping a selected seat removes every entry with its number and keeps all others. With unique numbers, the result is the list minus that one entry, in order. |
| `BookTicket.ToggleTwiceRestores` | src/Screens/BookTicket/BookTicket.js:43-60 | Tapping a free, unselected seat twice restores the selection. |
| `BookTicket.ToggleKeepsInvariant` | src/Screens/BookTicket/BookTicket.js:43-60 | Every tap keeps seat numbers unique and booked seats out of the selection. |
| `BookTicket.Assign` | src/Screens/BookTicket/BookTicket.js:113-119 | An accepted gender changes only the entries with the current seat's number, and only in their gender. The length and every other entry are unchanged. |
| `BookTicket.AssignKeepsInvariant` | src/Screens/BookTicket/BookTicket.js:113-119 | Setting a gender keeps seat numbers unique and booked seats out of the selection. |
| `BookTicket.GenderName` | src/Screens/BookTicket/BookTicket.js:106 | The name of a gender in a rejection, "Male" for M and "Female" otherwise. `RejectionText` and `GenderRuleExample` state its use. |
| `BookTicket.DecideGender` | src/Screens/BookTicket/BookTicket.js:97-110 | Without a current seat, nothing happens. A gender is rejected iff the seat has a neighbour gender that differs from it. The rejection names that required gender. Otherwise the chosen gender is accepted for the current seat. |
| `BookTicket.RejectionText` | src/Screens/BookTicket/BookTicket.js:103-108 | The rejection message ends with the name of the required gender. |
| `BookTicket.GenderRuleExample` | src/Screens/BookTicket/BookTicket.js:101-122 | Seat "R1-2" next to a female rider: "Male" is refused with "Seat 2: Must select Female", and "Female" is accepted. |
| `BookTicket.AllGendered` | src/Screens/BookTicket/BookTicket.js:74 | The readiness check `every(seat => seat.gender)`. `ConfirmBooking` states that confirming proceeds iff it holds, and `ConfirmEmptySelection` that it holds on an empty selection. |
| `BookTicket.ConfirmBooking` | src/Screens/BookTicket/BookTicket.js:64-95 | Without a token, nothing happens. With one, confirming proceeds iff every selected seat has a gender. It then passes exactly the selected seats, with amount = number of seats × fare, the bus, its admin, and the rider's id and email. |
| `BookTicket.ConfirmEmptySelection` | src/Screens/BookTicket/BookTicket.js:73-84 | The readiness check holds vacuously on an empty selection, which proceeds with amount 0. |
| `BookTicket.Status` | src/Screens/BookTicket/BookTicket.js:125-137 | Each seat is in exactly one state: booked male, booked female (any booked seat whose gender is not "M"), selected (free and in the selection), or available (free and not selected). |
| `BookTicket.StatusColoursDistinct` | src/Screens/BookTicket/BookTicket.js:132-137 | The four states have four different colours. |
| `BookTicket.StatusColour` | src/Screens/BookTicket/BookTicket.js:132-137 | The colour of each seat state. `StatusColoursDistinct` states that different states have different colours. |
| `BookTicket.SeatColour` | src/Screens/BookTicket/BookTicket.js:132-137 | A seat's colour is the colour of its `Status`. `Status` and `StatusColoursDistinct` together state that the colour tells the state, and `ToggleFlipsStatus` how a tap changes it. |
| `BookTicket.ToggleFlipsStatus` | src/Screens/BookTicket/BookTicket.js:127-137 | Tapping a free seat turns "available" into "selected" and back. |
| `BookTicket.SeatLabel` | src/Screens/BookTicket/BookTicket.js:145 | The label is absent iff the number has no "-". A label never contains "-". |
| `BookTicket.SeatLabelOfRowAndColumn` | src/Screens/BookTicket/BookTicket.js:145 | "row-column" and "row-column-more" are labelled with the column. |
| `BookTicket.HourOnDial` | src/Screens/BookTicket/BookTicket.js:155 | The shown hour is in 1..12 and equals the hour modulo 12. |
| `BookTicket.DialRoundTrip` | src/Screens/BookTicket/BookTicket.js:154-155 | Below hour 24, the shown hour and AM/PM give the 24-hour hour back. |
| `BookTicket.FormatTime` | src/Screens/BookTicket/BookTicket.js:151-157 | The result is "N/A" iff the time is absent or empty. |
| `BookTicket.ClockText` | src/Screens/BookTicket/BookTicket.js:154-156 | The text starts with a digit, so it is never "N/A". |
| `BookTicket.FormatTimeSplits` | src/Screens/BookTicket/BookTicket.js:153 | The time is cut at the first ":". The minutes are the piece up to the next ":". |
| `BookTicket.FormatTimeOfDigits` | src/Screens/BookTicket/BookTicket.js:151-157 | For "H:MM" with a numeric H, the result is the dial hour of H, ":", MM unchanged, and "PM" iff H ≥ 12. For H < 24, the dial hour and AM/PM give H back. |
| `BookTicket.FormatTimeMidnightAndNoon` | src/Screens/BookTicket/BookTicket.js:154-156 | Hour 0 shows as 12 AM and hour 12 as 12 PM. |
| `BookTicket.FormatTimeOfNonNumber` | src/Screens/BookTicket/BookTicket.js:154-155 | A non-numeric hour (NaN) shows as 12 AM. |
| `BookTicket.FormatTimeWithoutColon` | src/Screens/BookTicket/BookTicket.js:153-156 | Without ":", the minutes show as "undefined". |
| `BookTicket.SeatSelection.constructor` | src/Screens/BookTicket/BookTicket.js:23-24 | The screen starts with no selection, no current seat and the picker closed. |
| `BookTicket.SeatSelection.ToggleSeatSelection` | src/Screens/BookTicket/BookTicket.js:43-60 | The new selection is `Toggle` of the old one. The picker state is untouched, and unique numbers with no booked seat are preserved. |
| `BookTicket.SeatSelection.OpenGenderPicker` | src/Screens/BookTicket/BookTicket.js:239-242 | Tapping a selected seat's chip makes it the current seat and opens the picker. The selection is unchanged. |
| `BookTicket.SeatSelection.CancelGenderPicker` | src/Screens/BookTicket/BookTicket.js:289-293 | Cancel clears the current seat and closes the picker (as the picker's close request at lines 264-267 also does). The selection is unchanged. |
| `BookTicket.SeatSelection.HandleGenderSelection` | src/Screens/BookTicket/BookTicket.js:97-123 | Without a current seat, or on a rejection, the selection, current seat and picker all stay as they were. On acceptance only that seat's entries get the gender, the current seat is cleared and the picker closes. |
| `BookTicket.SeatSelection.Confirm` | src/Screens/BookTicket/BookTicket.js:64-95 | The confirm button (shown only with a selection) gives `ConfirmBooking` of the selection. It proceeds iff signed in and every seat has a gender. |
| `Payment.SeatsData` | src/Components/Payment.js:76-84 | One seat update per selected seat, in order: its number, `booked` true, the rider's email, the seat's gender. |
| `Payment.Tickets` | src/Components/Payment.js:86-92 | One ticket per selected seat, in order, each with the same user and bus and that seat's number. |
| `Payment.PayloadsAgree` | src/Components/Payment.js:76-92 | The seat commit and the ticket request name the same seats in the same order. |
| `Payment.PayloadsAppend` | src/Components/Payment.js:78-91 | One more selected seat adds one entry at the end of each payload. |
| `Payment.InitNotice` | src/Components/Payment.js:43-46 | The notice after preparing the sheet: "Unable to initialize payment." for a failed intent request, none otherwise. `InitializationOutcomes` states when it is shown. |
| `Payment.CheckoutNotice` | src/Components/Payment.js:55-59 | The notice after "Pay Now": none while loading, "Payment Failed!" with the provider's message, or the ticket step's notice. `CheckoutWhileLoading` and `PaymentErrorStopsBooking` state the first two. |
| `Payment.TicketNotice` | src/Components/Payment.js:67-105 | The notice of the ticket step. `NoSeatsNoRequest` and `SuccessIffBothSucceed` state when each of "No Seats Selected" and the generic error is shown. |
| `Payment.ShowsTickets` | src/Components/Payment.js:95-99 | The ticket view is reached only after tickets were generated. `ShowsTicketsIff` states exactly when. |
| `Payment.Initialization` | src/Components/Payment.js:20-49 | The preparation after the intent request answered, as the requests sent and the outcome. `InitializationOutcomes` states what it promises, and `PaymentSession.FinishInitialize` is proved against it. |
| `Payment.Checkout` | src/Components/Payment.js:51-63 | "Pay Now" as the requests sent and the outcome. `CheckoutWhileLoading`, `PaymentErrorStopsBooking` and `ShowsTicketsIff` state what it promises, and `PaymentSession.OpenPaymentSheet` is proved against it. |
| `Payment.TicketGeneration` | src/Components/Payment.js:65-107 | The ticket step as the requests sent and the outcome. `NoSeatsNoRequest`, `CommitBeforeTickets` and `SuccessIffBothSucceed` state what it promises, and `PaymentSession.HandleTicketGeneration` is proved against it. |
| `Payment.InitializationOutcomes` | src/Components/Payment.js:20-49 | The sheet is prepared only after a successful intent request, with that intent's secret, customer and key. It is ready iff both answers were good. Only a failed intent request shows a notice. |
| `Payment.CheckoutWhileLoading` | src/Components/Payment.js:51-52 | Paying while `loading` presents no sheet, sends no request and shows nothing. |
| `Payment.PaymentErrorStopsBooking` | src/Components/Payment.js:53-59 | A payment error shows "Payment Failed!" with the provider's message. The only call is presenting the sheet: no seat or ticket request is sent. |
| `Payment.NoSeatsNoRequest` | src/Components/Payment.js:66-73 | An absent or empty selection reports "No Seats Selected" and sends nothing. |
| `Payment.CommitBeforeTickets` | src/Components/Payment.js:75-93 | The seat commit is always the first request. The ticket request is sent as the second iff the commit succeeded, and never before a commit. |
| `Payment.SuccessIffBothSucceed` | src/Components/Payment.js:93-106 | Tickets are generated iff both requests succeed. Any failure is the single generic error. |
| `Payment.ShowsTicketsIff` | src/Components/Payment.js:51-107 | The ticket view is reached iff four things hold: the sheet was not loading, the payment had no error, seats were selected, and both requests succeeded. The calls are then present, commit, tickets, in this order. |
| `Payment.PaymentSession.constructor` | src/Components/Payment.js:11-14 | The component starts with its inputs, `loading` false and no request sent. |
| `Payment.PaymentSession.BeginInitialize` | src/Components/Payment.js:20-28 | Preparation raises `loading` and sends the intent request with the amount, bus, user and admin. |
| `Payment.PaymentSession.FinishInitialize` | src/Components/Payment.js:22-48 | Whatever the answers, `loading` is false afterwards. The requests and the outcome are those of `Initialization`. |
| `Payment.PaymentSession.OpenPaymentSheet` | src/Components/Payment.js:51-63 | The requests appended and the outcome are those of `Checkout` with the current `loading`, which stays unchanged. |
| `Payment.PaymentSession.HandleTicketGeneration` | src/Components/Payment.js:65-107 | The requests appended and the outcome are those of `TicketGeneration`. |
| `Workflow.StartPayment` | src/Components/Payment.js:11-28 | Mounting the payment component with a confirmed route gives a new session whose props are the route's values and the selection, with `loading` raised and exactly one request sent: the intent `IntentFor(route)`. |
| `Workflow.IntentFor` | src/Components/Payment.js:23-28 | The intent request built from the route the screen confirmed. `ConfirmedSelectionIsCommitted` states that it asks for one fare per seat, for that bus, rider and admin. |
| `Workflow.ConfirmedSelectionIsCommitted` | src/Screens/BookTicket/BookTicket.js:84-93 | A confirmed selection asks for an intent of one fare per seat, for that bus, rider and admin (`Payment.js:23-28`). Once paid, its seat commit (built at `Payment.js:76-85`) lists every selected seat, in order, as booked, with the rider's email and a set gender. With unique numbers on the screen, each seat is listed once. |

## Left out

- The bus fetch (`BookTicket.js:27-41`) is not modelled. The bus's fare and admin are a given `Bus` value.
- Reading the stored token and decoding it (`BookTicket.js:65-71`) are not modelled. The decoded claims are a given optional input, and the three claims are assumed present.
- Request transport (`apiClient`, `axios`, `fetch`) is reduced to the recorded `Call` values and a success/failure answer per request. Response bodies, other than the intent's secret, key and customer, are not modelled.
- The payment provider is a black box: only its returned error (or none) is modelled. A provider call that throws instead of returning an error is not modelled.
- Rendering, modals, animations, styles, notices and navigation are left out. Notices and the ticket view are returned outcome values.
- `formatDate` (`BookTicket.js:159-168`) is left out: it depends on locale formatting.
- Asynchrony is modelled only in the preparation window: `initializePaymentSheet` is split into `BeginInitialize` and `FinishInitialize`, so "Pay Now" can happen between them. A second "Pay Now" while the seat commit or ticket request is pending is not modelled; the button is disabled only by `loading` (`Payment.js:111`), so the code would present the sheet again and interleave a second commit and ticket request with the first. React's state batching and stale closures are not modelled; each handler runs on the current state.
- `Text.ToNumber` does not model all of JavaScript's `Number` on hour strings. Strings with whitespace, a sign, a decimal point, an exponent or a hex prefix count as NaN here, although `Number` parses them. Floating-point precision on very long digit strings is not modelled.
- `BookTicket.FindSeat` does not state that the entry found is the first with that number. Every caller uses only whether one was found.
- Seat records carry only `seatNumber`, `booked`, `gender` and `neighborGender`. Other fields a record may have are copied along by the source and are not modelled.
- Neighbours are never derived from seat numbers, and no rule relates the genders of adjacent seats: the code only compares with the `neighborGender` field.
- No fresh payment intent is requested on retry: the code prepares the sheet once, when the component mounts.
- The fare is a whole number; fractional fares and floating-point rounding of `length * actualPrice` (`BookTicket.js:84`) are not modelled.
- The payment screen between `BookTicket` and `Payment` is not modelled; it is assumed to pass `amount`, `adminId`, `userId`, `email`, `busId` and `selectedSeats` from the route unchanged as `Payment`'s props (`Payment.js:11`), which is what `Workflow.StartPayment` does.
- `src/Screens/Signup/Signup.js` (form glue whose validator is not part of this model) and `App.js` (provider and navigation wiring) are not modelled.
