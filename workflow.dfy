/**
 * The hand-over from the seat-selection screen to the payment component:
 * what a confirmed selection leads the payment component to send.
 */
module Workflow {
  import opened Types
  import opened BookTicket
  import opened Payment

  /** The payment-intent request built from a confirmed booking. */
  function IntentFor(route: PaymentRoute): IntentRequest
  {
    IntentRequest(route.amount, route.busId, route.userId, route.adminId)
  }

  /**
   * The hand-over: the payment component is mounted with the route's values
   * as its props and starts preparing the sheet, which raises `loading` and
   * sends exactly the intent request `IntentFor(route)`.
   */
  method StartPayment(route: PaymentRoute) returns (p: PaymentSession)
    ensures fresh(p)
    ensures p.amount == route.amount && p.adminId == route.adminId && p.userId == route.userId
    ensures p.email == route.email && p.busId == route.busId && p.selectedSeats == Some(route.selectedSeats)
    ensures p.loading
    ensures p.calls == [CreatePaymentIntent(IntentFor(route))]
  {
    p := new PaymentSession(route.amount, route.adminId, route.userId, route.email, route.busId,
                            Some(route.selectedSeats));
    p.BeginInitialize();
  }

  /**
   * A confirmed selection asks for an intent of one fare per seat, for that
   * bus, rider and admin; once paid, its seat commit names every selected
   * seat, in order, as booked, by the signed-in rider and with the gender
   * chosen for it; with unique seat numbers on the screen the commit names
   * each seat once.
   */
  lemma ConfirmedSelectionIsCommitted(seats: seq<Seat>, token: Option<Claims>, busId: string, bus: Bus, ticketsOk: bool)
    requires ConfirmBooking(seats, token, busId, bus).ProceedToPayment?
    requires |seats| > 0
    ensures var route := ConfirmBooking(seats, token, busId, bus).route;
      var r := TicketGeneration(route.busId, route.userId, route.email, Some(route.selectedSeats), true, ticketsOk);
      && IntentFor(route) == IntentRequest(|seats| * bus.actualPrice, busId, token.value.sub, bus.adminId)
      && r.calls[0].UpdateSeatStatus?
      && var data := r.calls[0].payload.seatsData;
      && |data| == |seats|
      && (forall i :: 0 <= i < |data| ==>
            && data[i].seatNumber == seats[i].seatNumber
            && data[i].booked
            && data[i].email == token.value.email
            && data[i].gender.Some?)
      && (Unique(seats) ==> forall i, j :: 0 <= i < j < |data| ==> data[i].seatNumber != data[j].seatNumber)
  {
    var route := ConfirmBooking(seats, token, busId, bus).route;
    CommitBeforeTickets(route.busId, route.userId, route.email, route.selectedSeats, true, ticketsOk);
  }
}
