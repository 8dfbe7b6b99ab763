/**
 * The payment component: it prepares the hosted payment sheet, presents it
 * when the user pays, and after a successful payment commits the seats and
 * asks for the tickets. Every request to the backend or to the payment
 * provider is recorded as a `Call`; what the provider or the backend answers
 * is given to the methods as a parameter.
 */
module Payment {
  import opened Types

  // ---------------------------------------------------------------------------
  // Requests
  // ---------------------------------------------------------------------------

  /** Body of the payment-intent request. */
  datatype IntentRequest = IntentRequest(amount: nat, busId: string, userId: string, adminId: Option<string>)

  /** What the backend returns for a payment intent. */
  datatype IntentData = IntentData(clientSecret: string, ephemeralKey: string, customer: string)

  /** The options the payment sheet is prepared with. */
  datatype SheetConfig = SheetConfig(
    paymentIntentClientSecret: string,
    customerId: string,
    customerEphemeralKeySecret: string,
    merchantDisplayName: string)

  const MerchantName: string := "Tap & Travel"

  /** One entry of the seat-status update. */
  datatype SeatUpdate = SeatUpdate(seatNumber: string, booked: bool, email: string, gender: Option<Gender>)

  /** Body of the seat-status update. */
  datatype SeatPayload = SeatPayload(busId: string, seatsData: seq<SeatUpdate>)

  /** One entry of the ticket request. */
  datatype TicketRequest = TicketRequest(userId: string, busId: string, seatNumber: string)

  /** A request to the backend or to the payment provider. */
  datatype Call =
    | CreatePaymentIntent(intent: IntentRequest)   // POST /payment/create-payment-intent
    | InitPaymentSheet(config: SheetConfig)        // provider: prepare the sheet
    | PresentPaymentSheet                          // provider: show the sheet
    | UpdateSeatStatus(payload: SeatPayload)       // PATCH /bus/update-seat-status
    | GenerateTickets(tickets: seq<TicketRequest>) // POST /ticket/generate

  /** The seat-status entries: one per selected seat, in order, marked booked, with the rider's email and the seat's gender. */
  function SeatsData(seats: seq<Seat>, email: string): (r: seq<SeatUpdate>)
    ensures |r| == |seats|
    ensures forall i :: 0 <= i < |seats| ==>
      && r[i].seatNumber == seats[i].seatNumber
      && r[i].booked
      && r[i].email == email
      && r[i].gender == seats[i].gender
    decreases |seats|
  {
    if |seats| == 0 then []
    else [SeatUpdate(seats[0].seatNumber, true, email, seats[0].gender)] + SeatsData(seats[1..], email)
  }

  /** The ticket entries: one per selected seat, in order, for that user and bus. */
  function Tickets(seats: seq<Seat>, userId: string, busId: string): (r: seq<TicketRequest>)
    ensures |r| == |seats|
    ensures forall i :: 0 <= i < |seats| ==> r[i] == TicketRequest(userId, busId, seats[i].seatNumber)
    decreases |seats|
  {
    if |seats| == 0 then []
    else [TicketRequest(userId, busId, seats[0].seatNumber)] + Tickets(seats[1..], userId, busId)
  }

  /** The two payloads name the same seats in the same order. */
  lemma PayloadsAgree(seats: seq<Seat>, email: string, userId: string, busId: string)
    ensures |SeatsData(seats, email)| == |Tickets(seats, userId, busId)|
    ensures forall i :: 0 <= i < |seats| ==> SeatsData(seats, email)[i].seatNumber == Tickets(seats, userId, busId)[i].seatNumber
  {
  }

  /** Building the payloads commutes with growing the selection. */
  lemma PayloadsAppend(seats: seq<Seat>, s: Seat, email: string, userId: string, busId: string)
    ensures SeatsData(seats + [s], email) == SeatsData(seats, email) + [SeatUpdate(s.seatNumber, true, email, s.gender)]
    ensures Tickets(seats + [s], userId, busId) == Tickets(seats, userId, busId) + [TicketRequest(userId, busId, s.seatNumber)]
  {
  }

  // ---------------------------------------------------------------------------
  // Outcomes and the notices shown for them
  // ---------------------------------------------------------------------------

  datatype InitOutcome =
    | SheetReady
    | SheetInitError(message: string)   // the provider refused the sheet; no notice is shown
    | IntentFailed                      // the intent request failed

  datatype TicketOutcome =
    | NoSeatsSelected
    | BookingFailed      // either request failed: one generic error
    | TicketsGenerated   // success notice, then the ticket view

  datatype CheckoutOutcome =
    | StillLoading                     // the sheet is still being prepared: nothing happens
    | PaymentFailed(message: string)   // the provider's error message
    | PaymentSucceeded(tickets: TicketOutcome)

  /** The requests a step issues, in order, and how it ends. */
  datatype Run<O> = Run(calls: seq<Call>, outcome: O)

  datatype ToastKind = Error | Success

  datatype Toast = Toast(kind: ToastKind, text1: Option<string>, text2: Option<string>)

  function InitNotice(o: InitOutcome): Option<Toast>
  {
    match o
    case IntentFailed => Some(Toast(Error, Some("Unable to initialize payment."), None))
    case _ => None
  }

  function TicketNotice(o: TicketOutcome): Toast
  {
    match o
    case NoSeatsSelected => Toast(Error, Some("No Seats Selected"), Some("Please select at least one seat."))
    case BookingFailed => Toast(Error, Some("Something went wrong while booking tickets."), None)
    case TicketsGenerated => Toast(Success, None, Some("Your ticket has been successfully generated."))
  }

  function CheckoutNotice(o: CheckoutOutcome): Option<Toast>
  {
    match o
    case StillLoading => None
    case PaymentFailed(message) => Some(Toast(Error, Some("Payment Failed!"), Some(message)))
    case PaymentSucceeded(t) => Some(TicketNotice(t))
  }

  /** The user is taken to the ticket view exactly after tickets were generated. */
  predicate ShowsTickets(o: CheckoutOutcome)
  {
    o == PaymentSucceeded(TicketsGenerated)
  }

  // ---------------------------------------------------------------------------
  // The steps, as functions of the answers they get
  // ---------------------------------------------------------------------------

  /** Preparing the sheet once the intent request answered (`None`: it failed). */
  function Initialization(reply: Option<IntentData>, sheetError: Option<string>): Run<InitOutcome>
  {
    match reply
    case None => Run([], IntentFailed)
    case Some(d) =>
      var prepare := InitPaymentSheet(SheetConfig(d.clientSecret, d.customer, d.ephemeralKey, MerchantName));
      Run([prepare], if sheetError.Some? then SheetInitError(sheetError.value) else SheetReady)
  }

  /** After a payment: commit the seats, then, only if that worked, ask for the tickets. */
  function TicketGeneration(busId: string, userId: string, email: string, seats: Option<seq<Seat>>,
                            commitOk: bool, ticketsOk: bool): Run<TicketOutcome>
  {
    if seats.None? || |seats.value| == 0 then Run([], NoSeatsSelected)
    else
      var commit := UpdateSeatStatus(SeatPayload(busId, SeatsData(seats.value, email)));
      if !commitOk then Run([commit], BookingFailed)
      else
        var issue := GenerateTickets(Tickets(seats.value, userId, busId));
        Run([commit, issue], if ticketsOk then TicketsGenerated else BookingFailed)
  }

  /** "Pay Now": nothing while loading; otherwise present the sheet and, on success, generate the tickets. */
  function Checkout(loading: bool, presentError: Option<string>, busId: string, userId: string, email: string,
                    seats: Option<seq<Seat>>, commitOk: bool, ticketsOk: bool): Run<CheckoutOutcome>
  {
    if loading then Run([], StillLoading)
    else if presentError.Some? then Run([PresentPaymentSheet], PaymentFailed(presentError.value))
    else
      var t := TicketGeneration(busId, userId, email, seats, commitOk, ticketsOk);
      Run([PresentPaymentSheet] + t.calls, PaymentSucceeded(t.outcome))
  }

  // ---------------------------------------------------------------------------
  // What the steps promise
  // ---------------------------------------------------------------------------

  /** The sheet is prepared only with an intent; it is ready exactly when both answers were good. */
  lemma InitializationOutcomes(reply: Option<IntentData>, sheetError: Option<string>)
    ensures var r := Initialization(reply, sheetError);
      && (r.outcome == IntentFailed <==> reply.None?)
      && (r.outcome == SheetReady <==> reply.Some? && sheetError.None?)
      && (reply.None? ==> r.calls == [])
      && (reply.Some? ==> r.calls == [InitPaymentSheet(SheetConfig(reply.value.clientSecret, reply.value.customer,
                                                                   reply.value.ephemeralKey, MerchantName))])
      && (InitNotice(r.outcome).Some? <==> reply.None?)
  {
  }

  /** Paying while the sheet is loading does nothing: no sheet, no request, no notice. */
  lemma CheckoutWhileLoading(presentError: Option<string>, busId: string, userId: string, email: string,
                             seats: Option<seq<Seat>>, commitOk: bool, ticketsOk: bool)
    ensures var r := Checkout(true, presentError, busId, userId, email, seats, commitOk, ticketsOk);
      r.calls == [] && r.outcome == StillLoading && CheckoutNotice(r.outcome) == None
  {
  }

  /** A payment the provider reports as failed shows its message and sends no seat or ticket request. */
  lemma PaymentErrorStopsBooking(message: string, busId: string, userId: string, email: string,
                                 seats: Option<seq<Seat>>, commitOk: bool, ticketsOk: bool)
    ensures var r := Checkout(false, Some(message), busId, userId, email, seats, commitOk, ticketsOk);
      && r.calls == [PresentPaymentSheet]
      && r.outcome == PaymentFailed(message)
      && CheckoutNotice(r.outcome) == Some(Toast(Error, Some("Payment Failed!"), Some(message)))
  {
  }

  /** Without seats, ticket generation reports "No Seats Selected" and sends nothing. */
  lemma NoSeatsNoRequest(busId: string, userId: string, email: string, seats: Option<seq<Seat>>,
                         commitOk: bool, ticketsOk: bool)
    requires seats.None? || seats.value == []
    ensures var r := TicketGeneration(busId, userId, email, seats, commitOk, ticketsOk);
      r.calls == [] && r.outcome == NoSeatsSelected
      && TicketNotice(r.outcome).text1 == Some("No Seats Selected")
  {
  }

  /**
   * The seat commit always comes first and carries one entry per seat; the
   * ticket request, when sent, comes second, carries one ticket per seat, and
   * is never sent after a failed commit.
   */
  lemma CommitBeforeTickets(busId: string, userId: string, email: string, seats: seq<Seat>,
                            commitOk: bool, ticketsOk: bool)
    requires |seats| > 0
    ensures var r := TicketGeneration(busId, userId, email, Some(seats), commitOk, ticketsOk);
      && 1 <= |r.calls| <= 2
      && r.calls[0] == UpdateSeatStatus(SeatPayload(busId, SeatsData(seats, email)))
      && (|r.calls| == 2 <==> commitOk)
      && (commitOk ==> r.calls[1] == GenerateTickets(Tickets(seats, userId, busId)))
      && (forall i :: 0 <= i < |r.calls| && r.calls[i].GenerateTickets? ==>
            exists j :: 0 <= j < i && r.calls[j].UpdateSeatStatus?)
  {
    var r := TicketGeneration(busId, userId, email, Some(seats), commitOk, ticketsOk);
    forall i | 0 <= i < |r.calls| && r.calls[i].GenerateTickets?
      ensures exists j :: 0 <= j < i && r.calls[j].UpdateSeatStatus?
    {
      assert r.calls[0].UpdateSeatStatus?;
    }
  }

  /** Tickets are generated exactly when both requests succeed; any failure is the one generic error. */
  lemma SuccessIffBothSucceed(busId: string, userId: string, email: string, seats: seq<Seat>,
                              commitOk: bool, ticketsOk: bool)
    requires |seats| > 0
    ensures var r := TicketGeneration(busId, userId, email, Some(seats), commitOk, ticketsOk);
      && (r.outcome == TicketsGenerated <==> commitOk && ticketsOk)
      && (r.outcome == BookingFailed <==> !(commitOk && ticketsOk))
      && (r.outcome == BookingFailed ==>
            TicketNotice(r.outcome) == Toast(Error, Some("Something went wrong while booking tickets."), None))
  {
  }

  /** The ticket view is reached exactly when the sheet was ready, payment succeeded, seats were selected and both requests succeeded. */
  lemma ShowsTicketsIff(loading: bool, presentError: Option<string>, busId: string, userId: string, email: string,
                        seats: Option<seq<Seat>>, commitOk: bool, ticketsOk: bool)
    ensures var r := Checkout(loading, presentError, busId, userId, email, seats, commitOk, ticketsOk);
      && (ShowsTickets(r.outcome) <==>
            !loading && presentError.None? && seats.Some? && |seats.value| > 0 && commitOk && ticketsOk)
      && (ShowsTickets(r.outcome) ==>
            r.calls == [PresentPaymentSheet,
                        UpdateSeatStatus(SeatPayload(busId, SeatsData(seats.value, email))),
                        GenerateTickets(Tickets(seats.value, userId, busId))])
  {
  }

  // ---------------------------------------------------------------------------
  // The component's state
  // ---------------------------------------------------------------------------

  /** One payment component: its inputs, the `loading` flag, and the requests issued so far. */
  class PaymentSession {
    const amount: nat
    const adminId: Option<string>
    const userId: string
    const email: string
    const busId: string
    const selectedSeats: Option<seq<Seat>>
    var loading: bool
    var calls: seq<Call>

    constructor (amount: nat, adminId: Option<string>, userId: string, email: string, busId: string,
                 selectedSeats: Option<seq<Seat>>)
      ensures this.amount == amount && this.adminId == adminId && this.userId == userId
      ensures this.email == email && this.busId == busId && this.selectedSeats == selectedSeats
      ensures !loading && calls == []
    {
      this.amount := amount;
      this.adminId := adminId;
      this.userId := userId;
      this.email := email;
      this.busId := busId;
      this.selectedSeats := selectedSeats;
      loading := false;
      calls := [];
    }

    /** The start of the sheet preparation, up to waiting for the intent: sets `loading` and asks for the intent. */
    method BeginInitialize()
      modifies this
      ensures loading
      ensures calls == old(calls) + [CreatePaymentIntent(IntentRequest(amount, busId, userId, adminId))]
    {
      loading := true;
      calls := calls + [CreatePaymentIntent(IntentRequest(amount, busId, userId, adminId))];
    }

    /** The rest of the preparation once the intent request answered: `loading` is cleared whatever happened. */
    method FinishInitialize(reply: Option<IntentData>, sheetError: Option<string>) returns (o: InitOutcome)
      modifies this
      ensures !loading
      ensures calls == old(calls) + Initialization(reply, sheetError).calls
      ensures o == Initialization(reply, sheetError).outcome
    {
      if reply.None? {
        o := IntentFailed;
      } else {
        var data := reply.value;
        calls := calls + [InitPaymentSheet(SheetConfig(data.clientSecret, data.customer, data.ephemeralKey, MerchantName))];
        if sheetError.None? {
          loading := false;
          o := SheetReady;
        } else {
          o := SheetInitError(sheetError.value);
        }
      }
      loading := false;
    }

    /** "Pay Now", with the provider's answer to presenting the sheet and the backend's answers to the two requests. */
    method OpenPaymentSheet(presentError: Option<string>, commitOk: bool, ticketsOk: bool) returns (o: CheckoutOutcome)
      modifies this
      ensures loading == old(loading)
      ensures var r := Checkout(old(loading), presentError, busId, userId, email, selectedSeats, commitOk, ticketsOk);
        calls == old(calls) + r.calls && o == r.outcome
    {
      if loading {
        return StillLoading;
      }
      calls := calls + [PresentPaymentSheet];
      if presentError.Some? {
        return PaymentFailed(presentError.value);
      }
      var t := HandleTicketGeneration(commitOk, ticketsOk);
      o := PaymentSucceeded(t);
    }

    /** Commit the seats, then ask for the tickets; stop at the first failure. */
    method HandleTicketGeneration(commitOk: bool, ticketsOk: bool) returns (o: TicketOutcome)
      modifies this
      ensures loading == old(loading)
      ensures var r := TicketGeneration(busId, userId, email, selectedSeats, commitOk, ticketsOk);
        calls == old(calls) + r.calls && o == r.outcome
    {
      if selectedSeats.None? || |selectedSeats.value| == 0 {
        return NoSeatsSelected;
      }
      var seats := selectedSeats.value;
      var seatPayload := SeatPayload(busId, SeatsData(seats, email));
      calls := calls + [UpdateSeatStatus(seatPayload)];
      if !commitOk {
        return BookingFailed;
      }
      var ticketBody := Tickets(seats, userId, busId);
      calls := calls + [GenerateTickets(ticketBody)];
      if !ticketsOk {
        return BookingFailed;
      }
      o := TicketsGenerated;
    }
  }
}
