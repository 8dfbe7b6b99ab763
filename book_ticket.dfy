/**
 * The seat-selection screen of one bus: the list of selected seats, the
 * per-seat gender rule, the readiness check and price computed when the user
 * confirms, and the small display rules (seat colour, seat label, clock time).
 */
module BookTicket {
  import opened Types
  import opened Text

  // ---------------------------------------------------------------------------
  // The selection list
  // ---------------------------------------------------------------------------

  /** No two entries share a seat number. */
  predicate Unique(seats: seq<Seat>)
  {
    forall i, j :: 0 <= i < j < |seats| ==> seats[i].seatNumber != seats[j].seatNumber
  }

  /** No entry is a seat that was already booked. */
  predicate NoneBooked(seats: seq<Seat>)
  {
    forall i :: 0 <= i < |seats| ==> !seats[i].booked
  }

  /** The entry numbered `n`, as `seats.find(s => s.seatNumber === n)`. */
  function FindSeat(seats: seq<Seat>, n: string): (r: Option<Seat>)
    ensures r.None? <==> forall i :: 0 <= i < |seats| ==> seats[i].seatNumber != n
    ensures r.Some? ==> r.value in seats && r.value.seatNumber == n
    decreases |seats|
  {
    if |seats| == 0 then None
    else if seats[0].seatNumber == n then Some(seats[0])
    else FindSeat(seats[1..], n)
  }

  /** The entries not numbered `n`, in their order, as `seats.filter(s => s.seatNumber !== n)`. */
  function Without(seats: seq<Seat>, n: string): (r: seq<Seat>)
    ensures forall x :: x in r <==> x in seats && x.seatNumber != n
    ensures |r| <= |seats|
    decreases |seats|
  {
    if |seats| == 0 then []
    else if seats[0].seatNumber == n then Without(seats[1..], n)
    else [seats[0]] + Without(seats[1..], n)
  }

  /** Filtering distributes over concatenation. */
  lemma {:induction false} WithoutConcat(a: seq<Seat>, b: seq<Seat>, n: string)
    ensures Without(a + b, n) == Without(a, n) + Without(b, n)
    decreases |a|
  {
    if |a| > 0 {
      assert (a + b)[1..] == a[1..] + b;
      WithoutConcat(a[1..], b, n);
    } else {
      assert a + b == b;
    }
  }

  /** Filtering out a number nobody has keeps the list as it is. */
  lemma {:induction false} WithoutAbsent(seats: seq<Seat>, n: string)
    requires forall i :: 0 <= i < |seats| ==> seats[i].seatNumber != n
    ensures Without(seats, n) == seats
    decreases |seats|
  {
    if |seats| > 0 {
      WithoutAbsent(seats[1..], n);
    }
  }

  /** On a list with unique numbers, filtering out the number of entry `i` deletes exactly that entry. */
  lemma {:induction false} WithoutDeletesOne(seats: seq<Seat>, i: nat)
    requires Unique(seats) && i < |seats|
    ensures Without(seats, seats[i].seatNumber) == seats[..i] + seats[i + 1..]
    decreases i
  {
    var n := seats[i].seatNumber;
    if i == 0 {
      WithoutAbsent(seats[1..], n);
    } else {
      var tail := seats[1..];
      assert seats[0].seatNumber != n;
      assert tail[i - 1] == seats[i];
      TailUnique(seats);
      WithoutDeletesOne(tail, i - 1);
      assert Without(seats, n) == [seats[0]] + Without(tail, n);
      assert tail[..i - 1] == seats[1..i];
      assert tail[i..] == seats[i + 1..];
      assert seats[..i] == [seats[0]] + seats[1..i];
    }
  }

  lemma TailUnique(seats: seq<Seat>)
    requires Unique(seats) && |seats| > 0
    ensures Unique(seats[1..])
  {
    var tail := seats[1..];
    forall i, j | 0 <= i < j < |tail| ensures tail[i].seatNumber != tail[j].seatNumber {
      assert tail[i] == seats[i + 1] && tail[j] == seats[j + 1];
    }
  }

  lemma ConsUnique(x: Seat, w: seq<Seat>)
    requires Unique(w)
    requires forall k :: 0 <= k < |w| ==> w[k].seatNumber != x.seatNumber
    ensures Unique([x] + w)
  {
    var r := [x] + w;
    forall i, j | 0 <= i < j < |r| ensures r[i].seatNumber != r[j].seatNumber {
      assert r[j] == w[j - 1];
      if i > 0 {
        assert r[i] == w[i - 1];
      }
    }
  }

  /** Filtering keeps the numbers unique. */
  lemma {:induction false} WithoutKeepsUnique(seats: seq<Seat>, n: string)
    requires Unique(seats)
    ensures Unique(Without(seats, n))
    decreases |seats|
  {
    if |seats| > 0 {
      var tail := seats[1..];
      TailUnique(seats);
      WithoutKeepsUnique(tail, n);
      var w := Without(tail, n);
      if seats[0].seatNumber != n {
        forall k | 0 <= k < |w| ensures w[k].seatNumber != seats[0].seatNumber {
          assert w[k] in tail;
          var m :| 0 <= m < |tail| && tail[m] == w[k];
          assert tail[m] == seats[m + 1];
        }
        ConsUnique(seats[0], w);
      }
    }
  }

  /**
   * The selection after the user taps `seat` (a seat record of the bus):
   * a booked seat is refused, a selected one is dropped, any other is added
   * at the end as a copy whose gender is cleared.
   */
  function Toggle(seats: seq<Seat>, seat: Seat): seq<Seat>
  {
    if seat.booked then seats
    else if FindSeat(seats, seat.seatNumber).Some? then Without(seats, seat.seatNumber)
    else seats + [seat.(gender := None)]
  }

  /** Tapping a booked seat leaves the selection unchanged. */
  lemma ToggleRefusesBooked(seats: seq<Seat>, seat: Seat)
    requires seat.booked
    ensures Toggle(seats, seat) == seats
  {
  }

  /** Tapping a free seat that is not selected appends one entry for it, with no gender. */
  lemma ToggleAppends(seats: seq<Seat>, seat: Seat)
    requires !seat.booked
    requires forall i :: 0 <= i < |seats| ==> seats[i].seatNumber != seat.seatNumber
    ensures var r := Toggle(seats, seat);
      && |r| == |seats| + 1
      && r[..|seats|] == seats
      && r[|seats|].seatNumber == seat.seatNumber
      && r[|seats|].gender == None
      && r[|seats|].booked == seat.booked
      && r[|seats|].neighborGender == seat.neighborGender
  {
  }

  /**
   * Tapping a selected seat removes every entry with its number and keeps the
   * others; on a list with unique numbers that is deleting its one entry,
   * with the others in their order.
   */
  lemma ToggleRemoves(seats: seq<Seat>, seat: Seat, i: nat)
    requires !seat.booked
    requires i < |seats| && seats[i].seatNumber == seat.seatNumber
    ensures var r := Toggle(seats, seat);
      && (forall x :: x in r <==> x in seats && x.seatNumber != seat.seatNumber)
      && (Unique(seats) ==> r == seats[..i] + seats[i + 1..])
  {
    if Unique(seats) {
      WithoutDeletesOne(seats, i);
    }
  }

  /** Tapping a free, unselected seat twice restores the selection. */
  lemma ToggleTwiceRestores(seats: seq<Seat>, seat: Seat)
    requires !seat.booked
    requires forall i :: 0 <= i < |seats| ==> seats[i].seatNumber != seat.seatNumber
    ensures Toggle(Toggle(seats, seat), seat) == seats
  {
    var x := seat.(gender := None);
    var once := seats + [x];
    assert once[|seats|] == x;
    WithoutConcat(seats, [x], seat.seatNumber);
    WithoutAbsent(seats, seat.seatNumber);
  }

  /** Every tap keeps the numbers unique and keeps booked seats out of the selection. */
  lemma ToggleKeepsInvariant(seats: seq<Seat>, seat: Seat)
    requires Unique(seats) && NoneBooked(seats)
    ensures Unique(Toggle(seats, seat)) && NoneBooked(Toggle(seats, seat))
  {
    var r := Toggle(seats, seat);
    if !seat.booked {
      if FindSeat(seats, seat.seatNumber).Some? {
        WithoutKeepsUnique(seats, seat.seatNumber);
        forall k | 0 <= k < |r| ensures !r[k].booked {
          assert r[k] in seats;
        }
      }
    }
  }

  // ---------------------------------------------------------------------------
  // The gender rule
  // ---------------------------------------------------------------------------

  /** The entries numbered `n` get gender `g`; every other entry stays, as the `map` of the gender handler. */
  function Assign(seats: seq<Seat>, n: string, g: Gender): (r: seq<Seat>)
    ensures |r| == |seats|
    ensures forall i :: 0 <= i < |seats| && seats[i].seatNumber != n ==> r[i] == seats[i]
    ensures forall i :: 0 <= i < |seats| && seats[i].seatNumber == n ==> r[i] == seats[i].(gender := Some(g))
    decreases |seats|
  {
    if |seats| == 0 then []
    else
      var head := if seats[0].seatNumber == n then seats[0].(gender := Some(g)) else seats[0];
      [head] + Assign(seats[1..], n, g)
  }

  /** Assigning a gender keeps the numbers, their uniqueness and the booked flags. */
  lemma AssignKeepsInvariant(seats: seq<Seat>, n: string, g: Gender)
    requires Unique(seats) && NoneBooked(seats)
    ensures Unique(Assign(seats, n, g)) && NoneBooked(Assign(seats, n, g))
  {
    var r := Assign(seats, n, g);
    assert forall i :: 0 <= i < |r| ==> r[i].seatNumber == seats[i].seatNumber && r[i].booked == seats[i].booked;
  }

  /** What choosing gender `g` in the picker leads to. */
  datatype GenderOutcome =
    | NoCurrentSeat                                 // the picker was not opened on a seat
    | Rejected(seatNumber: string, required: Gender)  // the seat's neighbour demands `required`
    | Accepted(seatNumber: string, gender: Gender)

  /** The gender rule of the picker, for the seat it was opened on. */
  function DecideGender(current: Option<Seat>, g: Gender): (r: GenderOutcome)
    ensures r.NoCurrentSeat? <==> current.None?
    ensures r.Rejected? <==> current.Some? && current.value.neighborGender.Some? && current.value.neighborGender.value != g
    ensures r.Rejected? ==> r.seatNumber == current.value.seatNumber && Some(r.required) == current.value.neighborGender && r.required != g
    ensures r.Accepted? ==> r.seatNumber == current.value.seatNumber && r.gender == g
  {
    match current
    case None => NoCurrentSeat
    case Some(seat) =>
      if seat.neighborGender.Some? && seat.neighborGender.value != g then Rejected(seat.seatNumber, seat.neighborGender.value)
      else Accepted(seat.seatNumber, g)
  }

  function GenderName(g: Gender): string
  {
    if g == M then "Male" else "Female"
  }

  /** The error shown on a rejected choice: "Seat <label>: Must select <gender>". */
  function RejectionText(seatNumber: string, required: Gender): (r: string)
    ensures |r| > |GenderName(required)| && r[|r| - |GenderName(required)|..] == GenderName(required)
  {
    var column := SeatLabel(seatNumber);
    var shown := if column.Some? then column.value else "undefined";
    var r := "Seat " + shown + ": Must select " + GenderName(required);
    assert r[|r| - |GenderName(required)|..] == GenderName(required);
    r
  }

  /** Seat "R1-2" next to a female rider: "Male" is refused with "Seat 2: Must select Female", "Female" is accepted. */
  lemma GenderRuleExample()
    ensures var seat := Seat("R1-2", false, None, Some(F));
      && DecideGender(Some(seat), M) == Rejected("R1-2", F)
      && RejectionText("R1-2", F) == "Seat 2: Must select Female"
      && DecideGender(Some(seat), F) == Accepted("R1-2", F)
  {
    SeatLabelOfRowAndColumn("R1", "2", "");
    assert "R1" + "-" + "2" == "R1-2";
  }

  // ---------------------------------------------------------------------------
  // Confirming the booking
  // ---------------------------------------------------------------------------

  /** What the screen knows of the bus: its fare and, if present, its admin. */
  datatype Bus = Bus(actualPrice: nat, adminId: Option<string>)

  /** The signed-in user's claims, read from the stored token. */
  datatype Claims = Claims(sub: string, name: string, email: string)

  /** The parameters the payment screen is opened with. */
  datatype PaymentRoute = PaymentRoute(
    busId: string,
    userId: string,
    userName: string,
    email: string,
    amount: nat,
    adminId: Option<string>,
    selectedSeats: seq<Seat>)

  datatype ConfirmOutcome =
    | NotSignedIn                         // no stored token: nothing happens
    | GenderMissing                       // "Please assign gender for all selected seats"
    | ProceedToPayment(route: PaymentRoute)

  /** Every selected seat has a gender, as `seats.every(seat => seat.gender)`. */
  predicate AllGendered(seats: seq<Seat>)
  {
    forall i :: 0 <= i < |seats| ==> seats[i].gender.Some?
  }

  /**
   * The confirm button's handler: without a token nothing happens; otherwise
   * it proceeds exactly when every selected seat has a gender, and then
   * charges one fare per seat for exactly the selected seats.
   */
  function ConfirmBooking(seats: seq<Seat>, token: Option<Claims>, busId: string, bus: Bus): (r: ConfirmOutcome)
    ensures r.NotSignedIn? <==> token.None?
    ensures r.GenderMissing? <==> token.Some? && !AllGendered(seats)
    ensures r.ProceedToPayment? <==> token.Some? && AllGendered(seats)
    ensures r.ProceedToPayment? ==>
      && r.route.amount == |seats| * bus.actualPrice
      && r.route.selectedSeats == seats
      && r.route.busId == busId
      && r.route.adminId == bus.adminId
      && r.route.userId == token.value.sub
      && r.route.email == token.value.email
  {
    match token
    case None => NotSignedIn
    case Some(claims) =>
      if !AllGendered(seats) then GenderMissing
      else ProceedToPayment(PaymentRoute(busId, claims.sub, claims.name, claims.email,
                                         |seats| * bus.actualPrice, bus.adminId, seats))
  }

  /** The handler itself does not require a selection: on an empty one it proceeds with amount 0. */
  lemma ConfirmEmptySelection(token: Claims, busId: string, bus: Bus)
    ensures ConfirmBooking([], Some(token), busId, bus).ProceedToPayment?
    ensures ConfirmBooking([], Some(token), busId, bus).route.amount == 0
  {
  }

  // ---------------------------------------------------------------------------
  // Display rules
  // ---------------------------------------------------------------------------

  /** The four seat states of the map legend. */
  datatype SeatStatus = Available | BookedMale | BookedFemale | Picked

  /** The state a seat of the bus is drawn in, given the selection. */
  function Status(item: Seat, selected: seq<Seat>): (r: SeatStatus)
    ensures r == BookedMale <==> item.booked && item.gender == Some(M)
    ensures r == BookedFemale <==> item.booked && item.gender != Some(M)
    ensures r == Picked <==> !item.booked && FindSeat(selected, item.seatNumber).Some?
    ensures r == Available <==> !item.booked && FindSeat(selected, item.seatNumber).None?
  {
    if item.booked then (if item.gender == Some(M) then BookedMale else BookedFemale)
    else if FindSeat(selected, item.seatNumber).Some? then Picked
    else Available
  }

  /** The background colour of each state. */
  function StatusColour(s: SeatStatus): string
  {
    match s
    case Available => "#BDC3C7"
    case BookedMale => "#4a90e2"
    case BookedFemale => "#e94b86"
    case Picked => "#27ae60"
  }

  /** Two different states never share a colour, so the colour tells the state. */
  lemma StatusColoursDistinct(s: SeatStatus, t: SeatStatus)
    requires s != t
    ensures StatusColour(s) != StatusColour(t)
  {
  }

  function SeatColour(item: Seat, selected: seq<Seat>): string
  {
    StatusColour(Status(item, selected))
  }

  /** Tapping a free seat switches it between "available" and "selected". */
  lemma ToggleFlipsStatus(item: Seat, selected: seq<Seat>)
    requires !item.booked
    ensures Status(item, Toggle(selected, item)) == Picked <==> Status(item, selected) == Available
    ensures Status(item, Toggle(selected, item)) == Available <==> Status(item, selected) == Picked
  {
    var r := Toggle(selected, item);
    if FindSeat(selected, item.seatNumber).Some? {
      forall k | 0 <= k < |r| ensures r[k].seatNumber != item.seatNumber {
        assert r[k] in r;
      }
    } else {
      assert r[|selected|].seatNumber == item.seatNumber;
    }
  }

  /** The seat's label: the part of its number after the first "-", as `seatNumber.split("-")[1]`; absent without a "-". */
  function SeatLabel(seatNumber: string): (r: Option<string>)
    ensures r.None? <==> '-' !in seatNumber
    ensures r.Some? ==> '-' !in r.value
  {
    var parts := Split(seatNumber, '-');
    if |parts| >= 2 then Some(parts[1]) else None
  }

  /** A number "<row>-<column>" is labelled with its column. */
  lemma SeatLabelOfRowAndColumn(row: string, column: string, more: string)
    requires '-' !in row && '-' !in column
    ensures SeatLabel(row + "-" + column) == Some(column)
    ensures SeatLabel(row + "-" + column + "-" + more) == Some(column)
  {
    SplitAt(row, column, '-');
    SplitWithout(column, '-');
    assert row + "-" + column + "-" + more == row + ['-'] + (column + ['-'] + more);
    SplitAt(row, column + ['-'] + more, '-');
    SplitAt(column, more, '-');
  }

  /** The hour on a 12-hour dial: in 1..12 and equal to `h` modulo 12. */
  function HourOnDial(h: nat): (k: nat)
    ensures 1 <= k <= 12 && k % 12 == h % 12
  {
    if h % 12 == 0 then 12 else h % 12
  }

  /**
   * A 24-hour "H:MM" time as a 12-hour one, as the trip details show it:
   * "N/A" without a time; the hour through `Number`, "AM" below 12;
   * NaN (a non-numeric hour) shows as 12 AM; minutes as written, or
   * "undefined" when there is no ":".
   */
  function FormatTime(timeString: Option<string>): (r: string)
    ensures r == "N/A" <==> timeString.None? || timeString.value == ""
  {
    if timeString.None? || timeString.value == "" then "N/A"
    else
      var parts := Split(timeString.value, ':');
      ClockText(parts[0], if |parts| >= 2 then parts[1] else "undefined")
  }

  /** The 12-hour text of an hour piece and a minutes piece. */
  function ClockText(hours: string, minutes: string): (r: string)
    ensures |r| > 0 && IsDigit(r[0])
  {
    var h := ToNumber(hours);
    var pm := h.Some? && h.value >= 12;
    var shown := if h.Some? then HourOnDial(h.value) else 12;
    var r := NatToString(shown) + ":" + minutes + (if pm then " PM" else " AM");
    assert r[0] == NatToString(shown)[0];
    r
  }

  /** A time string whose hour has no ":" is the clock text of that hour and the minutes up to the next ":". */
  lemma FormatTimeSplits(hours: string, rest: string)
    requires ':' !in hours
    ensures FormatTime(Some(hours + ":" + rest)) == ClockText(hours, Split(rest, ':')[0])
  {
    assert hours + ":" + rest == hours + [':'] + rest;
    SplitAt(hours, rest, ':');
  }

  lemma DigitsHaveNoColon(hours: string)
    requires AllDigits(hours)
    ensures ':' !in hours
  {
    forall k | 0 <= k < |hours| ensures hours[k] != ':' { assert IsDigit(hours[k]); }
  }

  lemma TwelveText()
    ensures NatToString(12) == "12"
  {
  }

  /** Below hour 24, the hour on the dial and the half of the day give the hour back. */
  lemma DialRoundTrip(h: nat)
    requires h < 24
    ensures HourOnDial(h) % 12 + (if h >= 12 then 12 else 0) == h
  {
  }

  lemma ClockTextOfDigits(hours: string, minutes: string)
    requires AllDigits(hours)
    ensures var h := DigitsValue(hours);
      ClockText(hours, minutes) == NatToString(HourOnDial(h)) + ":" + minutes + (if h >= 12 then " PM" else " AM")
  {
  }

  lemma ClockTextOfNonNumber(hours: string, minutes: string)
    requires !AllDigits(hours)
    ensures ClockText(hours, minutes) == "12:" + minutes + " AM"
  {
    TwelveText();
  }

  /**
   * For a numeric hour `H` followed by ":", the result is the dial hour of `H`,
   * the minutes up to the next ":" unchanged, and "PM" exactly from hour 12 on;
   * for hours below 24 the dial hour and the half of the day give `H` back.
   */
  lemma FormatTimeOfDigits(hours: string, rest: string)
    requires AllDigits(hours)
    ensures var h := DigitsValue(hours);
      && FormatTime(Some(hours + ":" + rest))
         == NatToString(HourOnDial(h)) + ":" + Split(rest, ':')[0] + (if h >= 12 then " PM" else " AM")
      && (h < 24 ==> HourOnDial(h) % 12 + (if h >= 12 then 12 else 0) == h)
  {
    DigitsHaveNoColon(hours);
    FormatTimeSplits(hours, rest);
    ClockTextOfDigits(hours, Split(rest, ':')[0]);
    if DigitsValue(hours) < 24 {
      DialRoundTrip(DigitsValue(hours));
    }
  }

  /** Midnight is "12:MM AM" and noon "12:MM PM". */
  lemma FormatTimeMidnightAndNoon(hours: string, rest: string)
    requires AllDigits(hours) && (DigitsValue(hours) == 0 || DigitsValue(hours) == 12)
    ensures FormatTime(Some(hours + ":" + rest))
            == "12:" + Split(rest, ':')[0] + (if DigitsValue(hours) == 12 then " PM" else " AM")
  {
    DigitsHaveNoColon(hours);
    FormatTimeSplits(hours, rest);
    ClockTextAtTwelve(hours, Split(rest, ':')[0]);
  }

  lemma ClockTextAtTwelve(hours: string, minutes: string)
    requires AllDigits(hours) && (DigitsValue(hours) == 0 || DigitsValue(hours) == 12)
    ensures ClockText(hours, minutes) == "12:" + minutes + (if DigitsValue(hours) == 12 then " PM" else " AM")
  {
    var h := DigitsValue(hours);
    var half := if h >= 12 then " PM" else " AM";
    ClockTextOfDigits(hours, minutes);
    assert HourOnDial(h) == 12;
    TwelveText();
    assert ClockText(hours, minutes) == "12" + ":" + minutes + half;
    assert "12" + ":" == "12:";
  }

  /** A non-numeric hour shows as "12:MM AM". */
  lemma FormatTimeOfNonNumber(hours: string, rest: string)
    requires ':' !in hours && !AllDigits(hours)
    ensures FormatTime(Some(hours + ":" + rest)) == "12:" + Split(rest, ':')[0] + " AM"
  {
    FormatTimeSplits(hours, rest);
    ClockTextOfNonNumber(hours, Split(rest, ':')[0]);
  }

  /** Without a ":" the minutes show as "undefined". */
  lemma FormatTimeWithoutColon(time: string)
    requires time != "" && ':' !in time
    ensures FormatTime(Some(time)) == ClockText(time, "undefined")
  {
    SplitWithout(time, ':');
  }

  // ---------------------------------------------------------------------------
  // The screen's state
  // ---------------------------------------------------------------------------

  /** The selection state of the screen, changed in place by its handlers. */
  class SeatSelection {
    var selectedSeats: seq<Seat>
    var currentSeatForGender: Option<Seat>
    var genderModalVisible: bool

    /** Numbers unique, no booked seat selected, the picker open exactly when it has a seat. */
    ghost predicate Valid()
      reads this
    {
      && Unique(selectedSeats)
      && NoneBooked(selectedSeats)
      && (genderModalVisible <==> currentSeatForGender.Some?)
    }

    constructor ()
      ensures Valid()
      ensures selectedSeats == [] && currentSeatForGender == None && !genderModalVisible
    {
      selectedSeats := [];
      currentSeatForGender := None;
      genderModalVisible := false;
    }

    /** The handler of a tap on a seat of the map. */
    method ToggleSeatSelection(seat: Seat)
      requires Valid()
      modifies this
      ensures Valid()
      ensures selectedSeats == Toggle(old(selectedSeats), seat)
      ensures currentSeatForGender == old(currentSeatForGender) && genderModalVisible == old(genderModalVisible)
    {
      ToggleKeepsInvariant(selectedSeats, seat);
      if seat.booked {
        return;
      }
      var alreadySelected := FindSeat(selectedSeats, seat.seatNumber);
      if alreadySelected.Some? {
        selectedSeats := Without(selectedSeats, seat.seatNumber);
      } else {
        selectedSeats := selectedSeats + [seat.(gender := None)];
      }
    }

    /** A tap on a selected seat's chip opens the gender picker for it. */
    method OpenGenderPicker(seat: Seat)
      requires Valid() && seat in selectedSeats
      modifies this
      ensures Valid()
      ensures currentSeatForGender == Some(seat) && genderModalVisible
      ensures selectedSeats == old(selectedSeats)
    {
      currentSeatForGender := Some(seat);
      genderModalVisible := true;
    }

    /** "Cancel", or closing the picker, forgets the seat. */
    method CancelGenderPicker()
      requires Valid()
      modifies this
      ensures Valid()
      ensures currentSeatForGender == None && !genderModalVisible
      ensures selectedSeats == old(selectedSeats)
    {
      genderModalVisible := false;
      currentSeatForGender := None;
    }

    /**
     * The handler of "Male" / "Female" in the picker. Without a seat, or on a
     * rejection, nothing changes; on acceptance only the entries of the seat
     * get the gender and the picker closes.
     */
    method HandleGenderSelection(gender: Gender) returns (o: GenderOutcome)
      requires Valid()
      modifies this
      ensures Valid()
      ensures o == DecideGender(old(currentSeatForGender), gender)
      ensures !o.Accepted? ==>
        && selectedSeats == old(selectedSeats)
        && currentSeatForGender == old(currentSeatForGender)
        && genderModalVisible == old(genderModalVisible)
      ensures o.Accepted? ==>
        && selectedSeats == Assign(old(selectedSeats), o.seatNumber, gender)
        && currentSeatForGender == None && !genderModalVisible
    {
      if currentSeatForGender.None? {
        return NoCurrentSeat;
      }
      var seat := currentSeatForGender.value;
      var neighborGender := seat.neighborGender;
      if neighborGender.Some? && neighborGender.value != gender {
        return Rejected(seat.seatNumber, neighborGender.value);
      }
      AssignKeepsInvariant(selectedSeats, seat.seatNumber, gender);
      selectedSeats := Assign(selectedSeats, seat.seatNumber, gender);
      genderModalVisible := false;
      currentSeatForGender := None;
      o := Accepted(seat.seatNumber, gender);
    }

    /** The "Confirm Your Bookings" button, which is only shown while a seat is selected. */
    method Confirm(token: Option<Claims>, busId: string, bus: Bus) returns (o: ConfirmOutcome)
      requires |selectedSeats| > 0
      ensures o == ConfirmBooking(selectedSeats, token, busId, bus)
      ensures o.ProceedToPayment? <==> token.Some? && AllGendered(selectedSeats)
    {
      if token.None? {
        return NotSignedIn;
      }
      if exists i :: 0 <= i < |selectedSeats| && selectedSeats[i].gender.None? {
        return GenderMissing;
      }
      var totalAmount := |selectedSeats| * bus.actualPrice;
      o := ProceedToPayment(PaymentRoute(busId, token.value.sub, token.value.name, token.value.email,
                                         totalAmount, bus.adminId, selectedSeats));
    }
  }
}
