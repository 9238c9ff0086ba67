/**
 * components/booking-summary.tsx: the price breakdown and labels of the
 * booking summary card. A date is the text of a form field; `day` turns it
 * into a day number (the model of `new Date` followed by `differenceInDays`).
 */
module BookingSummary {
  import opened Optional

  datatype SummaryRoom = SummaryRoom(
    id: int,
    hotelId: int,
    name: string,
    price: int,
    capacity: int,
    bedType: string)

  /** The nightly price used when no room is selected. */
  const DefaultRoomPrice := 199

  datatype DateLabel = NotSelected | Formatted(date: string)

  /**
   * What the card shows, apart from the hotel's name and address. `total` is
   * `None` where JavaScript computes `NaN`: a missing `taxes` prop is
   * `undefined`, and adding it to the subtotal gives `NaN`.
   */
  datatype Summary = Summary(
    nights: int,
    roomPrice: int,
    subtotal: int,
    total: Option<int>,
    nightsLabel: string,
    roomLabel: string,
    checkInLabel: DateLabel,
    checkOutLabel: DateLabel)

  /** Whole days from check-in to check-out; 1 when either date is missing. Never clamped. */
  function Nights(checkIn: string, checkOut: string, day: string -> int): int {
    if checkIn != "" && checkOut != "" then day(checkOut) - day(checkIn) else 1
  }

  function DateText(date: string): (l: DateLabel)
    ensures l.NotSelected? <==> date == ""
  {
    if date != "" then Formatted(date) else NotSelected
  }

  /**
   * The card for the given props; `taxes` is `None` when the prop is not
   * passed. The `price` prop is not a parameter: the component receives it
   * and never reads it.
   */
  function Summarize(room: Option<SummaryRoom>, checkIn: string, checkOut: string, taxes: Option<int>,
                     day: string -> int): (s: Summary)
    ensures s.roomPrice == (if room.Some? then room.value.price else DefaultRoomPrice)
    ensures s.roomLabel == (if room.Some? then room.value.name else "Standard Room")
    ensures s.subtotal == s.roomPrice * s.nights
    ensures s.total.Some? <==> taxes.Some?
    ensures taxes.Some? ==> s.total.value == s.subtotal + taxes.value
    ensures s.nightsLabel == (if s.nights == 1 then "night" else "nights")
    ensures s.checkInLabel == DateText(checkIn) && s.checkOutLabel == DateText(checkOut)
  {
    var nights := Nights(checkIn, checkOut, day);
    var roomPrice := if room.Some? then room.value.price else DefaultRoomPrice;
    var subtotal := roomPrice * nights;
    Summary(
      nights,
      roomPrice,
      subtotal,
      if taxes.Some? then Some(subtotal + taxes.value) else None,
      if nights == 1 then "night" else "nights",
      if room.Some? then room.value.name else "Standard Room",
      DateText(checkIn),
      DateText(checkOut))
  }

  /** With a date missing the stay counts as one night at the room price. */
  lemma MissingDateIsOneNight(room: Option<SummaryRoom>, checkIn: string, checkOut: string,
                              taxes: int, day: string -> int)
    requires checkIn == "" || checkOut == ""
    ensures Summarize(room, checkIn, checkOut, Some(taxes), day).nights == 1
    ensures Summarize(room, checkIn, checkOut, Some(taxes), day).nightsLabel == "night"
    ensures Summarize(room, checkIn, checkOut, Some(taxes), day).total ==
              Some(Summarize(room, checkIn, checkOut, Some(taxes), day).roomPrice + taxes)
    ensures Summarize(room, checkIn, checkOut, Some(taxes), day).checkInLabel.NotSelected?
              || Summarize(room, checkIn, checkOut, Some(taxes), day).checkOutLabel.NotSelected?
  {
  }

  /** With both dates given, the night count is the difference of their day numbers. */
  lemma BothDatesGiveDifference(room: Option<SummaryRoom>, checkIn: string, checkOut: string,
                                taxes: int, day: string -> int)
    requires checkIn != "" && checkOut != ""
    ensures Summarize(room, checkIn, checkOut, Some(taxes), day).nights == day(checkOut) - day(checkIn)
  {
  }

  /**
   * A check-out before the check-in is not rejected: the night count is
   * negative and, for a room with a positive price, the total falls below the
   * taxes.
   */
  lemma ReversedDatesGoNegative(room: Option<SummaryRoom>, checkIn: string, checkOut: string,
                                taxes: int, day: string -> int)
    requires checkIn != "" && checkOut != "" && day(checkOut) < day(checkIn)
    requires room.None? || room.value.price > 0
    ensures Summarize(room, checkIn, checkOut, Some(taxes), day).nights < 0
    ensures Summarize(room, checkIn, checkOut, Some(taxes), day).subtotal < 0
    ensures Summarize(room, checkIn, checkOut, Some(taxes), day).total.value < taxes
    ensures Summarize(room, checkIn, checkOut, Some(taxes), day).nightsLabel == "nights"
  {
    var s := Summarize(room, checkIn, checkOut, Some(taxes), day);
    assert s.roomPrice > 0 && s.nights < 0;
    assert s.roomPrice * s.nights < 0 by {
      NegativeProduct(s.roomPrice, s.nights);
    }
  }

  lemma NegativeProduct(a: int, b: int)
    requires a > 0 && b < 0
    ensures a * b < 0
  {
  }

  /** The same check-in and check-out day is zero nights and a total of just the taxes. */
  lemma SameDayIsFree(room: Option<SummaryRoom>, checkIn: string, checkOut: string,
                      taxes: int, day: string -> int)
    requires checkIn != "" && checkOut != "" && day(checkOut) == day(checkIn)
    ensures Summarize(room, checkIn, checkOut, Some(taxes), day).total == Some(taxes)
    ensures Summarize(room, checkIn, checkOut, Some(taxes), day).nightsLabel == "nights"
  {
  }

  /**
   * For the same room and taxes, a longer stay never costs less: each extra
   * night adds the room price to the total.
   */
  lemma LongerStayCostsMore(room: Option<SummaryRoom>, checkIn: string, checkOut: string,
                            laterCheckOut: string, taxes: int, day: string -> int)
    requires checkIn != "" && checkOut != "" && laterCheckOut != ""
    requires day(checkOut) <= day(laterCheckOut)
    requires room.None? || room.value.price >= 0
    ensures Summarize(room, checkIn, checkOut, Some(taxes), day).total.value
            <= Summarize(room, checkIn, laterCheckOut, Some(taxes), day).total.value
    ensures Summarize(room, checkIn, laterCheckOut, Some(taxes), day).total.value
            - Summarize(room, checkIn, checkOut, Some(taxes), day).total.value
            == Summarize(room, checkIn, checkOut, Some(taxes), day).roomPrice
               * (day(laterCheckOut) - day(checkOut))
  {
  }

  /**
   * Without the `taxes` prop the total is `NaN`, whatever the room and dates;
   * the booking page renders the summary without it, so its card shows "$NaN".
   */
  lemma MissingTaxesGiveNoTotal(room: Option<SummaryRoom>, checkIn: string, checkOut: string,
                                day: string -> int)
    ensures Summarize(room, checkIn, checkOut, None, day).total == None
    ensures Summarize(room, checkIn, checkOut, None, day).subtotal
            == Summarize(room, checkIn, checkOut, None, day).roomPrice * Nights(checkIn, checkOut, day)
  {
  }
}
