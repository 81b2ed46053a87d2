/** The older car-wash booking page (app/dashboard/car-wash/appointment/page.tsx):
    its half-hour slot list, the test that greys out a slot whose hour is already
    booked in the page's own mock list, and the date-and-time guard of its submit
    handler. */
module CarWashPage {
  import opened Text
  import opened Clock
  import opened Models

  // ---------------------------------------------------------------------------
  // Dates and the booked slots

  /** A calendar day as `Date` reports it: `getFullYear()`, `getMonth()` (0 for
      January) and `getDate()`. */
  datatype CalendarDate = CalendarDate(year: int, month: int, day: int)

  /** A `Date` down to the minute, on the same terms. */
  datatype DateTime = DateTime(year: int, month: int, day: int, hour: int, minute: int)

  /** `bookedSlots`: April 19, 2025 at 11:00 and at 14:00, and April 20, 2025 at 10:00. */
  const BookedSlots: seq<DateTime> := [
    DateTime(2025, 3, 19, 11, 0),
    DateTime(2025, 3, 19, 14, 0),
    DateTime(2025, 3, 20, 10, 0)]

  /** `timeSlots`. */
  const CarWashTimeSlots: seq<string> := [
    "10:00 AM", "10:30 AM", "11:00 AM", "11:30 AM", "12:00 PM", "12:30 PM", "1:00 PM",
    "1:30 PM", "2:00 PM", "2:30 PM", "3:00 PM", "3:30 PM", "4:00 PM", "4:30 PM"]

  // ---------------------------------------------------------------------------
  // The page's own time parse

  /** `const [hourStr, minuteStr] = timeStr.split(":")`, where both pieces start
      with a digit so that `parseInt` reads numbers from them. */
  predicate IsCarWashTime(s: string)
  {
    var pieces := Split(s, ':');
    |pieces| >= 2 && ReadsAsNumber(pieces[0]) && ReadsAsNumber(pieces[1])
  }

  /** The hour after the adjustment for `timeStr.includes("PM")`: a PM hour other
      than 12 gains 12, and 12 without "PM" becomes 0. */
  function CarWashHour(s: string): nat
    requires IsCarWashTime(s)
  {
    var hour := ParseInt(Split(s, ':')[0]);
    var isPM := Includes(s, "PM");
    if isPM && hour != 12 then hour + 12
    else if !isPM && hour == 12 then 0
    else hour
  }

  /** `parseInt(minuteStr)`: the digits at the start of the text after the colon. */
  function CarWashMinute(s: string): nat
    requires IsCarWashTime(s)
  {
    ParseInt(Split(s, ':')[1])
  }

  /** The colon splits `${hour}:${minutes} ${period}` into the hour and the rest. */
  lemma CarWashPieces(hour: nat, minutes: string, period: string)
    requires |minutes| > 0 && AllDigits(minutes) && ':' !in period
    ensures Split(TimeText(hour, minutes, period), ':') == [NatToString(hour), minutes + (" " + period)]
    ensures IsCarWashTime(TimeText(hour, minutes, period))
  {
    var h := NatToString(hour);
    var rest := minutes + (" " + period);
    assert ':' !in h by { assert forall k :: 0 <= k < |h| ==> IsDigit(h[k]); }
    assert ':' !in rest by { assert forall k :: 0 <= k < |minutes| ==> IsDigit(rest[k]); }
    assert TimeText(hour, minutes, period) == h + [':'] + rest;
    SplitAtFirst(h, ':', rest);
    SplitWithout(rest, ':');
  }

  /** `includes("PM")` on `${hour}:${minutes} ${period}` tells "PM" from "AM". */
  lemma IncludesPM(hour: nat, minutes: string, period: string)
    requires AllDigits(minutes)
    requires period == "AM" || period == "PM"
    ensures Includes(TimeText(hour, minutes, period), "PM") <==> period == "PM"
  {
    var s := TimeText(hour, minutes, period);
    var h := NatToString(hour);
    if period == "PM" {
      assert s == (h + ":" + minutes + " ") + "PM";
      IncludesSuffix(h + ":" + minutes + " ", "PM");
    } else {
      assert 'P' !in h by { assert forall k :: 0 <= k < |h| ==> IsDigit(h[k]); }
      assert 'P' !in minutes by { assert forall k :: 0 <= k < |minutes| ==> IsDigit(minutes[k]); }
      assert s == h + ":" + minutes + " AM";
      assert 'P' !in s;
      LacksFirstCharacter(s, "PM");
    }
  }

  /** The car-wash parse of `${hour}:${minutes} ${period}` reads the hour on the
      12-hour clock of "AM" and "PM" and the minutes unchanged. */
  lemma CarWashParseTimeText(hour: nat, minutes: string, period: string)
    requires |minutes| > 0 && AllDigits(minutes)
    requires period == "AM" || period == "PM"
    ensures IsCarWashTime(TimeText(hour, minutes, period))
    ensures CarWashHour(TimeText(hour, minutes, period)) == To24Hour(hour, period)
    ensures CarWashMinute(TimeText(hour, minutes, period)) == DigitsToNat(minutes)
  {
    CarWashNumbers(hour, minutes, period);
    IncludesPM(hour, minutes, period);
  }

  /** The numbers `parseInt` reads from the two pieces of `${hour}:${minutes} ${period}`. */
  lemma CarWashNumbers(hour: nat, minutes: string, period: string)
    requires |minutes| > 0 && AllDigits(minutes) && ':' !in period
    ensures IsCarWashTime(TimeText(hour, minutes, period))
    ensures ParseInt(Split(TimeText(hour, minutes, period), ':')[0]) == hour
    ensures CarWashMinute(TimeText(hour, minutes, period)) == DigitsToNat(minutes)
  {
    CarWashPieces(hour, minutes, period);
    ParseIntOfNat(hour);
    DigitPrefixOfDigits(minutes, " " + period);
  }

  /** On the site's time strings the page's parse reads the same hour and minute
      as the vehicle-wash page and the appointments route: the test with
      `includes("PM")` and the test of the period piece agree for "AM" and "PM". */
  lemma CarWashAgreesWithParseTime(hour: nat, minutes: string, period: string)
    requires |minutes| > 0 && AllDigits(minutes)
    requires period == "AM" || period == "PM"
    ensures IsCarWashTime(TimeText(hour, minutes, period)) && IsTimeText(TimeText(hour, minutes, period))
    ensures CarWashHour(TimeText(hour, minutes, period)) == ParseTime(TimeText(hour, minutes, period)).hour
    ensures CarWashMinute(TimeText(hour, minutes, period)) == ParseTime(TimeText(hour, minutes, period)).minute
  {
    CarWashParseTimeText(hour, minutes, period);
    ParseTimeText(hour, minutes, period);
  }

  /** The 12-hour rules of the car-wash parse: "12:mm PM" stays 12, "12:mm AM"
      becomes 0, any other PM hour gains 12 and any other AM hour is kept. */
  lemma CarWashTwelveHourRules(hour: nat, minutes: string)
    requires 1 <= hour <= 12
    requires |minutes| > 0 && AllDigits(minutes)
    ensures IsCarWashTime(TimeText(hour, minutes, "AM")) && IsCarWashTime(TimeText(hour, minutes, "PM"))
    ensures CarWashHour(TimeText(hour, minutes, "PM")) == if hour == 12 then 12 else hour + 12
    ensures CarWashHour(TimeText(hour, minutes, "AM")) == if hour == 12 then 0 else hour
  {
    CarWashParseTimeText(hour, minutes, "PM");
    CarWashParseTimeText(hour, minutes, "AM");
  }

  // ---------------------------------------------------------------------------
  // The slot list

  /** The parts of slot k, 10:00 plus 30k minutes: the hour on the 12-hour clock,
      "00" or "30", and the period. */
  function SlotHour(k: nat): nat { if 10 + k / 2 > 12 then k / 2 - 2 else 10 + k / 2 }
  function SlotMinutes(k: nat): string { if k % 2 == 0 then "00" else "30" }
  function SlotPeriod(k: nat): string { if 10 + k / 2 >= 12 then "PM" else "AM" }

  /** The numerals of the hours the slots show. */
  lemma HourNumerals()
    ensures NatToString(1) == "1" && NatToString(2) == "2" && NatToString(3) == "3" && NatToString(4) == "4"
    ensures NatToString(10) == "10" && NatToString(11) == "11" && NatToString(12) == "12"
  {
    assert NatToString(1) == [DigitChar(1)];
    assert NatToString(10) == NatToString(1) + [DigitChar(0)];
    assert NatToString(11) == NatToString(1) + [DigitChar(1)];
    assert NatToString(12) == NatToString(1) + [DigitChar(2)];
  }

  /** Slot k of `timeSlots` reads `${hour}:${minutes} ${period}` for its parts. */
  lemma CarWashSlotText(k: nat)
    requires k < 14
    ensures CarWashTimeSlots[k] == TimeText(SlotHour(k), SlotMinutes(k), SlotPeriod(k))
  {
    if k < 7 {
      MorningSlotText(k);
    } else {
      AfternoonSlotText(k);
    }
  }

  lemma MorningSlotText(k: nat)
    requires k < 7
    ensures CarWashTimeSlots[k] == TimeText(SlotHour(k), SlotMinutes(k), SlotPeriod(k))
  {
    HourNumerals();
    match k
    case 0 => assert TimeText(10, "00", "AM") == "10:00 AM";
    case 1 => assert TimeText(10, "30", "AM") == "10:30 AM";
    case 2 => assert TimeText(11, "00", "AM") == "11:00 AM";
    case 3 => assert TimeText(11, "30", "AM") == "11:30 AM";
    case 4 => assert TimeText(12, "00", "PM") == "12:00 PM";
    case 5 => assert TimeText(12, "30", "PM") == "12:30 PM";
    case _ => assert TimeText(1, "00", "PM") == "1:00 PM";
  }

  lemma AfternoonSlotText(k: nat)
    requires 7 <= k < 14
    ensures CarWashTimeSlots[k] == TimeText(SlotHour(k), SlotMinutes(k), SlotPeriod(k))
  {
    HourNumerals();
    match k
    case 7 => assert TimeText(1, "30", "PM") == "1:30 PM";
    case 8 => assert TimeText(2, "00", "PM") == "2:00 PM";
    case 9 => assert TimeText(2, "30", "PM") == "2:30 PM";
    case 10 => assert TimeText(3, "00", "PM") == "3:00 PM";
    case 11 => assert TimeText(3, "30", "PM") == "3:30 PM";
    case 12 => assert TimeText(4, "00", "PM") == "4:00 PM";
    case _ => assert TimeText(4, "30", "PM") == "4:30 PM";
  }

  /** The parts of slot k stand for hour 10 + k / 2 and minute 30 (k % 2). */
  lemma SlotParts(k: nat)
    requires k < 14
    ensures |SlotMinutes(k)| > 0 && AllDigits(SlotMinutes(k)) && DigitsToNat(SlotMinutes(k)) == k % 2 * 30
    ensures SlotPeriod(k) == "AM" || SlotPeriod(k) == "PM"
    ensures To24Hour(SlotHour(k), SlotPeriod(k)) == 10 + k / 2
  {
    assert "00"[..1] == "0" && "0"[..0] == [] && "30"[..1] == "3" && "3"[..0] == [];
  }

  /** `timeSlots` holds 14 slots half an hour apart, from 10:00 AM to 4:30 PM; each
      parses, by either parse, to its hour and minute. */
  lemma CarWashTimeSlotsSpacing(k: nat)
    requires k < |CarWashTimeSlots|
    ensures |CarWashTimeSlots| == 14
    ensures CarWashTimeSlots[0] == "10:00 AM" && CarWashTimeSlots[13] == "4:30 PM"
    ensures IsTimeText(CarWashTimeSlots[k]) && StartMinute(CarWashTimeSlots[k]) == 600 + 30 * k
    ensures IsCarWashTime(CarWashTimeSlots[k])
    ensures CarWashHour(CarWashTimeSlots[k]) == 10 + k / 2 && CarWashMinute(CarWashTimeSlots[k]) == k % 2 * 30
  {
    var hour, minutes, period := SlotHour(k), SlotMinutes(k), SlotPeriod(k);
    CarWashSlotText(k);
    SlotParts(k);
    CarWashParseTimeText(hour, minutes, period);
    ParseTimeText(hour, minutes, period);
    assert SetHours(10 + k / 2, k % 2 * 30) == 600 + 30 * k;
  }

  // ---------------------------------------------------------------------------
  // isDateBooked

  /** `selectedDateTime.setHours(hour, minute, 0, 0)` on the selected day, for a
      time that stays within that day. */
  function SelectedDateTime(date: CalendarDate, s: string): (t: DateTime)
    requires IsCarWashTime(s) && CarWashHour(s) < 24 && CarWashMinute(s) < 60
    ensures t.year == date.year && t.month == date.month && t.day == date.day
    ensures t.hour == CarWashHour(s)
  {
    DateTime(date.year, date.month, date.day, CarWashHour(s), CarWashMinute(s))
  }

  /** The test of one booked slot: same year, month, day and hour; the minutes
      are not compared. */
  predicate SameHour(booked: DateTime, selected: DateTime)
  {
    booked.year == selected.year && booked.month == selected.month &&
    booked.day == selected.day && booked.hour == selected.hour
  }

  /** `bookedSlots.some(...)`. */
  function AnySameHour(booked: seq<DateTime>, selected: DateTime): (r: bool)
    ensures r <==> exists k :: 0 <= k < |booked| && SameHour(booked[k], selected)
  {
    if booked == [] then false
    else SameHour(booked[0], selected) || AnySameHour(booked[1..], selected)
  }

  /** `isDateBooked(date, timeStr)`: some booked slot lies on the selected day in
      the selected hour. */
  function IsDateBooked(date: CalendarDate, s: string): (r: bool)
    requires IsCarWashTime(s) && CarWashHour(s) < 24 && CarWashMinute(s) < 60
    ensures r <==>
      exists k :: 0 <= k < |BookedSlots| &&
        BookedSlots[k].year == date.year && BookedSlots[k].month == date.month &&
        BookedSlots[k].day == date.day && BookedSlots[k].hour == CarWashHour(s)
  {
    AnySameHour(BookedSlots, SelectedDateTime(date, s))
  }

  /** Which slots the mock bookings grey out: on April 19, 2025 the four slots in
      the hours of 11 and 14, on April 20, 2025 the two in the hour of 10, and on
      any other day none. */
  lemma BookedSlotsOfTheMockData(date: CalendarDate, k: nat)
    requires k < |CarWashTimeSlots|
    ensures IsCarWashTime(CarWashTimeSlots[k]) && CarWashHour(CarWashTimeSlots[k]) < 24
    ensures CarWashMinute(CarWashTimeSlots[k]) < 60
    ensures IsDateBooked(date, CarWashTimeSlots[k]) <==>
      (date == CalendarDate(2025, 3, 19) && (k == 2 || k == 3 || k == 8 || k == 9)) ||
      (date == CalendarDate(2025, 3, 20) && (k == 0 || k == 1))
  {
    CarWashTimeSlotsSpacing(k);
    MockBookedHours(date, 10 + k / 2);
  }

  /** Some mock booking lies on `date` in the hour `hour`. */
  predicate BookedAt(date: CalendarDate, hour: int)
  {
    exists j :: 0 <= j < |BookedSlots| &&
      BookedSlots[j].year == date.year && BookedSlots[j].month == date.month &&
      BookedSlots[j].day == date.day && BookedSlots[j].hour == hour
  }

  /** The hours the mock bookings hold: 11 and 14 on April 19, 2025, and 10 on
      April 20, 2025. */
  lemma MockBookedHours(date: CalendarDate, hour: int)
    ensures BookedAt(date, hour) <==>
      (date == CalendarDate(2025, 3, 19) && (hour == 11 || hour == 14)) ||
      (date == CalendarDate(2025, 3, 20) && hour == 10)
  {
    assert BookedSlots[0] == DateTime(2025, 3, 19, 11, 0);
    assert BookedSlots[1] == DateTime(2025, 3, 19, 14, 0);
    assert BookedSlots[2] == DateTime(2025, 3, 20, 10, 0);
  }

  /** Minutes are ignored: on April 19, 2025 the 11:00 booking also blocks 11:30 AM. */
  lemma HalfPastIsBlocked()
    ensures IsCarWashTime("11:30 AM") && CarWashHour("11:30 AM") < 24 && CarWashMinute("11:30 AM") < 60
    ensures IsDateBooked(CalendarDate(2025, 3, 19), "11:30 AM")
  {
    assert CarWashTimeSlots[3] == "11:30 AM";
    BookedSlotsOfTheMockData(CalendarDate(2025, 3, 19), 3);
  }

  // ---------------------------------------------------------------------------
  // handleSubmit

  /** What submitting the form does: an error toast and no navigation, or the
      confirmation toast and a move to the confirmation page. */
  datatype SubmitOutcome =
    | SubmitError(description: string)
    | Booked(destination: string)

  /** `handleSubmit`: without a date or a time (`undefined` or the empty string)
      it shows the error and stays; otherwise it confirms and navigates. */
  function HandleSubmit(date: Option<CalendarDate>, time: Option<string>): (r: SubmitOutcome)
    ensures r.Booked? <==> date.Some? && time.Some? && time.value != []
    ensures r.SubmitError? ==> r.description == "Please select a date and time for your appointment"
    ensures r.Booked? ==> r.destination == "/dashboard/car-wash/confirmation"
  {
    if date.None? || time.None? || time.value == [] then
      SubmitError("Please select a date and time for your appointment")
    else
      Booked("/dashboard/car-wash/confirmation")
  }
}
