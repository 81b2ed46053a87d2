/** Times of day as the site writes them ("2:30 PM"): parsing them into a 24-hour
    (hour, minute) pair, and rendering a minute offset the way the appointments
    route's `formatTime` renders a `Date`. */
module Clock {
  import opened Text

  /** A parsed time: the hour on the 24-hour clock and the minute. */
  datatype Clock = Clock(hour: nat, minute: nat)

  /** The 12-hour to 24-hour conversion every parser in the site applies after
      reading the hour: "12 AM" is hour 0, "12 PM" stays 12, any other PM hour
      gains 12, and everything else passes through. */
  function To24Hour(hour: nat, period: string): nat
  {
    if period == "PM" && hour != 12 then hour + 12
    else if period == "AM" && hour == 12 then 0
    else hour
  }

  /** `const [timeComponent, period] = s.split(" ")`, then
      `const [hourStr, minuteStr] = timeComponent.split(":")`: the two pieces of
      the time component. */
  function TimeComponentPieces(s: string): seq<string>
  {
    Split(Split(s, ' ')[0], ':')
  }

  /** The period piece; `undefined` when there is no space, which compares unequal
      to "AM" and "PM" just as the empty string does. */
  function PeriodPiece(s: string): string
  {
    var parts := Split(s, ' ');
    if |parts| >= 2 then parts[1] else []
  }

  /** A time string both pieces of which read as numbers (no NaN). */
  predicate IsTimeText(s: string)
  {
    var hm := TimeComponentPieces(s);
    |hm| >= 2 && ReadsAsNumber(hm[0]) && ReadsAsNumber(hm[1])
  }

  /** The parse shared by the booking page's `parseTimeString` and the two inlined
      copies in the appointments route's `checkForConflicts`. */
  function ParseTime(s: string): Clock
    requires IsTimeText(s)
  {
    var hm := TimeComponentPieces(s);
    Clock(To24Hour(ParseInt(hm[0]), PeriodPiece(s)), ParseInt(hm[1]))
  }

  /** The parse as the page's `parseTimeString` and the route's inlined copies run
      it: split, read both numbers, then adjust `hour` in place for the period. */
  method ReadClock(s: string) returns (hour: nat, minute: nat)
    requires IsTimeText(s)
    ensures Clock(hour, minute) == ParseTime(s)
  {
    var parts := Split(s, ' ');
    var timeComponent := parts[0];
    var period := if |parts| >= 2 then parts[1] else [];
    var hm := Split(timeComponent, ':');
    hour := ParseInt(hm[0]);
    minute := ParseInt(hm[1]);
    if period == "PM" && hour != 12 {
      hour := hour + 12;
    } else if period == "AM" && hour == 12 {
      hour := 0;
    }
  }

  /** `setHours(hour, minute, 0, 0)` on a day: this many minutes after its midnight. */
  function SetHours(hour: nat, minute: nat): int
  {
    hour * 60 + minute
  }

  /** The minute of the day at which a booking written `s` starts. */
  function StartMinute(s: string): int
    requires IsTimeText(s)
  {
    var c := ParseTime(s);
    SetHours(c.hour, c.minute)
  }

  /** The template `${hour}:${minutes} ${period}` that every time string of the
      site follows. */
  function TimeText(hour: nat, minutes: string, period: string): string
  {
    NatToString(hour) + ":" + minutes + " " + period
  }

  /** The two pieces of the time component: the rendered hour and the minutes. */
  lemma ComponentSplit(h: string, minutes: string)
    requires AllDigits(h) && AllDigits(minutes)
    ensures Split(h + ":" + minutes, ':') == [h, minutes]
  {
    assert ':' !in h by { assert forall k :: 0 <= k < |h| ==> IsDigit(h[k]); }
    assert ':' !in minutes by { assert forall k :: 0 <= k < |minutes| ==> IsDigit(minutes[k]); }
    assert h + ":" + minutes == h + [':'] + minutes;
    SplitAtFirst(h, ':', minutes);
    SplitWithout(minutes, ':');
  }

  /** Splitting `${hour}:${minutes} ${period}` on spaces. */
  lemma TimeTextSplit(h: string, minutes: string, period: string)
    requires AllDigits(h) && AllDigits(minutes)
    requires ' ' !in period
    ensures Split(h + ":" + minutes + " " + period, ' ') == [h + ":" + minutes, period]
  {
    var component := h + ":" + minutes;
    assert forall k :: 0 <= k < |component| ==> component[k] == ':' || IsDigit(component[k]);
    assert ' ' !in component;
    assert h + ":" + minutes + " " + period == component + [' '] + period;
    SplitAtFirst(component, ' ', period);
    SplitWithout(period, ' ');
  }

  /** The pieces the parsers read from `${hour}:${minutes} ${period}`. */
  lemma TimeTextPieces(hour: nat, minutes: string, period: string)
    requires AllDigits(minutes)
    requires ' ' !in period
    ensures TimeComponentPieces(TimeText(hour, minutes, period)) == [NatToString(hour), minutes]
    ensures PeriodPiece(TimeText(hour, minutes, period)) == period
  {
    TimeTextSplit(NatToString(hour), minutes, period);
    ComponentSplit(NatToString(hour), minutes);
  }

  /** Parsing a string of the form `${hour}:${minutes} ${period}` reads back the
      hour converted to the 24-hour clock and the minutes unchanged. */
  lemma ParseTimeText(hour: nat, minutes: string, period: string)
    requires |minutes| > 0 && AllDigits(minutes)
    requires ' ' !in period
    ensures IsTimeText(TimeText(hour, minutes, period))
    ensures ParseTime(TimeText(hour, minutes, period)) == Clock(To24Hour(hour, period), DigitsToNat(minutes))
  {
    TimeTextPieces(hour, minutes, period);
    ParseIntOfNat(hour);
    ParseIntOfDigits(minutes);
  }

  /** The conversion rules on whole strings: "12:mm AM" is hour 0, "12:mm PM" is
      hour 12, "h:mm PM" is hour h + 12 and "h:mm AM" is hour h for 1 <= h <= 11,
      and the minutes always pass through. */
  lemma TwelveHourRules(hour: nat, minutes: string)
    requires 1 <= hour <= 12
    requires |minutes| > 0 && AllDigits(minutes)
    ensures IsTimeText(TimeText(hour, minutes, "AM")) && IsTimeText(TimeText(hour, minutes, "PM"))
    ensures ParseTime(TimeText(hour, minutes, "AM")).hour == if hour == 12 then 0 else hour
    ensures ParseTime(TimeText(hour, minutes, "PM")).hour == if hour == 12 then 12 else hour + 12
    ensures ParseTime(TimeText(hour, minutes, "AM")).minute == DigitsToNat(minutes)
    ensures ParseTime(TimeText(hour, minutes, "PM")).minute == DigitsToNat(minutes)
  {
    ParseTimeText(hour, minutes, "AM");
    ParseTimeText(hour, minutes, "PM");
  }

  // ---------------------------------------------------------------------------
  // formatTime

  /** The hour of the day of a `Date` lying `t` minutes after the midnight the
      appointments route starts from (a later or earlier day wraps around). */
  function HourOfDay(t: int): (h: nat)
    ensures h < 24
  {
    (t % 1440) / 60
  }

  function MinuteOfHour(t: int): (m: nat)
    ensures m < 60
  {
    t % 60
  }

  /** `minutes < 10 ? "0" + minutes : minutes`: the minutes padded to two digits. */
  function PadMinutes(minutes: nat): (s: string)
    ensures |s| > 0 && AllDigits(s)
    ensures DigitsToNat(s) == minutes
    ensures minutes < 100 ==> |s| == 2
  {
    DigitsOfNatToString(minutes);
    if minutes < 10 then
      var d := DigitChar(minutes);
      assert "0" + NatToString(minutes) == ['0', d];
      assert ['0', d][..1] == ['0'] && ['0'][..0] == [];
      "0" + NatToString(minutes)
    else NatToString(minutes)
  }

  /** The hour `formatTime` shows for an hour of the day: `hours % 12 || 12`. */
  function TwelveHour(hours: nat): (shown: nat)
    ensures 1 <= shown <= 12
  {
    if hours % 12 == 0 then 12 else hours % 12
  }

  /** `hours >= 12 ? "PM" : "AM"`. */
  function Meridiem(hours: nat): string
  {
    if hours >= 12 then "PM" else "AM"
  }

  /** `formatTime(date)` of the appointments route for the `Date` `t` minutes after
      midnight: the hour modulo 12 with 0 shown as 12, the minutes padded to two
      digits, then "AM" or "PM". */
  function FormatTime(t: int): string
  {
    TimeText(TwelveHour(HourOfDay(t)), PadMinutes(MinuteOfHour(t)), Meridiem(HourOfDay(t)))
  }

  /** `formatTime` as the route writes it, reassigning `hours` step by step. */
  method FormatClockTime(t: int) returns (text: string)
    ensures text == FormatTime(t)
  {
    var hours := HourOfDay(t);
    var minutes := MinuteOfHour(t);
    var ampm := if hours >= 12 then "PM" else "AM";
    hours := hours % 12;
    if hours == 0 { hours := 12; }
    var minutesStr := if minutes < 10 then "0" + NatToString(minutes) else NatToString(minutes);
    text := NatToString(hours) + ":" + minutesStr + " " + ampm;
  }

  /** Parsing what `formatTime` prints gives back the hour and minute of the `Date`. */
  lemma FormatTimeRoundTrip(t: int)
    ensures IsTimeText(FormatTime(t))
    ensures ParseTime(FormatTime(t)) == Clock(HourOfDay(t), MinuteOfHour(t))
  {
    ParseTimeText(TwelveHour(HourOfDay(t)), PadMinutes(MinuteOfHour(t)), Meridiem(HourOfDay(t)));
    TwelveHourRoundTrip(HourOfDay(t));
  }

  /** The hour formatTime shows, with its period, converts back to the hour of the day. */
  lemma TwelveHourRoundTrip(hours: nat)
    requires hours < 24
    ensures To24Hour(TwelveHour(hours), Meridiem(hours)) == hours
  {
    if hours < 12 {
      assert hours % 12 == hours;
    } else {
      assert hours % 12 == hours - 12;
    }
  }

  /** For a time of day (0 <= h < 24, 0 <= m < 60) parsing `formatTime` returns (h, m). */
  lemma FormatTimeOfClock(h: nat, m: nat)
    requires h < 24 && m < 60
    ensures IsTimeText(FormatTime(h * 60 + m)) && ParseTime(FormatTime(h * 60 + m)) == Clock(h, m)
  {
    MinuteOffsetParts(h, m);
    FormatTimeAt(h * 60 + m, h, m);
  }

  lemma FormatTimeAt(t: int, h: nat, m: nat)
    requires HourOfDay(t) == h && MinuteOfHour(t) == m
    ensures IsTimeText(FormatTime(t)) && ParseTime(FormatTime(t)) == Clock(h, m)
  {
    FormatTimeRoundTrip(t);
  }

  lemma MinuteOffsetParts(h: nat, m: nat)
    requires h < 24 && m < 60
    ensures HourOfDay(h * 60 + m) == h && MinuteOfHour(h * 60 + m) == m
  {
    var t := h * 60 + m;
    assert t % 1440 == t;
    assert t / 60 == h && t % 60 == m;
  }

  /** What `formatTime` prints, piece by piece: the hour shown between 1 and 12, the
      minutes in exactly two digits, and the period of the hour of the day; hour 0
      is shown as "12 … AM" and hour 12 as "12 … PM". */
  lemma FormatTimeFields(t: int)
    ensures |TimeComponentPieces(FormatTime(t))| >= 2
    ensures ReadsAsNumber(TimeComponentPieces(FormatTime(t))[0])
    ensures ParseInt(TimeComponentPieces(FormatTime(t))[0]) == TwelveHour(HourOfDay(t))
    ensures |TimeComponentPieces(FormatTime(t))[1]| == 2
    ensures PeriodPiece(FormatTime(t)) == Meridiem(HourOfDay(t))
  {
    TimeTextPieces(TwelveHour(HourOfDay(t)), PadMinutes(MinuteOfHour(t)), Meridiem(HourOfDay(t)));
    ParseIntOfNat(TwelveHour(HourOfDay(t)));
  }

  /** Midnight shows as 12 AM and noon as 12 PM; the hour of the day is read back
      from the shown hour and the period. */
  lemma TwelveHourFacts(hours: nat)
    requires hours < 24
    ensures hours == 0 ==> TwelveHour(hours) == 12 && Meridiem(hours) == "AM"
    ensures hours == 12 ==> TwelveHour(hours) == 12 && Meridiem(hours) == "PM"
    ensures 1 <= hours <= 11 ==> TwelveHour(hours) == hours && Meridiem(hours) == "AM"
    ensures 13 <= hours ==> TwelveHour(hours) == hours - 12 && Meridiem(hours) == "PM"
  {
    if hours < 12 {
      assert hours % 12 == hours;
    } else {
      assert hours % 12 == hours - 12;
    }
  }
}
