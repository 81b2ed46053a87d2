/** The vehicle-wash booking page (app/dashboard/vehicle-wash/appointment/page.tsx):
    the price and duration table, its lookups with a fallback, the 15-minute slot
    list, the browser-side conflict test against the fetched bookings, and the form
    validation. */
module VehicleWashPage {
  import opened Text
  import opened Clock
  import opened Models

  // ---------------------------------------------------------------------------
  // The service packages

  datatype PackageInfo = PackageInfo(name: string, price: int, duration: int)

  /** One `key: { name, price, duration }` entry of a category's table. */
  datatype PackageEntry = PackageEntry(key: string, info: PackageInfo)

  /** The vehicle categories of the table, in its order. */
  const Categories: seq<string> := ["bike", "car", "bus", "lorry"]

  /** `servicePackages[category]`, entries in the order the table lists them; no
      entries for a string that is not a category. */
  function ServicePackages(category: string): seq<PackageEntry>
  {
    if category == "bike" then
      [PackageEntry("basic", PackageInfo("Basic Wash", 150, 15)),
       PackageEntry("premium", PackageInfo("Premium Wash", 300, 30))]
    else if category == "car" then
      [PackageEntry("basic", PackageInfo("Basic Wash", 299, 25)),
       PackageEntry("premium", PackageInfo("Premium Wash", 499, 45)),
       PackageEntry("deluxe", PackageInfo("Deluxe Wash", 999, 60))]
    else if category == "bus" then
      [PackageEntry("basic", PackageInfo("Basic Wash", 1200, 45)),
       PackageEntry("premium", PackageInfo("Premium Wash", 2000, 80))]
    else if category == "lorry" then
      [PackageEntry("basic", PackageInfo("Basic Wash", 1500, 45)),
       PackageEntry("premium", PackageInfo("Premium Wash", 2500, 80))]
    else []
  }

  /** `defaultPackageInfo`, returned when a lookup fails. */
  const DefaultPackageInfo: PackageInfo := PackageInfo("Basic Wash", 0, 0)

  /** `Object.keys(...)` of a category's table. */
  function Keys(entries: seq<PackageEntry>): (keys: seq<string>)
    ensures |keys| == |entries|
    ensures forall k :: 0 <= k < |keys| ==> keys[k] == entries[k].key
  {
    if entries == [] then [] else [entries[0].key] + Keys(entries[1..])
  }

  /** `categoryPackages[packageType]`: the first entry with that key, if any. */
  function Lookup(entries: seq<PackageEntry>, key: string): (r: Option<PackageInfo>)
    ensures r.None? <==> key !in Keys(entries)
    ensures r.Some? ==> PackageEntry(key, r.value) in entries
  {
    if entries == [] then None
    else if entries[0].key == key then Some(entries[0].info)
    else Lookup(entries[1..], key)
  }

  /** `getAvailablePackages(category)`: the package keys of the category, none for
      an invalid category. */
  function AvailablePackages(category: string): seq<string>
  {
    Keys(ServicePackages(category))
  }

  /** `getPackageInfo(category, packageType)`: the table entry, or the default
      when the category or the package is not in the table. */
  function PackageInfoOf(category: string, packageType: string): PackageInfo
  {
    match Lookup(ServicePackages(category), packageType)
    case Some(info) => info
    case None => DefaultPackageInfo
  }

  /** Cars have three packages, every other category two. */
  lemma AvailablePackagesPerCategory(category: string)
    ensures category == "car" ==> AvailablePackages(category) == ["basic", "premium", "deluxe"]
    ensures category in ["bike", "bus", "lorry"] ==> AvailablePackages(category) == ["basic", "premium"]
    ensures category !in Categories ==> AvailablePackages(category) == []
  {
  }

  /** Every entry of the table has a positive price and a positive duration. */
  lemma TableEntriesPositive(category: string, k: nat)
    requires k < |ServicePackages(category)|
    ensures ServicePackages(category)[k].info.price > 0
    ensures ServicePackages(category)[k].info.duration > 0
  {
  }

  /** A valid package yields its table entry; anything else yields the default,
      whose price and duration are 0. */
  lemma PackageInfoFallback(category: string, packageType: string)
    ensures packageType in AvailablePackages(category) ==>
      PackageEntry(packageType, PackageInfoOf(category, packageType)) in ServicePackages(category) &&
      PackageInfoOf(category, packageType).price > 0 && PackageInfoOf(category, packageType).duration > 0
    ensures packageType !in AvailablePackages(category) ==>
      PackageInfoOf(category, packageType) == DefaultPackageInfo
  {
    var entries := ServicePackages(category);
    if packageType in AvailablePackages(category) {
      var e := PackageEntry(packageType, PackageInfoOf(category, packageType));
      var k :| 0 <= k < |entries| && entries[k] == e;
      TableEntriesPositive(category, k);
    }
  }

  /** `getSelectedPackageDuration()`: 0 when no category or no package is selected,
      otherwise the duration of the looked-up package. */
  function SelectedPackageDuration(category: string, selectedPackage: string): int
  {
    if category == [] || selectedPackage == [] then 0
    else PackageInfoOf(category, selectedPackage).duration
  }

  /** The selected duration is never negative, and it is positive exactly when the
      selection is one of the category's packages; an unknown package counts 0. */
  lemma SelectedPackageDurationPositive(category: string, selectedPackage: string)
    ensures SelectedPackageDuration(category, selectedPackage) >= 0
    ensures SelectedPackageDuration(category, selectedPackage) > 0 <==> selectedPackage in AvailablePackages(category)
    ensures selectedPackage == [] ==> SelectedPackageDuration(category, selectedPackage) == 0
  {
    PackageInfoFallback(category, selectedPackage);
    assert [] !in AvailablePackages(category);
  }

  /** The category restored from storage: one of the four categories if the stored
      value is one, otherwise "car". The page keeps a category for which packages exist. */
  function StoredCategory(stored: string): (category: string)
    ensures category in Categories
    ensures stored in Categories ==> category == stored
    ensures stored !in Categories ==> category == "car"
    ensures AvailablePackages(category) != []
  {
    if stored != [] && stored in Categories then stored else "car"
  }

  // ---------------------------------------------------------------------------
  // Time slots

  /** The label `${formattedHour}:${formattedMinute} ${period}` pushed for an hour of
      the day and a quarter: the hour past noon written modulo 12, "00" for minute 0. */
  function SlotLabel(hour: nat, minute: nat): string
  {
    var formattedHour := if hour > 12 then hour - 12 else hour;
    var period := if hour >= 12 then "PM" else "AM";
    var formattedMinute := if minute == 0 then "00" else NatToString(minute);
    TimeText(formattedHour, formattedMinute, period)
  }

  /** A slot label of the opening hours parses back to its hour and minute. */
  lemma SlotLabelParses(hour: nat, minute: nat)
    requires 10 <= hour < 17 && minute < 60
    ensures IsTimeText(SlotLabel(hour, minute))
    ensures StartMinute(SlotLabel(hour, minute)) == hour * 60 + minute
  {
    var formattedHour := if hour > 12 then hour - 12 else hour;
    var period := if hour >= 12 then "PM" else "AM";
    var formattedMinute := if minute == 0 then "00" else NatToString(minute);
    DigitsOfNatToString(minute);
    assert "00"[..1] == "0" && "0"[..0] == [];
    assert DigitsToNat(formattedMinute) == minute;
    ParseTimeText(formattedHour, formattedMinute, period);
  }

  /** `generateTimeSlots()`: 28 slots, 10:00 AM to 4:45 PM; slot k starts 10:00 plus
      15k minutes, so the slots increase strictly and lie between 10:00 and 17:00. */
  method GenerateTimeSlots() returns (slots: seq<string>)
    ensures |slots| == 28
    ensures forall k :: 0 <= k < |slots| ==> IsTimeText(slots[k]) && StartMinute(slots[k]) == 600 + 15 * k
    ensures forall k :: 0 <= k < |slots| ==> 600 <= StartMinute(slots[k]) < 17 * 60
    ensures forall i, j :: 0 <= i < j < |slots| ==> StartMinute(slots[i]) < StartMinute(slots[j])
    ensures slots[0] == TimeText(10, "00", "AM") && slots[27] == TimeText(4, "45", "PM")
  {
    slots := [];
    var startHour, endHour := 10, 17;
    var hour := startHour;
    while hour < endHour
      invariant startHour <= hour <= endHour
      invariant |slots| == (hour - startHour) * 4
      invariant forall k :: 0 <= k < |slots| ==> slots[k] == SlotLabel(startHour + k / 4, k % 4 * 15)
    {
      var minute := 0;
      while minute < 60
        invariant 0 <= minute <= 60 && minute % 15 == 0
        invariant |slots| == (hour - startHour) * 4 + minute / 15
        invariant forall k :: 0 <= k < |slots| ==> slots[k] == SlotLabel(startHour + k / 4, k % 4 * 15)
      {
        ghost var k := |slots|;
        assert k / 4 == hour - startHour && k % 4 * 15 == minute;
        slots := slots + [SlotLabel(hour, minute)];
        minute := minute + 15;
      }
      hour := hour + 1;
    }
    forall k | 0 <= k < |slots|
      ensures IsTimeText(slots[k]) && StartMinute(slots[k]) == 600 + 15 * k
    {
      SlotStart(k);
    }
    EndpointLabels();
  }

  /** The k-th generated label starts 15k minutes after 10:00. */
  lemma SlotStart(k: nat)
    requires k < 28
    ensures IsTimeText(SlotLabel(10 + k / 4, k % 4 * 15))
    ensures StartMinute(SlotLabel(10 + k / 4, k % 4 * 15)) == 600 + 15 * k
  {
    SlotLabelParses(10 + k / 4, k % 4 * 15);
    assert (10 + k / 4) * 60 + k % 4 * 15 == 600 + 15 * k;
  }

  lemma EndpointLabels()
    ensures SlotLabel(10, 0) == TimeText(10, "00", "AM")
    ensures SlotLabel(16, 45) == TimeText(4, "45", "PM")
  {
    assert NatToString(45) == "45" by {
      assert 45 / 10 == 4 && 45 % 10 == 5;
      assert DigitChar(4) == '4' && DigitChar(5) == '5';
    }
  }

  // ---------------------------------------------------------------------------
  // The browser-side conflict test

  /** One booking as the page keeps it after fetching. */
  datatype BookedAppointment = BookedAppointment(date: string, time: string, duration: int)

  /** The page's booking list built from `GET /api/appointments`: every stored
      appointment, cancelled or not, with `duration || 30`. */
  function BookedFromFetched(appointments: seq<Appointment>): seq<BookedAppointment>
  {
    seq(|appointments|, k requires 0 <= k < |appointments| =>
      BookedAppointment(appointments[k].date, appointments[k].time,
                        if appointments[k].duration == 0 then 30 else appointments[k].duration))
  }

  /** The overlap test of the page: `selected < bookedEnd && selectedEnd > bookedStart`,
      the half-open intervals [start, end) and [bookedStart, bookedEnd) meet. */
  predicate HalfOpenOverlap(start: int, end: int, bookedStart: int, bookedEnd: int)
  {
    start < bookedEnd && end > bookedStart
  }

  /** A booking on `date` whose interval meets [start, end). */
  predicate ClashesWith(b: BookedAppointment, date: string, start: int, end: int)
  {
    b.date == date && IsTimeText(b.time) &&
    HalfOpenOverlap(start, end, StartMinute(b.time), StartMinute(b.time) + b.duration)
  }

  /** What `isTimeSlotConflicting` decides: a date and a time are chosen, and some
      booking on the same `yyyy-MM-dd` date overlaps [start, start + duration). */
  predicate ClientConflict(date: Option<string>, time: string, duration: int, booked: seq<BookedAppointment>)
  {
    date.Some? && time != [] && IsTimeText(time) &&
    exists k :: 0 <= k < |booked| && ClashesWith(booked[k], date.value, StartMinute(time), StartMinute(time) + duration)
  }

  /** The `for` loop of `isTimeSlotConflicting`: skip bookings on other dates and
      stop at the first booking whose interval meets [selectedStart, selectedEnd). */
  method ScanBookings(formattedDate: string, selectedStart: int, selectedEnd: int, booked: seq<BookedAppointment>)
    returns (conflicting: bool)
    ensures conflicting <==> exists k :: 0 <= k < |booked| && ClashesWith(booked[k], formattedDate, selectedStart, selectedEnd)
  {
    var i := 0;
    while i < |booked|
      invariant 0 <= i <= |booked|
      invariant forall k :: 0 <= k < i ==> !ClashesWith(booked[k], formattedDate, selectedStart, selectedEnd)
    {
      var appointment := booked[i];
      if appointment.date != formattedDate {
        i := i + 1;
        continue;
      }
      if !IsTimeText(appointment.time) {
        // An Invalid Date: neither comparison holds.
        i := i + 1;
        continue;
      }
      var bookedStart := StartMinute(appointment.time);
      var bookedEnd := bookedStart + appointment.duration;
      if selectedStart < bookedEnd && selectedEnd > bookedStart {
        assert ClashesWith(booked[i], formattedDate, selectedStart, selectedEnd);
        return true;
      }
      i := i + 1;
    }
    return false;
  }

  /** `isTimeSlotConflicting(selectedDate, selectedTimeStr)` for the selected
      category and package. With no date, no time or no bookings it reports none;
      otherwise it reports a conflict exactly when a booking on the same date
      overlaps the selected slot. */
  method IsTimeSlotConflicting(selectedDate: Option<string>, selectedTime: string, booked: seq<BookedAppointment>,
                               category: string, selectedPackage: string)
    returns (conflicting: bool)
    ensures selectedDate.None? || selectedTime == [] || booked == [] ==> !conflicting
    ensures conflicting <==> ClientConflict(selectedDate, selectedTime, SelectedPackageDuration(category, selectedPackage), booked)
  {
    if selectedDate.None? || selectedTime == [] || |booked| == 0 {
      return false;
    }
    if !IsTimeText(selectedTime) {
      // The selected slot is an Invalid Date, which overlaps nothing.
      return false;
    }
    var formattedDate := selectedDate.value;
    var selected := ParseTime(selectedTime);
    var selectedStart := SetHours(selected.hour, selected.minute);
    var duration := SelectedPackageDuration(category, selectedPackage);
    var selectedEnd := selectedStart + duration;
    conflicting := ScanBookings(formattedDate, selectedStart, selectedEnd, booked);
  }

  // ---------------------------------------------------------------------------
  // Form validation

  /** The page's `errors` object: the message stored under each key, `None` where
      the key is absent. */
  datatype FormErrors = FormErrors(
    name: Option<string>, email: Option<string>, phone: Option<string>,
    vehicleModel: Option<string>, selectedPackage: Option<string>,
    date: Option<string>, time: Option<string>)

  /** The empty object `{}`, the one with `Object.keys(errors).length === 0`. */
  const NoErrors: FormErrors := FormErrors(None, None, None, None, None, None, None)

  /** `if (!value.trim()) errors[key] = message`, starting from an absent key. */
  method RequireText(value: string, message: string) returns (error: Option<string>)
    ensures error == if IsBlank(value) then Some(message) else None
  {
    error := None;
    if Trim(value) == [] { error := Some(message); }
  }

  /** `if (!value) errors[key] = message` for a selection, starting from an absent key. */
  method RequireChosen(value: string, message: string) returns (error: Option<string>)
    ensures error == if value == [] then Some(message) else None
  {
    error := None;
    if value == [] { error := Some(message); }
  }

  /** The two email checks in order: "Email is required" for a blank email, then
      "Valid email is required" whenever the pattern fails, which overwrites the
      first message, since a blank email never matches. */
  method RequireEmail(email: string) returns (error: Option<string>)
    ensures error == if MatchesEmailPattern(email) then None else Some("Valid email is required")
  {
    error := RequireText(email, "Email is required");
    if !MatchesEmailPattern(email) { error := Some("Valid email is required"); }
    if IsBlank(email) { BlankFailsEmailPattern(email); }
  }

  /** `validateForm()`: an error per failing field (name, email and phone must not
      be blank, the email must match the pattern, the vehicle model, package, date
      and time must be chosen), and success exactly when there is none. */
  method ValidateForm(name: string, email: string, phone: string, vehicleModel: string,
                      selectedPackage: string, date: Option<string>, time: string)
    returns (ok: bool, errors: FormErrors)
    ensures errors.name == if IsBlank(name) then Some("Name is required") else None
    ensures errors.email == if MatchesEmailPattern(email) then None else Some("Valid email is required")
    ensures errors.phone == if IsBlank(phone) then Some("Phone number is required") else None
    ensures errors.vehicleModel == if vehicleModel == [] then Some("Vehicle type is required") else None
    ensures errors.selectedPackage == if selectedPackage == [] then Some("Service package is required") else None
    ensures errors.date == if date.None? then Some("Date is required") else None
    ensures errors.time == if time == [] then Some("Time is required") else None
    ensures ok <==> errors == NoErrors
    ensures ok <==> !IsBlank(name) && MatchesEmailPattern(email) && !IsBlank(phone) &&
                    vehicleModel != [] && selectedPackage != [] && date.Some? && time != []
  {
    var nameError := RequireText(name, "Name is required");
    var emailError := RequireEmail(email);
    var phoneError := RequireText(phone, "Phone number is required");
    var vehicleModelError := RequireChosen(vehicleModel, "Vehicle type is required");
    var packageError := RequireChosen(selectedPackage, "Service package is required");
    var dateError := if date.None? then Some("Date is required") else None;
    var timeError := RequireChosen(time, "Time is required");
    errors := FormErrors(nameError, emailError, phoneError, vehicleModelError, packageError, dateError, timeError);
    ok := errors == NoErrors;
  }
}
