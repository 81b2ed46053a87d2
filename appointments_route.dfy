/** The appointments route (app/api/appointments/route.ts): the server-side conflict
    check against the stored non-cancelled bookings of the same date, `formatTime`
    in its message, the POST handler (required fields, conflict gate, defaulting,
    insert) and the PUT status update, over a collection kept in insertion order. */
module AppointmentsRoute {
  import opened Text
  import opened Clock
  import opened Models

  // ---------------------------------------------------------------------------
  // The conflict test

  /** The route's overlap test of the new slot [start, end) against an existing one
      [existingStart, existingEnd): the new start lies inside it, or the new end
      does, or the new slot covers it. */
  predicate ServerOverlaps(start: int, end: int, existingStart: int, existingEnd: int)
  {
    (start >= existingStart && start < existingEnd) ||
    (end > existingStart && end <= existingEnd) ||
    (start <= existingStart && end >= existingEnd)
  }

  /** The query `{ date: date, status: { $ne: "Cancelled" } }`. */
  predicate ActiveOn(a: Appointment, date: string)
  {
    a.date == date && a.status != Cancelled
  }

  /** The result of the query: the matching appointments in collection order. */
  function ActiveOnDate(records: seq<Appointment>, date: string): seq<Appointment>
  {
    if records == [] then []
    else if ActiveOn(records[0], date) then [records[0]] + ActiveOnDate(records[1..], date)
    else ActiveOnDate(records[1..], date)
  }

  /** The query keeps exactly the active appointments of the date, in collection
      order. */
  lemma {:induction false} ActiveOnDateSelects(records: seq<Appointment>, date: string)
    ensures forall a :: a in ActiveOnDate(records, date) <==> a in records && ActiveOn(a, date)
    ensures Subsequence(ActiveOnDate(records, date), records)
  {
    if records != [] {
      ActiveOnDateSelects(records[1..], date);
      var rest := ActiveOnDate(records[1..], date);
      assert records == [records[0]] + records[1..];
      if ActiveOn(records[0], date) {
        assert ([records[0]] + rest)[1..] == rest;
      } else {
        SubsequenceWiden(rest, records);
      }
    }
  }

  /** Where an existing appointment's slot starts. */
  function ExistingStart(a: Appointment): int
    requires IsTimeText(a.time)
  {
    StartMinute(a.time)
  }

  /** Where it ends: `setMinutes(getMinutes() + appointment.duration)`. */
  function ExistingEnd(a: Appointment): int
    requires IsTimeText(a.time)
  {
    StartMinute(a.time) + a.duration
  }

  /** The loop's test of one fetched appointment against the new slot [start, end). */
  predicate Overlapping(a: Appointment, start: int, end: int)
  {
    IsTimeText(a.time) && ServerOverlaps(start, end, ExistingStart(a), ExistingEnd(a))
  }

  /** A stored appointment the new slot [start, end) on `date` conflicts with. */
  predicate Collides(a: Appointment, date: string, start: int, end: int)
  {
    ActiveOn(a, date) && Overlapping(a, start, end)
  }

  /** The first fetched appointment the new slot overlaps, if any. */
  function FirstOverlapping(candidates: seq<Appointment>, start: int, end: int): (r: Option<Appointment>)
    ensures r.Some? ==> IsTimeText(r.value.time)
  {
    if candidates == [] then None
    else if Overlapping(candidates[0], start, end) then Some(candidates[0])
    else FirstOverlapping(candidates[1..], start, end)
  }

  /** The first stored record, in collection order, that the new slot on `date`
      collides with. */
  function FirstCollision(records: seq<Appointment>, date: string, start: int, end: int): (r: Option<Appointment>)
    ensures r.Some? ==> IsTimeText(r.value.time)
  {
    if records == [] then None
    else if Collides(records[0], date, start, end) then Some(records[0])
    else FirstCollision(records[1..], date, start, end)
  }

  /** What FirstCollision finds is a stored record that collides. */
  lemma {:induction false} FirstCollisionCollides(records: seq<Appointment>, date: string, start: int, end: int)
    ensures FirstCollision(records, date, start, end).Some? ==>
      FirstCollision(records, date, start, end).value in records &&
      Collides(FirstCollision(records, date, start, end).value, date, start, end)
  {
    if records != [] && !Collides(records[0], date, start, end) {
      FirstCollisionCollides(records[1..], date, start, end);
    }
  }

  /** FirstCollision finds nothing exactly when no record collides. */
  lemma {:induction false} NoCollisionFound(records: seq<Appointment>, date: string, start: int, end: int)
    ensures FirstCollision(records, date, start, end).None? <==>
      forall k :: 0 <= k < |records| ==> !Collides(records[k], date, start, end)
  {
    if records != [] && !Collides(records[0], date, start, end) {
      NoCollisionFound(records[1..], date, start, end);
      assert forall k :: 0 < k < |records| ==> records[k] == records[1..][k - 1];
    }
  }

  /** FirstCollision finds the record at the first colliding index. */
  lemma {:induction false} FirstCollisionAt(records: seq<Appointment>, date: string, start: int, end: int, k: nat)
    requires k < |records| && Collides(records[k], date, start, end)
    requires forall j :: 0 <= j < k ==> !Collides(records[j], date, start, end)
    ensures FirstCollision(records, date, start, end) == Some(records[k])
  {
    if k > 0 {
      assert !Collides(records[0], date, start, end);
      var rest := records[1..];
      assert forall j :: 0 <= j < k - 1 ==> rest[j] == records[j + 1];
      FirstCollisionAt(rest, date, start, end, k - 1);
    }
  }

  /** Fetching the active appointments of the date and then taking the first one
      the slot overlaps finds the first colliding record of the whole collection. */
  lemma {:induction false} FilterThenFirst(records: seq<Appointment>, date: string, start: int, end: int)
    ensures FirstOverlapping(ActiveOnDate(records, date), start, end) == FirstCollision(records, date, start, end)
  {
    if records != [] {
      FilterThenFirst(records[1..], date, start, end);
      var rest := ActiveOnDate(records[1..], date);
      if ActiveOn(records[0], date) {
        var found := [records[0]] + rest;
        assert found[0] == records[0] && found[1..] == rest;
      }
    }
  }

  const ConflictMessageStart := "Time slot conflicts with an existing appointment from "

  /** The message of a 409 answer: the existing slot, from its own time text to its
      end as `formatTime` renders it. */
  function ConflictMessage(a: Appointment): string
    requires IsTimeText(a.time)
  {
    ConflictMessageStart + a.time + " to " + FormatTime(ExistingEnd(a))
  }

  /** The answer of `checkForConflicts`: no conflict, or the existing appointment
      the new slot conflicts with. The answer's message is ConflictMessage of that
      appointment. */
  datatype ConflictCheck = NoConflict | Conflict(existingAppointment: Appointment)

  /** The answer of `checkForConflicts` for the appointment it found, if any. */
  function ConflictOf(found: Option<Appointment>): ConflictCheck
  {
    match found
    case None => NoConflict
    case Some(a) => Conflict(a)
  }

  method DescribeConflict(appointment: Appointment, existingEndTime: int) returns (message: string)
    requires IsTimeText(appointment.time) && existingEndTime == ExistingEnd(appointment)
    ensures message == ConflictMessage(appointment)
  {
    var endText := FormatClockTime(existingEndTime);
    message := ConflictMessageStart + appointment.time + " to " + endText;
  }

  /** FirstOverlapping finds nothing exactly when the slot overlaps no candidate. */
  lemma {:induction false} NoOverlapFound(candidates: seq<Appointment>, start: int, end: int)
    ensures FirstOverlapping(candidates, start, end).None? <==>
      forall k :: 0 <= k < |candidates| ==> !Overlapping(candidates[k], start, end)
  {
    if candidates != [] && !Overlapping(candidates[0], start, end) {
      NoOverlapFound(candidates[1..], start, end);
      assert forall k :: 0 < k < |candidates| ==> candidates[k] == candidates[1..][k - 1];
    }
  }

  /** FirstOverlapping finds the candidate at the first overlapping index. */
  lemma {:induction false} FirstOverlappingAt(candidates: seq<Appointment>, start: int, end: int, k: nat)
    requires k < |candidates| && Overlapping(candidates[k], start, end)
    requires forall j :: 0 <= j < k ==> !Overlapping(candidates[j], start, end)
    ensures FirstOverlapping(candidates, start, end) == Some(candidates[k])
  {
    if k > 0 {
      assert !Overlapping(candidates[0], start, end);
      var rest := candidates[1..];
      assert forall j :: 0 <= j < k - 1 ==> rest[j] == candidates[j + 1];
      FirstOverlappingAt(rest, start, end, k - 1);
    }
  }

  /** The `for` loop of `checkForConflicts` over the fetched appointments: it stops
      at the first one the new slot overlaps. */
  method FirstOverlap(candidates: seq<Appointment>, start: int, end: int) returns (result: ConflictCheck)
    ensures result == ConflictOf(FirstOverlapping(candidates, start, end))
  {
    var i := 0;
    while i < |candidates|
      invariant 0 <= i <= |candidates|
      invariant forall j :: 0 <= j < i ==> !Overlapping(candidates[j], start, end)
    {
      var appointment := candidates[i];
      if !IsTimeText(appointment.time) {
        // An Invalid Date: none of the three comparisons holds.
        i := i + 1;
        continue;
      }
      var existing := ParseTime(appointment.time);
      var existingStartTime := SetHours(existing.hour, existing.minute);
      var existingEndTime := existingStartTime + appointment.duration;
      if ServerOverlaps(start, end, existingStartTime, existingEndTime) {
        FirstOverlappingAt(candidates, start, end, i);
        return Conflict(appointment);
      }
      i := i + 1;
    }
    NoOverlapFound(candidates, start, end);
    return NoConflict;
  }

  /** The answer `checkForConflicts` gives for booking `time` for `duration`
      minutes on `date`. A time that does not read as two numbers gives an Invalid
      Date, against which every comparison is false, so it conflicts with nothing. */
  function ConflictFor(records: seq<Appointment>, date: string, time: string, duration: int): ConflictCheck
  {
    if IsTimeText(time) then SlotConflict(records, date, StartMinute(time), StartMinute(time) + duration)
    else NoConflict
  }

  /** The answer for the new slot [startTime, endTime). */
  function SlotConflict(records: seq<Appointment>, date: string, startTime: int, endTime: int): ConflictCheck
  {
    ConflictOf(FirstCollision(records, date, startTime, endTime))
  }

  /** `checkForConflicts(db, date, time, duration)` against the stored records:
      the parse of the new time and `setHours`, then the query and the loop. */
  method CheckForConflicts(records: seq<Appointment>, date: string, time: string, duration: int)
    returns (result: ConflictCheck)
    ensures result == ConflictFor(records, date, time, duration)
  {
    if !IsTimeText(time) {
      return NoConflict;
    }
    var startTime := StartMinute(time);
    var endTime := startTime + duration;
    result := CheckSlot(records, date, startTime, endTime);
  }

  /** The query and the loop for the new slot [startTime, endTime). */
  method CheckSlot(records: seq<Appointment>, date: string, startTime: int, endTime: int)
    returns (result: ConflictCheck)
    ensures result == SlotConflict(records, date, startTime, endTime)
  {
    var existingAppointments := ActiveOnDate(records, date);
    result := FirstOverlap(existingAppointments, startTime, endTime);
    FilterThenFirst(records, date, startTime, endTime);
  }

  // ---------------------------------------------------------------------------
  // POST

  datatype AppointmentField =
    Name | Email | Phone | VehicleType | VehicleModel | ServicePackage | Date | Time | Duration

  /** The key of the field in the JSON payload and in the `missingFields` answer. */
  function AppointmentFieldKey(f: AppointmentField): string
  {
    match f
    case Name => "name"
    case Email => "email"
    case Phone => "phone"
    case VehicleType => "vehicleType"
    case VehicleModel => "vehicleModel"
    case ServicePackage => "servicePackage"
    case Date => "date"
    case Time => "time"
    case Duration => "duration"
  }

  /** The fields every POST must carry, in the order the route lists them. */
  const RequiredAppointmentFields: seq<AppointmentField> :=
    [Name, Email, Phone, VehicleType, VehicleModel, ServicePackage, Date, Time, Duration]

  /** `!appointmentData[field]`: an empty string, or a zero duration. */
  predicate IsFalsyAppointmentField(p: AppointmentPayload, f: AppointmentField)
  {
    match f
    case Name => p.name == []
    case Email => p.email == []
    case Phone => p.phone == []
    case VehicleType => p.vehicleType == []
    case VehicleModel => p.vehicleModel == []
    case ServicePackage => p.servicePackage == []
    case Date => p.date == []
    case Time => p.time == []
    case Duration => p.duration == 0
  }

  /** The fields whose value is falsy. */
  function FalsyAppointmentFields(p: AppointmentPayload): set<AppointmentField>
  {
    set f: AppointmentField | IsFalsyAppointmentField(p, f)
  }

  predicate AllAppointmentFieldsPresent(p: AppointmentPayload)
  {
    p.name != [] && p.email != [] && p.phone != [] && p.vehicleType != [] && p.vehicleModel != [] &&
    p.servicePackage != [] && p.date != [] && p.time != [] && p.duration != 0
  }

  /** Every field is one the route requires. */
  lemma RequiredField(f: AppointmentField)
    ensures f in RequiredAppointmentFields
  {
    var fields := RequiredAppointmentFields;
    match f
    case Name => assert fields[0] == f;
    case Email => assert fields[1] == f;
    case Phone => assert fields[2] == f;
    case VehicleType => assert fields[3] == f;
    case VehicleModel => assert fields[4] == f;
    case ServicePackage => assert fields[5] == f;
    case Date => assert fields[6] == f;
    case Time => assert fields[7] == f;
    case Duration => assert fields[8] == f;
  }

  /** The `missingFields` of a 400 answer. It is empty exactly when all nine
      fields are present. */
  function MissingAppointmentFields(p: AppointmentPayload): (missing: seq<AppointmentField>)
    ensures missing == [] <==> AllAppointmentFieldsPresent(p)
  {
    var missing := MissingFields(RequiredAppointmentFields, FalsyAppointmentFields(p));
    if missing == [] then
      assert AllAppointmentFieldsPresent(p) by {
        forall f: AppointmentField
          ensures f !in FalsyAppointmentFields(p)
        {
          RequiredField(f);
        }
        assert Name !in FalsyAppointmentFields(p) && Email !in FalsyAppointmentFields(p) &&
          Phone !in FalsyAppointmentFields(p) && VehicleType !in FalsyAppointmentFields(p) &&
          VehicleModel !in FalsyAppointmentFields(p) && ServicePackage !in FalsyAppointmentFields(p) &&
          Date !in FalsyAppointmentFields(p) && Time !in FalsyAppointmentFields(p) &&
          Duration !in FalsyAppointmentFields(p);
      }
      missing
    else
      assert missing[0] in missing;
      missing
  }

  /** The list names exactly the falsy fields, in the route's order. */
  lemma MissingAppointmentFieldsExact(p: AppointmentPayload)
    ensures forall f :: f in MissingAppointmentFields(p) <==> f in FalsyAppointmentFields(p)
    ensures Subsequence(MissingAppointmentFields(p), RequiredAppointmentFields)
  {
    forall f: AppointmentField
      ensures f in RequiredAppointmentFields
    {
      RequiredField(f);
    }
  }

  /** The stored record: the payload's fields, `status || "Scheduled"`, and the
      payload's `createdAt` if it is truthy (`Some(t)`, a `Date` of `t`), else the
      current time (`None` stands for an absent or falsy `createdAt`). */
  function NewAppointment(p: AppointmentPayload, id: nat, now: int): (a: Appointment)
    ensures a.status == (if p.status.Some? then p.status.value else Scheduled)
    ensures a.createdAt == (if p.createdAt.Some? then p.createdAt.value else now)
    ensures a.id == id && a.updatedAt.None?
    ensures a.name == p.name && a.email == p.email && a.phone == p.phone && a.vehicleType == p.vehicleType &&
      a.vehicleModel == p.vehicleModel && a.servicePackage == p.servicePackage && a.date == p.date &&
      a.time == p.time && a.duration == p.duration && a.price == p.price
  {
    Appointment(id, p.name, p.email, p.phone, p.vehicleType, p.vehicleModel, p.servicePackage,
                p.date, p.time, p.duration, p.price,
                if p.status.Some? then p.status.value else Scheduled,
                if p.createdAt.Some? then p.createdAt.value else now,
                None)
  }

  datatype PostResponse =
    | MissingFieldsResponse(missingFields: seq<AppointmentField>)
    | ConflictResponse(message: string, existingAppointment: Appointment)
    | CreatedResponse(id: nat)

  function PostStatusCode(r: PostResponse): int
  {
    match r
    case MissingFieldsResponse(_) => 400
    case ConflictResponse(_, _) => 409
    case CreatedResponse(_) => 200
  }

  // ---------------------------------------------------------------------------
  // The store

  /** No two active appointments on the same date where the later one, checked when
      it was inserted, fails the route's overlap test against the earlier one. */
  predicate NoDoubleBooking(records: seq<Appointment>)
  {
    forall i, j :: 0 <= i < j < |records| && IsTimeText(records[j].time) && ActiveOn(records[j], records[i].date) ==>
      !Collides(records[i], records[j].date, ExistingStart(records[j]), ExistingEnd(records[j]))
  }

  /** Appending an appointment no earlier record collides with keeps the store free
      of double bookings. */
  lemma AppendChecked(records: seq<Appointment>, a: Appointment)
    requires NoDoubleBooking(records)
    requires IsTimeText(a.time) ==> FirstCollision(records, a.date, ExistingStart(a), ExistingEnd(a)).None?
    ensures NoDoubleBooking(records + [a])
  {
    if IsTimeText(a.time) {
      NoCollisionFound(records, a.date, ExistingStart(a), ExistingEnd(a));
    }
    var all := records + [a];
    forall i, j | 0 <= i < j < |all| && IsTimeText(all[j].time) && ActiveOn(all[j], all[i].date)
      ensures !Collides(all[i], all[j].date, ExistingStart(all[j]), ExistingEnd(all[j]))
    {
      assert all[i] == records[i];
      if j == |records| {
        assert all[j] == a;
      } else {
        assert all[j] == records[j];
      }
    }
  }

  /** The first record with this `_id`, as `updateOne({ _id })` finds it. */
  function IndexOfId(records: seq<Appointment>, id: nat): (r: Option<nat>)
    ensures r.None? <==> forall k :: 0 <= k < |records| ==> records[k].id != id
    ensures r.Some? ==>
      r.value < |records| && records[r.value].id == id && forall k :: 0 <= k < r.value ==> records[k].id != id
  {
    if records == [] then None
    else if records[0].id == id then Some(0)
    else match IndexOfId(records[1..], id)
      case None => None
      case Some(k) => Some(k + 1)
  }

  /** The appointments collection. `nextId` stands for the generator of fresh
      `_id` values, so ids are unique. */
  class AppointmentCollection {
    var records: seq<Appointment>
    var nextId: nat

    /** Ids are unique and below `nextId`. */
    predicate Valid()
      reads this
    {
      (forall k :: 0 <= k < |records| ==> records[k].id < nextId) &&
      (forall i, j :: 0 <= i < j < |records| ==> records[i].id != records[j].id)
    }

    constructor ()
      ensures Valid() && records == [] && nextId == 0
      ensures NoDoubleBooking(records)
    {
      records := [];
      nextId := 0;
    }

    /** `POST /api/appointments`: 400 with the missing fields, 409 with the first
        colliding booking and its message, or the insert of the defaulted record
        under a fresh id. Only a successful POST changes the collection, and it
        keeps the collection free of double bookings. */
    method Post(p: AppointmentPayload, now: int) returns (response: PostResponse)
      requires Valid()
      modifies this
      ensures Valid()
      ensures !AllAppointmentFieldsPresent(p) ==>
        response == MissingFieldsResponse(MissingAppointmentFields(p)) &&
        records == old(records) && nextId == old(nextId)
      ensures AllAppointmentFieldsPresent(p) ==>
        var check := ConflictFor(old(records), p.date, p.time, p.duration);
        (check.Conflict? ==>
           IsTimeText(check.existingAppointment.time) &&
           response == ConflictResponse(ConflictMessage(check.existingAppointment), check.existingAppointment) &&
           records == old(records) && nextId == old(nextId)) &&
        (check.NoConflict? ==>
           response == CreatedResponse(old(nextId)) &&
           records == old(records) + [NewAppointment(p, old(nextId), now)] && nextId == old(nextId) + 1)
      ensures NoDoubleBooking(old(records)) ==> NoDoubleBooking(records)
    {
      var missingFields := MissingAppointmentFields(p);
      if |missingFields| > 0 {
        return MissingFieldsResponse(missingFields);
      }
      var conflictCheck := CheckForConflicts(records, p.date, p.time, p.duration);
      if conflictCheck.Conflict? {
        var message := DescribeConflict(conflictCheck.existingAppointment, ExistingEnd(conflictCheck.existingAppointment));
        return ConflictResponse(message, conflictCheck.existingAppointment);
      }
      var appointment := NewAppointment(p, nextId, now);
      if NoDoubleBooking(records) {
        AppendChecked(records, appointment);
      }
      response := CreatedResponse(nextId);
      Insert(appointment);
    }

    /** `insertOne`: the record is appended under the next fresh id. */
    method Insert(appointment: Appointment)
      requires Valid() && appointment.id == nextId
      modifies this
      ensures Valid() && records == old(records) + [appointment] && nextId == old(nextId) + 1
    {
      records := records + [appointment];
      nextId := nextId + 1;
    }

    /** `PUT /api/appointments` with `{ id, status }`: 400 when either is missing,
        404 when no record has the id, otherwise only that record's status and
        `updatedAt` change. There is no conflict re-check: the store stays free of
        double bookings unless a cancelled appointment is brought back. */
    method Put(id: Option<nat>, status: Option<AppointmentStatus>, now: int) returns (response: UpdateResponse)
      requires Valid()
      modifies this
      ensures Valid() && nextId == old(nextId) && |records| == |old(records)|
      ensures id.None? || status.None? ==> response == BadRequest && records == old(records)
      ensures id.Some? && status.Some? && IndexOfId(old(records), id.value).None? ==>
        response == NotFound && records == old(records)
      ensures id.Some? && status.Some? && IndexOfId(old(records), id.value).Some? ==>
        var k := IndexOfId(old(records), id.value).value;
        response == Updated &&
        records == old(records)[k := old(records)[k].(status := status.value, updatedAt := Some(now))]
      ensures NoDoubleBooking(old(records)) && (id.Some? && status.Some? ==> !Reactivates(old(records), id.value, status.value)) ==>
        NoDoubleBooking(records)
    {
      if id.None? || status.None? {
        return BadRequest;
      }
      var found := IndexOfId(records, id.value);
      if found.None? {
        return NotFound;
      }
      var k := found.value;
      ghost var before := records;
      records := records[k := records[k].(status := status.value, updatedAt := Some(now))];
      if NoDoubleBooking(before) && !Reactivates(before, id.value, status.value) {
        StatusUpdateKeepsNoDoubleBooking(before, k, status.value, now);
      }
      return Updated;
    }
  }

  /** Whether setting `status` on the record with `id` turns a cancelled
      appointment back into an active one. */
  predicate Reactivates(records: seq<Appointment>, id: nat, status: AppointmentStatus)
  {
    match IndexOfId(records, id)
    case None => false
    case Some(k) => records[k].status == Cancelled && status != Cancelled
  }

  /** A status update that does not reactivate a cancelled appointment keeps the
      store free of double bookings: it can only make an appointment inactive, or
      leave it active. */
  lemma StatusUpdateKeepsNoDoubleBooking(records: seq<Appointment>, k: nat, status: AppointmentStatus, now: int)
    requires k < |records|
    requires NoDoubleBooking(records)
    requires !(records[k].status == Cancelled && status != Cancelled)
    ensures NoDoubleBooking(records[k := records[k].(status := status, updatedAt := Some(now))])
  {
    var updated := records[k := records[k].(status := status, updatedAt := Some(now))];
    forall i, j | 0 <= i < j < |updated| && IsTimeText(updated[j].time) && ActiveOn(updated[j], updated[i].date)
      ensures !Collides(updated[i], updated[j].date, ExistingStart(updated[j]), ExistingEnd(updated[j]))
    {
      assert IsTimeText(records[j].time) && ActiveOn(records[j], records[i].date);
      if Collides(updated[i], updated[j].date, ExistingStart(updated[j]), ExistingEnd(updated[j])) {
        assert Collides(records[i], records[j].date, ExistingStart(records[j]), ExistingEnd(records[j]));
      }
    }
  }

  /** Without a re-check, reactivating a cancelled appointment can double-book: a
      cancelled booking and an active one for the same slot are allowed side by
      side, and setting the first back to "Scheduled" makes them collide. */
  lemma ReactivationCanDoubleBook(a: Appointment, now: int)
    requires IsTimeText(a.time) && a.duration > 0 && a.status == Scheduled
    ensures var records := [a.(id := 0, status := Cancelled), a.(id := 1)];
      NoDoubleBooking(records) && Reactivates(records, 0, Scheduled) &&
      !NoDoubleBooking(records[0 := records[0].(status := Scheduled, updatedAt := Some(now))])
  {
    var records := [a.(id := 0, status := Cancelled), a.(id := 1)];
    var updated := records[0 := records[0].(status := Scheduled, updatedAt := Some(now))];
    assert ExistingStart(updated[1]) == ExistingStart(updated[0]);
    assert Collides(updated[0], updated[1].date, ExistingStart(updated[1]), ExistingEnd(updated[1]));
  }
}
