# Booking slots, coconut-oil cart and order intake of the d8 site

A Dafny model of the sequential logic of a Next.js shop-and-booking site:

- **Vehicle-wash booking.** The route `app/api/appointments/route.ts` takes appointments
  (`POST`) and status changes (`PUT`). The booking page
  `app/dashboard/vehicle-wash/appointment/page.tsx` holds the price-and-duration table, the
  15-minute slot generator, the client-side conflict test and the form validation. Both sides
  parse `"h:mm AM/PM"` strings the same way; the route also renders end times with
  `formatTime`.
- **Car-wash booking.** The older page `app/dashboard/car-wash/appointment/page.tsx` has a fixed
  slot list and a conflict test that compares the hour only.
- **Coconut-oil cart.** The product page adds items and changes quantities; the cart page
  changes quantities, removes items and totals the cart with a flat delivery charge of 50.
- **Checkout and orders.** The checkout page derives the order summary, validates the address
  form, moves from the address step to the payment step and builds the order; the route
  `app/api/orders/route.ts` checks, defaults and stores orders and updates their status.

Modules, one per source file, plus shared ones:

| module | file | models |
|---|---|---|
| `Text` | text.dfy | `split`, `join`, `parseInt` (decimal and `0x` hexadecimal), template rendering of numbers, `includes`, `trim`, the email pattern |
| `Clock` | clock.dfy | the 12-hour parse shared by all parsers, `formatTime` |
| `Models` | models.dfy | the records of `lib/models.ts`, the generic required-field filter |
| `AppointmentsRoute` | appointments_route.dfy | `checkForConflicts`, POST and PUT over a class holding the collection as a sequence |
| `VehicleWashPage` | vehicle_wash_page.dfy | the table and its lookups, slots, the client conflict test, `validateForm` |
| `ConflictAgreement` | conflict_agreement.dfy | how the server and client conflict tests relate |
| `CarWashPage` | car_wash_page.dfy | `timeSlots`, `isDateBooked`, the guard of `handleSubmit` |
| `Cart` | cart.dfy | `addToCart`, `updateQuantity`, `removeItem`, `cartCount`, subtotal and total |
| `Checkout` | checkout.dfy | the summary, the address form, the two steps, the order payload |
| `OrdersRoute` | orders_route.dfy | POST and PUT over a class holding the collection as a map |

Times are minutes since midnight, because both the route and the page build every `Date` of one
comparison on the same calendar day. The `formatTime` of a `Date` lying `t` minutes after that
midnight shows hour `(t % 1440) / 60` and minute `t % 60`, so rolling past midnight is explicit.

A time that `parseInt` cannot read (a piece that does not begin with a digit, or that begins
with `0x` or `0X` and no hexadecimal digit after it) gives an Invalid Date. Every comparison with an Invalid Date is false, so such a time never conflicts, either as
the new slot or as a stored booking, on the server or on the page. The model keeps these Invalid
Date cases instead of requiring well-formed times of every caller.

The main results:

- `ConflictAgreement.ServerTestIsHalfOpen`: for positive lengths, the route's three-disjunct test
  equals the page's half-open test.
- `AppointmentsRoute.AppointmentCollection.Post` keeps the store free of double bookings.
  `ConflictAgreement.StoredAppointmentsDisjoint` turns that into disjoint half-open intervals for
  any two active same-date appointments of positive duration.
- `AppointmentsRoute.ReactivationCanDoubleBook`: a `PUT` that brings a cancelled appointment back
  can double-book, because `PUT` does no re-check.
- `ConflictAgreement.CancelledBlocksOnlyOnClient`: the page also blocks the slots of cancelled
  bookings, which the route ignores.
- `Checkout.PlacedOrderIsAccepted`: an order built from a validated checkout passes the orders
  route's required-field check.

## Model

| member | source | states |
|---|---|---|
| Text.Split | d8/app/api/appointments/route.ts:26-27 | `split` on one character yields at least one piece |
| Text.SplitPiecesLackSeparator | d8/app/api/appointments/route.ts:26-27 | no piece of a split contains the separator |
| Text.JoinSplit | d8/app/api/appointments/route.ts:26-27 | joining the pieces with the separator gives the original string back |
| Text.SplitWithout | d8/app/api/appointments/route.ts:26-27 | a string without the separator splits into itself alone |
| Text.SplitAtFirst | d8/app/api/appointments/route.ts:26-27 | splitting at the first separator: the text before it, then the split of the rest |
| Text.DigitPrefix | d8/app/api/appointments/route.ts:29-30 | the prefix `parseInt` reads consists of digits |
| Text.DigitPrefixIsLongest | d8/app/api/appointments/route.ts:29-30 | the prefix `parseInt` reads is a prefix of the string, and the next character is not a digit |
| Text.DigitPrefixOfDigits | d8/app/api/appointments/route.ts:29-30 | before a non-digit, the decimal reading takes exactly the digits |
| Text.ParseInt | d8/app/api/appointments/route.ts:29-30 | definition of `Number.parseInt` without a radix, on a string that starts with a digit and is not NaN: the hexadecimal digits after "0x" or "0X", otherwise the leading decimal digits; its properties are the `ParseIntOf…` lemmas |
| Text.HexDigitPrefix | d8/app/api/appointments/route.ts:29-30 | the prefix read after "0x" consists of hexadecimal digits |
| Text.HexDigitPrefixOfDigits | d8/app/api/appointments/route.ts:29-30 | before a character that is not a hexadecimal digit, the hexadecimal reading takes exactly the hexadecimal digits |
| Text.ParseIntOfHex | d8/app/api/appointments/route.ts:29-30 | after "0x" or "0X", `parseInt` gives the value of the hexadecimal digits up to the first other character: "0x2" reads as 2 |
| Text.NatToString | d8/app/api/appointments/route.ts:109 | a number renders as a non-empty run of digits, of length one exactly below 10 |
| Text.DigitsOfNatToString | d8/app/api/appointments/route.ts:109 | the digits of a rendered number denote the number |
| Text.ParseIntOfDigits | d8/app/api/appointments/route.ts:29-30 | `parseInt` of a run of decimal digits is not NaN and reads the value of all of them |
| Text.ParseIntOfNat | d8/app/api/appointments/route.ts:29-30 | `parseInt` of a rendered number gives the number back |
| Text.ParseIntOfNatToString | d8/app/api/appointments/route.ts:29-30 | `parseInt` of a rendered number followed by a non-digit gives the number back, except "0" followed by `x` or `X`, which starts a hexadecimal number |
| Text.Includes | d8/app/dashboard/car-wash/appointment/page.tsx:58 | definition of `includes`: `part` occurs at some index of `s`; IncludesSuffix, LacksFirstCharacter and CarWashPage.IncludesPM state its properties |
| Text.IncludesSuffix | d8/app/dashboard/car-wash/appointment/page.tsx:58 | a string ending in `part` includes it |
| Text.LacksFirstCharacter | d8/app/dashboard/car-wash/appointment/page.tsx:58 | a string without the first character of `part` does not include it |
| Text.TrimStart | d8/app/dashboard/coconut-oil/checkout/page.tsx:115 | `trimStart()` drops exactly the leading whitespace: the removed prefix is blank, the rest is the suffix of `s` that is empty or starts with a non-whitespace character |
| Text.TrimEnd | d8/app/dashboard/coconut-oil/checkout/page.tsx:115 | `trimEnd()` drops exactly the trailing whitespace: the removed suffix is blank, the rest is the prefix of `s` that is empty or ends with a non-whitespace character |
| Text.Trim | d8/app/dashboard/coconut-oil/checkout/page.tsx:115-122 | `trim()` has no whitespace at either end, and it is empty exactly for a blank string |
| Text.TrimBetweenBlanks | d8/app/dashboard/coconut-oil/checkout/page.tsx:115-122 | `trim()` removes only whitespace: its result is the slice of `s` between a blank prefix and a blank suffix |
| Text.LeadingBlanks | d8/app/dashboard/coconut-oil/checkout/page.tsx:115 | counts the leading whitespace: the counted prefix is blank and the next character, if any, is not whitespace |
| Text.TrailingBlanks | d8/app/dashboard/coconut-oil/checkout/page.tsx:115 | counts the trailing whitespace: the counted suffix is blank and the character before it, if any, is not whitespace |
| Text.BlankAround | d8/app/dashboard/coconut-oil/checkout/page.tsx:115 | a suffix after a blank prefix, cut before a blank suffix, is a slice of the string between blank ends |
| Text.MatchesEmailPattern | d8/app/dashboard/coconut-oil/checkout/page.tsx:117 | definition of `/^\S+@\S+\.\S+$/`, which the vehicle-wash page also uses: no whitespace, and the string reads as a non-empty part, `@`, a non-empty part, `.`, a non-empty part; BlankFailsEmailPattern, Checkout.FieldFails and VehicleWashPage.RequireEmail state its properties |
| Text.BlankFailsEmailPattern | d8/app/dashboard/coconut-oil/checkout/page.tsx:116-117 | a blank string never matches `/^\S+@\S+\.\S+$/` |
| Text.EmailPatternAccepts | d8/app/dashboard/coconut-oil/checkout/page.tsx:117 | the pattern accepts `a@b.c` and `a.b@c.d` |
| Text.EmailPatternRejects | d8/app/dashboard/coconut-oil/checkout/page.tsx:117 | the pattern rejects a missing dot, an empty part and an inner space |
| Clock.SetHours | d8/app/api/appointments/route.ts:40-41 | definition of `setHours(hour, minute, 0, 0)` as minutes after the day's midnight; FirstOverlap and VehicleWashPage.IsTimeSlotConflicting use it as the route and the page do |
| Clock.StartMinute | d8/app/api/appointments/route.ts:26-41 | definition of the start of a booking: its parsed time put through `setHours`; VehicleWashPage.SlotStart and CarWashPage.CarWashTimeSlotsSpacing state its value on every slot label |
| Clock.ReadClock | d8/app/dashboard/vehicle-wash/appointment/page.tsx:276-291 | `parseTimeString`, run step by step with `hour` reassigned, gives the parse of the string |
| Clock.TimeTextPieces | d8/app/api/appointments/route.ts:26-27 | `${hour}:${minutes} ${period}` splits into the rendered hour, the minutes and the period |
| Clock.To24Hour | d8/app/api/appointments/route.ts:33-37 | definition of the 12-hour to 24-hour step: 12 AM is 0, a PM hour other than 12 gains 12, anything else passes; TwelveHourRules and TwelveHourRoundTrip state its properties |
| Clock.IsTimeText | d8/app/api/appointments/route.ts:26-30 | the condition that `parseInt` reads both pieces of a time as numbers rather than NaN; ParseTimeText and FormatTimeRoundTrip show every rendered time meets it |
| Clock.ParseTime | d8/app/api/appointments/route.ts:26-37 | definition of the shared parse: split on the space and the colon, `parseInt` both pieces, convert the hour; ReadClock, ParseTimeText and FormatTimeRoundTrip state its properties |
| Clock.ParseTimeText | d8/app/api/appointments/route.ts:26-37 | parsing `${hour}:${minutes} ${period}` gives the 24-hour conversion of the hour and the minutes' value |
| Clock.TwelveHourRules | d8/app/api/appointments/route.ts:29-37 | 12 AM is hour 0, 12 PM is 12, other PM hours get +12, AM hours are unchanged, and the minute passes through |
| Clock.HourOfDay | d8/app/api/appointments/route.ts:101 | `getHours()` is below 24 |
| Clock.MinuteOfHour | d8/app/api/appointments/route.ts:102 | `getMinutes()` is below 60 |
| Clock.PadMinutes | d8/app/api/appointments/route.ts:107 | the padded minutes are digits denoting the minutes, two of them below 100 |
| Clock.TwelveHour | d8/app/api/appointments/route.ts:105-106 | the hour shown is between 1 and 12 |
| Clock.FormatClockTime | d8/app/api/appointments/route.ts:100-110 | `formatTime`, run step by step with `hours` reassigned, gives `FormatTime` |
| Clock.FormatTime | d8/app/api/appointments/route.ts:100-110 | definition of `formatTime`: the 12-hour hour, the two-digit minutes and the period; FormatTimeRoundTrip and FormatTimeFields state its properties |
| Clock.FormatTimeRoundTrip | d8/app/api/appointments/route.ts:100-110 | parsing what `formatTime` prints gives back the hour and minute of the `Date` |
| Clock.TwelveHourRoundTrip | d8/app/api/appointments/route.ts:103-106 | the shown hour and its period convert back to the hour of the day |
| Clock.FormatTimeOfClock | d8/app/api/appointments/route.ts:100-110 | for 0 <= h < 24 and 0 <= m < 60, parsing `formatTime` of h:m returns (h, m) |
| Clock.MinuteOffsetParts | d8/app/api/appointments/route.ts:101-102 | the hour and minute of `h * 60 + m` are h and m |
| Clock.FormatTimeFields | d8/app/api/appointments/route.ts:100-110 | the printed hour is the shown hour, the minutes have two digits, the period is AM or PM by the hour |
| Clock.TwelveHourFacts | d8/app/api/appointments/route.ts:103-106 | hour 0 shows as 12 AM, 12 as 12 PM, 1-11 as themselves AM, 13-23 as h-12 PM |
| Models.MissingFields | d8/app/api/orders/route.ts:47 | the filter keeps exactly the falsy fields, in the declared order |
| AppointmentsRoute.ServerOverlaps | d8/app/api/appointments/route.ts:79-83 | definition of the route's three-disjunct overlap test; ConflictAgreement.ServerTestIsHalfOpen relates it to the half-open test |
| AppointmentsRoute.ActiveOnDate | d8/app/api/appointments/route.ts:47-53 | definition of the query for same-date non-cancelled records; ActiveOnDateSelects states what it returns |
| AppointmentsRoute.ActiveOnDateSelects | d8/app/api/appointments/route.ts:47-53 | the query returns exactly the same-date, non-cancelled records, in collection order |
| AppointmentsRoute.Overlapping | d8/app/api/appointments/route.ts:56-83 | definition of the loop's test of one fetched appointment: its time parses and ServerOverlaps holds; NoOverlapFound and FirstOverlappingAt state what the scan finds with it |
| AppointmentsRoute.Collides | d8/app/api/appointments/route.ts:47-83 | definition of a conflicting stored appointment: same date, not Cancelled, and Overlapping; NoCollisionFound, FirstCollisionAt and NoDoubleBooking are stated with it |
| AppointmentsRoute.FirstOverlapping | d8/app/api/appointments/route.ts:56-90 | the appointment found has a readable time |
| AppointmentsRoute.FirstCollision | d8/app/api/appointments/route.ts:47-90 | the appointment found has a readable time |
| AppointmentsRoute.FirstCollisionCollides | d8/app/api/appointments/route.ts:47-90 | the appointment found is a record of the collection that collides with the slot |
| AppointmentsRoute.NoCollisionFound | d8/app/api/appointments/route.ts:47-92 | nothing is found exactly when no record is same-date, non-cancelled and overlapping |
| AppointmentsRoute.FirstCollisionAt | d8/app/api/appointments/route.ts:56-89 | the first colliding record in collection order is the one returned |
| AppointmentsRoute.FilterThenFirst | d8/app/api/appointments/route.ts:47-90 | scanning the query result equals scanning the whole collection for colliding records |
| AppointmentsRoute.ConflictMessage | d8/app/api/appointments/route.ts:86 | definition of the 409 message: the existing slot from its own time text to its end in `formatTime`; DescribeConflict computes it and Post answers with it |
| AppointmentsRoute.DescribeConflict | d8/app/api/appointments/route.ts:86 | the message names the booking's time and its `formatTime` end |
| AppointmentsRoute.NoOverlapFound | d8/app/api/appointments/route.ts:56-92 | the scan finds nothing exactly when no candidate overlaps |
| AppointmentsRoute.FirstOverlappingAt | d8/app/api/appointments/route.ts:56-89 | the first overlapping candidate is the one returned |
| AppointmentsRoute.FirstOverlap | d8/app/api/appointments/route.ts:56-92 | the loop with its early return answers the conflict of the first overlapping candidate |
| AppointmentsRoute.CheckForConflicts | d8/app/api/appointments/route.ts:23-97 | `checkForConflicts` finds the first same-date, non-cancelled record the new slot overlaps, or none; a time that does not parse finds none |
| AppointmentsRoute.CheckSlot | d8/app/api/appointments/route.ts:47-92 | the query followed by the loop answers the conflict of the first colliding record |
| AppointmentsRoute.RequiredField | d8/app/api/appointments/route.ts:136-146 | every appointment field is in the required list |
| AppointmentsRoute.MissingAppointmentFields | d8/app/api/appointments/route.ts:147-149 | the list is empty exactly when all nine fields are truthy |
| AppointmentsRoute.MissingAppointmentFieldsExact | d8/app/api/appointments/route.ts:136-147 | the list holds exactly the falsy fields, a duration of 0 among them, in declared order |
| AppointmentsRoute.NewAppointment | d8/app/api/appointments/route.ts:188-192 | the payload's fields are kept; status defaults to Scheduled; createdAt defaults to now |
| AppointmentsRoute.AppendChecked | d8/app/api/appointments/route.ts:167-196 | appending an appointment that collides with no earlier record keeps the store free of double bookings |
| AppointmentsRoute.IndexOfId | d8/app/api/appointments/route.ts:236-240 | no index exactly when no record has the id; otherwise the first record with it |
| AppointmentsRoute.NoDoubleBooking | d8/app/api/appointments/route.ts:167-196 | definition of the store invariant that checked inserts keep: no active record collides with an earlier one on its date; Post keeps it and StoredAppointmentsDisjoint turns it into disjoint intervals |
| AppointmentsRoute.AppointmentCollection.constructor | d8/app/api/appointments/route.ts:12 | the `appointments` collection the route reads and writes, starting empty and free of double bookings |
| AppointmentsRoute.AppointmentCollection.Post | d8/app/api/appointments/route.ts:136-215 | 400 and no change when fields are missing; 409 with the conflict message and the existing booking, and no change, on a conflict; otherwise the defaulted record is appended under a fresh id; the store stays free of double bookings |
| AppointmentsRoute.AppointmentCollection.Insert | d8/app/api/appointments/route.ts:196 | the record is appended and the id generator advances |
| AppointmentsRoute.AppointmentCollection.Put | d8/app/api/appointments/route.ts:226-247 | 400 without id or status; 404 for an unknown id; otherwise only that record's status and updatedAt change, and the store stays free of double bookings unless a cancelled record is reactivated |
| AppointmentsRoute.StatusUpdateKeepsNoDoubleBooking | d8/app/api/appointments/route.ts:236-238 | a status update that does not reactivate a cancelled record keeps the store free of double bookings |
| AppointmentsRoute.ReactivationCanDoubleBook | d8/app/api/appointments/route.ts:232-238 | reactivating a cancelled record can create two colliding active records |
| VehicleWashPage.ServicePackages | d8/app/dashboard/vehicle-wash/appointment/page.tsx:30-84 | definition of the price and duration table, per category in the listed order; AvailablePackagesPerCategory, TableEntriesPositive and PackageInfoFallback state its properties |
| VehicleWashPage.Keys | d8/app/dashboard/vehicle-wash/appointment/page.tsx:109 | `Object.keys` lists the keys of the entries in order |
| VehicleWashPage.Lookup | d8/app/dashboard/vehicle-wash/appointment/page.tsx:122-125 | a key is found exactly when it is in the table, and then with its entry |
| VehicleWashPage.AvailablePackages | d8/app/dashboard/vehicle-wash/appointment/page.tsx:102-110 | definition of `getAvailablePackages`: the keys of the category's table, none for an invalid category; AvailablePackagesPerCategory lists them |
| VehicleWashPage.PackageInfoOf | d8/app/dashboard/vehicle-wash/appointment/page.tsx:113-133 | definition of `getPackageInfo`: the table entry or the default; PackageInfoFallback states its cases |
| VehicleWashPage.SelectedPackageDuration | d8/app/dashboard/vehicle-wash/appointment/page.tsx:348-358 | definition of `getSelectedPackageDuration`; SelectedPackageDurationPositive states when it is positive |
| VehicleWashPage.AvailablePackagesPerCategory | d8/app/dashboard/vehicle-wash/appointment/page.tsx:30-110 | car offers basic, premium and deluxe; bike, bus and lorry offer basic and premium; other categories offer none |
| VehicleWashPage.TableEntriesPositive | d8/app/dashboard/vehicle-wash/appointment/page.tsx:30-84 | every table entry has a positive price and duration |
| VehicleWashPage.PackageInfoFallback | d8/app/dashboard/vehicle-wash/appointment/page.tsx:95-133 | a package of the category gives its table entry; any other gives the default of price 0 and duration 0 |
| VehicleWashPage.SelectedPackageDurationPositive | d8/app/dashboard/vehicle-wash/appointment/page.tsx:348-358 | the duration is positive exactly for a package of the category, and 0 when no package is chosen |
| VehicleWashPage.StoredCategory | d8/app/dashboard/vehicle-wash/appointment/page.tsx:227-232 | a stored category is kept if it is bike, car, bus or lorry, and becomes car otherwise |
| VehicleWashPage.SlotLabel | d8/app/dashboard/vehicle-wash/appointment/page.tsx:263-266 | definition of the label pushed for an hour and a quarter; SlotLabelParses, SlotStart and EndpointLabels state its properties |
| VehicleWashPage.SlotLabelParses | d8/app/dashboard/vehicle-wash/appointment/page.tsx:263-266 | the label of a slot between 10:00 and 17:00 parses back to its minute of the day |
| VehicleWashPage.GenerateTimeSlots | d8/app/dashboard/vehicle-wash/appointment/page.tsx:256-271 | 28 slots from "10:00 AM" to "4:45 PM"; slot k starts at minute 600 + 15k; strictly increasing, all within [10:00, 17:00) |
| VehicleWashPage.SlotStart | d8/app/dashboard/vehicle-wash/appointment/page.tsx:261-266 | the k-th label produced by the nested loops starts at minute 600 + 15k |
| VehicleWashPage.EndpointLabels | d8/app/dashboard/vehicle-wash/appointment/page.tsx:263-266 | the first label is "10:00 AM" and the last "4:45 PM" |
| VehicleWashPage.BookedFromFetched | d8/app/dashboard/vehicle-wash/appointment/page.tsx:177-181 | definition of the booking list built from the fetched appointments, `duration || 30`; ZeroDurationReadAsThirty and CancelledBlocksOnlyOnClient use it |
| VehicleWashPage.HalfOpenOverlap | d8/app/dashboard/vehicle-wash/appointment/page.tsx:335 | definition of the page's overlap test `selected < bookedEnd && selectedEnd > bookedStart`; ConflictAgreement.ServerTestIsHalfOpen, HalfOpenSymmetric and TouchingIntervalsDoNotConflict state its properties |
| VehicleWashPage.ClashesWith | d8/app/dashboard/vehicle-wash/appointment/page.tsx:318-335 | definition of one booking clashing with the selected slot: same date, readable time, HalfOpenOverlap; ScanBookings and ConflictAgreement.CollisionIsClientClash state its properties |
| VehicleWashPage.ClientConflict | d8/app/dashboard/vehicle-wash/appointment/page.tsx:294-345 | definition of what `isTimeSlotConflicting` decides; IsTimeSlotConflicting and ScanBookings are proved equal to it |
| VehicleWashPage.ScanBookings | d8/app/dashboard/vehicle-wash/appointment/page.tsx:317-340 | the loop reports a conflict exactly when some same-date booking overlaps the half-open slot |
| VehicleWashPage.IsTimeSlotConflicting | d8/app/dashboard/vehicle-wash/appointment/page.tsx:294-345 | no date, no time or no bookings means no conflict; otherwise a conflict exactly when some same-date booking overlaps `[start, start + duration)` |
| VehicleWashPage.RequireText | d8/app/dashboard/vehicle-wash/appointment/page.tsx:364 | a blank value gets its message, any other none |
| VehicleWashPage.RequireChosen | d8/app/dashboard/vehicle-wash/appointment/page.tsx:368 | an empty choice gets its message, any other none |
| VehicleWashPage.RequireEmail | d8/app/dashboard/vehicle-wash/appointment/page.tsx:366 | an email failing the pattern gets "Valid email is required" |
| VehicleWashPage.ValidateForm | d8/app/dashboard/vehicle-wash/appointment/page.tsx:361-375 | each field's message exactly when the field fails; the email's overrides "Email is required"; success exactly when there are no errors |
| ConflictAgreement.ServerTestIsHalfOpen | d8/app/api/appointments/route.ts:79-83 | for positive lengths the three-disjunct test equals the page's half-open test |
| ConflictAgreement.TouchingIntervalsDoNotConflict | d8/app/api/appointments/route.ts:79-83 | slots that only touch conflict on neither side |
| ConflictAgreement.HalfOpenSymmetric | d8/app/dashboard/vehicle-wash/appointment/page.tsx:335 | the half-open test does not depend on which slot is the new one |
| ConflictAgreement.NegativeDurationDisagrees | d8/app/api/appointments/route.ts:79-83 | with a negative duration the server conflicts where the page does not |
| ConflictAgreement.StoredAppointmentsDisjoint | d8/app/api/appointments/route.ts:167-196 | two active same-date appointments of a store free of double bookings occupy disjoint half-open intervals |
| ConflictAgreement.Disjoint | d8/app/api/appointments/route.ts:79-83 | no server overlap between two positive slots means disjoint intervals in both orders |
| ConflictAgreement.CollisionIsClientClash | d8/app/dashboard/vehicle-wash/appointment/page.tsx:317-338 | a stored record the server finds colliding is a fetched booking the page finds clashing |
| ConflictAgreement.ServerConflictImpliesClientConflict | d8/app/dashboard/vehicle-wash/appointment/page.tsx:294-345 | a server conflict for a positive slot is a client conflict on the same collection |
| ConflictAgreement.CancelledBlocksOnlyOnClient | d8/app/api/appointments/route.ts:47-53 | a cancelled booking blocks its slot on the page but not on the server |
| ConflictAgreement.ZeroDurationReadAsThirty | d8/app/dashboard/vehicle-wash/appointment/page.tsx:180 | the page reads a stored duration of 0 as 30 minutes |
| CarWashPage.IsCarWashTime | d8/app/dashboard/car-wash/appointment/page.tsx:56-59 | the condition that `parseInt` reads both pieces of `timeStr.split(":")` as numbers; CarWashTimeSlotsSpacing shows every slot label meets it |
| CarWashPage.CarWashPieces | d8/app/dashboard/car-wash/appointment/page.tsx:57 | splitting a slot label on ':' gives the hour and the rest of the label |
| CarWashPage.CarWashHour | d8/app/dashboard/car-wash/appointment/page.tsx:57-65 | definition of the `includes("PM")` hour adjustment; CarWashTwelveHourRules and CarWashAgreesWithParseTime state its properties |
| CarWashPage.IncludesPM | d8/app/dashboard/car-wash/appointment/page.tsx:58 | a label includes "PM" exactly when its period is PM |
| CarWashPage.CarWashMinute | d8/app/dashboard/car-wash/appointment/page.tsx:67 | definition of `parseInt(minuteStr)`; CarWashNumbers and CarWashParseTimeText state its value on every rendered label |
| CarWashPage.CarWashNumbers | d8/app/dashboard/car-wash/appointment/page.tsx:57-67 | the hour and minute `parseInt` reads from a label are its own |
| CarWashPage.CarWashParseTimeText | d8/app/dashboard/car-wash/appointment/page.tsx:57-67 | the page's parse of a label gives the 24-hour conversion of the hour and the minutes' value |
| CarWashPage.CarWashAgreesWithParseTime | d8/app/dashboard/car-wash/appointment/page.tsx:57-67 | on labels the `includes("PM")` parse agrees with the vehicle-wash parse |
| CarWashPage.CarWashTwelveHourRules | d8/app/dashboard/car-wash/appointment/page.tsx:57-65 | 12 PM stays 12, 12 AM becomes 0, other PM hours get +12 |
| CarWashPage.HourNumerals | d8/app/dashboard/car-wash/appointment/page.tsx:39-54 | the hours of the slot list render as written |
| CarWashPage.CarWashSlotText | d8/app/dashboard/car-wash/appointment/page.tsx:39-54 | slot k is the label of hour 10 + k/2 on the 12-hour clock and minute 0 or 30 |
| CarWashPage.CarWashTimeSlotsSpacing | d8/app/dashboard/car-wash/appointment/page.tsx:39-54 | 14 slots from "10:00 AM" to "4:30 PM"; slot k starts at minute 600 + 30k |
| CarWashPage.SelectedDateTime | d8/app/dashboard/car-wash/appointment/page.tsx:68-69 | the selected date with the parsed hour |
| CarWashPage.SameHour | d8/app/dashboard/car-wash/appointment/page.tsx:72-76 | definition of the test of one booked slot: same year, month, day and hour, minutes not compared; AnySameHour and IsDateBooked state what the `some` over it decides |
| CarWashPage.AnySameHour | d8/app/dashboard/car-wash/appointment/page.tsx:71-77 | `some` holds exactly when some booked slot has the same date and hour |
| CarWashPage.IsDateBooked | d8/app/dashboard/car-wash/appointment/page.tsx:56-78 | a slot is booked exactly when a booked slot has its year, month, day and hour |
| CarWashPage.SlotParts | d8/app/dashboard/car-wash/appointment/page.tsx:39-54 | the parts of slot k stand for hour 10 + k/2 and minute 0 or 30, in "AM" or "PM" |
| CarWashPage.MockBookedHours | d8/app/dashboard/car-wash/appointment/page.tsx:21-25 | the mock bookings hold hours 11 and 14 on 19 April 2025 and hour 10 on 20 April 2025, and nothing else |
| CarWashPage.BookedSlotsOfTheMockData | d8/app/dashboard/car-wash/appointment/page.tsx:21-78 | on 19 April 2025 the 11 and 2 o'clock half-hours are booked, on 20 April the 10 o'clock ones, nothing else |
| CarWashPage.HalfPastIsBlocked | d8/app/dashboard/car-wash/appointment/page.tsx:71-77 | 11:30 AM is blocked by the 11:00 booking, since minutes are ignored |
| CarWashPage.HandleSubmit | d8/app/dashboard/car-wash/appointment/page.tsx:80-103 | without a date or a time an error and no navigation; otherwise the confirmation page |
| Cart.Find | d8/app/dashboard/coconut-oil/page.tsx:65 | nothing is found exactly when no item has the id; otherwise an item of the cart with it |
| Cart.Increment | d8/app/dashboard/coconut-oil/page.tsx:68 | the items with the id gain one, every other item is unchanged |
| Cart.NewItem | d8/app/dashboard/coconut-oil/page.tsx:70 | the new item copies the product with quantity 1 |
| Cart.AddToCart | d8/app/dashboard/coconut-oil/page.tsx:63-72 | definition of `addToCart`; AddExisting, AddNew, AddToCartKeepsInvariant, AddToCartCount and AddToCartTotal state its properties |
| Cart.AddExisting | d8/app/dashboard/coconut-oil/page.tsx:65-68 | adding a product in the cart increments only its item; length and order stay |
| Cart.AddNew | d8/app/dashboard/coconut-oil/page.tsx:69-70 | adding a new product appends it with quantity 1 |
| Cart.AddToCartKeepsInvariant | d8/app/dashboard/coconut-oil/page.tsx:63-72 | adding keeps ids unique and quantities positive |
| Cart.Total | d8/app/dashboard/coconut-oil/cart/page.tsx:83-84 | definition of `subtotal + deliveryCharge`; EmptyCartTotals, AddToCartTotal and Checkout.SummaryAddsUp state its properties |
| Cart.EmptyCartTotals | d8/app/dashboard/coconut-oil/cart/page.tsx:82-84 | an empty cart counts 0 items, subtotal 0 and total 50 |
| Cart.TotalsOfConcat | d8/app/dashboard/coconut-oil/cart/page.tsx:82 | count and subtotal add over concatenation |
| Cart.TotalsOfCons | d8/app/dashboard/coconut-oil/cart/page.tsx:82 | the first item contributes its quantity and its price times quantity |
| Cart.CartCount | d8/app/dashboard/coconut-oil/page.tsx:94 | definition of the badge count; TotalsOfConcat, IncrementCount and AddToCartCount state its properties |
| Cart.Subtotal | d8/app/dashboard/coconut-oil/cart/page.tsx:82 | definition of the subtotal; TotalsOfConcat, IncrementSubtotal and RemoveItemSubtotal state its properties |
| Cart.IncrementCount | d8/app/dashboard/coconut-oil/page.tsx:68-94 | incrementing a present item raises the count by exactly 1 |
| Cart.IncrementSubtotal | d8/app/dashboard/coconut-oil/page.tsx:68 | in a cart with unique ids, incrementing the line with the id raises the subtotal by that line's price |
| Cart.IncrementMissing | d8/app/dashboard/coconut-oil/page.tsx:68 | incrementing an absent id changes nothing |
| Cart.AddToCartCount | d8/app/dashboard/coconut-oil/page.tsx:63-94 | every `addToCart` raises `cartCount` by exactly 1 |
| Cart.AddToCartTotal | d8/app/dashboard/coconut-oil/page.tsx:63-72 | every `addToCart` raises the subtotal and the total by one unit price: that of the line already in the cart, or the product's own |
| Cart.Adjust | d8/app/dashboard/coconut-oil/page.tsx:83-89 | the items with the id take max(0, q + change), every other item is unchanged |
| Cart.Max0 | d8/app/dashboard/coconut-oil/page.tsx:85 | `Math.max(0, n)` is at least 0 and n, and equals one of them |
| Cart.KeepPositive | d8/app/dashboard/coconut-oil/page.tsx:90 | the filter keeps exactly the items of positive quantity, in order |
| Cart.UpdateQuantity | d8/app/dashboard/coconut-oil/page.tsx:80-92 | every item left has a positive quantity |
| Cart.RemoveItem | d8/app/dashboard/coconut-oil/cart/page.tsx:74-75 | no item with the id is left; the others keep their relative order |
| Cart.KeepPositiveOfPositive | d8/app/dashboard/coconut-oil/page.tsx:90 | the filter leaves a positive cart unchanged |
| Cart.UpdateQuantityLeavesOthers | d8/app/dashboard/coconut-oil/cart/page.tsx:60-72 | the items with other ids keep order and quantities |
| Cart.AdjustThenRemove | d8/app/dashboard/coconut-oil/cart/page.tsx:60-72 | the map and filter change nothing outside the id |
| Cart.UpdateQuantityUnknownId | d8/app/dashboard/coconut-oil/page.tsx:80-92 | an unknown id leaves a positive cart unchanged |
| Cart.IncrementThenDecrement | d8/app/dashboard/coconut-oil/page.tsx:80-92 | +1 then -1 on a positive cart restores it |
| Cart.DecrementLastRemoves | d8/app/dashboard/coconut-oil/cart/page.tsx:60-72 | -1 on an item of quantity 1 removes it, as `removeItem` would |
| Cart.DecrementLast | d8/app/dashboard/coconut-oil/cart/page.tsx:60-72 | the map and filter with -1 on items of quantity 1 equal removing them |
| Cart.RemoveItemKeepsInvariant | d8/app/dashboard/coconut-oil/cart/page.tsx:74-75 | removing keeps ids unique and quantities positive |
| Cart.UpdateQuantityKeepsInvariant | d8/app/dashboard/coconut-oil/cart/page.tsx:60-72 | updating keeps ids unique |
| Cart.RemoveItemIdempotent | d8/app/dashboard/coconut-oil/cart/page.tsx:74-75 | removing twice is removing once |
| Cart.RemoveMissing | d8/app/dashboard/coconut-oil/cart/page.tsx:74-75 | removing an absent id changes nothing |
| Cart.RemoveItemSubtotal | d8/app/dashboard/coconut-oil/cart/page.tsx:75-82 | removing an item lowers the subtotal by exactly its price times quantity |
| Checkout.SummaryLines | d8/app/dashboard/coconut-oil/checkout/page.tsx:74-78 | one summary line per cart line, in order |
| Checkout.SummaryLine | d8/app/dashboard/coconut-oil/checkout/page.tsx:75-78 | definition of one summary line; SummaryLines and SummaryAddsUp state its properties |
| Checkout.SummaryOf | d8/app/dashboard/coconut-oil/checkout/page.tsx:71-82 | lines named `name - size` with the quantity and the line price; the cart's subtotal, delivery 50, total subtotal + 50 |
| Checkout.SummaryAddsUp | d8/app/dashboard/coconut-oil/checkout/page.tsx:71-82 | the line prices add up to the subtotal, and the total is the cart page's total |
| Checkout.EmptyCartSummary | d8/app/dashboard/coconut-oil/checkout/page.tsx:56-61 | an empty cart gives the initial summary of subtotal 0 and total 50 |
| Checkout.With | d8/app/dashboard/coconut-oil/checkout/page.tsx:97-100 | the named field takes the value and every other field is kept |
| Checkout.FieldFails | d8/app/dashboard/coconut-oil/checkout/page.tsx:115-122 | definition of a rejected field: blank, and for the email not matching the pattern; NoErrorsIffValid and BlankEmailMessage state its properties |
| Checkout.ErrorMessage | d8/app/dashboard/coconut-oil/checkout/page.tsx:115-122 | definition of the message left under each rejected field, the pattern's message for the email; BlankEmailMessage and BuildErrors state its properties |
| Checkout.ValidationErrors | d8/app/dashboard/coconut-oil/checkout/page.tsx:112-126 | definition of the errors object: one message per rejected field; BuildErrors is proved equal to it |
| Checkout.AddressValid | d8/app/dashboard/coconut-oil/checkout/page.tsx:112-126 | definition of a passing form: no field blank and the email matching; NoErrorsIffValid states it is exactly the empty errors object |
| Checkout.NoErrorsIffValid | d8/app/dashboard/coconut-oil/checkout/page.tsx:112-126 | no errors exactly when all seven fields are non-blank and the email matches the pattern |
| Checkout.BlankEmailMessage | d8/app/dashboard/coconut-oil/checkout/page.tsx:116-117 | a blank email ends with "Valid email is required" |
| Checkout.RequireNonBlank | d8/app/dashboard/coconut-oil/checkout/page.tsx:115 | a blank value sets its field's message, any other leaves the errors |
| Checkout.RequireEmailPattern | d8/app/dashboard/coconut-oil/checkout/page.tsx:117 | an email failing the pattern sets "Valid email is required" |
| Checkout.CheckEmail | d8/app/dashboard/coconut-oil/checkout/page.tsx:116-117 | the two email checks leave the pattern's message or none |
| Checkout.BuildErrors | d8/app/dashboard/coconut-oil/checkout/page.tsx:113-122 | the checks leave one message per rejected field |
| Checkout.OrderItems | d8/app/dashboard/coconut-oil/checkout/page.tsx:155-161 | the items copy id, name, size, price and quantity from the cart, in order |
| Checkout.OrderPayloadOf | d8/app/dashboard/coconut-oil/checkout/page.tsx:153-168 | the form's fields, the cart's items, the summary's amounts, the payment method, status Processing, createdAt now |
| Checkout.SubtotalNonNegative | d8/app/dashboard/coconut-oil/checkout/page.tsx:71 | non-negative prices and quantities give a non-negative subtotal |
| Checkout.PlacedOrderIsAccepted | d8/app/api/orders/route.ts:46-71 | an order from a valid form misses no required field and is stored as Processing |
| Checkout.CheckoutPage.constructor | d8/app/dashboard/coconut-oil/checkout/page.tsx:42-83 | the address step, cash on delivery, an empty form, no errors; the saved cart with its summary, or none |
| Checkout.CheckoutPage.HandleInputChange | d8/app/dashboard/coconut-oil/checkout/page.tsx:95-110 | only the named field changes, and only its error is removed |
| Checkout.CheckoutPage.ValidateForm | d8/app/dashboard/coconut-oil/checkout/page.tsx:112-126 | the errors are rebuilt from the form; success exactly when the form is valid |
| Checkout.CheckoutPage.HandleAddressSubmit | d8/app/dashboard/coconut-oil/checkout/page.tsx:128-141 | the step becomes payment exactly when the form is valid, and is unchanged otherwise |
| Checkout.CheckoutPage.HandlePaymentSubmit | d8/app/dashboard/coconut-oil/checkout/page.tsx:143-168 | an empty cart takes the error path; otherwise the order payload; `isSubmitting` ends false |
| OrdersRoute.RequiredOrderField | d8/app/api/orders/route.ts:46 | every order field is in the required list |
| OrdersRoute.FalsyOrderFields | d8/app/api/orders/route.ts:47 | definition of the fields `!orderData[field]` rejects: empty strings, absent items, a total of 0; MissingOrderFieldsExact and ZeroTotalMissingEmptyItemsPresent state its properties |
| OrdersRoute.MissingOrderFields | d8/app/api/orders/route.ts:46-49 | the list is empty exactly when all nine fields are truthy |
| OrdersRoute.MissingOrderFieldsExact | d8/app/api/orders/route.ts:46-47 | the list holds exactly the falsy fields, in declared order |
| OrdersRoute.ZeroTotalMissingEmptyItemsPresent | d8/app/api/orders/route.ts:47 | a total of 0 is missing; an empty item array is not |
| OrdersRoute.NewOrder | d8/app/api/orders/route.ts:67-71 | the payload's fields are kept; status defaults to Processing; createdAt defaults to now |
| OrdersRoute.OrderCollection.constructor | d8/app/api/orders/route.ts:12 | the `orders` collection the route reads and writes, starting empty |
| OrdersRoute.OrderCollection.Post | d8/app/api/orders/route.ts:46-95 | 400 with the missing fields and no insert; otherwise the defaulted order under a fresh id, which the answer returns |
| OrdersRoute.OrderCollection.Put | d8/app/api/orders/route.ts:131-152 | 400 without id or status; 404 for an unknown id; otherwise only that order's status and updatedAt change |
| OrdersRoute.UpdateChangesOnlyStatus | d8/app/api/orders/route.ts:141-143 | after an update only the updated order differs, and only in status and updatedAt |

## Left out

- JSON parsing of request bodies and of saved carts, and its 400 and toast paths: the model takes already-parsed values.
- Database and email failures, and the 500 answers they lead to: the collections are in-memory and never fail; mail is a foreign call.
- The atomicity of the conflict check and the insert: the model is sequential.
- The GET handlers and their sort by `createdAt`: reads with nothing to prove.
- MongoDB `ObjectId` values and invalid id strings: ids are natural numbers from a counter, and an absent id is `None`.
- localStorage, `fetch`, the router, toasts, the mock bookings used when a fetch fails, and the `pendingOrder` fallback: browser plumbing. `Checkout.CheckoutPage.HandlePaymentSubmit` stops where the order is sent, and at `EmptyCartError` for an empty cart. The page's `catch` then saves a `pendingOrder` with no items and goes on to the confirmation page anyway.
- Time zones, daylight saving and invalid date strings in `new Date(date)`, and the `yyyy-MM-dd` rendering of a picked date: dates are strings or calendar triples.
- `parseInt` with a sign or leading whitespace: the model reads only strings that start with a digit (decimal digits, or hexadecimal digits after `0x` or `0X`). Any other string is NaN, which makes an Invalid Date that never conflicts.
- AppointmentsRoute.CheckForConflicts: its answer holds the appointment it found but not the message text; POST renders the message from that appointment with `DescribeConflict`, and since the message depends on nothing else the 409 answer is the same.
- CarWashPage.IsDateBooked: requires an hour below 24 and a minute below 60, so `setHours` has no carry into the next day; the page calls it only with its own slot list.
- The calendar's disabled days (past days, Sundays, more than 30 days ahead): rendering.
- Status strings outside the enums of `lib/models.ts`: statuses are datatypes.
- Fields of a payload beyond the declared record (the spread keeps them): records have fixed fields.
- OrdersRoute.NewOrder: requires the item list to be present, which the required-field check guarantees before it is called.
- The `missingFields` answers list field names; the model lists field values, whose JSON keys `AppointmentFieldKey` and `OrderFieldKey` give.
- Lookups of keys such as `constructor` on the package table, which JavaScript resolves through the prototype.
- The errors record of the vehicle-wash form is a record of optional messages, not a string map.
- Login, authentication gates, the admin and confirmation pages, and the other presentational pages.
