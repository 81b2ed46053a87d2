/** How the two conflict tests of the vehicle-wash booking relate: the server's
    three-disjunct test in `checkForConflicts` (app/api/appointments/route.ts) and
    the page's half-open test in `isTimeSlotConflicting`
    (app/dashboard/vehicle-wash/appointment/page.tsx). */
module ConflictAgreement {
  import opened Clock
  import opened Models
  import opened AppointmentsRoute
  import opened VehicleWashPage

  // ---------------------------------------------------------------------------
  // The two interval tests

  /** For slots of positive length the server's three disjuncts say exactly what
      the page's half-open test says: [start, end) and [existingStart, existingEnd) meet. */
  lemma ServerTestIsHalfOpen(start: int, end: int, existingStart: int, existingEnd: int)
    requires start < end && existingStart < existingEnd
    ensures ServerOverlaps(start, end, existingStart, existingEnd) <==> HalfOpenOverlap(start, end, existingStart, existingEnd)
  {
    if HalfOpenOverlap(start, end, existingStart, existingEnd) {
      if start >= existingStart {
        assert start >= existingStart && start < existingEnd;
      } else if end <= existingEnd {
        assert end > existingStart && end <= existingEnd;
      } else {
        assert start <= existingStart && end >= existingEnd;
      }
    }
  }

  /** A slot that ends where the other begins, or begins where it ends, does not
      conflict on either side. */
  lemma TouchingIntervalsDoNotConflict(start: int, end: int, existingStart: int, existingEnd: int)
    requires start < end && existingStart < existingEnd
    requires end == existingStart || start == existingEnd
    ensures !ServerOverlaps(start, end, existingStart, existingEnd)
    ensures !HalfOpenOverlap(start, end, existingStart, existingEnd)
  {
  }

  /** The half-open test is symmetric: it does not matter which slot is the new one. */
  lemma HalfOpenSymmetric(s1: int, e1: int, s2: int, e2: int)
    ensures HalfOpenOverlap(s1, e1, s2, e2) <==> HalfOpenOverlap(s2, e2, s1, e1)
  {
  }

  /** Without positive durations the two tests part: the route accepts a negative
      duration (only 0 is falsy), and a slot of -30 minutes starting where a
      booking starts conflicts on the server but not on the page. */
  lemma NegativeDurationDisagrees(existingStart: int, existingDuration: int)
    requires existingDuration > 0
    ensures ServerOverlaps(existingStart, existingStart - 30, existingStart, existingStart + existingDuration)
    ensures !HalfOpenOverlap(existingStart, existingStart - 30, existingStart, existingStart + existingDuration)
  {
  }

  // ---------------------------------------------------------------------------
  // The store the route keeps

  /** Two appointments of a store free of double bookings, both active on the same
      date and both of positive duration, occupy disjoint half-open intervals.
      Since every successful POST keeps the store free of double bookings
      (AppointmentCollection.Post), no sequence of POSTs books two overlapping
      active slots of positive length on one date. */
  lemma StoredAppointmentsDisjoint(records: seq<Appointment>, i: nat, j: nat)
    requires NoDoubleBooking(records)
    requires i < |records| && j < |records| && i != j
    requires records[i].date == records[j].date
    requires records[i].status != Cancelled && records[j].status != Cancelled
    requires IsTimeText(records[i].time) && IsTimeText(records[j].time)
    requires records[i].duration > 0 && records[j].duration > 0
    ensures !HalfOpenOverlap(ExistingStart(records[i]), ExistingEnd(records[i]),
                             ExistingStart(records[j]), ExistingEnd(records[j]))
  {
    var lo, hi := if i < j then i else j, if i < j then j else i;
    var a, b := records[lo], records[hi];
    assert ActiveOn(b, a.date) && ActiveOn(a, b.date);
    assert !Collides(a, b.date, ExistingStart(b), ExistingEnd(b));
    Disjoint(ExistingStart(b), ExistingEnd(b), ExistingStart(a), ExistingEnd(a));
  }

  /** The arithmetic behind StoredAppointmentsDisjoint: no server overlap between
      two positive slots means the slots are disjoint in both orders. */
  lemma Disjoint(start: int, end: int, existingStart: int, existingEnd: int)
    requires start < end && existingStart < existingEnd
    requires !ServerOverlaps(start, end, existingStart, existingEnd)
    ensures !HalfOpenOverlap(start, end, existingStart, existingEnd)
    ensures !HalfOpenOverlap(existingStart, existingEnd, start, end)
  {
    ServerTestIsHalfOpen(start, end, existingStart, existingEnd);
  }

  // ---------------------------------------------------------------------------
  // The route against the page

  /** A stored appointment the server finds in conflict is a booking the page
      finds in conflict too, given positive durations: the page fetches every
      stored appointment with its date, time and duration. */
  lemma CollisionIsClientClash(records: seq<Appointment>, k: nat, date: string, start: int, duration: int)
    requires k < |records| && duration > 0 && records[k].duration > 0
    requires Collides(records[k], date, start, start + duration)
    ensures ClashesWith(BookedFromFetched(records)[k], date, start, start + duration)
  {
    var a := records[k];
    ServerTestIsHalfOpen(start, start + duration, ExistingStart(a), ExistingEnd(a));
  }

  /** Whenever the route answers 409 for a slot of positive length, the page, given
      the same collection, would have refused that slot already: a server conflict
      implies a client conflict when the stored durations are positive. */
  lemma ServerConflictImpliesClientConflict(records: seq<Appointment>, date: string, time: string, duration: int)
    requires duration > 0
    requires forall k :: 0 <= k < |records| ==> records[k].duration > 0
    requires ConflictFor(records, date, time, duration).Conflict?
    ensures ClientConflict(Some(date), time, duration, BookedFromFetched(records))
  {
    var start := StartMinute(time);
    var found := FirstCollision(records, date, start, start + duration);
    FirstCollisionCollides(records, date, start, start + duration);
    var k :| 0 <= k < |records| && records[k] == found.value;
    CollisionIsClientClash(records, k, date, start, duration);
  }

  /** The converse fails: the page also blocks the slots of cancelled bookings,
      which the route's query leaves out. A store holding only a cancelled booking
      lets the route accept the same slot that the page refuses. */
  lemma CancelledBlocksOnlyOnClient(a: Appointment, duration: int)
    requires IsTimeText(a.time) && a.status == Cancelled
    requires duration > 0 && a.duration > 0
    ensures ConflictFor([a], a.date, a.time, duration) == NoConflict
    ensures ClientConflict(Some(a.date), a.time, duration, BookedFromFetched([a]))
  {
    var start := StartMinute(a.time);
    assert !Collides(a, a.date, start, start + duration);
    assert FirstCollision([a], a.date, start, start + duration) == None by {
      assert [a][1..] == [];
    }
    assert ClashesWith(BookedFromFetched([a])[0], a.date, start, start + duration);
  }

  /** A stored duration of 0 is read by the page as 30 minutes (`duration || 30`). */
  lemma ZeroDurationReadAsThirty(records: seq<Appointment>, k: nat)
    requires k < |records| && records[k].duration == 0
    ensures BookedFromFetched(records)[k].duration == 30
  {
  }
}
