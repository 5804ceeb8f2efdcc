/** The session-expiry service (services/cronService.js): a running/stopped
    switch around a once-a-minute schedule, and the sweep it runs. The
    scheduler itself is not modelled; one call of `SyncExpiredSessions` is one
    tick, with the clock reading passed in. */
module Cron {
  import opened Common
  import opened BookingModel
  import opened Venue
  import opened Store
  import opened SessionLedger
  import opened SweepLedger

  /** A scheduled job: its cron pattern and time zone. */
  datatype Job = Job(pattern: string, timezone: string)

  /** The job `start` schedules: every minute, in UTC. */
  const EveryMinute: Job := Job("* * * * *", "UTC")

  datatype CronStatus = CronStatus(isRunning: bool, nextRun: Option<string>)

  /** When `SweepCafe` below frees the systems of one booking, this is the new cafe map. */
  lemma FreedCafesStep(cafes: map<CafeId, Cafe>, bookings: map<BookingId, Booking>, ids: set<BookingId>, id: BookingId)
    requires id in bookings
    ensures bookings[id].cafe !in cafes ==> FreedCafes(cafes, bookings, ids + {id}) == FreedCafes(cafes, bookings, ids)
    ensures bookings[id].cafe in cafes ==>
              var c := bookings[id].cafe;
              var cur := FreedCafes(cafes, bookings, ids);
              FreedCafes(cafes, bookings, ids + {id})
                == cur[c := cur[c].(rooms := FreeSlots(cur[c].rooms, TargetSlots(cur[c].rooms, bookings[id].assignedSystems)))]
  {
    var cur := FreedCafes(cafes, bookings, ids);
    var next := FreedCafes(cafes, bookings, ids + {id});
    var c := bookings[id].cafe;
    forall d | d in cafes
      ensures next[d] == (if d == c then cur[d].(rooms := FreeSlots(cur[d].rooms, TargetSlots(cur[d].rooms, bookings[id].assignedSystems)))
                          else cur[d])
    {
      var rooms := cafes[d].rooms;
      var before := SweepSlots(rooms, d, bookings, ids);
      SweepSlotsStep(rooms, d, bookings, ids, id);
      if d == c {
        TargetSlotsLayout(rooms, cur[d].rooms, bookings[id].assignedSystems);
        FreeSlotsTwice(rooms, before, TargetSlots(rooms, bookings[id].assignedSystems));
      } else {
        assert SweepSlots(rooms, d, bookings, ids + {id}) == before;
      }
    }
  }

  class CronService {
    var isRunning: bool
    var job: Option<Job>

    /** A job is scheduled exactly while the service is running. */
    ghost predicate Valid()
      reads this
    {
      isRunning <==> job.Some?
    }

    constructor ()
      ensures Valid() && !isRunning && job.None?
    {
      isRunning := false;
      job := None;
    }

    /** `start()`: a no-op while running; otherwise schedules the sweep every minute. */
    method Start()
      requires Valid()
      modifies this
      ensures Valid()
      ensures old(isRunning) ==> isRunning == old(isRunning) && job == old(job)
      ensures !old(isRunning) ==> isRunning && job == Some(EveryMinute)
    {
      if isRunning {
        return;
      }
      job := Some(EveryMinute);
      isRunning := true;
    }

    /** `stop()`: clears the job and the running flag when a job exists; otherwise nothing. */
    method Stop()
      requires Valid()
      modifies this
      ensures Valid()
      ensures old(job).Some? ==> !isRunning && job.None?
      ensures old(job).None? ==> isRunning == old(isRunning) && job == old(job)
    {
      if job.Some? {
        job := None;
        isRunning := false;
      }
    }

    /** `getStatus()`. */
    function GetStatus(): (s: CronStatus)
      requires Valid()
      reads this
      ensures s.isRunning <==> s.nextRun.Some?
      ensures s.isRunning == isRunning
      ensures s.nextRun.Some? <==> job.Some?
      ensures s.nextRun.Some? ==> s.nextRun.value == "Every minute"
    {
      CronStatus(isRunning, if job.Some? then Some("Every minute") else None)
    }

    /** `syncExpiredSessions()` at clock reading `now`. The bookings whose save
        throws are `bookingSaveFails`; those whose cafe save throws are
        `cafeSaveFails`. A failure skips the rest of that booking only: every
        other selected booking is still completed and its systems freed. */
    method SyncExpiredSessions(db: Db, now: int, bookingSaveFails: set<BookingId>, cafeSaveFails: set<BookingId>)
      returns (completedCount: nat)
      modifies db
      ensures db.bookings == CompletedBookings(old(db.bookings), Selected(old(db.bookings), now) - bookingSaveFails)
      ensures db.cafes == FreedCafes(old(db.cafes), old(db.bookings),
                                     Selected(old(db.bookings), now) - bookingSaveFails - cafeSaveFails)
      ensures completedCount == |Selected(old(db.bookings), now) - bookingSaveFails|
      ensures db.wallets == old(db.wallets) && db.payments == old(db.payments)
    {
      var expiredBookings := db.bookings;
      ghost var cafes0 := db.cafes;
      var expired := set id | id in expiredBookings && Expired(expiredBookings[id], now);
      assert expired == Selected(expiredBookings, now);
      var pending := expired;
      ghost var done: set<BookingId> := {};
      completedCount := 0;
      SweepNothing(cafes0, expiredBookings);
      assert done - bookingSaveFails == {} && done - bookingSaveFails - cafeSaveFails == {};
      while pending != {}
        invariant pending <= expired && done == expired - pending
        invariant db.bookings == CompletedBookings(expiredBookings, done - bookingSaveFails)
        invariant db.cafes == FreedCafes(cafes0, expiredBookings, done - bookingSaveFails - cafeSaveFails)
        invariant completedCount == |done - bookingSaveFails|
        invariant db.wallets == old(db.wallets) && db.payments == old(db.payments)
        decreases pending
      {
        var id :| id in pending;
        PendingStep(expired, pending, done, id);
        pending := pending - {id};
        completedCount := SweepBooking(db, expiredBookings, cafes0, done, id, bookingSaveFails, cafeSaveFails, completedCount);
        done := done + {id};
      }
      assert done == Selected(old(db.bookings), now);
    }
  }

  /** Set bookkeeping of the sweep loop: moving one booking from pending to done. */
  lemma PendingStep(expired: set<BookingId>, pending: set<BookingId>, done: set<BookingId>, id: BookingId)
    requires pending <= expired && done == expired - pending && id in pending
    ensures pending - {id} <= expired && done + {id} == expired - (pending - {id}) && id !in done
  {
  }

  /** Counting the completed bookings: one more unless the booking's save failed. */
  lemma CountStep(done: set<BookingId>, failed: set<BookingId>, id: BookingId)
    requires id !in done
    ensures |(done + {id}) - failed| == |done - failed| + (if id in failed then 0 else 1)
  {
    if id in failed {
      assert (done + {id}) - failed == done - failed;
    } else {
      assert (done + {id}) - failed == (done - failed) + {id};
    }
  }

  /** One iteration of the sweep, for the booking `id`: complete it, then free
      its systems in its cafe; `count` counts the bookings completed so far. */
  method SweepBooking(db: Db, bookings: map<BookingId, Booking>, ghost cafes0: map<CafeId, Cafe>,
                      ghost done: set<BookingId>, id: BookingId,
                      bookingSaveFails: set<BookingId>, cafeSaveFails: set<BookingId>, completedCount: nat)
    returns (count: nat)
    requires id in bookings && id !in done
    requires completedCount == |done - bookingSaveFails|
    requires db.bookings == CompletedBookings(bookings, done - bookingSaveFails)
    requires db.cafes == FreedCafes(cafes0, bookings, done - bookingSaveFails - cafeSaveFails)
    modifies db
    ensures count == |(done + {id}) - bookingSaveFails|
    ensures db.bookings == CompletedBookings(bookings, (done + {id}) - bookingSaveFails)
    ensures db.cafes == FreedCafes(cafes0, bookings, (done + {id}) - bookingSaveFails - cafeSaveFails)
    ensures db.wallets == old(db.wallets) && db.payments == old(db.payments)
  {
    var booking := bookings[id];
    ghost var ok := done - bookingSaveFails - cafeSaveFails;
    CountStep(done, bookingSaveFails, id);
    if id in bookingSaveFails {
      // booking.save() threw: the rest of this booking is skipped.
      assert (done + {id}) - bookingSaveFails == done - bookingSaveFails;
      assert (done + {id}) - bookingSaveFails - cafeSaveFails == ok;
      return completedCount;
    }
    db.bookings := db.bookings[id := booking.(status := Completed)];
    assert (done + {id}) - bookingSaveFails == (done - bookingSaveFails) + {id};
    FreedCafesStep(cafes0, bookings, ok, id);
    if id in cafeSaveFails {
      // cafe.save() threw: the freed systems are not stored.
      assert (done + {id}) - bookingSaveFails - cafeSaveFails == ok;
    } else {
      assert (done + {id}) - bookingSaveFails - cafeSaveFails == ok + {id};
      SweepCafe(db, booking);
    }
    return completedCount + 1;
  }

  /** The cafe half of one booking's processing: load the cafe, free the
      assigned systems that are 'Active', and save only if one was. */
  method SweepCafe(db: Db, booking: Booking)
    modifies db
    ensures booking.cafe !in old(db.cafes) ==> db.cafes == old(db.cafes)
    ensures booking.cafe in old(db.cafes) ==>
              var cur := old(db.cafes)[booking.cafe];
              db.cafes == old(db.cafes)[booking.cafe := cur.(rooms := FreeSlots(cur.rooms, TargetSlots(cur.rooms, booking.assignedSystems)))]
    ensures db.bookings == old(db.bookings) && db.wallets == old(db.wallets) && db.payments == old(db.payments)
  {
    if booking.cafe !in db.cafes {
      return;
    }
    var cafe := db.cafes[booking.cafe];
    if |booking.assignedSystems| > 0 {
      var rooms, cafeUpdated := FreeAssigned(cafe.rooms, booking.assignedSystems);
      if cafeUpdated {
        db.cafes := db.cafes[booking.cafe := cafe.(rooms := rooms)];
      } else {
        assert db.cafes == db.cafes[booking.cafe := cafe.(rooms := rooms)];
      }
    } else {
      assert TargetSlots(cafe.rooms, booking.assignedSystems) == {};
      FreeSlotsEmpty(cafe.rooms);
      assert db.cafes == db.cafes[booking.cafe := cafe];
    }
  }
}
