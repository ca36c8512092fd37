/** How the operations compose over an appointment's life: booking then
    cancelling, booking then rescheduling, cancelling twice, and what a
    cancellation does (and does not do) to later availability checks. */
module Lifecycle {

  import opened Wrappers
  import opened Models
  import Availability
  import opened Operations
  import opened Tools

  /** A successful booking followed by a cancellation leaves the contact
      without an active appointment and the booked appointment cancelled. */
  lemma BookThenCancel(env: Env, store: Store, p: Persona, phone: string, dateTime: string,
                       serviceName: string, notes: Option<string>, reason: Option<string>)
    requires phone in store.contacts && env.parseDate(dateTime).Some?
    ensures
      var booked := Book(env, store, p, phone, dateTime, serviceName, notes).store;
      var cancelled := Cancel(booked, phone, reason);
      var id := |store.appointments|;
      && cancelled.reply == CancelDone
      && cancelled.store.contacts[phone].current.None?
      && cancelled.store.appointments[id].status == Cancelled
      && cancelled.store.appointments[id].start == booked.appointments[id].start
      && cancelled.store.appointments[..id] == store.appointments
  {
    var booked := Book(env, store, p, phone, dateTime, serviceName, notes).store;
    assert HasActive(booked, phone);
    var cancelled := Cancel(booked, phone, reason).store;
    var id := |store.appointments|;
    assert cancelled.appointments[..id] == booked.appointments[..id] by {
      forall j | 0 <= j < id ensures cancelled.appointments[j] == booked.appointments[j] { }
    }
  }

  /** A successful booking followed by a reschedule to a readable date keeps
      the booked length and the contact's reference. */
  lemma BookThenReschedule(env: Env, store: Store, p: Persona, phone: string, dateTime: string,
                           serviceName: string, notes: Option<string>, newDateTime: string)
    requires phone in store.contacts && env.parseDate(dateTime).Some? && env.parseDate(newDateTime).Some?
    ensures
      var booked := Book(env, store, p, phone, dateTime, serviceName, notes).store;
      var moved := Reschedule(env, booked, phone, newDateTime);
      var id := |store.appointments|;
      var a := moved.store.appointments[id];
      && moved.reply == Rescheduled(newDateTime)
      && a.start == env.parseDate(newDateTime).value
      && a.end == Some(a.start + BookingDuration(p, serviceName))
      && a.status == Confirmed
      && moved.store.contacts[phone].current == Some(id)
  {
    var booked := Book(env, store, p, phone, dateTime, serviceName, notes).store;
    assert HasActive(booked, phone);
  }

  /** Cancelling twice: the second call finds nothing to cancel and changes
      nothing. */
  lemma CancelTwice(store: Store, phone: string, r1: Option<string>, r2: Option<string>)
    ensures
      var once := Cancel(store, phone, r1).store;
      Cancel(once, phone, r2) == Outcome(once, NothingToCancel)
  {
  }

  /** The date query over two appointment lists with the same times
      returns lists with the same times. */
  lemma {:induction false} WindowKeepsSameTimes(a: seq<Appointment>, b: seq<Appointment>, lo: int, hi: int)
    requires Availability.Times(a) == Availability.Times(b)
    ensures Availability.Times(InWindow(a, lo, hi)) == Availability.Times(InWindow(b, lo, hi))
  {
    if |a| > 0 {
      assert Availability.Times(a)[0] == Availability.Times(b)[0];
      assert Availability.Times(a[1..]) == Availability.Times(a)[1..]
          == Availability.Times(b)[1..] == Availability.Times(b[1..]);
      WindowKeepsSameTimes(a[1..], b[1..], lo, hi);
      var ra := InWindow(a[1..], lo, hi);
      var rb := InWindow(b[1..], lo, hi);
      if lo <= a[0].start <= hi {
        assert ([a[0]] + ra)[1..] == ra && ([b[0]] + rb)[1..] == rb;
      }
    }
  }

  /** Cancelling does not free the slot: the store's date query does not
      filter by status, so every availability check answers exactly as it
      did before the cancellation. */
  lemma CancelDoesNotFreeSlot(env: Env, store: Store, p: Persona, phone: string, reason: Option<string>, dateTime: string)
    ensures
      var after := Cancel(store, phone, reason).store;
      Dispatch(env, after, p, phone, CheckAvailabilityCall(dateTime)).reply
        == Dispatch(env, store, p, phone, CheckAvailabilityCall(dateTime)).reply
  {
    var after := Cancel(store, phone, reason).store;
    assert Availability.Times(store.appointments) == Availability.Times(after.appointments);
    match env.parseDate(dateTime)
    case None =>
    case Some(t) =>
      WindowKeepsSameTimes(store.appointments, after.appointments, env.queryWindow(t).0, env.queryWindow(t).1);
      Availability.OnlyTimesMatter(env, p, dateTime, Found(env, store, dateTime), Found(env, after, dateTime));
  }
}
