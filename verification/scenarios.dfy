/** Worked examples on concrete inputs: a business open Monday to Friday,
    09:00 to 17:00, five hours behind UTC, with 30-minute slots and a
    5-minute buffer. Instants are minutes since 1970-01-01 00:00 UTC. */
module Scenarios {

  import opened Wrappers
  import opened Clock
  import opened Models
  import Availability
  import opened Operations
  import opened Tools

  const Zone := "America/Bogota"

  /** 2024-06-10 14:00 UTC, a Monday, 09:00 local. */
  const MondayNine := 28633800
  /** 2024-06-10 14:10 UTC, 09:10 local. */
  const MondayNineTen := 28633810
  /** 2024-06-09 14:00 UTC, a Sunday. */
  const SundayNine := 28632360

  function Parse(s: string): Option<int> {
    if s == "2024-06-10T14:00:00Z" then Some(MondayNine)
    else if s == "2024-06-10T14:10:00Z" then Some(MondayNineTen)
    else if s == "2024-06-09T14:00:00Z" then Some(SundayNine)
    else None
  }

  function Zones(name: string): Option<int -> int> {
    if name == Zone then Some((t: int) => t - 5 * MinutesPerHour) else None
  }

  /** The clock reads an hour before the Monday slot. */
  function TestEnv(): Env {
    Env(MondayNine - 60, Zones, Parse, (t: int) => (t - 2 * MinutesPerDay, t + 2 * MinutesPerDay))
  }

  function Weekday(): DayHours { DayHours(true, ClockTime(9, 0), ClockTime(17, 0)) }
  function Weekend(): DayHours { DayHours(false, ClockTime(0, 0), ClockTime(0, 0)) }

  function Shop(): Persona {
    Persona("owner-1",
            map["monday" := Weekday(), "tuesday" := Weekday(), "wednesday" := Weekday(),
                "thursday" := Weekday(), "friday" := Weekday(),
                "saturday" := Weekend(), "sunday" := Weekend()],
            [Service("Haircut", Some(45)), Service("Shave", None)],
            Settings(Some(Zone), Some(30), Some(5)))
  }

  const Phone := "+5730000000"

  function Customer(): Store {
    Store(map[Phone := Contact(7, Phone, "Cliente", None)], [])
  }

  /** The store after booking 09:00 Monday for the customer. */
  function BookedStore(): Store {
    Store(map[Phone := Contact(7, Phone, "Cliente", Some(0))],
          [Appointment(7, "owner-1", Phone, MondayNine, Some(MondayNine + 30), "General", None, Confirmed)])
  }

  /** 09:00 on an empty Monday is free. */
  lemma EmptyMondayNineIsFree()
    ensures Dispatch(TestEnv(), Customer(), Shop(), Phone, CheckAvailabilityCall("2024-06-10T14:00:00Z")).reply.result.Free?
  {
    assert WeekdayName(MondayNine - 300) == "monday";
  }

  /** Booking 09:00 with no service name gives a 30-minute "General"
      appointment that becomes the customer's active one. */
  lemma BookMondayNine()
    ensures Dispatch(TestEnv(), Customer(), Shop(), Phone, BookAppointmentCall("2024-06-10T14:00:00Z", "", None))
      == Outcome(BookedStore(), Booked("2024-06-10T14:00:00Z", 30))
  {
  }

  /** Once 09:00 is booked, 09:10 is busy: it falls inside the booked slot
      plus its buffer. */
  lemma BookedSlotBlocksTenPastNine()
    ensures Dispatch(TestEnv(), BookedStore(), Shop(), Phone, CheckAvailabilityCall("2024-06-10T14:10:00Z")).reply.result.Busy?
  {
    assert WeekdayName(MondayNineTen - 300) == "monday";
    var found := Found(TestEnv(), BookedStore(), "2024-06-10T14:10:00Z");
    assert BookedStore().appointments[0] in found;
  }

  /** A service name matches ignoring case and brings its own duration. */
  lemma ServiceNameMatchesIgnoringCase()
    ensures BookingDuration(Shop(), "haircut") == 45
  {
    var l := Text.Lower("Haircut");
    assert l[0] == 'h';
    assert l == "haircut";
    assert Text.Lower("haircut") == "haircut";
  }

  /** A matching service without a duration falls back to the default. */
  lemma ServiceWithoutDurationUsesDefault()
    ensures BookingDuration(Shop(), "Shave") == 30
  {
    assert Text.Lower("Haircut")[0] != Text.Lower("Shave")[0];
  }

  /** On a closed Sunday the check reports the closure and lists no slots. */
  lemma SundayIsClosed()
    ensures Dispatch(TestEnv(), Customer(), Shop(), Phone, CheckAvailabilityCall("2024-06-09T14:00:00Z")).reply
      == Checked(Availability.Closed("sunday"))
    ensures Message(Dispatch(TestEnv(), Customer(), Shop(), Phone, CheckAvailabilityCall("2024-06-09T14:00:00Z")).reply)
      == "We are closed on sundays."
  {
    assert WeekdayName(SundayNine - 300) == "sunday";
  }

  /** Cancelling for a contact without an active appointment is a soft
      failure that changes nothing. */
  lemma CancelWithoutAppointment()
    ensures Dispatch(TestEnv(), Customer(), Shop(), Phone, CancelAppointmentCall(None)) == Outcome(Customer(), NothingToCancel)
    ensures Message(Dispatch(TestEnv(), Customer(), Shop(), Phone, CancelAppointmentCall(None)).reply)
      == "No active appointment found to cancel."
  {
  }

  /** An unknown zone name makes the check fail softly. */
  lemma UnknownZoneFails()
    ensures Dispatch(TestEnv(), Customer(), Shop().(settings := Settings(Some("Mars/Olympus"), None, None)),
                     Phone, CheckAvailabilityCall("2024-06-10T14:00:00Z")).reply == Checked(Availability.Failed)
  {
  }
}
