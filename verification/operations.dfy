/** The mutating operations on contacts and appointments: booking,
    cancelling, rescheduling and renaming. Each returns the new store and the
    reply handed back to the agent; failures are replies, never exceptions. */
module Operations {

  import opened Wrappers
  import opened Text
  import opened Models
  import Availability

  const GeneralService := "General"
  const DefaultCancelReason := "User request"
  /** Rescheduling an appointment with no stored end keeps this many minutes. */
  const RescheduleFallbackDuration := 30

  /** Every reply an operation can give. */
  datatype Reply =
    | Checked(result: Availability.Availability)
    | Booked(dateTime: string, duration: int)
    | BookFailed
    | NameUpdated(name: string)
    | CancelDone
    | NothingToCancel
    | Rescheduled(newDateTime: string)
    | NothingToReschedule
    | RescheduleFailed
  {
    /** An operation that gave up: the check could not be made, or the
        booking or rescheduling was not stored. */
    predicate Failure() {
      (Checked? && result.Failed?) || BookFailed? || RescheduleFailed?
    }

    /** A soft refusal because the contact has no active appointment. */
    predicate NoActiveAppointment() {
      NothingToCancel? || NothingToReschedule?
    }
  }

  const FailurePrefix := "Failed"
  const NoActivePrefix := "No active appointment found to "

  /** The human-readable message of a reply. A message opens with "Failed"
      exactly for the failures, and with "No active appointment found to"
      exactly for the refusals for want of an active appointment, so a
      reader of the text alone can tell these outcomes apart. */
  function Message(r: Reply): (m: string)
    ensures r.Failure() <==> StartsWith(m, FailurePrefix)
    ensures r.NoActiveAppointment() <==> StartsWith(m, NoActivePrefix)
  {
    var m :=
      match r
      case Checked(a) =>
        (match a
         case Failed => FailurePrefix + " to check availability"
         case Closed(day) => "We are closed on " + day + "s."
         case OutsideHours(_, _) => "That time is outside our business hours."
         case Busy(_) => "Slot is busy."
         case Free(_) => "Slot available")
      case Booked(dt, d) => "Appointment confirmed for " + dt + " (" + IntToString(d) + " mins)."
      case BookFailed => FailurePrefix + " to book appointment. Please try again."
      case NameUpdated(n) => "Updated name to " + n
      case CancelDone => "Appointment has been successfully cancelled."
      case NothingToCancel => NoActivePrefix + "cancel."
      case Rescheduled(dt) => "Appointment rescheduled to " + dt + "."
      case NothingToReschedule => NoActivePrefix + "reschedule. Please book a new one."
      case RescheduleFailed => FailurePrefix + " to reschedule appointment.";
    FirstCharDecides(m, FailurePrefix);
    FirstCharDecides(m, NoActivePrefix);
    m
  }

  datatype Outcome = Outcome(store: Store, reply: Reply)

  // ---------------------------------------------------------------------
  // Booking

  /** Position of the first service whose name matches `name` ignoring case,
      searching from `from`. */
  function FindService(services: seq<Service>, name: string, from: nat): (r: Option<nat>)
    requires from <= |services|
    ensures r.Some? ==> from <= r.value < |services| && SameName(services[r.value].name, name)
    ensures r.Some? ==> forall j :: from <= j < r.value ==> !SameName(services[j].name, name)
    ensures r.None? ==> forall j :: from <= j < |services| ==> !SameName(services[j].name, name)
    decreases |services| - from
  {
    if from == |services| then None
    else if SameName(services[from].name, name) then Some(from)
    else FindService(services, name, from + 1)
  }

  /** The length of a booking: the first matching service's own duration
      when it has a non-zero one, otherwise the configured default (itself
      30 when missing or zero). An empty service name skips the search. */
  function BookingDuration(p: Persona, serviceName: string): (r: int)
    ensures serviceName == "" ==> r == Availability.SlotDuration(p.settings)
    ensures (forall j :: 0 <= j < |p.services| ==> !SameName(p.services[j].name, serviceName)) ==>
      r == Availability.SlotDuration(p.settings)
    ensures r == Availability.SlotDuration(p.settings) ||
      exists j :: 0 <= j < |p.services| && SameName(p.services[j].name, serviceName) && p.services[j].duration == Some(r) && r != 0
    ensures serviceName != "" ==> forall i ::
      (0 <= i < |p.services| && SameName(p.services[i].name, serviceName) &&
       forall j :: 0 <= j < i ==> !SameName(p.services[j].name, serviceName)) ==>
        r == Availability.OrDefault(p.services[i].duration, Availability.SlotDuration(p.settings))
  {
    var fallback := Availability.SlotDuration(p.settings);
    if serviceName == "" then fallback
    else
      match FindService(p.services, serviceName, 0)
      case None => fallback
      case Some(i) => Availability.OrDefault(p.services[i].duration, fallback)
  }

  /** The appointment a booking creates. */
  function NewAppointment(c: Contact, p: Persona, phone: string, start: int, duration: int,
                          serviceName: string, notes: Option<string>): Appointment
  {
    Appointment(c.id, p.id, phone, start, Some(start + duration),
                if serviceName == "" then GeneralService else serviceName, notes, Confirmed)
  }

  /** Books `dateTime` for the contact filed under `phone`. No availability
      check is made. A missing contact or an unreadable date fails and
      changes nothing. Otherwise a confirmed appointment of the resolved
      duration is appended under the next id and becomes the contact's
      active appointment. */
  function Book(env: Env, store: Store, p: Persona, phone: string, dateTime: string,
                serviceName: string, notes: Option<string>): (r: Outcome)
    ensures phone !in store.contacts || env.parseDate(dateTime).None? ==> r == Outcome(store, BookFailed)
    ensures phone in store.contacts && env.parseDate(dateTime).Some? ==>
      |r.store.appointments| == |store.appointments| + 1
    ensures phone in store.contacts && env.parseDate(dateTime).Some? ==>
      var id := |store.appointments|;
      var start := env.parseDate(dateTime).value;
      var dur := BookingDuration(p, serviceName);
      var a := r.store.appointments[id];
      && r.reply == Booked(dateTime, dur)
      && |r.store.appointments| == id + 1
      && r.store.appointments[..id] == store.appointments
      && a.start == start && a.end == Some(start + dur)
      && a.status == Confirmed
      && a.service == (if serviceName == "" then GeneralService else serviceName)
      && a.notes == notes
      && a.contactId == store.contacts[phone].id && a.customerPhone == phone && a.ownerId == p.id
      && r.store.contacts.Keys == store.contacts.Keys
      && r.store.contacts[phone] == store.contacts[phone].(current := Some(id))
      && (forall q :: q in store.contacts && q != phone ==> r.store.contacts[q] == store.contacts[q])
  {
    if phone !in store.contacts then Outcome(store, BookFailed)
    else
      match env.parseDate(dateTime)
      case None => Outcome(store, BookFailed)
      case Some(start) =>
        var c := store.contacts[phone];
        var dur := BookingDuration(p, serviceName);
        var id := |store.appointments|;
        var a := NewAppointment(c, p, phone, start, dur, serviceName, notes);
        Outcome(Store(store.contacts[phone := c.(current := Some(id))], store.appointments + [a]),
                Booked(dateTime, dur))
  }

  // ---------------------------------------------------------------------
  // Cancelling

  /** The note recorded on cancellation. */
  function CancelTag(reason: Option<string>): string {
    "Cancelled: " + (if Truthy(reason) then reason.value else DefaultCancelReason)
  }

  /** Cancels the contact's active appointment: status cancelled, the
      cancellation tag appended to the notes (after " | " when there are
      notes already), and the contact's reference cleared. Without an active
      appointment nothing changes. */
  function Cancel(store: Store, phone: string, reason: Option<string>): (r: Outcome)
    ensures !HasActive(store, phone) ==> r == Outcome(store, NothingToCancel)
    ensures HasActive(store, phone) ==>
      var i := ActiveId(store, phone);
      var before := store.appointments[i];
      && r.reply == CancelDone
      && |r.store.appointments| == |store.appointments|
      && r.store.appointments[i].status == Cancelled
      && r.store.appointments[i].notes ==
           Some(if Truthy(before.notes) then before.notes.value + " | " + CancelTag(reason) else CancelTag(reason))
      && r.store.appointments[i] == before.(status := r.store.appointments[i].status, notes := r.store.appointments[i].notes)
      && (forall j :: 0 <= j < |store.appointments| && j != i ==> r.store.appointments[j] == store.appointments[j])
      && r.store.contacts.Keys == store.contacts.Keys
      && r.store.contacts[phone] == store.contacts[phone].(current := None)
      && (forall q :: q in store.contacts && q != phone ==> r.store.contacts[q] == store.contacts[q])
  {
    if !HasActive(store, phone) then Outcome(store, NothingToCancel)
    else
      var c := store.contacts[phone];
      var i := ActiveId(store, phone);
      var a := store.appointments[i];
      var notes := if Truthy(a.notes) then a.notes.value + " | " + CancelTag(reason) else CancelTag(reason);
      Outcome(Store(store.contacts[phone := c.(current := None)],
                    store.appointments[i := a.(status := Cancelled, notes := Some(notes))]),
              CancelDone)
  }

  // ---------------------------------------------------------------------
  // Rescheduling

  /** The length an appointment keeps when moved: its stored length, or 30
      minutes when it has no end. */
  function KeptDuration(a: Appointment): int {
    if a.end.Some? then a.end.value - a.start else RescheduleFallbackDuration
  }

  /** Moves the contact's active appointment to `newDateTime`, keeping its
      length, and confirms it. The contact is not touched. Without an active
      appointment nothing changes; an unreadable date fails and changes
      nothing. */
  function Reschedule(env: Env, store: Store, phone: string, newDateTime: string): (r: Outcome)
    ensures !HasActive(store, phone) ==> r == Outcome(store, NothingToReschedule)
    ensures HasActive(store, phone) && env.parseDate(newDateTime).None? ==> r == Outcome(store, RescheduleFailed)
    ensures HasActive(store, phone) ==> |r.store.appointments| == |store.appointments|
    ensures HasActive(store, phone) && env.parseDate(newDateTime).Some? ==>
      var i := ActiveId(store, phone);
      var before := store.appointments[i];
      var a := r.store.appointments[i];
      var start := env.parseDate(newDateTime).value;
      && r.reply == Rescheduled(newDateTime)
      && |r.store.appointments| == |store.appointments|
      && a.start == start
      && a.end.Some?
      && a.end.value - a.start == (if before.end.Some? then before.end.value - before.start else RescheduleFallbackDuration)
      && a.status == Confirmed
      && a == before.(start := a.start, end := a.end, status := a.status)
      && (forall j :: 0 <= j < |store.appointments| && j != i ==> r.store.appointments[j] == store.appointments[j])
      && r.store.contacts == store.contacts
  {
    if !HasActive(store, phone) then Outcome(store, NothingToReschedule)
    else
      var i := ActiveId(store, phone);
      var a := store.appointments[i];
      var dur := KeptDuration(a);
      match env.parseDate(newDateTime)
      case None => Outcome(store, RescheduleFailed)
      case Some(start) =>
        Outcome(Store(store.contacts,
                      store.appointments[i := a.(start := start, end := Some(start + dur), status := Confirmed)]),
                Rescheduled(newDateTime))
  }

  // ---------------------------------------------------------------------
  // Renaming

  /** Sets the name of the contact filed under `phone`. The reply reports
      success even when no contact is filed there, in which case nothing
      changes. */
  function UpdateContactName(store: Store, phone: string, name: string): (r: Outcome)
    ensures r.reply == NameUpdated(name)
    ensures r.store.appointments == store.appointments
    ensures r.store.contacts.Keys == store.contacts.Keys
    ensures phone in store.contacts ==> r.store.contacts[phone] == store.contacts[phone].(name := name)
    ensures forall q :: q in store.contacts && q != phone ==> r.store.contacts[q] == store.contacts[q]
  {
    if phone in store.contacts then
      Outcome(store.(contacts := store.contacts[phone := store.contacts[phone].(name := name)]), NameUpdated(name))
    else Outcome(store, NameUpdated(name))
  }
}
