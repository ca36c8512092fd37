/** The records the scheduler reads and writes, shaped after what the
    scheduler code actually accesses (not after the stored schemas), and the
    collaborators outside the model, passed in as plain functions. */
module Models {

  import opened Wrappers
  import opened Clock

  /** Lifecycle states of an appointment. */
  datatype Status = Pending | Confirmed | Cancelled | Completed

  /** A stored appointment. `start` and `end` are absolute instants (UTC
      minutes); `end` may be missing on older records. */
  datatype Appointment = Appointment(
    contactId: nat,
    ownerId: string,
    customerPhone: string,
    start: int,
    end: Option<int>,
    service: string,
    notes: Option<string>,
    status: Status)

  /** A contact, identified by its phone number. `current` is the id of the
      contact's active appointment, if any. */
  datatype Contact = Contact(id: nat, phone: string, name: string, current: Option<nat>)

  /** One day of the weekly schedule. `open` and `close` are read only when
      `isOpen` holds. */
  datatype DayHours = DayHours(isOpen: bool, open: ClockTime, close: ClockTime)

  /** A bookable service; a missing or zero duration means "use the default". */
  datatype Service = Service(name: string, duration: Option<int>)

  /** Appointment settings; every field may be missing. */
  datatype Settings = Settings(timezone: Option<string>, defaultDuration: Option<int>, bufferTime: Option<int>)

  /** The business persona as the scheduler reads it: weekly hours keyed by
      lower-case weekday name, the service list and the settings. */
  datatype Persona = Persona(id: string, hours: map<string, DayHours>, services: seq<Service>, settings: Settings)

  /** The repository: contacts by phone number, and appointments in insertion
      order. An appointment's id is its position, so a new one gets the next
      unused id and a query that lists appointments returns them in the
      store's natural (insertion) order. */
  datatype Store = Store(contacts: map<string, Contact>, appointments: seq<Appointment>)

  /** Everything outside the model that the scheduler consults:
      - `now`, the current instant;
      - `zones`, the timezone database: a zone name to the function that
        turns an instant into the local wall-clock minutes, or None for an
        unknown zone;
      - `parseDate`, the date-string parser: None for a string it rejects;
      - `queryWindow`, the instant range of the store query made for a
        candidate instant (from the previous to the next calendar day on the
        server's own clock). */
  datatype Env = Env(
    now: int,
    zones: string -> Option<int -> int>,
    parseDate: string -> Option<int>,
    queryWindow: int -> (int, int))

  /** A store is consistent when every contact is filed under its own phone
      number and every contact's active appointment exists. */
  predicate Consistent(s: Store) {
    && (forall p :: p in s.contacts ==> s.contacts[p].phone == p)
    && (forall p :: p in s.contacts && s.contacts[p].current.Some? ==>
          s.contacts[p].current.value < |s.appointments|)
  }

  /** The contact filed under `phone` has an active appointment that the
      store can resolve. */
  predicate HasActive(s: Store, phone: string) {
    && phone in s.contacts
    && s.contacts[phone].current.Some?
    && s.contacts[phone].current.value < |s.appointments|
  }

  function ActiveId(s: Store, phone: string): (i: nat)
    requires HasActive(s, phone)
    ensures i < |s.appointments|
  {
    s.contacts[phone].current.value
  }
}
