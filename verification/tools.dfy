/** The tool catalog offered to the language model, the closed set of tool
    calls it can make, and the dispatch of a call to its operation on behalf
    of the contact in the conversation. */
module Tools {

  import opened Wrappers
  import opened Models
  import Availability
  import opened Operations

  /** A declared tool: its name, the argument names it accepts and those it
      requires. */
  datatype ToolSpec = ToolSpec(name: string, properties: seq<string>, required: seq<string>)

  const Catalog: seq<ToolSpec> := [
    ToolSpec("checkAvailability", ["dateTime"], ["dateTime"]),
    ToolSpec("bookAppointment", ["dateTime", "serviceName", "notes"], ["dateTime", "serviceName"]),
    ToolSpec("updateContactName", ["name"], ["name"]),
    ToolSpec("cancelAppointment", ["reason"], []),
    ToolSpec("rescheduleAppointment", ["newDateTime"], ["newDateTime"])
  ]

  /** A tool call with its arguments; optional arguments may be missing. */
  datatype ToolCall =
    | CheckAvailabilityCall(dateTime: string)
    | BookAppointmentCall(dateTime: string, serviceName: string, notes: Option<string>)
    | UpdateContactNameCall(name: string)
    | CancelAppointmentCall(reason: Option<string>)
    | RescheduleAppointmentCall(newDateTime: string)
  {
    /** The name under which the catalog declares this call's tool. */
    function Name(): string {
      match this
      case CheckAvailabilityCall(_) => "checkAvailability"
      case BookAppointmentCall(_, _, _) => "bookAppointment"
      case UpdateContactNameCall(_) => "updateContactName"
      case CancelAppointmentCall(_) => "cancelAppointment"
      case RescheduleAppointmentCall(_) => "rescheduleAppointment"
    }

    /** The call's arguments as the name-to-string object the model sends. */
    function Args(): map<string, string> {
      match this
      case CheckAvailabilityCall(dt) => map["dateTime" := dt]
      case BookAppointmentCall(dt, sn, notes) =>
        map["dateTime" := dt, "serviceName" := sn] + Optional("notes", notes)
      case UpdateContactNameCall(n) => map["name" := n]
      case CancelAppointmentCall(reason) => Optional("reason", reason)
      case RescheduleAppointmentCall(dt) => map["newDateTime" := dt]
    }
  }

  function Optional(key: string, v: Option<string>): map<string, string> {
    if v.Some? then map[key := v.value] else map[]
  }

  function Get(args: map<string, string>, key: string): Option<string> {
    if key in args then Some(args[key]) else None
  }

  /** The catalog entry declared under `name`, if any. */
  function SpecNamed(name: string): (r: Option<ToolSpec>)
    ensures r.Some? ==> r.value in Catalog && r.value.name == name
    ensures r.None? ==> forall s :: s in Catalog ==> s.name != name
  {
    if name == Catalog[0].name then Some(Catalog[0])
    else if name == Catalog[1].name then Some(Catalog[1])
    else if name == Catalog[2].name then Some(Catalog[2])
    else if name == Catalog[3].name then Some(Catalog[3])
    else if name == Catalog[4].name then Some(Catalog[4])
    else None
  }

  /** Reads a call the model asked for. An unknown tool name, or a call that
      lacks one of its tool's required arguments, gives None. Otherwise the
      call carries exactly the sent values of its tool's declared arguments;
      any other key is ignored. */
  function Decode(name: string, args: map<string, string>): (r: Option<ToolCall>)
    ensures r.Some? ==> r.value.Name() == name
    ensures r.Some? <==> SpecNamed(name).Some? && forall k :: k in SpecNamed(name).value.required ==> k in args
    ensures r.Some? ==> forall k :: k in r.value.Args() ==> k in args && r.value.Args()[k] == args[k]
    ensures r.Some? ==> forall k :: k in args && k in SpecNamed(name).value.properties ==> k in r.value.Args()
  {
    if name == "checkAvailability" then
      if "dateTime" in args then Some(CheckAvailabilityCall(args["dateTime"])) else None
    else if name == "bookAppointment" then
      if "dateTime" in args && "serviceName" in args
      then Some(BookAppointmentCall(args["dateTime"], args["serviceName"], Get(args, "notes")))
      else None
    else if name == "updateContactName" then
      if "name" in args then Some(UpdateContactNameCall(args["name"])) else None
    else if name == "cancelAppointment" then
      Some(CancelAppointmentCall(Get(args, "reason")))
    else if name == "rescheduleAppointment" then
      if "newDateTime" in args then Some(RescheduleAppointmentCall(args["newDateTime"])) else None
    else None
  }

  /** Every call conforms to its catalog entry: the tool is declared, the
      call sends every required argument and only declared ones, and
      reading the call back gives the same call. */
  lemma CallsConformToCatalog(call: ToolCall)
    ensures SpecNamed(call.Name()).Some?
    ensures forall k :: k in SpecNamed(call.Name()).value.required ==> k in call.Args()
    ensures forall k :: k in call.Args() ==> k in SpecNamed(call.Name()).value.properties
    ensures Decode(call.Name(), call.Args()) == Some(call)
  {
  }

  /** The catalog declares each tool name once, and every required argument
      is a declared one. */
  lemma CatalogIsWellFormed()
    ensures forall i, j :: 0 <= i < j < |Catalog| ==> Catalog[i].name != Catalog[j].name
    ensures forall s, k :: s in Catalog && k in s.required ==> k in s.properties
  {
  }

  // ---------------------------------------------------------------------
  // Dispatch

  /** The appointments whose start lies in [lo, hi], in store order. The
      query filters on the date alone: status and owner are not looked at. */
  function InWindow(appts: seq<Appointment>, lo: int, hi: int): (r: seq<Appointment>)
    ensures forall a :: a in r <==> a in appts && lo <= a.start <= hi
  {
    if |appts| == 0 then []
    else
      var rest := InWindow(appts[1..], lo, hi);
      assert forall a :: a in appts <==> a == appts[0] || a in appts[1..];
      if lo <= appts[0].start <= hi then [appts[0]] + rest else rest
  }

  /** What the store's date query returns for a candidate date string: the
      appointments within the window around the parsed instant. */
  function Found(env: Env, store: Store, dateTime: string): seq<Appointment> {
    match env.parseDate(dateTime)
    case None => []
    case Some(t) => InWindow(store.appointments, env.queryWindow(t).0, env.queryWindow(t).1)
  }

  /** Runs one tool call on behalf of the contact filed under `phone`: each
      call reaches its own operation, and no call touches another contact. */
  function Dispatch(env: Env, store: Store, p: Persona, phone: string, call: ToolCall): (r: Outcome)
    ensures call.CheckAvailabilityCall? ==> r.store == store
    ensures call.CheckAvailabilityCall? ==>
      r.reply == Checked(Availability.CheckAvailability(env, p, call.dateTime, Found(env, store, call.dateTime)))
    ensures call.BookAppointmentCall? ==>
      r == Book(env, store, p, phone, call.dateTime, call.serviceName, call.notes)
    ensures call.UpdateContactNameCall? ==> r == UpdateContactName(store, phone, call.name)
    ensures call.CancelAppointmentCall? ==> r == Cancel(store, phone, call.reason)
    ensures call.RescheduleAppointmentCall? ==> r == Reschedule(env, store, phone, call.newDateTime)
    ensures r.store.contacts.Keys == store.contacts.Keys
    ensures forall q :: q in store.contacts && q != phone ==> r.store.contacts[q] == store.contacts[q]
    ensures Consistent(store) ==> Consistent(r.store)
  {
    match call
    case CheckAvailabilityCall(dt) =>
      Outcome(store, Checked(Availability.CheckAvailability(env, p, dt, Found(env, store, dt))))
    case BookAppointmentCall(dt, sn, notes) => Book(env, store, p, phone, dt, sn, notes)
    case UpdateContactNameCall(n) => UpdateContactName(store, phone, n)
    case CancelAppointmentCall(reason) => Cancel(store, phone, reason)
    case RescheduleAppointmentCall(dt) => Reschedule(env, store, phone, dt)
  }
}
