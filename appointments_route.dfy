/** /api/appointments (app/api/appointments/route.ts): book a CONFIRMED
    appointment (POST), list the caller's appointments by role (GET), and let
    either party set status and notes (PUT). */
module AppointmentsRoute {
  import opened Wrappers
  import opened DateUtil
  import opened Collections
  import opened Sorting
  import opened Store
  import opened Conflicts

  datatype AppointmentRequest = AppointmentRequest(counselorId: Id, date: Instant, startTime: string, endTime: string)

  /** The POST's checks: 401 without `token.userId`, 404 for an unknown
      counselor, 400 when a CONFIRMED appointment has the same counselor,
      date value and start. */
  function CheckAppointmentPost(counselors: seq<Counselor>, appointments: seq<Appointment>, tokenUserId: Option<Id>,
                                req: AppointmentRequest): (r: Response<()>)
    ensures r == Err(Unauthorized) <==> tokenUserId.None?
    ensures tokenUserId.Some? ==> (r == Err(NotFound) <==> FindCounselor(counselors, req.counselorId).None?)
    ensures r.Ok? <==>
      tokenUserId.Some? && FindCounselor(counselors, req.counselorId).Some?
      && !AppointmentConflict(appointments, req.counselorId, req.date, req.startTime)
  {
    if tokenUserId.None? then Err(Unauthorized)
    else if FindCounselor(counselors, req.counselorId).None? then Err(NotFound)
    else if AppointmentConflict(appointments, req.counselorId, req.date, req.startTime) then Err(BadRequest)
    else Ok(())
  }

  /** `Appointment.create({ client: token.userId, ..., status: "CONFIRMED" })`. */
  function NewAppointment(id: Id, caller: Id, req: AppointmentRequest): (a: Appointment)
    ensures a.client == caller && a.counselor == req.counselorId && a.status == "CONFIRMED"
    ensures a.date == req.date && a.startTime == req.startTime && a.endTime == req.endTime
  {
    Appointment(id, caller, req.counselorId, req.date, req.startTime, req.endTime, "CONFIRMED", None)
  }

  /** The POST: one CONFIRMED appointment appended on success, nothing on
      error. */
  method PostAppointment(db: Db, tokenUserId: Option<Id>, req: AppointmentRequest) returns (r: Response<Appointment>)
    requires db.Valid()
    modifies db`appointments, db`nextId
    ensures db.Valid()
    ensures var check := CheckAppointmentPost(db.counselors, old(db.appointments), tokenUserId, req);
      (check.Err? ==> r == Err(check.status) && db.appointments == old(db.appointments))
      && (check.Ok? ==>
        r == Ok(NewAppointment(old(db.nextId), tokenUserId.value, req))
        && db.appointments == old(db.appointments) + [r.body])
  {
    var check := CheckAppointmentPost(db.counselors, db.appointments, tokenUserId, req);
    if check.Err? {
      return Err(check.status);
    }
    var id := db.NewId();
    var a := NewAppointment(id, tokenUserId.value, req);
    AppendFreshAppointment(db.appointments, a, id);
    db.appointments := db.appointments + [a];
    r := Ok(a);
  }

  /** A confirmed booking of a slot makes the identical request conflict. */
  lemma RepeatAppointmentRejected(counselors: seq<Counselor>, appointments: seq<Appointment>, caller: Id,
                                  req: AppointmentRequest, id: Id)
    requires CheckAppointmentPost(counselors, appointments, Some(caller), req).Ok?
    ensures CheckAppointmentPost(counselors, appointments + [NewAppointment(id, caller, req)], Some(caller), req)
      == Err(BadRequest)
  {
    var ap := appointments + [NewAppointment(id, caller, req)];
    assert ap[|appointments|] == NewAppointment(id, caller, req);
  }

  /** A PENDING or CANCELLED appointment at the same slot does not block. */
  lemma UnconfirmedNeverBlocks(appointments: seq<Appointment>, a: Appointment, counselorId: Id, date: Instant, s: string)
    requires a.status != "CONFIRMED"
    ensures AppointmentConflict(appointments + [a], counselorId, date, s) <==> AppointmentConflict(appointments, counselorId, date, s)
  {
    var ap := appointments + [a];
    if AppointmentConflict(ap, counselorId, date, s) {
      var i :| 0 <= i < |ap| && ap[i].counselor == counselorId && ap[i].date == date
        && ap[i].startTime == s && ap[i].status == "CONFIRMED";
      assert i < |appointments| && ap[i] == appointments[i];
    }
    if AppointmentConflict(appointments, counselorId, date, s) {
      var i :| 0 <= i < |appointments| && appointments[i].counselor == counselorId && appointments[i].date == date
        && appointments[i].startTime == s && appointments[i].status == "CONFIRMED";
      assert ap[i] == appointments[i];
    }
  }

  /** `role === "counselor" ? { counselor: id } : { client: id }`. */
  predicate OnSide(asCounselor: bool, caller: Id, a: Appointment) {
    if asCounselor then a.counselor == caller else a.client == caller
  }

  function AppointmentKey(a: Appointment): Key {
    Key(0, a.date, a.startTime)
  }

  /** The GET: 401 without `token.userId`; otherwise every appointment on the
      caller's side, sorted by (date, startTime). */
  function GetAppointments(appointments: seq<Appointment>, tokenUserId: Option<Id>, role: Option<string>)
    : (r: Response<seq<Appointment>>)
    ensures r.Err? <==> tokenUserId.None?
    ensures r.Err? ==> r.status == Unauthorized
    ensures r.Ok? ==>
      SortedBy(r.body, AppointmentKey)
      && multiset(r.body) == multiset(Filter(appointments, a => OnSide(role == Some("counselor"), tokenUserId.value, a)))
      && (forall i :: 0 <= i < |appointments| && OnSide(role == Some("counselor"), tokenUserId.value, appointments[i]) ==> appointments[i] in r.body)
      && (forall i :: 0 <= i < |r.body| ==> r.body[i] in appointments && OnSide(role == Some("counselor"), tokenUserId.value, r.body[i]))
  {
    if tokenUserId.None? then Err(Unauthorized)
    else
      SortedFilter(appointments, a => OnSide(role == Some("counselor"), tokenUserId.value, a), AppointmentKey);
      Ok(SortBy(Filter(appointments, a => OnSide(role == Some("counselor"), tokenUserId.value, a)), AppointmentKey))
  }

  /** Any role other than "counselor", or none, lists the client side. */
  lemma OtherRolesAreClientSide(appointments: seq<Appointment>, caller: Id, role: Option<string>)
    requires role != Some("counselor")
    ensures GetAppointments(appointments, Some(caller), role) == GetAppointments(appointments, Some(caller), Some("client"))
  {
  }

  /** The caller is a party to the appointment. */
  predicate IsParty(a: Appointment, caller: Id) {
    a.client == caller || a.counselor == caller
  }

  /** Position of the first appointment with the id and the caller as a
      party (`findOneAndUpdate({ _id, $or: [...] })`). */
  function PartyIndex(ap: seq<Appointment>, id: Id, caller: Id): (r: Option<nat>)
    ensures r.Some? ==> r.value < |ap| && ap[r.value].id == id && IsParty(ap[r.value], caller)
    ensures r.None? <==> forall i :: 0 <= i < |ap| ==> !(ap[i].id == id && IsParty(ap[i], caller))
  {
    if ap == [] then None
    else if ap[0].id == id && IsParty(ap[0], caller) then Some(0)
    else match PartyIndex(ap[1..], id, caller)
      case None => None
      case Some(i) => Some(i + 1)
  }

  /** The PUT: 401 without `session.user`; 404 when no appointment has the
      id with the caller as a party; otherwise status and notes are set on
      that one appointment. */
  method PutAppointment(db: Db, sessionUser: Option<Id>, appointmentId: Id, status: string, notes: Option<string>)
    returns (r: Response<Appointment>)
    requires db.Valid()
    modifies db`appointments
    ensures db.Valid()
    ensures sessionUser.None? ==> r == Err(Unauthorized) && db.appointments == old(db.appointments)
    ensures sessionUser.Some? ==> match PartyIndex(old(db.appointments), appointmentId, sessionUser.value)
      case None => r == Err(NotFound) && db.appointments == old(db.appointments)
      case Some(k) =>
        r == Ok(old(db.appointments)[k].(status := status, notes := notes))
        && db.appointments == old(db.appointments)[k := r.body]
  {
    if sessionUser.None? {
      return Err(Unauthorized);
    }
    match PartyIndex(db.appointments, appointmentId, sessionUser.value)
    case None =>
      r := Err(NotFound);
    case Some(k) =>
      var a := db.appointments[k].(status := status, notes := notes);
      assert forall i :: 0 <= i < |db.appointments| ==> db.appointments[k := a][i].id == db.appointments[i].id;
      db.appointments := db.appointments[k := a];
      r := Ok(a);
  }

  /** A non-party cannot touch an appointment, even one that exists. */
  lemma NonPartyNotFound(ap: seq<Appointment>, caller: Id, id: Id)
    requires forall i :: 0 <= i < |ap| && ap[i].id == id ==> !IsParty(ap[i], caller)
    ensures PartyIndex(ap, id, caller).None?
  {
  }
}
