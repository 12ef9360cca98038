/** /api/counselor/schedule (app/api/counselor/schedule/route.ts). POST
    writes the top-level `availability` / `hourlyRate` from `{ date,
    timeSlots }` schedules, upserting the counselor; GET reads those same
    top-level fields; PUT writes `workPreferences.*` from `{ day, slots }`
    schedules and does not upsert. */
module ScheduleRoute {
  import opened Wrappers
  import opened DateUtil
  import opened Store

  /** A submitted slot; any other fields it carries (the page's `id`) are
      dropped. */
  datatype SlotJson = SlotJson(startTime: string, endTime: string)

  /** One submitted schedule, with the fields either handler may read; a
      field the client did not send is None. */
  datatype ScheduleJson = ScheduleJson(
    date: Option<Instant>,
    timeSlots: Option<seq<SlotJson>>,
    day: Option<Instant>,
    slots: Option<seq<SlotJson>>)

  /** `slots.map(slot => ({ startTime, endTime }))`. */
  function ToSlots(slots: seq<SlotJson>): (r: seq<Slot>)
    ensures |r| == |slots|
    ensures forall i :: 0 <= i < |slots| ==> r[i] == Slot(slots[i].startTime, slots[i].endTime)
  {
    if slots == [] then [] else [Slot(slots[0].startTime, slots[0].endTime)] + ToSlots(slots[1..])
  }

  /** POST's `schedules.map(s => ({ day: s.date, slots: s.timeSlots.map(...) }))`;
      None when some schedule has no `timeSlots` (the map throws). */
  function PostAvailability(schedules: seq<ScheduleJson>): (r: Option<seq<DayEntry>>)
    ensures r.Some? <==> forall i :: 0 <= i < |schedules| ==> schedules[i].timeSlots.Some?
    ensures r.Some? ==> |r.value| == |schedules|
    ensures r.Some? ==> forall i :: 0 <= i < |schedules| ==>
      r.value[i] == DayEntry(schedules[i].date, ToSlots(schedules[i].timeSlots.value))
  {
    if schedules == [] then Some([])
    else if schedules[0].timeSlots.None? then None
    else match PostAvailability(schedules[1..])
      case None => None
      case Some(rest) => Some([DayEntry(schedules[0].date, ToSlots(schedules[0].timeSlots.value))] + rest)
  }

  /** PUT's `schedules.map(s => ({ day: s.day, slots: s.slots.map(...) }))`;
      None when some schedule has no `slots`. */
  function PutAvailability(schedules: seq<ScheduleJson>): (r: Option<seq<DayEntry>>)
    ensures r.Some? <==> forall i :: 0 <= i < |schedules| ==> schedules[i].slots.Some?
    ensures r.Some? ==> |r.value| == |schedules|
    ensures r.Some? ==> forall i :: 0 <= i < |schedules| ==>
      r.value[i] == DayEntry(schedules[i].day, ToSlots(schedules[i].slots.value))
  {
    if schedules == [] then Some([])
    else if schedules[0].slots.None? then None
    else match PutAvailability(schedules[1..])
      case None => None
      case Some(rest) => Some([DayEntry(schedules[0].day, ToSlots(schedules[0].slots.value))] + rest)
  }

  /** The shape app/dashboard/schedule/page.tsx sends: `{ date, timeSlots }`. */
  predicate PageShaped(s: ScheduleJson) {
    s.date.Some? && s.timeSlots.Some? && s.day.None? && s.slots.None?
  }

  /** The page's payload makes the PUT throw exactly when it is non-empty;
      an empty one succeeds and wipes the availability. */
  lemma {:induction false} PagePayloadBreaksPut(schedules: seq<ScheduleJson>)
    requires forall i :: 0 <= i < |schedules| ==> PageShaped(schedules[i])
    ensures PutAvailability(schedules).None? <==> schedules != []
    ensures schedules == [] ==> PutAvailability(schedules) == Some([])
  {
    if schedules != [] {
      assert !schedules[0].slots.Some?;
    }
  }

  /** The same payload is accepted by POST, with each entry's day the
      submitted date. */
  lemma PagePayloadFitsPost(schedules: seq<ScheduleJson>)
    requires forall i :: 0 <= i < |schedules| ==> PageShaped(schedules[i])
    ensures PostAvailability(schedules).Some?
    ensures forall i :: 0 <= i < |schedules| ==> PostAvailability(schedules).value[i].day == schedules[i].date
  {
  }

  /** Two schedules for the same day give two entries: nothing is merged. */
  lemma DuplicateDaysKept(d: Instant, a: seq<SlotJson>, b: seq<SlotJson>)
    ensures var r := PostAvailability([ScheduleJson(Some(d), Some(a), None, None), ScheduleJson(Some(d), Some(b), None, None)]);
      r.Some? && |r.value| == 2 && r.value[0].day == r.value[1].day == Some(d)
  {
  }

  /** The counselor the POST's upsert creates when none exists. The
      fields the handler does not set are left empty. */
  function UpsertedCounselor(userId: Id, availability: seq<DayEntry>, hourlyRate: Option<real>): (c: Counselor)
    ensures c.userId == userId && c.availability == availability && c.hourlyRate == hourlyRate
  {
    Counselor(userId, "", None, [], [], 0, availability, hourlyRate, WorkPreferences([], None))
  }

  /** The POST: 401 without `session.user`, 500 when `schedules` is missing
      or a schedule has no `timeSlots`; otherwise the caller's counselor
      record (created when absent) gets the new top-level availability and
      the rate as sent (None when absent). */
  method PostSchedule(db: Db, sessionUser: Option<Id>, schedules: Option<seq<ScheduleJson>>, hourlyRate: Option<real>)
    returns (r: Response<Counselor>)
    requires db.Valid()
    modifies db`counselors
    ensures db.Valid()
    ensures sessionUser.None? ==> r == Err(Unauthorized)
    ensures sessionUser.Some? && (schedules.None? || PostAvailability(schedules.value).None?) ==> r == Err(ServerError)
    ensures r.Ok? <==> sessionUser.Some? && schedules.Some? && PostAvailability(schedules.value).Some?
    ensures r.Err? ==> db.counselors == old(db.counselors)
    ensures r.Ok? ==>
      sessionUser.Some? && schedules.Some? && PostAvailability(schedules.value).Some?
      && var av := PostAvailability(schedules.value).value;
      match CounselorIndex(old(db.counselors), sessionUser.value)
      case Some(k) =>
        r.body == old(db.counselors)[k].(availability := av, hourlyRate := hourlyRate)
        && db.counselors == old(db.counselors)[k := r.body]
      case None =>
        r.body == UpsertedCounselor(sessionUser.value, av, hourlyRate)
        && db.counselors == old(db.counselors) + [r.body]
  {
    if sessionUser.None? {
      return Err(Unauthorized);
    }
    if schedules.None? || PostAvailability(schedules.value).None? {
      return Err(ServerError);
    }
    var av := PostAvailability(schedules.value).value;
    match CounselorIndex(db.counselors, sessionUser.value)
    case Some(k) =>
      var c := db.counselors[k].(availability := av, hourlyRate := hourlyRate);
      db.counselors := db.counselors[k := c];
      r := Ok(c);
    case None =>
      var c := UpsertedCounselor(sessionUser.value, av, hourlyRate);
      db.counselors := db.counselors + [c];
      r := Ok(c);
  }

  /** The GET: 401 without `session.user`, 404 without a counselor record,
      otherwise its top-level availability and hourly rate. */
  function GetSchedule(counselors: seq<Counselor>, sessionUser: Option<Id>): (r: Response<(seq<DayEntry>, Option<real>)>)
    ensures sessionUser.None? ==> r == Err(Unauthorized)
    ensures sessionUser.Some? ==> (r == Err(NotFound) <==> FindCounselor(counselors, sessionUser.value).None?)
    ensures r.Ok? ==>
      exists i :: 0 <= i < |counselors| && counselors[i].userId == sessionUser.value
        && r.body == (counselors[i].availability, counselors[i].hourlyRate)
  {
    if sessionUser.None? then Err(Unauthorized)
    else match CounselorIndex(counselors, sessionUser.value)
      case None => Err(NotFound)
      case Some(k) => Ok((counselors[k].availability, counselors[k].hourlyRate))
  }

  /** What the POST wrote is what the GET reads back. */
  lemma {:induction false} PostThenGet(cs: seq<Counselor>, k: nat, userId: Id, av: seq<DayEntry>, rate: Option<real>)
    requires CounselorIndex(cs, userId) == Some(k)
    ensures GetSchedule(cs[k := cs[k].(availability := av, hourlyRate := rate)], Some(userId)) == Ok((av, rate))
  {
    var cs' := cs[k := cs[k].(availability := av, hourlyRate := rate)];
    SameUserIdsSameIndex(cs, cs', userId);
  }

  /** Lookups by user id see through any update that keeps every user id. */
  lemma {:induction false} SameUserIdsSameIndex(cs: seq<Counselor>, cs': seq<Counselor>, userId: Id)
    requires |cs| == |cs'| && forall i :: 0 <= i < |cs| ==> cs[i].userId == cs'[i].userId
    ensures CounselorIndex(cs, userId) == CounselorIndex(cs', userId)
  {
    if cs != [] {
      SameUserIdsSameIndex(cs[1..], cs'[1..], userId);
    }
  }

  /** The PUT: 401 without `session.user`, 500 when `schedules` is missing or
      a schedule has no `slots`, 404 without a counselor record; otherwise
      only `workPreferences.availability` and `workPreferences.hourlyRate`
      change, so what the GET returns stays as it was. */
  method PutSchedule(db: Db, sessionUser: Option<Id>, schedules: Option<seq<ScheduleJson>>, hourlyRate: Option<real>)
    returns (r: Response<Counselor>)
    requires db.Valid()
    modifies db`counselors
    ensures db.Valid()
    ensures sessionUser.None? ==> r == Err(Unauthorized)
    ensures sessionUser.Some? && (schedules.None? || PutAvailability(schedules.value).None?) ==> r == Err(ServerError)
    ensures r.Ok? <==>
      sessionUser.Some? && schedules.Some? && PutAvailability(schedules.value).Some?
      && CounselorIndex(old(db.counselors), sessionUser.value).Some?
    ensures r.Err? ==> db.counselors == old(db.counselors)
    ensures r.Ok? ==>
      sessionUser.Some? && schedules.Some? && PutAvailability(schedules.value).Some?
      && CounselorIndex(old(db.counselors), sessionUser.value).Some?
      && var k := CounselorIndex(old(db.counselors), sessionUser.value).value;
      r.body == old(db.counselors)[k].(workPreferences := WorkPreferences(PutAvailability(schedules.value).value, hourlyRate))
      && db.counselors == old(db.counselors)[k := r.body]
    ensures sessionUser.Some? && schedules.Some? && PutAvailability(schedules.value).Some? ==>
      (r == Err(NotFound) <==> CounselorIndex(old(db.counselors), sessionUser.value).None?)
    ensures forall u :: GetSchedule(db.counselors, u) == GetSchedule(old(db.counselors), u)
  {
    if sessionUser.None? {
      return Err(Unauthorized);
    }
    if schedules.None? || PutAvailability(schedules.value).None? {
      return Err(ServerError);
    }
    var av := PutAvailability(schedules.value).value;
    match CounselorIndex(db.counselors, sessionUser.value)
    case None =>
      r := Err(NotFound);
    case Some(k) =>
      var c := db.counselors[k].(workPreferences := WorkPreferences(av, hourlyRate));
      var cs' := db.counselors[k := c];
      forall u: Option<Id> | u.Some? ensures GetSchedule(cs', u) == GetSchedule(db.counselors, u) {
        SameUserIdsSameIndex(db.counselors, cs', u.value);
      }
      db.counselors := cs';
      r := Ok(c);
  }
}
