/** The appointment routes: booking, the role-scoped list and status updates. */
module AppointmentRoutes {
  import opened Wrappers
  import opened Tables
  import opened UserModel
  import opened AppointmentModel
  import opened Store

  /** `a` is what the availability query `{counselor, date, time, status: "scheduled"}` matches. */
  predicate Occupies(a: Appointment, counselor: Id, date: string, time: string)
  {
    a.counselor == counselor && a.date == date && a.time == time && a.status == Scheduled
  }

  predicate SlotTaken(appts: seq<Appointment>, counselor: Id, date: string, time: string)
  {
    exists i :: 0 <= i < |appts| && Occupies(appts[i], counselor, date, time)
  }

  /** `Appointment.findOne({counselor, date, time, status: "scheduled"})`. */
  function FindScheduled(appts: seq<Appointment>, counselor: Id, date: string, time: string): (r: Option<Id>)
    ensures r.Some? ==> r.value < |appts| && Occupies(appts[r.value], counselor, date, time)
    ensures r.None? <==> !SlotTaken(appts, counselor, date, time)
  {
    var matches := (i: Id) => i < |appts| && Occupies(appts[i], counselor, date, time);
    var found := Select(|appts|, matches);
    assert forall i: Id :: i < |appts| ==> (i in found <==> Occupies(appts[i], counselor, date, time));
    if |found| == 0 then None
    else
      assert found[0] in found;
      Some(found[0])
  }

  /** At most one scheduled appointment per (counselor, date, time). */
  predicate NoDoubleBooking(appts: seq<Appointment>)
  {
    forall i, j :: 0 <= i < |appts| && 0 <= j < |appts| && i != j && appts[i].status == Scheduled ==>
      !Occupies(appts[j], appts[i].counselor, appts[i].date, appts[i].time)
  }

  /** The appointment table after `appointment.status = st; appointment.save()`. */
  function WithStatus(appts: seq<Appointment>, id: Id, st: Status): seq<Appointment>
    requires id < |appts|
  {
    appts[id := appts[id].(status := st)]
  }

  /** POST /appointments by `requester`. `meetingLink` is the token the link
      generator hands out for this booking. */
  method Book(db: Db, requester: Id, counselor: Id, date: string, time: string,
              duration: Option<int>, kind: string, meetingLink: string)
    returns (r: Result<Id>)
    modifies db
    ensures db.users == old(db.users) && db.payments == old(db.payments) && db.notes == old(db.notes)
    ensures r.Err? ==> db.appointments == old(db.appointments)
    ensures date == "" || time == "" || kind == "" ==> r == Err(Invalid)
    ensures date != "" && time != "" && kind != "" ==>
      if !IsCounselor(db.users, counselor) then r == Err(NotFound)
      else if SlotTaken(old(db.appointments), counselor, date, time) then r == Err(Conflict)
      else if CastKind(kind).None? then r == Err(ServerError)
      else
        && r == Ok(|old(db.appointments)|)
        && db.appointments == old(db.appointments) + [Appointment(requester, counselor, date, time,
             DurationOrDefault(duration), CastKind(kind).value, DefaultStatus, Some(meetingLink))]
    ensures r.Ok? ==> AppointmentModel.WellFormed(db.appointments[r.value])
    ensures r.Ok? ==> Occupies(db.appointments[r.value], counselor, date, time)
    ensures NoDoubleBooking(old(db.appointments)) ==> NoDoubleBooking(db.appointments)
  {
    if date == "" || time == "" || kind == "" {
      return Err(Invalid);
    }
    if !(counselor < |db.users| && db.users[counselor].role == Counselor) {
      return Err(NotFound);
    }
    var appts := db.appointments;
    var existing := FindScheduled(appts, counselor, date, time);
    if existing.Some? {
      return Err(Conflict);
    }
    var k := CastKind(kind);
    if k.None? {
      return Err(ServerError);
    }
    var appointment := Appointment(requester, counselor, date, time, DurationOrDefault(duration),
                                   k.value, DefaultStatus, Some(meetingLink));
    if NoDoubleBooking(appts) {
      BookKeepsNoDoubleBooking(appts, appointment);
    }
    db.appointments := appts + [appointment];
    r := Ok(|appts|);
  }

  /** POST /appointments as the route is written: `generateMeetingLink` is
      defined nowhere, so building the record throws a ReferenceError once the
      guards pass and the handler answers 500. No booking ever succeeds. */
  method BookAsWritten(db: Db, requester: Id, counselor: Id, date: string, time: string,
                       duration: Option<int>, kind: string)
    returns (r: Result<Id>)
    ensures r.Err?
    ensures date == "" || time == "" || kind == "" ==> r == Err(Invalid)
    ensures date != "" && time != "" && kind != "" ==>
      if !IsCounselor(db.users, counselor) then r == Err(NotFound)
      else if SlotTaken(db.appointments, counselor, date, time) then r == Err(Conflict)
      else r == Err(ServerError)
  {
    if date == "" || time == "" || kind == "" {
      return Err(Invalid);
    }
    if !(counselor < |db.users| && db.users[counselor].role == Counselor) {
      return Err(NotFound);
    }
    if FindScheduled(db.appointments, counselor, date, time).Some? {
      return Err(Conflict);
    }
    r := Err(ServerError);
  }

  /** Inserting a scheduled appointment into a free slot keeps every slot single-booked. */
  lemma BookKeepsNoDoubleBooking(appts: seq<Appointment>, a: Appointment)
    requires NoDoubleBooking(appts)
    requires !SlotTaken(appts, a.counselor, a.date, a.time)
    ensures NoDoubleBooking(appts + [a])
  {
  }

  /** After a booking, its slot is taken, so booking it again is a Conflict;
      every other slot is exactly as free as before. */
  lemma BookedSlotIsTaken(appts: seq<Appointment>, a: Appointment, counselor: Id, date: string, time: string)
    requires a.status == Scheduled
    ensures SlotTaken(appts + [a], a.counselor, a.date, a.time)
    ensures (counselor, date, time) != (a.counselor, a.date, a.time) ==>
      (SlotTaken(appts + [a], counselor, date, time) <==> SlotTaken(appts, counselor, date, time))
  {
    var s := appts + [a];
    assert Occupies(s[|appts|], a.counselor, a.date, a.time);
    if SlotTaken(appts, counselor, date, time) {
      var i :| 0 <= i < |appts| && Occupies(appts[i], counselor, date, time);
      assert Occupies(s[i], counselor, date, time);
    }
  }

  /** Appointments of the slot that are completed or cancelled do not block a booking. */
  lemma FinishedDoNotBlock(appts: seq<Appointment>, counselor: Id, date: string, time: string)
    requires forall i :: 0 <= i < |appts| ==>
      (appts[i].counselor == counselor && appts[i].date == date && appts[i].time == time ==>
         appts[i].status in {Completed, Cancelled})
    ensures !SlotTaken(appts, counselor, date, time)
  {
  }

  /** GET /appointments: the requester's own appointments, by role. */
  function ListForUser(appts: seq<Appointment>, me: Requester): (r: Result<seq<Id>>)
    ensures r.Err? <==> me.role == Admin
    ensures r.Err? ==> r.error == NotAuthorized
    ensures r.Ok? ==> Increasing(r.value)
    ensures me.role == Client ==> forall i: Id :: i in r.value <==> i < |appts| && appts[i].client == me.id
    ensures me.role == Counselor ==> forall i: Id :: i in r.value <==> i < |appts| && appts[i].counselor == me.id
  {
    match me.role
    case Client => Ok(Select(|appts|, (i: Id) => i < |appts| && appts[i].client == me.id))
    case Counselor => Ok(Select(|appts|, (i: Id) => i < |appts| && appts[i].counselor == me.id))
    case Admin => Err(NotAuthorized)
  }

  /** Nobody is shown an appointment they do not take part in. */
  lemma ListedOnlyToParticipants(appts: seq<Appointment>, me: Requester, i: Id)
    requires ListForUser(appts, me).Ok? && i in ListForUser(appts, me).value
    ensures i < |appts| && (appts[i].client == me.id || appts[i].counselor == me.id)
  {
  }

  /** PUT /appointments/:id/status by `requester` with body `{status}`. */
  method SetStatus(db: Db, requester: Id, id: Id, status: string) returns (r: Result<Appointment>)
    modifies db
    ensures db.users == old(db.users) && db.payments == old(db.payments) && db.notes == old(db.notes)
    ensures r.Err? ==> db.appointments == old(db.appointments)
    ensures id >= |old(db.appointments)| ==> r == Err(NotFound)
    ensures id < |old(db.appointments)| ==>
      var a := old(db.appointments)[id];
      if requester != a.client && requester != a.counselor then r == Err(NotAuthorized)
      else if CastStatus(Some(status)).None? then r == Err(ServerError)
      else
        && db.appointments == WithStatus(old(db.appointments), id, CastStatus(Some(status)).value)
        && r == Ok(db.appointments[id])
    ensures r.Ok? ==> StatusName(r.value.status) == status
  {
    if id >= |db.appointments| {
      return Err(NotFound);
    }
    var a := db.appointments[id];
    if a.client != requester && a.counselor != requester {
      return Err(NotAuthorized);
    }
    var st := CastStatus(Some(status));
    if st.None? {
      return Err(ServerError);
    }
    db.appointments := WithStatus(db.appointments, id, st.value);
    r := Ok(db.appointments[id]);
  }

  /** A status change keeps slots single-booked when it leaves the slot free
      (completed, cancelled) or re-affirms an appointment already scheduled. */
  lemma RestatusKeepsNoDoubleBooking(appts: seq<Appointment>, id: Id, st: Status)
    requires id < |appts| && NoDoubleBooking(appts)
    requires st != Scheduled || appts[id].status == Scheduled
    ensures NoDoubleBooking(WithStatus(appts, id, st))
  {
  }

  /** Setting a cancelled appointment back to scheduled (as SetStatus and
      Confirm both can) double-books a slot that was booked again meanwhile. */
  lemma RescheduleCanDoubleBook()
    ensures exists appts: seq<Appointment>, id: Id ::
      id < |appts| && NoDoubleBooking(appts) && !NoDoubleBooking(WithStatus(appts, id, Scheduled))
  {
    var cancelled := Appointment(0, 1, "2024-05-06", "10:00", 60, Career, Cancelled, None);
    var rebooked := cancelled.(client := 2, status := Scheduled);
    var appts := [cancelled, rebooked];
    assert NoDoubleBooking(appts);
    var s := WithStatus(appts, 0, Scheduled);
    assert s[0].status == Scheduled && Occupies(s[1], s[0].counselor, s[0].date, s[0].time);
  }
}
