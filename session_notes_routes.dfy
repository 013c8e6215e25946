/** The session-note routes: appending a note and the participants' newest-first list. */
module SessionNoteRoutes {
  import opened Wrappers
  import opened Tables
  import opened AppointmentModel
  import opened SessionNoteModel
  import opened Store

  /** POST /session-notes by `me`; `now` is the clock reading that becomes `createdAt`. */
  method Append(db: Db, me: Id, appointment: Id, notes: string, attachments: Option<seq<string>>, now: int)
    returns (r: Result<Id>)
    modifies db
    ensures db.users == old(db.users) && db.appointments == old(db.appointments) && db.payments == old(db.payments)
    ensures r.Err? ==> db.notes == old(db.notes)
    ensures notes == "" ==> r == Err(Invalid)
    ensures notes != "" ==>
      if appointment >= |db.appointments| then r == Err(NotFound)
      else if db.appointments[appointment].counselor != me then r == Err(NotAuthorized)
      else
        && r == Ok(|old(db.notes)|)
        && db.notes == old(db.notes) + [SessionNote(appointment, me, db.appointments[appointment].client, notes,
             if attachments.Some? then attachments.value else [], now)]
    ensures r.Ok? ==> SessionNoteModel.WellFormed(db.notes[r.value])
  {
    if notes == "" {
      return Err(Invalid);
    }
    if appointment >= |db.appointments| {
      return Err(NotFound);
    }
    var appointmentDoc := db.appointments[appointment];
    if appointmentDoc.counselor != me {
      return Err(NotAuthorized);
    }
    var note := SessionNote(appointment, me, appointmentDoc.client, notes,
                            if attachments.Some? then attachments.value else [], now);
    db.notes := db.notes + [note];
    r := Ok(|db.notes| - 1);
  }

  /** Every id names a note. */
  predicate InRange(notes: seq<SessionNote>, ids: seq<Id>)
  {
    forall k :: 0 <= k < |ids| ==> ids[k] < |notes|
  }

  /** `sort({createdAt: -1})`: no note is older than the one after it. */
  predicate NewestFirst(notes: seq<SessionNote>, ids: seq<Id>)
    requires InRange(notes, ids)
  {
    forall k :: 0 <= k < |ids| - 1 ==> notes[ids[k]].createdAt >= notes[ids[k + 1]].createdAt
  }

  /** Places `id` in front of the first note that is not newer than it. */
  function InsertNewestFirst(notes: seq<SessionNote>, id: Id, sorted: seq<Id>): (r: seq<Id>)
    requires id < |notes| && InRange(notes, sorted) && NewestFirst(notes, sorted)
    requires id !in sorted && Distinct(sorted)
    ensures InRange(notes, r) && NewestFirst(notes, r) && Distinct(r)
    ensures forall x :: x in r <==> x == id || x in sorted
    ensures |r| == |sorted| + 1
    ensures r[0] == id || r[0] == sorted[0]
  {
    if sorted == [] || notes[id].createdAt >= notes[sorted[0]].createdAt then [id] + sorted
    else
      var rest := InsertNewestFirst(notes, id, sorted[1..]);
      assert forall x :: x in sorted[1..] ==> x in sorted;
      assert forall k :: 0 <= k < |sorted[1..]| ==> sorted[1..][k] == sorted[k + 1] != sorted[0];
      assert sorted[0] !in rest;
      [sorted[0]] + rest
  }

  /** Newest first holds between any two listed notes, not only neighbours. */
  lemma {:induction false} NewestFirstPairs(notes: seq<SessionNote>, ids: seq<Id>, i: nat, j: nat)
    requires InRange(notes, ids) && NewestFirst(notes, ids)
    requires i < j < |ids|
    ensures notes[ids[i]].createdAt >= notes[ids[j]].createdAt
  {
    if j > i + 1 {
      NewestFirstPairs(notes, ids, i, j - 1);
    }
  }

  /** Insertion sort by `createdAt`, newest first. */
  function SortNewestFirst(notes: seq<SessionNote>, ids: seq<Id>): (r: seq<Id>)
    requires InRange(notes, ids) && Distinct(ids)
    ensures InRange(notes, r) && NewestFirst(notes, r) && Distinct(r)
    ensures forall x :: x in r <==> x in ids
    ensures |r| == |ids|
  {
    if ids == [] then []
    else
      assert forall x :: x in ids[1..] ==> x in ids;
      InsertNewestFirst(notes, ids[0], SortNewestFirst(notes, ids[1..]))
  }

  /** GET /session-notes/appointment/:id by `me`. */
  function ListForAppointment(appts: seq<Appointment>, notes: seq<SessionNote>, me: Id, appointment: Id)
    : (r: Result<seq<Id>>)
    ensures appointment >= |appts| ==> r == Err(NotFound)
    ensures appointment < |appts| && me != appts[appointment].client && me != appts[appointment].counselor
      ==> r == Err(NotAuthorized)
    ensures r.Ok? <==> appointment < |appts| && (me == appts[appointment].client || me == appts[appointment].counselor)
    ensures r.Ok? ==> InRange(notes, r.value) && NewestFirst(notes, r.value) && Distinct(r.value)
    ensures r.Ok? ==> forall i: Id :: i in r.value <==> i < |notes| && notes[i].appointment == appointment
  {
    if appointment >= |appts| then Err(NotFound)
    else if me != appts[appointment].client && me != appts[appointment].counselor then Err(NotAuthorized)
    else
      var found := Select(|notes|, (i: Id) => i < |notes| && notes[i].appointment == appointment);
      IncreasingIsDistinct(found);
      assert forall k :: 0 <= k < |found| ==> found[k] in found;
      Ok(SortNewestFirst(notes, found))
  }
}
