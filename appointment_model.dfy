/** The Appointment schema. */
module AppointmentModel {
  import opened Wrappers
  import opened Tables

  /** The `type` enum (a Dafny keyword, hence `Kind`). */
  datatype Kind = MentalHealth | Relationship | Career

  datatype Status = Scheduled | Completed | Cancelled

  function KindName(k: Kind): string
  {
    match k
    case MentalHealth => "mental-health"
    case Relationship => "relationship"
    case Career => "career"
  }

  function StatusName(s: Status): string
  {
    match s
    case Scheduled => "scheduled"
    case Completed => "completed"
    case Cancelled => "cancelled"
  }

  /** `type` is required and has no default: only an enum name is accepted. */
  function CastKind(s: string): (r: Option<Kind>)
    ensures r.Some? ==> KindName(r.value) == s
    ensures r.None? ==> forall k :: KindName(k) != s
  {
    if s == "mental-health" then Some(MentalHealth)
    else if s == "relationship" then Some(Relationship)
    else if s == "career" then Some(Career)
    else None
  }

  const DefaultStatus: Status := Scheduled

  /** `status` defaults to scheduled; a present value must be an enum name. */
  function CastStatus(s: Option<string>): (r: Option<Status>)
    ensures s.None? ==> r == Some(DefaultStatus)
    ensures s.Some? && r.Some? ==> StatusName(r.value) == s.value
    ensures s.Some? && r.None? ==> forall st :: StatusName(st) != s.value
  {
    match s
    case None => Some(DefaultStatus)
    case Some(name) =>
      if name == "scheduled" then Some(Scheduled)
      else if name == "completed" then Some(Completed)
      else if name == "cancelled" then Some(Cancelled)
      else None
  }

  lemma CastNames(k: Kind, st: Status)
    ensures CastKind(KindName(k)) == Some(k)
    ensures CastStatus(Some(StatusName(st))) == Some(st)
  {
  }

  const DefaultDuration: int := 60

  /** `duration || 60`: an absent or zero duration (both falsy) becomes the default. */
  function DurationOrDefault(d: Option<int>): (r: int)
    ensures r != 0
    ensures d.Some? && d.value != 0 ==> r == d.value
    ensures d.None? || d.value == 0 ==> r == DefaultDuration
  {
    if d.Some? && d.value != 0 then d.value else DefaultDuration
  }

  datatype Appointment = Appointment(
    client: Id,
    counselor: Id,
    date: string,
    time: string,
    duration: int,
    kind: Kind,
    status: Status,
    meetingLink: Option<string>)

  /** The required string fields are present. */
  predicate WellFormed(a: Appointment)
  {
    a.date != "" && a.time != ""
  }
}
