/** The User schema. */
module UserModel {
  import opened Wrappers
  import opened Tables

  datatype Role = Client | Counselor | Admin

  function RoleName(r: Role): string
  {
    match r
    case Client => "client"
    case Counselor => "counselor"
    case Admin => "admin"
  }

  const DefaultRole: Role := Client

  /** How the schema reads a stored `role`: absent takes the default, and a
      present value must be one of the enum's names. No route of the core casts
      a role: users are created by registration, which is not part of this model. */
  function CastRole(s: Option<string>): (r: Option<Role>)
    ensures s.None? ==> r == Some(DefaultRole)
    ensures s.Some? && r.Some? ==> RoleName(r.value) == s.value
    ensures s.Some? && r.None? ==> forall role :: RoleName(role) != s.value
  {
    match s
    case None => Some(DefaultRole)
    case Some(name) =>
      if name == "client" then Some(Client)
      else if name == "counselor" then Some(Counselor)
      else if name == "admin" then Some(Admin)
      else None
  }

  lemma CastRoleName(role: Role)
    ensures CastRole(Some(RoleName(role))) == Some(role)
  {
  }

  datatype User = User(
    firstName: string,
    lastName: string,
    email: string,
    password: string,
    role: Role,
    specialization: Option<string>,
    bio: Option<string>,
    profilePicture: Option<string>,
    availableSlots: seq<string>)

  /** The schema's conditional `required` on specialization. */
  predicate SpecializationRequired(role: Role)
  {
    role == Counselor
  }

  /** The validators a user document passes before it is stored. */
  predicate WellFormed(u: User)
  {
    && u.firstName != "" && u.lastName != "" && u.email != "" && u.password != ""
    && (SpecializationRequired(u.role) ==> Truthy(u.specialization))
  }

  /** The unique index on email. */
  predicate UniqueEmails(users: seq<User>)
  {
    forall i, j :: 0 <= i < j < |users| ==> users[i].email != users[j].email
  }

  /** `User.findById(id)` finds a user whose role is counselor. */
  predicate IsCounselor(users: seq<User>, id: Id)
  {
    id < |users| && users[id].role == Counselor
  }

  /** The identity and role the auth middleware attaches to a request. */
  datatype Requester = Requester(id: Id, role: Role)
}
