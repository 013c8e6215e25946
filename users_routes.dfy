/** The user routes: counselor lookups, profile updates and the admin slot refresh. */
module UserRoutes {
  import opened Wrappers
  import opened Tables
  import opened UserModel
  import opened Store
  import opened Slots

  /** GET /users/counselors. */
  function Counselors(users: seq<User>): (r: seq<Id>)
    ensures forall i: Id :: i in r <==> IsCounselor(users, i)
    ensures Increasing(r)
  {
    Select(|users|, (i: Id) => IsCounselor(users, i))
  }

  /** GET /users/counselors/:id. */
  function CounselorById(users: seq<User>, id: Id): (r: Result<User>)
    ensures r.Ok? <==> IsCounselor(users, id)
    ensures r.Err? ==> r.error == NotFound
    ensures r.Ok? ==> r.value == users[id] && r.value.role == Counselor
  {
    if id < |users| && users[id].role == Counselor then Ok(users[id]) else Err(NotFound)
  }

  /** The detail route finds exactly the users the list route lists. */
  lemma CounselorLookupAgrees(users: seq<User>, id: Id)
    ensures CounselorById(users, id).Ok? <==> id in Counselors(users)
  {
  }

  /** The fields of a PUT /users/:id body; `None` is a field the body leaves out. */
  datatype ProfilePatch = ProfilePatch(
    firstName: Option<string>,
    lastName: Option<string>,
    bio: Option<string>,
    specialization: Option<string>,
    availableSlots: Option<seq<string>>)

  /** The user after the update: a text field takes the new value exactly when
      that value is truthy; the slots take any given list (every array is
      truthy), and only on a counselor; nothing else changes. */
  function Merge(u: User, p: ProfilePatch): (r: User)
    ensures Truthy(p.firstName) ==> r.firstName == p.firstName.value
    ensures !Truthy(p.firstName) ==> r.firstName == u.firstName
    ensures Truthy(p.lastName) ==> r.lastName == p.lastName.value
    ensures !Truthy(p.lastName) ==> r.lastName == u.lastName
    ensures Truthy(p.bio) ==> r.bio == p.bio
    ensures !Truthy(p.bio) ==> r.bio == u.bio
    ensures Truthy(p.specialization) ==> r.specialization == p.specialization
    ensures !Truthy(p.specialization) ==> r.specialization == u.specialization
    ensures u.role == Counselor && p.availableSlots.Some? ==> r.availableSlots == p.availableSlots.value
    ensures u.role != Counselor || p.availableSlots.None? ==> r.availableSlots == u.availableSlots
    ensures r.email == u.email && r.password == u.password && r.role == u.role
    ensures r.profilePicture == u.profilePicture
  {
    var merged := u.(firstName := OrString(p.firstName, u.firstName),
                     lastName := OrString(p.lastName, u.lastName),
                     bio := OrOption(p.bio, u.bio),
                     specialization := OrOption(p.specialization, u.specialization));
    if u.role == Counselor && p.availableSlots.Some? then merged.(availableSlots := p.availableSlots.value)
    else merged
  }

  /** A merged user still passes the schema's validators, so its save succeeds. */
  lemma MergeKeepsWellFormed(u: User, p: ProfilePatch)
    requires WellFormed(u)
    ensures WellFormed(Merge(u, p))
  {
  }

  /** Sending the same update twice has the effect of sending it once. */
  lemma MergeIdempotent(u: User, p: ProfilePatch)
    ensures Merge(Merge(u, p), p) == Merge(u, p)
  {
  }

  /** PUT /users/:id by `me`. */
  method UpdateProfile(db: Db, me: Requester, target: Id, patch: ProfilePatch) returns (r: Result<User>)
    requires db.Valid()
    modifies db
    ensures db.Valid()
    ensures db.appointments == old(db.appointments) && db.payments == old(db.payments) && db.notes == old(db.notes)
    ensures r.Err? ==> db.users == old(db.users)
    ensures target >= |old(db.users)| ==> r == Err(NotFound)
    ensures target < |old(db.users)| ==>
      if target != me.id && me.role != Admin then r == Err(NotAuthorized)
      else
        && db.users == old(db.users)[target := Merge(old(db.users)[target], patch)]
        && r == Ok(db.users[target])
  {
    if target >= |db.users| {
      return Err(NotFound);
    }
    if target != me.id && me.role != Admin {
      return Err(NotAuthorized);
    }
    var user := db.users[target];
    user := user.(firstName := OrString(patch.firstName, user.firstName));
    user := user.(lastName := OrString(patch.lastName, user.lastName));
    user := user.(bio := OrOption(patch.bio, user.bio));
    user := user.(specialization := OrOption(patch.specialization, user.specialization));
    if user.role == Counselor {
      user := user.(availableSlots := if patch.availableSlots.Some? then patch.availableSlots.value
                                      else user.availableSlots);
    }
    assert user == Merge(db.users[target], patch);
    MergeKeepsWellFormed(db.users[target], patch);
    db.users := db.users[target := user];
    r := Ok(user);
  }

  /** A counselor's document after the refresh. */
  function WithDemoSlots(u: User, today: int, iso: int -> string): User
  {
    u.(availableSlots := DemoSlots(today, iso))
  }

  /** POST /users/counselors/generate-slots by `me`: every counselor's slots are
      overwritten with a fresh demo list; the result is the number of counselors. */
  method GenerateSlots(db: Db, me: Requester, today: int, iso: int -> string) returns (r: Result<nat>)
    requires db.Valid()
    modifies db
    ensures db.Valid()
    ensures db.appointments == old(db.appointments) && db.payments == old(db.payments) && db.notes == old(db.notes)
    ensures me.role != Admin ==> r == Err(Forbidden) && db.users == old(db.users)
    ensures me.role == Admin ==>
      && r == Ok(|Counselors(old(db.users))|)
      && |db.users| == |old(db.users)|
      && forall i :: 0 <= i < |db.users| ==>
           db.users[i] == if old(db.users)[i].role == Counselor then WithDemoSlots(old(db.users)[i], today, iso)
                          else old(db.users)[i]
  {
    if me.role != Admin {
      return Err(Forbidden);
    }
    var counselors := Counselors(db.users);
    assert forall i :: 0 <= i < |counselors| ==> counselors[i] in counselors;
    for k := 0 to |counselors|
      invariant |db.users| == |old(db.users)|
      invariant db.appointments == old(db.appointments) && db.payments == old(db.payments) && db.notes == old(db.notes)
      invariant forall i :: 0 <= i < |counselors| ==> counselors[i] < |db.users|
      invariant forall i :: 0 <= i < |db.users| ==>
        db.users[i] == if i in counselors[..k] then WithDemoSlots(old(db.users)[i], today, iso) else old(db.users)[i]
    {
      var c := counselors[k];
      assert c in counselors;
      var slots := GenerateDemoSlots(today, iso);
      db.users := db.users[c := db.users[c].(availableSlots := slots)];
      assert counselors[..k + 1] == counselors[..k] + [c];
    }
    assert counselors[..|counselors|] == counselors;
    r := Ok(|counselors|);
  }
}
