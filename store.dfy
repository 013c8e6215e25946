/** The document database the routes read and write. */
module Store {
  import opened UserModel
  import opened AppointmentModel
  import opened PaymentModel
  import opened SessionNoteModel

  class Db {
    var users: seq<User>
    var appointments: seq<Appointment>
    var payments: seq<Payment>
    var notes: seq<SessionNote>

    /** What the users collection guarantees: every stored user passed the
        schema's validators, and the email index is unique. */
    ghost predicate Valid()
      reads this
    {
      (forall i :: 0 <= i < |users| ==> UserModel.WellFormed(users[i])) && UniqueEmails(users)
    }

    constructor (users: seq<User>)
      requires forall i :: 0 <= i < |users| ==> UserModel.WellFormed(users[i])
      requires UniqueEmails(users)
      ensures Valid()
      ensures this.users == users && appointments == [] && payments == [] && notes == []
    {
      this.users := users;
      appointments, payments, notes := [], [], [];
    }
  }
}
