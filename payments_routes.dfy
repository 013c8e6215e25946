/** The payment routes: the gateway charge request, payment confirmation and the role-scoped list. */
module PaymentRoutes {
  import opened Wrappers
  import opened Tables
  import opened UserModel
  import opened AppointmentModel
  import opened PaymentModel
  import opened Store
  import AppointmentRoutes

  /** What is sent to the payment gateway: the amount in cents, the currency and,
      as metadata, the appointment id. */
  datatype IntentRequest = IntentRequest(amount: int, currency: string, appointment: Id)

  const Currency: string := "usd"

  /** Dollars to cents, for whole-dollar amounts. */
  function ToCents(amount: int): (cents: int)
    ensures cents % 100 == 0 && cents / 100 == amount
  {
    amount * 100
  }

  /** POST /payments/create-payment-intent by `me`. The gateway is the function
      from a charge request to the client secret it hands back. */
  function CreatePaymentIntent(appts: seq<Appointment>, me: Id, appointment: Id, amount: int,
                               gateway: IntentRequest -> string): (r: Result<string>)
    ensures appointment >= |appts| ==> r == Err(NotFound)
    ensures appointment < |appts| && appts[appointment].client != me ==> r == Err(NotAuthorized)
    ensures r.Ok? <==> appointment < |appts| && appts[appointment].client == me
    ensures r.Ok? ==> r.value == gateway(IntentRequest(ToCents(amount), "usd", appointment))
  {
    if appointment >= |appts| then Err(NotFound)
    else if appts[appointment].client != me then Err(NotAuthorized)
    else
      var req := IntentRequest(ToCents(amount), Currency, appointment);
      Ok(gateway(req))
  }

  /** POST /payments/confirm by `me`. */
  method ConfirmPayment(db: Db, me: Id, appointment: Id, amount: int, paymentMethod: string,
                        transactionId: string)
    returns (r: Result<Id>)
    modifies db
    ensures db.users == old(db.users) && db.notes == old(db.notes)
    ensures r.Err? ==> db.appointments == old(db.appointments) && db.payments == old(db.payments)
    ensures paymentMethod == "" || transactionId == "" ==> r == Err(Invalid)
    ensures paymentMethod != "" && transactionId != "" ==>
      if appointment >= |old(db.appointments)| then r == Err(NotFound)
      else if old(db.appointments)[appointment].client != me then r == Err(NotAuthorized)
      else
        && r == Ok(|old(db.payments)|)
        && db.payments == old(db.payments) + [Payment(appointment, me, old(db.appointments)[appointment].counselor,
             amount, paymentMethod, PaymentStatus.Completed, Some(transactionId))]
        && db.appointments == AppointmentRoutes.WithStatus(old(db.appointments), appointment, Scheduled)
    ensures r.Ok? ==> PaymentModel.WellFormed(db.payments[r.value])
    ensures r.Ok? ==> db.appointments[appointment].status == Scheduled
  {
    if paymentMethod == "" || transactionId == "" {
      return Err(Invalid);
    }
    if appointment >= |db.appointments| {
      return Err(NotFound);
    }
    var appointmentDoc := db.appointments[appointment];
    if appointmentDoc.client != me {
      return Err(NotAuthorized);
    }
    var payment := Payment(appointment, me, appointmentDoc.counselor, amount, paymentMethod,
                           PaymentStatus.Completed, Some(transactionId));
    db.payments := db.payments + [payment];
    r := Ok(|db.payments| - 1);
    db.appointments := AppointmentRoutes.WithStatus(db.appointments, appointment, Scheduled);
  }

  /** GET /payments: the requester's own payments, by role. */
  function ListForUser(payments: seq<Payment>, me: Requester): (r: Result<seq<Id>>)
    ensures r.Err? <==> me.role == Admin
    ensures r.Err? ==> r.error == NotAuthorized
    ensures r.Ok? ==> Increasing(r.value)
    ensures me.role == Client ==> forall i: Id :: i in r.value <==> i < |payments| && payments[i].client == me.id
    ensures me.role == Counselor ==> forall i: Id :: i in r.value <==> i < |payments| && payments[i].counselor == me.id
  {
    match me.role
    case Client => Ok(Select(|payments|, (i: Id) => i < |payments| && payments[i].client == me.id))
    case Counselor => Ok(Select(|payments|, (i: Id) => i < |payments| && payments[i].counselor == me.id))
    case Admin => Err(NotAuthorized)
  }

  /** A payment recorded by Confirm shows up in the payer's list and in the
      counselor's list, the counterpart having been copied from the appointment. */
  lemma ConfirmedPaymentIsListed(payments: seq<Payment>, p: Payment, client: Requester, counselor: Requester)
    requires client.role == Client && client.id == p.client
    requires counselor.role == Counselor && counselor.id == p.counselor
    ensures |payments| in ListForUser(payments + [p], client).value
    ensures |payments| in ListForUser(payments + [p], counselor).value
  {
  }
}
