/** The Payment schema. */
module PaymentModel {
  import opened Wrappers
  import opened Tables

  datatype PaymentStatus = Pending | Completed | Failed

  function PaymentStatusName(s: PaymentStatus): string
  {
    match s
    case Pending => "pending"
    case Completed => "completed"
    case Failed => "failed"
  }

  const DefaultPaymentStatus: PaymentStatus := Pending

  /** `status` defaults to pending; a present value must be an enum name. No
      route of the core casts a payment status: confirmation always stores
      `completed`, already typed. */
  function CastPaymentStatus(s: Option<string>): (r: Option<PaymentStatus>)
    ensures s.None? ==> r == Some(DefaultPaymentStatus)
    ensures s.Some? && r.Some? ==> PaymentStatusName(r.value) == s.value
    ensures s.Some? && r.None? ==> forall st :: PaymentStatusName(st) != s.value
  {
    match s
    case None => Some(DefaultPaymentStatus)
    case Some(name) =>
      if name == "pending" then Some(Pending)
      else if name == "completed" then Some(Completed)
      else if name == "failed" then Some(Failed)
      else None
  }

  datatype Payment = Payment(
    appointment: Id,
    client: Id,
    counselor: Id,
    amount: int,
    paymentMethod: string,
    status: PaymentStatus,
    transactionId: Option<string>)

  /** The required string field is present. */
  predicate WellFormed(p: Payment)
  {
    p.paymentMethod != ""
  }
}
