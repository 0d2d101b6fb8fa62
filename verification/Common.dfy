/** Identifiers and small value types shared by every service model. */
module Common {

  // Every identifier in the system is a UUID.  Only equality of UUIDs matters to the
  // logic, so they are modelled as naturals.
  type OrderId = nat
  type ProductId = nat
  type PaymentId = nat
  type RefundId = nat

  datatype Option<+T> = None | Some(value: T)
}
