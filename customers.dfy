/** The customer record a self-checkout lane queues, and the service-time formula. */
module Customers {

  /** A shopper. Every field is fixed when the customer is created: `number` is
      the running id, `items` the basket size, `price` what the basket costs and
      `hasIssue` whether a worker must step in before the customer can finish. */
  datatype Customer = Customer(number: int, items: nat, price: real, hasIssue: bool)

  /** Minutes to start a session, to scan one item, for a worker to fix an issue,
      and to pay. */
  const InitTime: real := 0.5
  const TimePerItem: real := 0.1
  const FixTime: real := 2.0
  const PaymentTime: real := 1.0

  /** Minutes a customer occupies a self-checkout: a fixed start, a cost per item,
      an extra delay and the payment. This is the linear formula the simulator
      relies on; the customer class that computes it is not part of this model. */
  function TotalTimeSpent(c: Customer, init: real, perItem: real, delay: real, payment: real): real
  {
    init + perItem * c.items as real + delay + payment
  }

  /** Service time of a customer without an issue. */
  function PlainServiceTime(c: Customer): (t: real)
    ensures t >= InitTime + PaymentTime
  {
    TotalTimeSpent(c, InitTime, TimePerItem, 0.0, PaymentTime)
  }

  /** Service time of a customer whose issue a worker fixes: `FixTime` more. */
  function AssistedServiceTime(c: Customer): (t: real)
    ensures t == PlainServiceTime(c) + FixTime
  {
    TotalTimeSpent(c, InitTime, TimePerItem, FixTime, PaymentTime)
  }
}
