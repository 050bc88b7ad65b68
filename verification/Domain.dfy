// The values the services exchange: orders, payments, events, statuses.

module Domain {

  datatype Option<+T> = None | Some(value: T)

  /** A call in flight: one a client started, or the payment service's side of
      the rpc that call made. */
  datatype Pid = Client(n: nat) | Server(of: Pid)

  /** An identifier: the k-th value uuid.New returned to a call, or text that is
      no such value.  Two calls never get the same UUID. */
  datatype Uuid = Minted(call: Pid, k: nat) | Text(text: string)

  /** domain.OrderStatus is a Go string: the four named constants, or any other text. */
  datatype OrderStatus = Pending | Paid | Failed | Cancelled | OtherStatus(text: string)

  /** domain.PaymentStatus, and the string AuthorizePayment returns. */
  datatype PaymentStatus = Authorized | Declined | OtherVerdict(verdict: string)

  datatype Order = Order(
    id: Uuid,
    customerId: string,
    itemName: string,
    amount: int,
    status: OrderStatus,
    createdAt: nat,
    key: string)

  datatype Payment = Payment(
    id: Uuid,
    orderId: Uuid,
    transactionId: Option<Uuid>,
    amount: int,
    status: PaymentStatus)

  datatype Event = Event(
    orderId: Uuid,
    amount: int,
    customerEmail: Email,
    status: PaymentStatus,
    messageId: Uuid)

  predicate KnownStatus(st: OrderStatus) {
    !st.OtherStatus?
  }

  predicate Terminal(st: OrderStatus) {
    st.Paid? || st.Failed? || st.Cancelled?
  }

  /** The two orders agree in every column but the status. */
  predicate SameBody(o: Order, r: Order) {
    o.(status := r.status) == r
  }

  /** "user" + orderId + "@example.com" */
  datatype Email = UserAtExample(user: Uuid)
}
