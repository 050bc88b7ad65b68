// The pure case splits between the two services: the payment decision, the
// status mapping of the gRPC handler, the client's reading of the reply, and
// the order status the saga derives from it.

module Gateway {
  import opened Domain

  const LIMIT := 100000

  datatype PbStatus = UnspecifiedPb | AuthorizedPb | DeclinedPb

  datatype Reply = RpcError | RpcReply(status: PbStatus)

  datatype Result<+T> = Ok(value: T) | Err

  function Decide(amount: int): PaymentStatus {
    if amount > LIMIT then Declined else Authorized
  }

  function MapStatusToPb(st: PaymentStatus): PbStatus {
    match st
    case Authorized => AuthorizedPb
    case Declined => DeclinedPb
    case OtherVerdict(_) => UnspecifiedPb
  }

  /** Only Ok answers reach the wire with a status; every error is an rpc error. */
  function HandlerReply(payment: Option<Payment>): Reply {
    match payment
    case None => RpcError
    case Some(p) => RpcReply(MapStatusToPb(p.status))
  }

  function AuthorizePayment(reply: Reply): Result<PaymentStatus> {
    match reply
    case RpcError => Err
    case RpcReply(AuthorizedPb) => Ok(Authorized)
    case RpcReply(DeclinedPb) => Ok(Declined)
    case RpcReply(UnspecifiedPb) => Err
  }

  /** The saga's default is Paid: any verdict but Declined pays the order. */
  function StatusFor(verdict: PaymentStatus): OrderStatus {
    if verdict.Declined? then Failed else Paid
  }

  /** The row a ProcessPayment call is going to insert. */
  function NewPayment(call: Pid, orderId: Uuid, amount: int): Payment {
    Payment(Minted(call, 0), orderId, if amount > LIMIT then None else Some(Minted(call, 1)), amount, Decide(amount))
  }

  /** A payment row as the use case writes it. */
  predicate PaymentOk(p: Payment) {
    && p.status == Decide(p.amount)
    && (p.status.Authorized? <==> p.transactionId.Some?)
    && p.amount > 0
  }

  /** The two ends of the wire agree: the saga never sees a third verdict, and
      whatever status it derives from a reply is the one the row's verdict means. */
  lemma ReplyRoundTrip(reply: Reply)
    ensures AuthorizePayment(reply).Ok? ==> AuthorizePayment(reply).value in {Authorized, Declined}
    ensures forall p: Payment | PaymentOk(p) ::
              AuthorizePayment(HandlerReply(Some(p))) == Ok(p.status)
    ensures forall p: Payment | PaymentOk(p) ::
              (StatusFor(p.status).Paid? <==> p.amount <= 100000) && (StatusFor(p.status).Failed? <==> p.amount > 100000)
  {
  }
}
