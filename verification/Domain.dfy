/**
  Values shared by the Tickets, Orders and Payments services: identifiers, order and
  payment states, ticket snapshots, and the requests and replies of the durable
  activities that connect the services.
 */
module Domain {

  // UUIDs are modelled as numbers: only equality (and, for payments, order) matters.
  type OrderId = nat
  type TicketId = nat
  type PaymentId = nat
  type UserId = string
  type Time = int

  datatype Option<+T> = None | Some(value: T)

  datatype OrderStatus = Created | Canceled | AwaitingPayment | Complete

  /** Payment states; the two terminal ones double as processor outcomes. */
  datatype PaymentStatus = Pending | Succeeded | Failed

  datatype Order = Order(id: OrderId, expiresAt: Time, user: UserId, ticket: TicketId, status: OrderStatus)

  /** The title and price a ticket had at one aggregate version. */
  datatype Snapshot = Snapshot(ticket: TicketId, title: string, price: int, version: int)

  datatype Payment = Payment(id: PaymentId, order: OrderId, status: PaymentStatus,
                             outcome: Option<PaymentStatus>, lease: Option<Time>)

  datatype ReservationInput = ReservationInput(order: OrderId, ticket: TicketId, user: UserId, expiresAt: Time)
  datatype TicketInput = TicketInput(ticket: TicketId, title: string, price: int, user: UserId)
  datatype EditInput = EditInput(ticket: TicketId, user: UserId, key: string, title: string, price: int)

  /** Terminal (non-retryable) activity errors. Transient failures produce no reply at all. */
  datatype Error =
    | TicketNotFound | TicketReserved
    | OrderNotFound | OrderNotCancelable | OrderNotPayable
    | InvalidTicket | InvalidEdit | EditForbidden | EditReserved | EditNotFound
    | InvalidProjection

  datatype Activity =
    | ReserveOrder(reservation: ReservationInput)
    | ClaimTicket(ticket: TicketId, order: OrderId)
    | ReleaseTicket(ticket: TicketId, order: OrderId)
    | CancelOrder(order: OrderId, user: UserId)
    | ExpireOrder(order: OrderId)
    | ResolvePayment(order: OrderId, outcome: PaymentStatus)
    | StartOrderPayment(order: OrderId, user: UserId)
    | PersistPayment(order: OrderId, user: UserId, price: int)
    | PersistTicket(creation: TicketInput)
    | PersistTicketUpdate(edit: EditInput)
    | ProjectTicket(snapshot: Snapshot)

  datatype Reply =
    | Reserved(created: bool, order: Order)
    | Claimed
    | Released
    | CanceledOrder(order: Order)
    | Expired(order: Order, shouldRelease: bool)
    | Resolved(order: Order, shouldRelease: bool)
    | CheckoutStarted(orderId: OrderId, user: UserId, price: int)
    | PaymentStored(payment: Payment, created: bool)
    | TicketStored(snapshot: Snapshot)
    | Projected
    | Rejected(error: Error)

  const MAX_PRICE: int := 9_007_199_254_740_991

  /** Unicode White_Space, which strings.TrimSpace removes. */
  predicate IsSpace(c: char) {
    var n := c as int;
    || 9 <= n <= 13 || n == 32 || n == 0x85 || n == 0xA0 || n == 0x1680
    || 0x2000 <= n <= 0x200A || n == 0x2028 || n == 0x2029 || n == 0x202F || n == 0x205F || n == 0x3000
  }

  predicate Blank(s: string) {
    forall i :: 0 <= i < |s| ==> IsSpace(s[i])
  }

  /** The title and price limits that the Tickets activities and the Orders projection both enforce. */
  predicate ValidTicketData(title: string, price: int) {
    !Blank(title) && 0 < price <= MAX_PRICE
  }

  /** strings.TrimSpace: no space at either end, and nothing but spaces taken away. */
  function TrimSpace(s: string): string {
    if s == "" then ""
    else if IsSpace(s[0]) then TrimSpace(s[1..])
    else if IsSpace(s[|s| - 1]) then TrimSpace(s[..|s| - 1])
    else s
  }

  /** A text is blank exactly if trimming leaves nothing; what it leaves has no space at either end. */
  lemma {:induction false} BlankTrims(s: string)
    ensures Blank(s) <==> TrimSpace(s) == ""
    ensures TrimSpace(s) != "" ==> !IsSpace(TrimSpace(s)[0]) && !IsSpace(TrimSpace(s)[|TrimSpace(s)| - 1])
  {
    hide IsSpace;
    if s != "" {
      if IsSpace(s[0]) {
        BlankTrims(s[1..]);
        assert s == [s[0]] + s[1..];
      } else if IsSpace(s[|s| - 1]) {
        BlankTrims(s[..|s| - 1]);
        assert s == s[..|s| - 1] + [s[|s| - 1]];
      }
    }
  }

  /** The spaces are the 25 code points with Unicode's White_Space property. */
  lemma SpaceCodes(c: char)
    ensures var codes := {0x09, 0x0A, 0x0B, 0x0C, 0x0D, 0x20, 0x85, 0xA0, 0x1680, 0x2000, 0x2001, 0x2002, 0x2003,
                          0x2004, 0x2005, 0x2006, 0x2007, 0x2008, 0x2009, 0x200A, 0x2028, 0x2029, 0x202F, 0x205F,
                          0x3000};
            IsSpace(c) <==> c as int in codes
  {
  }

  /** Data are valid exactly if the title trims to something and the price is at least 1 and below two to the 53rd. */
  lemma {:induction false} DataLimits(title: string, price: int)
    ensures ValidTicketData(title, price) <==> TrimSpace(title) != "" && 1 <= price < 0x20_0000_0000_0000
  {
    BlankTrims(title);
  }

  lemma PositivePrice(title: string, price: int)
    requires ValidTicketData(title, price)
    ensures 0 < price
  {
  }

  /** One legal step of an order's status. */
  predicate StatusStep(s: OrderStatus, s': OrderStatus) {
    match s
    case Created => s' == Canceled || s' == AwaitingPayment
    case AwaitingPayment => s' == Complete || s' == Canceled
    case _ => false
  }

  /** Zero or more legal status steps. */
  predicate Reaches(s: OrderStatus, s': OrderStatus) {
    s == s' || s == Created || (s == AwaitingPayment && (s' == Complete || s' == Canceled))
  }

  /** The Orders status that a processor outcome must lead to. */
  function ExpectedOrderStatus(outcome: PaymentStatus): Option<OrderStatus> {
    match outcome
    case Succeeded => Some(Complete)
    case Failed => Some(Canceled)
    case Pending => None
  }
}
