/** The rows of the order books.  A table is a sequence; a row's position is its id.  Fields
    marked "history" record what has happened to a row and are read by no statement. */
module Tables {
  import opened Basics

  // ---- Stock

  /** One row of `products` or `product_variants`. */
  datatype Cell = Cell(product: nat, stock: int)

  /** A cart or order line; `cell` is its variant's row, or its product's when it has none. */
  datatype Item = Item(product: nat, cell: nat, isVariant: bool, quantity: nat)

  datatype Direction = In | Out

  datatype Source = ForOrder(order: nat) | ForRefund(refund: nat)

  /** A row of `inventory_transactions`; quarantined returns never reach saleable stock. */
  datatype Move = Move(product: nat, direction: Direction, quantity: nat, source: Source, quarantined: bool)

  // ---- Orders, payments, refunds

  datatype OrderStatus = Pending | Processing | Shipped | OutForDelivery | Delivered | Cancelled | Refunded

  datatype PayStatus = Unpaid | Initiated | Paid | PaidBack

  /** History: `wasCancelled`, and `touched` -- a settlement named the order or a payment of it. */
  datatype Order = Order(user: nat, items: seq<Item>, status: OrderStatus, pay: PayStatus,
                         promo: Option<nat>, key: Option<nat>, wasCancelled: bool, touched: bool)

  datatype PaymentStatus = Awaiting | Completed | Failed | Returned

  /** `online` payments carry a gateway transaction id; the others are cash on delivery. */
  datatype Payment = Payment(order: nat, status: PaymentStatus, online: bool)

  datatype RefundStatus = Requested | Approved | InProcess | Processed | Rejected

  /** History: `claimed` for the gateway call, how often the gateway was `asked`, whether a
      settlement was applied, whether an admin supplied the gateway reference, and whether a
      settlement rested on a confirmed inquiry. */
  datatype Refund = Refund(order: nat, payment: Option<nat>, status: RefundStatus, reference: Option<nat>,
                           damaged: bool, claimed: bool, asked: nat, settled: bool, adminReference: bool,
                           inquired: bool)

  /** A REFUND_REQUIRED or RECONCILIATION_REQUIRED outbox event. */
  datatype Notice = Notice(order: nat, late: bool, completed: bool)

  // ---- Loyalty, promos, idempotency

  datatype PointKind = EarnedText | EarnedMedia | SpentCheckout | AdminAdjustment

  /** The two kinds of points a review earns. */
  type RewardKind = k: PointKind | k == EarnedText || k == EarnedMedia witness EarnedText

  datatype PointRef = OfOrder(order: nat) | OfReview(review: nat)

  datatype PointRow = PointRow(user: nat, points: int, kind: PointKind, reference: Option<PointRef>,
                               validUntil: Option<int>)

  datatype Promo = Promo(uses: nat, maxUses: Option<nat>)

  datatype KeyStatus = KeyStarted | KeyCompleted | KeyFailed

  datatype KeyRow = KeyRow(hash: nat, status: KeyStatus, order: Option<nat>)

  // ---- Requests in flight, holding what they read before their transaction

  datatype Decision = Approve | Reject | Process

  /** `confirmed` requests come from a reconciliation whose inquiry answered "refunded". */
  datatype Dto = Dto(decision: Decision, reference: Option<nat>, hasNotes: bool, confirmed: bool)

  /** A payout without a reference, and no notes. */
  const PLAIN: Dto := Dto(Process, None, false, false)

  datatype Request =
    | RefundRequest(order: nat)                                     // order read as delivered
    | RefundUnopposed(order: nat)                                   // no active refund seen
    | RefundRead(refund: nat, dto: Dto, seen: Option<nat>)          // refund row read
    | PaymentRead(refund: nat, dto: Dto, seen: Option<nat>, online: bool)
    | Calling(refund: nat)                                          // claim committed
    | Asked(refund: nat)                                            // gateway call made
    | Inquiring(refund: nat, reference: nat, bankTran: Option<nat>, tran: Option<nat>) // rows read
    | Confirmed(refund: nat, reference: nat)                        // inquiry said refunded
    | Handling(notice: nat, found: bool)                            // outbox handler, refunds read
    | Handled(notice: nat)                                          // handler returned
    | Fallback(order: nat, payment: nat)                            // pending payment read
    | Over

  datatype State = State(
    cells: seq<Cell>, moves: seq<Move>, orders: seq<Order>, payments: seq<Payment>, refunds: seq<Refund>,
    notices: seq<Notice>, points: seq<PointRow>, promos: seq<Promo>, keys: map<(nat, nat), KeyRow>,
    carts: map<nat, seq<Item>>, requests: seq<Request>)

  /** A shop before its first order. */
  predicate Opening(s: State) {
    && s.moves == [] && s.orders == [] && s.payments == [] && s.refunds == [] && s.notices == []
    && s.points == [] && s.keys == map[] && s.carts == map[] && s.requests == []
    && (forall c :: 0 <= c < |s.cells| ==> s.cells[c].stock >= 0)
    && (forall p :: 0 <= p < |s.promos| ==> s.promos[p].uses == 0)
  }
}
