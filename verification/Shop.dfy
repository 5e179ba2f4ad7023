/** The order books: checkout, cancellation, payment callbacks, refunds and their outbox
    handlers, as steps over the tables.  A transaction that locks the rows it decides on is
    one step; every read made outside a transaction is a step of its own, whose result the
    request carries along.  A step that fails leaves the state as it is. */
module Shop {
  import opened Basics
  import opened Gateway
  import opened Tables

  // ---- Stock statements

  /** The conditional deductions of a list of lines, in order; None when one matches no row. */
  function Deduct(cells: seq<Cell>, items: seq<Item>): Option<seq<Cell>> {
    if items == [] then Some(cells)
    else
      var item := items[|items| - 1];
      match Deduct(cells, items[..|items| - 1])
      case None => None
      case Some(before) =>
        if item.cell < |before| && before[item.cell].stock >= item.quantity then
          Some(before[item.cell := before[item.cell].(stock := before[item.cell].stock - item.quantity)])
        else None
  }

  function Restore(cells: seq<Cell>, item: Item): seq<Cell> {
    if item.cell < |cells| then
      cells[item.cell := cells[item.cell].(stock := cells[item.cell].stock + item.quantity)]
    else cells
  }

  function RestoreAll(cells: seq<Cell>, items: seq<Item>): seq<Cell> {
    if items == [] then cells
    else Restore(RestoreAll(cells, items[..|items| - 1]), items[|items| - 1])
  }

  function Sold(items: seq<Item>, order: nat): seq<Move> {
    seq(|items|, i requires 0 <= i < |items| =>
      Move(items[i].product, Out, items[i].quantity, ForOrder(order), false))
  }

  function Back(items: seq<Item>, order: nat): seq<Move> {
    seq(|items|, i requires 0 <= i < |items| =>
      Move(items[i].product, In, items[i].quantity, ForOrder(order), false))
  }

  /** A refunded line is quarantined when damaged or when its variant no longer exists. */
  function ReturnMove(cells: seq<Cell>, item: Item, refund: nat, damaged: bool): Move {
    Move(item.product, In, item.quantity, ForRefund(refund), damaged || (item.isVariant && item.cell >= |cells|))
  }

  function ReturnMoves(cells: seq<Cell>, items: seq<Item>, refund: nat, damaged: bool): seq<Move> {
    seq(|items|, i requires 0 <= i < |items| => ReturnMove(cells, items[i], refund, damaged))
  }

  predicate IsReturn(m: Move, source: Source) {
    m.direction == In && m.source == source
  }

  /** `hasOrderBeenRestocked` and `hasRefundBeenRestocked`. */
  predicate Restocked(moves: seq<Move>, source: Source) {
    exists m :: 0 <= m < |moves| && IsReturn(moves[m], source)
  }

  // ---- Loyalty statements

  predicate Counts(row: PointRow, user: nat, now: int, validOnly: bool) {
    row.user == user && (!validOnly || (row.points > 0 && (row.validUntil.None? || row.validUntil.value > now)))
  }

  function SumPoints(rows: seq<PointRow>, user: nat, now: int, validOnly: bool): int {
    if rows == [] then 0
    else
      var last := rows[|rows| - 1];
      SumPoints(rows[..|rows| - 1], user, now, validOnly)
      + if Counts(last, user, now, validOnly) then last.points else 0
  }

  function Balance(rows: seq<PointRow>, user: nat): int {
    SumPoints(rows, user, 0, false)
  }

  /** `getAvailableBalance`. */
  function Available(rows: seq<PointRow>, user: nat, now: int): int {
    var total := Balance(rows, user);
    var valid := SumPoints(rows, user, now, true);
    if total <= 0 then 0
    else if valid < total then (if valid < 0 then 0 else valid)
    else total
  }

  /** The sum of an order's rows of one kind. */
  function OrderPoints(rows: seq<PointRow>, order: nat, kind: PointKind): int {
    if rows == [] then 0
    else
      var last := rows[|rows| - 1];
      OrderPoints(rows[..|rows| - 1], order, kind)
      + if last.reference == Some(OfOrder(order)) && last.kind == kind then last.points else 0
  }

  predicate IsPointRefund(row: PointRow, order: nat) {
    row.reference == Some(OfOrder(order)) && row.kind == AdminAdjustment && row.points > 0
  }

  predicate PointsRefunded(rows: seq<PointRow>, order: nat) {
    exists i :: 0 <= i < |rows| && IsPointRefund(rows[i], order)
  }

  function Abs(x: int): nat {
    if x < 0 then -x else x
  }

  /** Gives an order's spent points back unless that has been done. */
  function WithPointsBack(rows: seq<PointRow>, user: nat, order: nat): seq<PointRow> {
    var spent := Abs(OrderPoints(rows, order, SpentCheckout));
    if spent > 0 && !PointsRefunded(rows, order) then
      rows + [PointRow(user, spent, AdminAdjustment, Some(OfOrder(order)), None)]
    else rows
  }

  // ---- Checkout

  /** `promo` is the promo `validate` accepted and `live` whether it is still active and
      unexpired when its uses are counted; `points` is what the unlocked balance read priced. */
  datatype CheckoutDto = CheckoutDto(user: nat, key: Option<nat>, hash: nat, promo: Option<nat>, live: bool,
                                     points: nat, now: int)

  datatype CheckoutResult = Placed(order: nat) | Replayed(order: nat) | Refused

  function InsertItem(items: seq<Item>, item: Item): seq<Item> {
    if items == [] || items[|items| - 1].cell <= item.cell then items + [item]
    else InsertItem(items[..|items| - 1], item) + [items[|items| - 1]]
  }

  function SortItems(items: seq<Item>): seq<Item> {
    if items == [] then [] else InsertItem(SortItems(items[..|items| - 1]), items[|items| - 1])
  }

  predicate InStock(cells: seq<Cell>, items: seq<Item>) {
    forall i :: 0 <= i < |items| ==> items[i].cell < |cells| && cells[items[i].cell].stock >= items[i].quantity
  }

  predicate KeyTaken(orders: seq<Order>, user: nat, key: Option<nat>) {
    key.Some? && exists o :: 0 <= o < |orders| && orders[o].user == user && orders[o].key == key
  }

  predicate PromoUsable(promos: seq<Promo>, promo: Option<nat>, live: bool) {
    promo.Some? ==>
      && promo.value < |promos| && live
      && (promos[promo.value].maxUses.None? || promos[promo.value].uses < promos[promo.value].maxUses.value)
  }

  function CountUse(promos: seq<Promo>, promo: Option<nat>): seq<Promo> {
    if promo.Some? && promo.value < |promos| then
      promos[promo.value := promos[promo.value].(uses := promos[promo.value].uses + 1)]
    else promos
  }

  function CartOf(s: State, user: nat): seq<Item> {
    if user in s.carts then s.carts[user] else []
  }

  function KeyOf(s: State, c: CheckoutDto): Option<KeyRow> {
    if c.key.Some? && (c.user, c.key.value) in s.keys then Some(s.keys[(c.user, c.key.value)]) else None
  }

  predicate IsReplay(s: State, c: CheckoutDto) {
    && KeyOf(s, c).Some? && KeyOf(s, c).value.hash == c.hash
    && KeyOf(s, c).value.status == KeyCompleted
    && KeyOf(s, c).value.order.Some? && KeyOf(s, c).value.order.value < |s.orders|
  }

  /** Every check a new order has to pass, apart from its key row. */
  predicate Buyable(s: State, c: CheckoutDto) {
    var items := SortItems(CartOf(s, c.user));
    && items != [] && InStock(s.cells, items)
    && !KeyTaken(s.orders, c.user, c.key)
    && Deduct(s.cells, items).Some?
    && PromoUsable(s.promos, c.promo, c.live)
    && (c.points > 0 ==> Available(s.points, c.user, c.now) >= c.points)
  }

  predicate MayPlace(s: State, c: CheckoutDto) {
    && (KeyOf(s, c).Some? ==> KeyOf(s, c).value.hash == c.hash && KeyOf(s, c).value.status != KeyStarted)
    && Buyable(s, c)
  }

  /** The rows a placed order leaves, `cells` being the deducted stock. */
  function WriteOrder(s: State, c: CheckoutDto, items: seq<Item>, cells: seq<Cell>): State {
    var id := |s.orders|;
    s.(cells := cells,
       moves := s.moves + Sold(items, id),
       orders := s.orders + [Order(c.user, items, Pending, Unpaid, c.promo, c.key, false, false)],
       promos := CountUse(s.promos, c.promo),
       points := if c.points > 0
                 then s.points + [PointRow(c.user, -(c.points as int), SpentCheckout, Some(OfOrder(id)), None)]
                 else s.points,
       keys := if c.key.Some?
               then s.keys[(c.user, c.key.value) := KeyRow(c.hash, KeyCompleted, Some(id))]
               else s.keys,
       carts := s.carts[c.user := []])
  }

  function Place(s: State, c: CheckoutDto): State
    requires Buyable(s, c)
  {
    var items := SortItems(CartOf(s, c.user));
    WriteOrder(s, c, items, Deduct(s.cells, items).value)
  }

  function Checkout(s: State, c: CheckoutDto): (State, CheckoutResult) {
    if IsReplay(s, c) then (s, Replayed(KeyOf(s, c).value.order.value))
    else if MayPlace(s, c) then (Place(s, c), Placed(|s.orders|))
    else (s, Refused)
  }

  // ---- Cancellation and expiry

  predicate MayCancel(s: State, order: nat, expiry: bool) {
    && order < |s.orders|
    && (s.orders[order].status == Pending || s.orders[order].status == Processing)
    && (expiry ==> s.orders[order].status == Pending && s.orders[order].pay != Paid)
  }

  function GiveUseBack(promos: seq<Promo>, promo: Option<nat>): seq<Promo> {
    if promo.Some? && promo.value < |promos| && promos[promo.value].uses > 0 then
      promos[promo.value := promos[promo.value].(uses := promos[promo.value].uses - 1)]
    else promos
  }

  function FailPending(payments: seq<Payment>, order: nat): (failed: seq<Payment>)
    ensures |failed| == |payments|
  {
    seq(|payments|, p requires 0 <= p < |payments| =>
      if payments[p].order == order && payments[p].status == Awaiting then payments[p].(status := Failed)
      else payments[p])
  }

  function Cancel(s: State, order: nat, expiry: bool): State {
    if !MayCancel(s, order, expiry) then s
    else
      var row := s.orders[order];
      s.(orders := s.orders[order := row.(status := Cancelled, wasCancelled := true)],
         cells := RestoreAll(s.cells, row.items),
         moves := s.moves + Back(row.items, order),
         promos := GiveUseBack(s.promos, row.promo),
         points := WithPointsBack(s.points, row.user, order),
         payments := FailPending(s.payments, order),
         notices := if row.pay == Paid then s.notices + [Notice(order, false, false)] else s.notices)
  }

  /** ORDER_STATE_TRANSITIONS, without the cancellations, which are transactions of their own. */
  predicate Transition(from: OrderStatus, to: OrderStatus) {
    match from
    case Pending => to == Processing
    case Processing => to == Shipped
    case Shipped => to == OutForDelivery || to == Delivered
    case OutForDelivery => to == Delivered
    case Delivered => to == Refunded
    case Cancelled => false
    case Refunded => false
  }

  function SetStatus(s: State, order: nat, to: OrderStatus): State {
    if to == Cancelled then Cancel(s, order, false)
    else if order < |s.orders| && Transition(s.orders[order].status, to) then
      s.(orders := s.orders[order := s.orders[order].(status := to)])
    else s
  }

  // ---- Payments

  datatype PayAction =
    | Initiate(order: nat, online: bool, stale: bool)
    | Success(payment: nat)
    | Fail(payment: nat)
    | FallbackRead(order: nat)
    | FallbackApply(request: nat)

  predicate IsPending(payments: seq<Payment>, p: nat, order: nat) {
    p < |payments| && payments[p].order == order && payments[p].status == Awaiting
  }

  /** `findLatestPendingPaymentByOrderId`. */
  function LatestPending(payments: seq<Payment>, order: nat): (latest: Option<nat>)
    ensures latest.Some? ==> IsPending(payments, latest.value, order)
  {
    if payments == [] then None
    else if IsPending(payments, |payments| - 1, order) then Some(|payments| - 1)
    else LatestPending(payments[..|payments| - 1], order)
  }

  function SetPayment(s: State, payment: nat, status: PaymentStatus): State {
    if payment < |s.payments| then
      s.(payments := s.payments[payment := s.payments[payment].(status := status)])
    else s
  }

  function SetPay(s: State, order: nat, pay: PayStatus): State {
    if order < |s.orders| then s.(orders := s.orders[order := s.orders[order].(pay := pay)]) else s
  }

  function InitiatePayment(s: State, order: nat, online: bool, stale: bool): State {
    if order >= |s.orders| || s.orders[order].pay == Paid || s.orders[order].pay == PaidBack then s
    else if online && s.orders[order].status == Cancelled then s
    else if !online && s.orders[order].pay == Initiated then s
    else
      var pending := if online && s.orders[order].pay == Initiated then LatestPending(s.payments, order) else None;
      if pending.Some? && !stale then s
      else
        var t := if pending.Some? then SetPayment(s, pending.value, Failed) else s;
        SetPay(t.(payments := t.payments + [Payment(order, Awaiting, online)]), order, Initiated)
  }

  function PaymentSuccess(s: State, payment: nat): State {
    if payment >= |s.payments| || !s.payments[payment].online || s.payments[payment].status == Completed then s
    else
      var order := s.payments[payment].order;
      var t := SetPayment(s, payment, Completed);
      if order >= |s.orders| then t
      else if s.orders[order].status == Cancelled then
        SetPay(t, order, Paid).(notices := s.notices + [Notice(order, true, false)])
      else
        t.(orders := s.orders[order := s.orders[order].(status := Processing, pay := Paid)])
  }

  /** The write shared by the failure callback and both fallbacks. */
  function FailPayment(s: State, payment: nat): State {
    if payment >= |s.payments| then s
    else
      var order := s.payments[payment].order;
      var t := SetPayment(s, payment, Failed);
      if order < |s.orders| && s.orders[order].pay != Paid && s.orders[order].status != Cancelled then
        SetPay(t, order, Unpaid)
      else t
  }

  predicate Terminal(status: PaymentStatus) {
    status == Completed || status == Failed
  }

  function PaymentFailure(s: State, payment: nat): State {
    if payment >= |s.payments| || !s.payments[payment].online || Terminal(s.payments[payment].status) then s
    else FailPayment(s, payment)
  }

  /** Without a transaction id the fallback trusts the pending row it read earlier. */
  function ApplyFallback(s: State, payment: nat): State {
    if payment < |s.payments| && s.payments[payment].online && Terminal(s.payments[payment].status) then s
    else FailPayment(s, payment)
  }

  function Answer(s: State, request: nat, next: Request): State
    requires request < |s.requests|
  {
    s.(requests := s.requests[request := next])
  }

  function ApplyPay(s: State, a: PayAction): State {
    match a
    case Initiate(order, online, stale) => InitiatePayment(s, order, online, stale)
    case Success(payment) => PaymentSuccess(s, payment)
    case Fail(payment) => PaymentFailure(s, payment)
    case FallbackRead(order) =>
      var pending := LatestPending(s.payments, order);
      if pending.Some? then s.(requests := s.requests + [Fallback(order, pending.value)]) else s
    case FallbackApply(k) =>
      if k < |s.requests| && s.requests[k].Fallback? then
        ApplyFallback(Answer(s, k, Over), s.requests[k].payment)
      else s
  }

  // ---- Refund desk: everything but the settlement

  /** `bank` is the bank transaction id the payment's row has recorded. */
  datatype DeskAction =
    | RequestRefund(order: nat)
    | CheckActive(request: nat)
    | InsertRefund(request: nat, payment: Option<nat>, damaged: bool)
    | ReadRefund(refund: nat, dto: Dto)
    | ReadConfirmed(request: nat)
    | ReadPayment(request: nat)
    | Decide(request: nat)
    | Claim(request: nat)
    | AskGateway(request: nat)
    | GatewayReplies(request: nat, reply: Reply, bankTran: nat)
    | Reconcile(refund: nat, bank: Option<nat>)
    | InquiryReplies(request: nat, reply: Reply)

  predicate Active(r: Refund) {
    r.status != Rejected
  }

  /** Would this row violate the unique index over non-rejected refunds of an order? */
  predicate Clashes(refunds: seq<Refund>, id: nat, row: Refund) {
    Active(row) && exists r :: 0 <= r < |refunds| && r != id && refunds[r].order == row.order && Active(refunds[r])
  }

  /** The foreign key of a refund's payment, which it may lack. */
  predicate IsPayment(payments: seq<Payment>, payment: Option<nat>) {
    payment.Some? ==> payment.value < |payments|
  }

  /** `updateRefund`; the unique index makes a clashing update fail. */
  function UpdateRefund(s: State, id: nat, row: Refund): State
    requires id < |s.refunds|
  {
    if Clashes(s.refunds, id, row) then s else s.(refunds := s.refunds[id := row])
  }

  function NewRefund(order: nat, payment: Option<nat>, damaged: bool): Refund {
    Refund(order, payment, Requested, None, damaged, false, 0, false, false, false)
  }

  function Or(a: Option<nat>, b: Option<nat>): Option<nat> {
    if a.Some? then a else b
  }

  predicate Closed(status: RefundStatus) {
    status == Processed || status == Rejected
  }

  /** The unlocked read at the head of `processRefund`, with its three refusals. */
  function RefundReadBy(s: State, refund: nat, dto: Dto): Option<Request> {
    if refund >= |s.refunds| || Closed(s.refunds[refund].status) then None
    else if s.refunds[refund].status == InProcess && dto.reference.None? then None
    else Some(RefundRead(refund, dto, s.refunds[refund].reference))
  }

  predicate IsOnline(payments: seq<Payment>, payment: Option<nat>) {
    payment.Some? && payment.value < |payments|
    && payments[payment.value].status == Completed && payments[payment.value].online
  }

  /** An online payment's transaction id; ids are unique, so its row number stands for it. */
  function TranOf(payments: seq<Payment>, payment: Option<nat>): Option<nat> {
    if payment.Some? && payment.value < |payments| && payments[payment.value].online then payment else None
  }

  predicate AtRefund(s: State, request: nat) {
    && request < |s.requests|
    && (s.requests[request].RefundRead? || s.requests[request].PaymentRead? || s.requests[request].Calling?
        || s.requests[request].Asked? || s.requests[request].Inquiring? || s.requests[request].Confirmed?)
    && s.requests[request].refund < |s.refunds|
  }

  function Decided(r: Refund, dto: Dto): Refund {
    r.(status := if dto.decision == Approve then Approved else Rejected,
       reference := Or(dto.reference, r.reference),
       adminReference := r.adminReference || dto.reference.Some?)
  }

  /** The request goes on to the gateway rather than to settlement. */
  predicate TakesClaimPath(q: Request) {
    q.PaymentRead? && q.dto.decision == Process && q.online && q.dto.reference.None? && q.seen.None?
  }

  predicate MayClaim(s: State, request: nat) {
    && AtRefund(s, request) && TakesClaimPath(s.requests[request])
    && !Closed(s.refunds[s.requests[request].refund].status)
    && s.refunds[s.requests[request].refund].status != InProcess
  }

  function AfterGateway(r: Refund, answer: GatewayAnswer): Refund {
    match answer
    case GatewayFailed => r.(status := Rejected)
    case GatewayOpen(reference) => r.(status := InProcess, reference := Or(reference, r.reference))
  }

  function ApplyDesk(s: State, a: DeskAction): State {
    match a
    case RequestRefund(order) =>
      if order < |s.orders| && s.orders[order].status == Delivered then
        s.(requests := s.requests + [RefundRequest(order)])
      else s
    case CheckActive(k) =>
      if k < |s.requests| && s.requests[k].RefundRequest? then
        var order := s.requests[k].order;
        if exists r :: 0 <= r < |s.refunds| && s.refunds[r].order == order && Active(s.refunds[r])
        then Answer(s, k, Over)
        else Answer(s, k, RefundUnopposed(order))
      else s
    case InsertRefund(k, payment, damaged) =>
      if k < |s.requests| && s.requests[k].RefundUnopposed? then
        var row := NewRefund(s.requests[k].order, payment, damaged);
        var t := Answer(s, k, Over);
        if Clashes(s.refunds, |s.refunds|, row) || !IsPayment(s.payments, payment) then t
        else t.(refunds := s.refunds + [row])
      else s
    case ReadRefund(refund, dto) =>
      match RefundReadBy(s, refund, dto.(confirmed := false)) {
        case None => s
        case Some(q) => s.(requests := s.requests + [q])
      }
    case ReadConfirmed(k) =>
      if AtRefund(s, k) && s.requests[k].Confirmed? then
        var dto := Dto(Process, Some(s.requests[k].reference), true, true);
        match RefundReadBy(s, s.requests[k].refund, dto) {
          case None => Answer(s, k, Over)
          case Some(q) => Answer(s, k, q)
        }
      else s
    case ReadPayment(k) =>
      if AtRefund(s, k) && s.requests[k].RefundRead? && s.requests[k].dto.decision == Process then
        var q := s.requests[k];
        Answer(s, k, PaymentRead(q.refund, q.dto, q.seen, IsOnline(s.payments, s.refunds[q.refund].payment)))
      else s
    case Decide(k) =>
      if AtRefund(s, k) && s.requests[k].RefundRead? && s.requests[k].dto.decision != Process then
        var q := s.requests[k];
        var t := Answer(s, k, Over);
        if Closed(s.refunds[q.refund].status) then t
        else UpdateRefund(t, q.refund, Decided(s.refunds[q.refund], q.dto))
      else s
    case Claim(k) =>
      if MayClaim(s, k) then
        var r := s.requests[k].refund;
        Answer(s.(refunds := s.refunds[r := s.refunds[r].(status := InProcess, claimed := true)]), k, Calling(r))
      else s
    case AskGateway(k) =>
      if AtRefund(s, k) && s.requests[k].Calling? then
        var r := s.requests[k].refund;
        Answer(s.(refunds := s.refunds[r := s.refunds[r].(asked := s.refunds[r].asked + 1)]), k, Asked(r))
      else s
    case GatewayReplies(k, reply, bank) =>
      if AtRefund(s, k) && s.requests[k].Asked? then
        var r := s.requests[k].refund;
        UpdateRefund(Answer(s, k, Over), r, AfterGateway(s.refunds[r], InitiationOutcome(reply, bank)))
      else s
    case Reconcile(refund, bank) =>
      if refund < |s.refunds| && s.refunds[refund].status != Processed && s.refunds[refund].reference.Some? then
        var tran := TranOf(s.payments, s.refunds[refund].payment);
        s.(requests := s.requests + [Inquiring(refund, s.refunds[refund].reference.value, Or(bank, tran), tran)])
      else s
    case InquiryReplies(k, reply) =>
      if AtRefund(s, k) && s.requests[k].Inquiring? then
        var q := s.requests[k];
        match InquiryOutcome(reply, q.reference, q.bankTran, q.tran) {
          case InquiryRefunded => Answer(s, k, Confirmed(q.refund, q.reference))
          case InquiryCancelled =>
            UpdateRefund(Answer(s, k, Over), q.refund, s.refunds[q.refund].(status := Rejected))
          case InquiryUnsettled =>
            UpdateRefund(Answer(s, k, Over), q.refund, s.refunds[q.refund].(status := InProcess))
        }
      else s
  }

  // ---- Settlement

  /** What the settlement transaction checks, including what was decided before it. */
  predicate MaySettle(s: State, request: nat) {
    && AtRefund(s, request) && s.requests[request].PaymentRead?
    && s.requests[request].dto.decision == Process && !TakesClaimPath(s.requests[request])
    && (!s.requests[request].online ==> s.requests[request].dto.reference.Some? || s.requests[request].dto.hasNotes)
    && var r := s.refunds[s.requests[request].refund];
       && r.order < |s.orders| && !Closed(r.status)
       && (s.requests[request].dto.reference.None? ==> r.status != InProcess)
  }

  predicate MustRestock(s: State, refund: nat)
    requires refund < |s.refunds| && s.refunds[refund].order < |s.orders|
  {
    && s.orders[s.refunds[refund].order].status != Cancelled
    && !Restocked(s.moves, ForOrder(s.refunds[refund].order))
    && !Restocked(s.moves, ForRefund(refund))
  }

  function Touch(orders: seq<Order>, payments: seq<Payment>, payment: Option<nat>): seq<Order> {
    if payment.Some? && payment.value < |payments| && payments[payment.value].order < |orders| then
      var o := payments[payment.value].order;
      orders[o := orders[o].(touched := true)]
    else orders
  }

  /** The reference for a cash refund settled without one. */
  const MANUAL: nat := 0

  function PaidBackRows(payments: seq<Payment>, payment: Option<nat>): seq<Payment> {
    if payment.Some? && payment.value < |payments| then
      payments[payment.value := payments[payment.value].(status := Returned)]
    else payments
  }

  function SettledRow(refund: Refund, dto: Dto, seen: Option<nat>, online: bool): Refund {
    refund.(status := Processed, settled := true,
            reference := Or(Or(Or(dto.reference, seen), if online then None else Some(MANUAL)), refund.reference),
            adminReference := refund.adminReference || (dto.reference.Some? && !dto.confirmed),
            inquired := refund.inquired || (dto.reference.Some? && dto.confirmed))
  }

  function Settle(s: State, request: nat): State {
    if !MaySettle(s, request) then s
    else
      var q := s.requests[request];
      var refund := s.refunds[q.refund];
      var order := s.orders[refund.order];
      var restock := MustRestock(s, q.refund);
      s.(payments := PaidBackRows(s.payments, refund.payment),
         orders := Touch(s.orders[refund.order := order.(status := Refunded, pay := PaidBack, touched := true)],
                         s.payments, refund.payment),
         cells := if restock && !refund.damaged then RestoreAll(s.cells, order.items) else s.cells,
         moves := if restock then s.moves + ReturnMoves(s.cells, order.items, q.refund, refund.damaged) else s.moves,
         points := WithPointsBack(s.points, order.user, refund.order),
         refunds := s.refunds[q.refund := SettledRow(refund, q.dto, q.seen, q.online)],
         requests := s.requests[request := Over])
  }

  // ---- Outbox handlers for refunds

  datatype NoticeAction =
    | StartNotice(notice: nat)
    | RegisterRefund(request: nat, payment: Option<nat>)
    | CompleteNotice(request: nat)

  predicate HasRefund(refunds: seq<Refund>, order: nat) {
    exists r :: 0 <= r < |refunds| && refunds[r].order == order
  }

  function ApplyNotice(s: State, a: NoticeAction): State {
    match a
    case StartNotice(n) =>
      if n < |s.notices| && !s.notices[n].completed && s.notices[n].order < |s.orders| then
        s.(requests := s.requests + [Handling(n, HasRefund(s.refunds, s.notices[n].order))])
      else s
    case RegisterRefund(k, payment) =>
      if k < |s.requests| && s.requests[k].Handling? && s.requests[k].notice < |s.notices| then
        var q := s.requests[k];
        var row := NewRefund(s.notices[q.notice].order, payment, false);
        if q.found then Answer(s, k, Handled(q.notice))
        else if Clashes(s.refunds, |s.refunds|, row) || !IsPayment(s.payments, payment) then Answer(s, k, Over)
        else Answer(s.(refunds := s.refunds + [row]), k, Handled(q.notice))
      else s
    case CompleteNotice(k) =>
      if k < |s.requests| && s.requests[k].Handled? && s.requests[k].notice < |s.notices| then
        var n := s.requests[k].notice;
        Answer(s.(notices := s.notices[n := s.notices[n].(completed := true)]), k, Over)
      else s
  }

  // ---- Other writers

  /** A reward for this review, of either kind: the unique index allows one. */
  predicate Rewards(p: PointRow, review: nat) {
    p.reference == Some(OfReview(review)) && (p.kind == EarnedText || p.kind == EarnedMedia)
  }

  function Award(s: State, user: nat, points: nat, kind: RewardKind, review: nat, validUntil: Option<int>): State {
    if points == 0 || (exists i :: 0 <= i < |s.points| && Rewards(s.points[i], review)) then s
    else s.(points := s.points + [PointRow(user, points, kind, Some(OfReview(review)), validUntil)])
  }

  predicate ItemFits(cells: seq<Cell>, item: Item) {
    item.cell < |cells| && cells[item.cell].product == item.product && item.quantity >= 1
  }

  function AddToCart(s: State, user: nat, item: Item): State {
    if ItemFits(s.cells, item) then s.(carts := s.carts[user := CartOf(s, user) + [item]]) else s
  }

  // ---- The machine

  datatype Action =
    | Buy(dto: CheckoutDto)
    | CancelOrder(order: nat, expiry: bool)
    | UpdateStatus(order: nat, to: OrderStatus)
    | Pay(pay: PayAction)
    | Desk(desk: DeskAction)
    | SettleRefund(request: nat)
    | Outbox(step: NoticeAction)
    | Reward(user: nat, points: nat, kind: RewardKind, review: nat, validUntil: Option<int>)
    | FillCart(user: nat, item: Item)

  function Apply(s: State, a: Action): State {
    match a
    case Buy(dto) => Checkout(s, dto).0
    case CancelOrder(order, expiry) => Cancel(s, order, expiry)
    case UpdateStatus(order, to) => SetStatus(s, order, to)
    case Pay(pay) => ApplyPay(s, pay)
    case Desk(desk) => ApplyDesk(s, desk)
    case SettleRefund(request) => Settle(s, request)
    case Outbox(step) => ApplyNotice(s, step)
    case Reward(user, points, kind, review, validUntil) => Award(s, user, points, kind, review, validUntil)
    case FillCart(user, item) => AddToCart(s, user, item)
  }

  function Run(s: State, actions: seq<Action>): State
    decreases |actions|
  {
    if actions == [] then s else Run(Apply(s, actions[0]), actions[1..])
  }

  lemma {:induction false} RunConcat(s: State, a: seq<Action>, b: seq<Action>)
    ensures Run(s, a + b) == Run(Run(s, a), b)
    decreases |a|
  {
    if a == [] {
      assert a + b == b;
    } else {
      var rest := a[1..] + b;
      assert (a + b)[0] == a[0] && (a + b)[1..] == rest;
      RunConcat(Apply(s, a[0]), a[1..], b);
    }
  }

  lemma {:induction false} RunOne(s: State, a: Action)
    ensures Run(s, [a]) == Apply(s, a)
  {
    assert [a][1..] == [];
  }

  lemma {:induction false} RunTwo(s: State, a: Action, b: Action)
    ensures Run(s, [a, b]) == Apply(Apply(s, a), b)
  {
    RunOne(Apply(s, a), b);
    assert [a, b][1..] == [b];
  }

  lemma {:induction false} RunThree(s: State, a: Action, b: Action, c: Action)
    ensures Run(s, [a, b, c]) == Apply(Apply(Apply(s, a), b), c)
  {
    RunTwo(Apply(s, a), b, c);
    assert [a, b, c][1..] == [b, c];
  }

  // ---- What each group of steps leaves alone

  ghost predicate OnlyPays(s: State, t: State) {
    && t.cells == s.cells && t.moves == s.moves && t.refunds == s.refunds && t.points == s.points
    && t.promos == s.promos && t.keys == s.keys && t.carts == s.carts
    && |t.orders| == |s.orders| && |t.payments| >= |s.payments|
    && (forall o :: 0 <= o < |s.orders| ==>
          t.orders[o] == s.orders[o].(status := t.orders[o].status, pay := t.orders[o].pay))
  }

  lemma FailPaymentFrame(s: State, payment: nat)
    ensures OnlyPays(s, FailPayment(s, payment))
  {
  }

  lemma SuccessFrame(s: State, payment: nat)
    ensures OnlyPays(s, PaymentSuccess(s, payment))
  {
  }

  lemma InitiateFrame(s: State, order: nat, online: bool, stale: bool)
    ensures OnlyPays(s, InitiatePayment(s, order, online, stale))
  {
  }

  /** Payment steps change payments, an order's two statuses, notices and requests. */
  lemma PayFrame(s: State, a: PayAction)
    ensures OnlyPays(s, ApplyPay(s, a))
  {
    match a
    case Initiate(order, online, stale) => InitiateFrame(s, order, online, stale);
    case Success(payment) => SuccessFrame(s, payment);
    case Fail(payment) => FailPaymentFrame(s, payment);
    case FallbackRead(_) =>
    case FallbackApply(k) =>
      if k < |s.requests| && s.requests[k].Fallback? {
        FailPaymentFrame(Answer(s, k, Over), s.requests[k].payment);
      }
  }

  /** Payments stay, and stay online or not. */
  ghost predicate SameOnline(before: seq<Payment>, after: seq<Payment>) {
    |after| >= |before| && forall p :: 0 <= p < |before| ==> after[p].online == before[p].online
  }

  lemma FailPaymentStays(s: State, payment: nat)
    ensures var t := FailPayment(s, payment); t.requests == s.requests && SameOnline(s.payments, t.payments)
  {
  }

  lemma SuccessStays(s: State, payment: nat)
    ensures var t := PaymentSuccess(s, payment); t.requests == s.requests && SameOnline(s.payments, t.payments)
  {
  }

  lemma InitiateStays(s: State, order: nat, online: bool, stale: bool)
    ensures var t := InitiatePayment(s, order, online, stale);
      t.requests == s.requests && SameOnline(s.payments, t.payments)
  {
  }

  /** Payment steps end a fallback or note one. */
  lemma PayRequests(s: State, a: PayAction)
    ensures var t := ApplyPay(s, a);
      && |t.requests| >= |s.requests|
      && forall k :: 0 <= k < |t.requests| ==>
           || (k < |s.requests| && t.requests[k] == s.requests[k])
           || (t.requests[k].Over? && k < |s.requests| && s.requests[k].Fallback?)
           || (t.requests[k].Fallback? && k >= |s.requests|)
  {
    match a
    case Initiate(order, online, stale) => InitiateStays(s, order, online, stale);
    case Success(payment) => SuccessStays(s, payment);
    case Fail(payment) => FailPaymentStays(s, payment);
    case FallbackRead(_) =>
    case FallbackApply(k) =>
      if k < |s.requests| && s.requests[k].Fallback? {
        FailPaymentStays(Answer(s, k, Over), s.requests[k].payment);
      }
  }

  lemma PaymentsStay(s: State, a: PayAction)
    ensures SameOnline(s.payments, ApplyPay(s, a).payments)
  {
    match a
    case Initiate(order, online, stale) => InitiateStays(s, order, online, stale);
    case Success(payment) => SuccessStays(s, payment);
    case Fail(payment) => FailPaymentStays(s, payment);
    case FallbackRead(_) =>
    case FallbackApply(k) =>
      if k < |s.requests| && s.requests[k].Fallback? {
        FailPaymentStays(Answer(s, k, Over), s.requests[k].payment);
      }
  }

  /** Every refund-desk step -- whatever a gateway answers -- leaves orders, payments, stock and
      points exactly as they are. */
  lemma DeskFrame(s: State, a: DeskAction)
    ensures ApplyDesk(s, a) == s.(refunds := ApplyDesk(s, a).refunds, requests := ApplyDesk(s, a).requests)
  {
  }

  /** Desk steps that only read, and note what they read. */
  predicate Reads(a: DeskAction) {
    a.RequestRefund? || a.CheckActive? || a.ReadRefund? || a.ReadConfirmed? || a.ReadPayment? || a.Reconcile?
  }

  lemma ReadsFrame(s: State, a: DeskAction)
    requires Reads(a)
    ensures ApplyDesk(s, a) == s.(requests := ApplyDesk(s, a).requests)
  {
  }

  /** The others leave a refund's order and settlement alone, and may add one new row. */
  ghost predicate Writes(s: State, t: State) {
    && |s.refunds| <= |t.refunds| <= |s.refunds| + 1 && |t.requests| == |s.requests|
    && (forall r :: 0 <= r < |s.refunds| ==>
          t.refunds[r].order == s.refunds[r].order && t.refunds[r].settled == s.refunds[r].settled)
    && (|t.refunds| > |s.refunds| ==> !t.refunds[|s.refunds|].settled)
    && (forall k :: 0 <= k < |t.requests| ==>
          t.requests[k] == s.requests[k] || (!t.requests[k].Handling? && !t.requests[k].Handled?))
  }

  lemma UpdateFrame(s: State, k: nat, id: nat, row: Refund)
    requires k < |s.requests| && id < |s.refunds|
    requires row.order == s.refunds[id].order && row.settled == s.refunds[id].settled
    ensures Writes(s, UpdateRefund(Answer(s, k, Over), id, row))
  {
  }

  lemma InsertFrame(s: State, k: nat, payment: Option<nat>, damaged: bool)
    ensures Writes(s, ApplyDesk(s, InsertRefund(k, payment, damaged)))
  {
  }

  lemma WritesFrame(s: State, a: DeskAction)
    requires !Reads(a)
    ensures Writes(s, ApplyDesk(s, a))
  {
    match a
    case InsertRefund(k, payment, damaged) => InsertFrame(s, k, payment, damaged);
    case Decide(k) =>
      if AtRefund(s, k) && s.requests[k].RefundRead? {
        UpdateFrame(s, k, s.requests[k].refund, Decided(s.refunds[s.requests[k].refund], s.requests[k].dto));
      }
    case Claim(_) =>
    case AskGateway(_) =>
    case GatewayReplies(k, reply, bank) =>
      if AtRefund(s, k) {
        UpdateFrame(s, k, s.requests[k].refund,
                    AfterGateway(s.refunds[s.requests[k].refund], InitiationOutcome(reply, bank)));
      }
    case InquiryReplies(k, reply) => InquiryFrame(s, k, reply);
  }

  lemma InquiryFrame(s: State, k: nat, reply: Reply)
    ensures Writes(s, ApplyDesk(s, InquiryReplies(k, reply)))
  {
    if AtRefund(s, k) && s.requests[k].Inquiring? {
      var r := s.requests[k].refund;
      UpdateFrame(s, k, r, s.refunds[r].(status := Rejected));
      UpdateFrame(s, k, r, s.refunds[r].(status := InProcess));
    }
  }

  lemma NoticeFrame(s: State, a: NoticeAction)
    ensures ApplyNotice(s, a) == s.(refunds := ApplyNotice(s, a).refunds, notices := ApplyNotice(s, a).notices,
                                    requests := ApplyNotice(s, a).requests)
  {
  }
}
