/** When an order may be placed, moved, cancelled and paid, and what exactly each of these writes:
    in the terms of the order's own rows, and over every step of the shop. */
module OrderRules {
  import opened Basics
  import opened Gateway
  import opened Tables
  import opened Shop
  import opened StockBooks
  import PointBooks
  import ReturnRows

  // ---- Cancellation

  /** A cancellation changes something exactly for a pending or processing order; an expiry exactly
      for a pending one that is not paid. */
  predicate Cancellable(o: Order, expiry: bool) {
    if expiry then o.status == Pending && o.pay != Paid else o.status == Pending || o.status == Processing
  }

  /** A cancellation that is refused writes nothing; otherwise it cancels the order, fails its pending
      payments, and notes a paid order for its refund. */
  lemma CancellationDecides(s: State, o: nat, expiry: bool)
    ensures var t := Cancel(s, o, expiry);
      if o < |s.orders| && Cancellable(s.orders[o], expiry) then
        var row := s.orders[o];
        && t.orders == s.orders[o := row.(status := Cancelled, wasCancelled := true)]
        && |t.payments| == |s.payments|
        && (forall p :: 0 <= p < |s.payments| ==>
              var pending := s.payments[p].order == o && s.payments[p].status == Awaiting;
              t.payments[p] == if pending then s.payments[p].(status := Failed) else s.payments[p])
        && t.notices == (if row.pay == Paid then s.notices + [Notice(o, false, false)] else s.notices)
        && t.refunds == s.refunds && t.keys == s.keys && t.carts == s.carts && t.requests == s.requests
      else t == s
  {
  }

  /** Every line of the order is back on its row and in the ledger, one use with its promo, and its
      points with its user. */
  ghost predicate GivenBackAs(s: State, o: nat, t: State)
    requires o < |s.orders|
  {
    var row := s.orders[o];
    var n := |s.moves|;
    && |t.cells| == |s.cells|
    && (forall c: nat :: c < |s.cells| ==>
          t.cells[c] == s.cells[c].(stock := s.cells[c].stock + Demand(row.items, c)))
    && |t.moves| == n + |row.items| && t.moves[..n] == s.moves
    && (forall i :: 0 <= i < |row.items| ==>
          t.moves[n + i] == Move(row.items[i].product, In, row.items[i].quantity, ForOrder(o), false))
    && |t.promos| == |s.promos|
    && (forall p: nat :: p < |s.promos| ==>
          var used := row.promo == Some(p) && s.promos[p].uses > 0;
          t.promos[p] == if used then s.promos[p].(uses := s.promos[p].uses - 1) else s.promos[p])
    && t.points == WithPointsBack(s.points, row.user, o)
  }

  lemma {:induction false} CancellationGivesBack(s: State, o: nat, expiry: bool)
    requires o < |s.orders| && Cancellable(s.orders[o], expiry)
    ensures GivenBackAs(s, o, Cancel(s, o, expiry))
  {
    RestoreRows(s.cells, s.orders[o].items);
  }

  /** An admin's or a customer's cancellation, or an expiry, of this very order. */
  predicate CancelsIt(a: Action, o: nat) {
    (a.CancelOrder? && a.order == o) || (a.UpdateStatus? && a.order == o && a.to == Cancelled)
  }

  lemma SettlementCancelsNothing(s: State, request: nat, o: nat)
    requires o < |s.orders|
    ensures o < |Settle(s, request).orders|
    ensures Settle(s, request).orders[o].status == Cancelled ==> s.orders[o].status == Cancelled
  {
  }

  lemma PaymentCancelsNothing(s: State, a: PayAction, o: nat)
    requires o < |s.orders|
    ensures o < |ApplyPay(s, a).orders|
    ensures ApplyPay(s, a).orders[o].status == Cancelled ==> s.orders[o].status == Cancelled
  {
    PayFrame(s, a);
    if a.Success? {
      SuccessDecides(s, a.payment);
    }
  }

  /** Over all steps: an order becomes cancelled only by a cancellation of it while it is pending
      or processing, and by an expiry only while it is pending and not paid.  So an order that is
      shipped, out for delivery, delivered or refunded is never cancelled. */
  lemma OnlyOpenOrdersAreCancelled(s: State, a: Action, o: nat)
    requires o < |s.orders| && s.orders[o].status != Cancelled
    ensures o < |Apply(s, a).orders|
    ensures Apply(s, a).orders[o].status == Cancelled <==>
      CancelsIt(a, o) && Cancellable(s.orders[o], a.CancelOrder? && a.expiry)
  {
    match a
    case Buy(dto) => BuyingKeepsOrders(s, dto);
    case CancelOrder(order, expiry) => CancellationDecides(s, order, expiry);
    case UpdateStatus(order, to) => CancellationDecides(s, order, false);
    case Pay(pay) => PaymentCancelsNothing(s, pay, o);
    case Desk(desk) => DeskFrame(s, desk);
    case SettleRefund(request) => SettlementCancelsNothing(s, request, o);
    case Outbox(step) => NoticeFrame(s, step);
    case _ =>
  }

  lemma BuyingKeepsOrders(s: State, c: CheckoutDto)
    ensures |Checkout(s, c).0.orders| >= |s.orders| && Checkout(s, c).0.orders[..|s.orders|] == s.orders
    ensures Checkout(s, c).0.moves == s.moves
         || exists items: seq<Item> :: Checkout(s, c).0.moves == s.moves + Sold(items, |s.orders|)
  {
    if !IsReplay(s, c) && MayPlace(s, c) {
      var items := SortItems(CartOf(s, c.user));
      WritingKeepsOrders(s, c, items, Deduct(s.cells, items).value);
    }
  }

  lemma WritingKeepsOrders(s: State, c: CheckoutDto, items: seq<Item>, cells: seq<Cell>)
    ensures var t := WriteOrder(s, c, items, cells);
      |t.orders| > |s.orders| && t.orders[..|s.orders|] == s.orders && t.moves == s.moves + Sold(items, |s.orders|)
  {
  }

  lemma CancellationReturns(s: State, order: nat, expiry: bool, o: nat)
    ensures var t := Cancel(s, order, expiry);
            var back := ReturnRows.ReturnsFrom(t.moves, ForOrder(o));
      if order == o && o < |s.orders| && Cancellable(s.orders[o], expiry) then
        back == ReturnRows.ReturnsFrom(s.moves, ForOrder(o)) + Back(s.orders[o].items, o)
      else back == ReturnRows.ReturnsFrom(s.moves, ForOrder(o))
  {
    if order < |s.orders| && Cancellable(s.orders[order], expiry) {
      var block := Back(s.orders[order].items, order);
      ReturnRows.ReturnsAppend(s.moves, block, ForOrder(o));
      ReturnRows.ReturnsOfBlock(block, ForOrder(order), ForOrder(o));
    }
  }

  lemma SettlementReturns(s: State, request: nat, o: nat)
    ensures ReturnRows.ReturnsFrom(Settle(s, request).moves, ForOrder(o))
         == ReturnRows.ReturnsFrom(s.moves, ForOrder(o))
  {
    if MaySettle(s, request) {
      var r := s.requests[request].refund;
      var block := ReturnMoves(s.cells, s.orders[s.refunds[r].order].items, r, s.refunds[r].damaged);
      ReturnRows.ReturnsAppend(s.moves, block, ForOrder(o));
      ReturnRows.ReturnsOfBlock(block, ForRefund(r), ForOrder(o));
    }
  }

  /** Over all steps: a cancellation's rows enter the ledger only with such a cancellation, line by
      line; so the goods of a shipped or delivered order never come back by one. */
  lemma OnlyCancellationsReturnOrders(s: State, a: Action, o: nat)
    requires o < |s.orders|
    ensures var before := ReturnRows.ReturnsFrom(s.moves, ForOrder(o));
            var after := ReturnRows.ReturnsFrom(Apply(s, a).moves, ForOrder(o));
      after == if CancelsIt(a, o) && Cancellable(s.orders[o], a.CancelOrder? && a.expiry)
               then before + Back(s.orders[o].items, o) else before
  {
    match a
    case Buy(dto) =>
      BuyingKeepsOrders(s, dto);
      if Apply(s, a).moves != s.moves {
        var items :| Apply(s, a).moves == s.moves + Sold(items, |s.orders|);
        ReturnRows.ReturnsAppend(s.moves, Sold(items, |s.orders|), ForOrder(o));
        ReturnRows.NoReturnsOut(Sold(items, |s.orders|), ForOrder(o));
      }
    case CancelOrder(order, expiry) => CancellationReturns(s, order, expiry, o);
    case UpdateStatus(order, to) =>
      if to == Cancelled {
        CancellationReturns(s, order, false, o);
      }
    case Pay(pay) => PayFrame(s, pay);
    case Desk(desk) => DeskFrame(s, desk);
    case SettleRefund(request) => SettlementReturns(s, request, o);
    case Outbox(step) => NoticeFrame(s, step);
    case _ =>
  }

  // ---- Status changes

  /** The moves an admin can make, cancellations among them. */
  const MOVES: set<(OrderStatus, OrderStatus)> := {
    (Pending, Processing), (Pending, Cancelled), (Processing, Shipped), (Processing, Cancelled),
    (Shipped, OutForDelivery), (Shipped, Delivered), (OutForDelivery, Delivered), (Delivered, Refunded)
  }

  /** How far along an order is. */
  function Progress(status: OrderStatus): nat {
    match status
    case Pending => 0
    case Processing => 1
    case Shipped => 2
    case OutForDelivery => 3
    case Delivered => 4
    case Cancelled => 5
    case Refunded => 5
  }

  /** A status change happens exactly along these moves, always forward, and but for a
      cancellation it changes nothing else; from cancelled and refunded none starts. */
  lemma StatusMoves(s: State, o: nat, to: OrderStatus)
    requires o < |s.orders|
    ensures var from := s.orders[o].status;
            var t := SetStatus(s, o, to);
      && o < |t.orders| && t.orders[o].status == (if (from, to) in MOVES then to else from)
      && ((from, to) !in MOVES ==> t == s)
      && ((from, to) in MOVES ==> Progress(from) < Progress(to))
      && ((from, to) in MOVES && to != Cancelled ==> t == s.(orders := s.orders[o := s.orders[o].(status := to)]))
      && (from == Cancelled || from == Refunded ==> t == s)
  {
    if to == Cancelled {
      CancellationDecides(s, o, false);
    }
  }

  // ---- Payments

  /** A success callback counts exactly for an online payment that is not completed.  It then
      completes that payment and pays its order; a cancelled order stays cancelled and is noted for
      reconciliation, and any other is set to processing -- even one further along. */
  lemma SuccessDecides(s: State, p: nat)
    ensures var t := PaymentSuccess(s, p);
      if p < |s.payments| && s.payments[p].online && s.payments[p].status != Completed then
        var o := s.payments[p].order;
        && t.payments == s.payments[p := s.payments[p].(status := Completed)]
        && |t.orders| == |s.orders|
        && (forall other :: 0 <= other < |s.orders| && other != o ==> t.orders[other] == s.orders[other])
        && (o < |s.orders| ==>
              t.orders[o] == s.orders[o].(pay := Paid,
                                          status := if s.orders[o].status == Cancelled then Cancelled else Processing))
        && t.notices == (if o < |s.orders| && s.orders[o].status == Cancelled then s.notices + [Notice(o, true, false)]
                         else s.notices)
        && t.cells == s.cells && t.moves == s.moves && t.refunds == s.refunds && t.points == s.points
        && t.promos == s.promos && t.keys == s.keys && t.carts == s.carts && t.requests == s.requests
      else t == s
  {
  }

  /** So after a success callback an order can be cancelled if and only if it was pending or
      processing, or the callback counts and it was not cancelled: a shipped or delivered order
      too is cancelled then, and its goods come back to stock. */
  lemma {:induction false} CancelAfterSuccessIff(s: State, p: nat)
    requires p < |s.payments| && s.payments[p].order < |s.orders|
    ensures var o := s.payments[p].order;
            var t := Cancel(PaymentSuccess(s, p), o, false);
            var status := s.orders[o].status;
            var counts := s.payments[p].online && s.payments[p].status != Completed;
      && o < |t.orders|
      && (t.orders[o].status == Cancelled && status != Cancelled <==>
            status == Pending || status == Processing || (counts && status != Cancelled))
      && (t.orders[o].status == Cancelled && status != Cancelled ==>
            |t.cells| == |s.cells|
            && forall c: nat :: c < |s.cells| ==>
                 t.cells[c].stock == s.cells[c].stock + Demand(s.orders[o].items, c))
  {
    var o := s.payments[p].order;
    var u := PaymentSuccess(s, p);
    SuccessDecides(s, p);
    CancellationDecides(u, o, false);
    if Cancellable(u.orders[o], false) {
      CancellationGivesBack(u, o, false);
    }
  }

  /** What a payment that fails leaves behind: the payment failed, and its order unpaid unless it is
      paid already or cancelled; nothing else changes. */
  ghost predicate Fails(s: State, t: State, p: nat)
    requires p < |s.payments|
  {
    var o := s.payments[p].order;
    && t.payments == s.payments[p := s.payments[p].(status := Failed)]
    && t == s.(payments := t.payments, orders := t.orders)
    && t.orders == if o < |s.orders| && s.orders[o].pay != Paid && s.orders[o].status != Cancelled
                   then s.orders[o := s.orders[o].(pay := Unpaid)] else s.orders
  }

  /** A failure callback counts exactly for an online payment neither completed nor failed. */
  lemma FailureDecides(s: State, p: nat)
    ensures var t := PaymentFailure(s, p);
      if p < |s.payments| && s.payments[p].online && s.payments[p].status != Completed
         && s.payments[p].status != Failed
      then Fails(s, t, p) else t == s
  {
  }

  /** A fallback re-checks only a payment that has a transaction id. */
  lemma FallbackDecides(s: State, k: nat)
    requires k < |s.requests| && s.requests[k].Fallback? && s.requests[k].payment < |s.payments|
    ensures var p := s.requests[k].payment;
            var u := s.(requests := s.requests[k := Over]);
            var t := ApplyPay(s, FallbackApply(k));
      if s.payments[p].online && (s.payments[p].status == Completed || s.payments[p].status == Failed)
      then t == u else Fails(u, t, p)
  {
  }

  /** A callback without a transaction id notes the order's latest pending payment, if any. */
  lemma FallbackReads(s: State, o: nat)
    ensures var t := ApplyPay(s, FallbackRead(o));
      if HasPending(s.payments, o) then
        exists last: nat ::
          && last < |s.payments| && s.payments[last].order == o && s.payments[last].status == Awaiting
          && (forall p :: last < p < |s.payments| ==> s.payments[p].order != o || s.payments[p].status != Awaiting)
          && t == s.(requests := s.requests + [Fallback(o, last)])
      else t == s
  {
    LatestIsLast(s.payments, o);
  }

  lemma {:induction false} LatestIsLast(payments: seq<Payment>, o: nat)
    ensures LatestPending(payments, o).None? <==>
      forall p :: 0 <= p < |payments| ==> payments[p].order != o || payments[p].status != Awaiting
    ensures LatestPending(payments, o).Some? ==>
      var last := LatestPending(payments, o).value;
      && last < |payments| && payments[last].order == o && payments[last].status == Awaiting
      && forall p :: last < p < |payments| ==> payments[p].order != o || payments[p].status != Awaiting
    decreases |payments|
  {
    if payments != [] {
      var n := |payments| - 1;
      LatestIsLast(payments[..n], o);
      assert forall p :: 0 <= p < n ==> payments[..n][p] == payments[p];
    }
  }

  predicate HasPending(payments: seq<Payment>, o: nat) {
    exists p :: 0 <= p < |payments| && payments[p].order == o && payments[p].status == Awaiting
  }

  /** A payment is created exactly for an order neither paid nor refunded that is, paid online, not
      cancelled and has no attempt pending unless a stale one, or, paid in cash, not initiated. */
  predicate Payable(s: State, o: nat, online: bool, stale: bool) {
    && o < |s.orders| && s.orders[o].pay != Paid && s.orders[o].pay != PaidBack
    && (if online
        then s.orders[o].status != Cancelled && (s.orders[o].pay == Initiated && HasPending(s.payments, o) ==> stale)
        else s.orders[o].pay != Initiated)
  }

  lemma InitiationDecides(s: State, o: nat, online: bool, stale: bool)
    ensures var t := InitiatePayment(s, o, online, stale);
            var n := |s.payments|;
      if Payable(s, o, online, stale) then
        && |t.payments| == n + 1 && t.payments[n] == Payment(o, Awaiting, online)
        && t.orders == s.orders[o := s.orders[o].(pay := Initiated)]
        && t == s.(payments := t.payments, orders := t.orders)
        && (forall p :: 0 <= p < n ==>
              t.payments[p] == s.payments[p]
              || (online && s.orders[o].pay == Initiated && s.payments[p].order == o && s.payments[p].status == Awaiting
                  && t.payments[p] == s.payments[p].(status := Failed)
                  && forall q :: p < q < n ==> s.payments[q].order != o || s.payments[q].status != Awaiting))
        && (online && s.orders[o].pay == Initiated && HasPending(s.payments, o) ==>
              exists p :: 0 <= p < n && s.payments[p].order == o && s.payments[p].status == Awaiting
                          && t.payments[p].status == Failed)
      else t == s
  {
    LatestIsLast(s.payments, o);
  }

  // ---- Checkout

  /** The key row lets a new order through: none yet, or one of this request, neither started nor
      completed with its order. */
  predicate KeyOpen(s: State, c: CheckoutDto) {
    c.key.Some? && (c.user, c.key.value) in s.keys ==>
      var row := s.keys[(c.user, c.key.value)];
      && row.hash == c.hash && row.status != KeyStarted
      && !(row.status == KeyCompleted && row.order.Some? && row.order.value < |s.orders|)
  }

  /** Everything the buyer can run into. */
  ghost predicate Orderable(s: State, c: CheckoutDto) {
    var cart := if c.user in s.carts then s.carts[c.user] else [];
    && cart != [] && Covered(s.cells, cart)
    && (c.key.Some? ==> forall o :: 0 <= o < |s.orders| ==> s.orders[o].user != c.user || s.orders[o].key != c.key)
    && (c.promo.Some? ==>
          && c.promo.value < |s.promos| && c.live
          && (s.promos[c.promo.value].maxUses.Some? ==>
                s.promos[c.promo.value].uses < s.promos[c.promo.value].maxUses.value))
    && (c.points > 0 ==>
          PointBooks.Unexpired(s.points, c.user, c.now) >= c.points && PointBooks.Owned(s.points, c.user) >= c.points)
  }

  /** A checkout places an order if and only if its key lets it through, its cart is not empty, every
      stock row covers all lines on it together, no order has its key, its promo can be used, and
      its points are there and unexpired; otherwise it changes nothing. */
  lemma {:induction false} PlacedIff(s: State, c: CheckoutDto)
    requires NoneNegative(s.cells)
    ensures Checkout(s, c).1.Placed? <==> KeyOpen(s, c) && Orderable(s, c)
    ensures !Checkout(s, c).1.Placed? ==> Checkout(s, c).0 == s
  {
    BuyableIff(s, c);
  }

  /** It answers with an earlier order if and only if its key row is completed for the same request. */
  lemma ReplayedIff(s: State, c: CheckoutDto, o: nat)
    ensures Checkout(s, c).1 == Replayed(o) <==>
      && o < |s.orders| && c.key.Some? && (c.user, c.key.value) in s.keys
      && s.keys[(c.user, c.key.value)] == KeyRow(c.hash, KeyCompleted, Some(o))
  {
  }

  lemma {:induction false} BuyableIff(s: State, c: CheckoutDto)
    requires NoneNegative(s.cells)
    ensures Buyable(s, c) <==> Orderable(s, c)
  {
    var cart := CartOf(s, c.user);
    SortedLines(s.cells, cart);
    LinesCover(s.cells, SortItems(cart), cart);
    PointBooks.AvailableIs(s.points, c.user, c.now, c.points);
  }

  /** The sorted lines ask the same rows for the same. */
  ghost predicate SameLines(cells: seq<Cell>, items: seq<Item>, cart: seq<Item>) {
    && (items == [] <==> cart == [])
    && (OnRows(cells, items) <==> OnRows(cells, cart))
    && (forall c: nat :: Demand(items, c) == Demand(cart, c))
  }

  lemma {:induction false} SortedLines(cells: seq<Cell>, cart: seq<Item>)
    ensures SameLines(cells, SortItems(cart), cart)
  {
    var items := SortItems(cart);
    SortContents(cart);
    forall c: nat ensures Demand(items, c) == Demand(cart, c) {
      SortDemand(cart, c);
    }
    assert |multiset(items)| == |items| && |multiset(cart)| == |cart|;
    SameRowsNamed(cells, items, cart);
  }

  lemma {:induction false} LinesCover(cells: seq<Cell>, items: seq<Item>, cart: seq<Item>)
    requires NoneNegative(cells) && SameLines(cells, items, cart)
    ensures Deduct(cells, items).Some? <==> Covered(cells, cart)
    ensures Covered(cells, cart) ==> InStock(cells, items)
  {
    DeductIff(cells, items);
    if Covered(cells, items) {
      forall i | 0 <= i < |items| ensures cells[items[i].cell].stock >= items[i].quantity {
        LineWithinDemand(items, i);
      }
    }
  }

  lemma SameRowsNamed(cells: seq<Cell>, a: seq<Item>, b: seq<Item>)
    requires multiset(a) == multiset(b)
    ensures OnRows(cells, a) <==> OnRows(cells, b)
  {
    if OnRows(cells, b) {
      forall i | 0 <= i < |a| ensures a[i].cell < |cells| {
        assert a[i] in multiset(b);
      }
    }
    if OnRows(cells, a) {
      forall i | 0 <= i < |b| ensures b[i].cell < |cells| {
        assert b[i] in multiset(a);
      }
    }
  }

  lemma {:induction false} LineWithinDemand(items: seq<Item>, i: nat)
    requires i < |items|
    ensures items[i].quantity <= Demand(items, items[i].cell)
    decreases |items|
  {
    if i > 0 {
      LineWithinDemand(items[1..], i - 1);
    }
  }

  /** `t` is `s` with an order of these lines: each line taken from its row and entered in the ledger,
      one use of the promo counted, the points charged, the key recorded and the cart empty. */
  ghost predicate PlacedAs(s: State, c: CheckoutDto, items: seq<Item>, t: State) {
    var n := |s.orders|;
    var charge := PointRow(c.user, -(c.points as int), SpentCheckout, Some(OfOrder(n)), None);
    && t.orders == s.orders + [Order(c.user, items, Pending, Unpaid, c.promo, c.key, false, false)]
    && |t.cells| == |s.cells|
    && (forall x: nat :: x < |s.cells| ==> t.cells[x] == s.cells[x].(stock := s.cells[x].stock - Demand(items, x)))
    && |t.moves| == |s.moves| + |items| && t.moves[..|s.moves|] == s.moves
    && (forall i :: 0 <= i < |items| ==>
          t.moves[|s.moves| + i] == Move(items[i].product, Out, items[i].quantity, ForOrder(n), false))
    && |t.promos| == |s.promos|
    && (forall p: nat :: p < |s.promos| ==>
          t.promos[p] == s.promos[p].(uses := s.promos[p].uses + if c.promo == Some(p) then 1 else 0))
    && t.points == (if c.points > 0 then s.points + [charge] else s.points)
    && t.carts == s.carts[c.user := []]
    && t.keys == (if c.key.Some? then s.keys[(c.user, c.key.value) := KeyRow(c.hash, KeyCompleted, Some(n))]
                  else s.keys)
    && t.payments == s.payments && t.refunds == s.refunds && t.notices == s.notices && t.requests == s.requests
  }

  lemma {:induction false} WritingPlaces(s: State, c: CheckoutDto, items: seq<Item>, cells: seq<Cell>)
    requires PromoUsable(s.promos, c.promo, c.live) && |cells| == |s.cells|
    requires forall x: nat :: x < |s.cells| ==> cells[x] == s.cells[x].(stock := s.cells[x].stock - Demand(items, x))
    ensures PlacedAs(s, c, items, WriteOrder(s, c, items, cells))
  {
  }

  lemma {:induction false} PlacingWrites(s: State, c: CheckoutDto)
    requires NoneNegative(s.cells) && Checkout(s, c).1.Placed?
    ensures Checkout(s, c).1 == Placed(|s.orders|)
    ensures PlacedAs(s, c, SortItems(CartOf(s, c.user)), Checkout(s, c).0)
  {
    var items := SortItems(CartOf(s, c.user));
    DeductIff(s.cells, items);
    WritingPlaces(s, c, items, Deduct(s.cells, items).value);
  }

  /** What a placed order writes is that, for the very lines of the cart; no other order, promo, cart
      or key changes. */
  lemma {:induction false} PlacedWrites(s: State, c: CheckoutDto) returns (items: seq<Item>)
    requires NoneNegative(s.cells) && Checkout(s, c).1.Placed?
    ensures Checkout(s, c).1 == Placed(|s.orders|) && PlacedAs(s, c, items, Checkout(s, c).0)
    ensures var cart := if c.user in s.carts then s.carts[c.user] else [];
      multiset(items) == multiset(cart) && forall x: nat :: Demand(items, x) == Demand(cart, x)
  {
    var cart := CartOf(s, c.user);
    items := SortItems(cart);
    PlacingWrites(s, c);
    SortContents(cart);
    SortedLines(s.cells, cart);
  }

  // ---- Round trip

  lemma {:induction false} PointsRoundTrip(rows: seq<PointRow>, buyer: nat, points: nat, order: nat, user: nat)
    requires PointBooks.NoPointsYet(rows, order)
    ensures var spent := if points > 0
                         then rows + [PointRow(buyer, -(points as int), SpentCheckout, Some(OfOrder(order)), None)]
                         else rows;
      PointBooks.Owned(WithPointsBack(spent, buyer, order), user) == PointBooks.Owned(rows, user)
  {
    var row := PointRow(buyer, -(points as int), SpentCheckout, Some(OfOrder(order)), None);
    var spent := if points > 0 then rows + [row] else rows;
    PointBooks.NoPointsMeansZero(rows, order, SpentCheckout);
    PointBooks.OwnSnoc(rows, row, order, SpentCheckout);
    PointBooks.RefundedSnoc(rows, row, order);
    PointBooks.OwnedSnoc(rows, row, user, 0);
    PointBooks.PointsComeBack(spent, buyer, order, user, 0);
  }

  lemma {:induction false} RowsAreUndone(s: State, c: CheckoutDto, items: seq<Item>, u: State, t: State)
    requires PlacedAs(s, c, items, u) && GivenBackAs(u, |s.orders|, t)
    ensures t.cells == s.cells && t.promos == s.promos
  {
    assert u.orders[|s.orders|].items == items && u.orders[|s.orders|].promo == c.promo;
  }

  lemma {:induction false} ChargeIsUndone(s: State, c: CheckoutDto, items: seq<Item>, u: State, t: State, user: nat)
    requires PlacedAs(s, c, items, u) && GivenBackAs(u, |s.orders|, t)
    requires PointBooks.NoPointsYet(s.points, |s.orders|)
    ensures PointBooks.Owned(t.points, user) == PointBooks.Owned(s.points, user)
  {
    assert u.orders[|s.orders|].user == c.user;
    PointsRoundTrip(s.points, c.user, c.points, |s.orders|, user);
  }

  /** Cancelling an order at once undoes buying it: every stock row, every promo and every user's
      points are as they were. */
  lemma {:induction false} CancellingUndoesBuying(s: State, c: CheckoutDto, user: nat)
    requires NoneNegative(s.cells) && Checkout(s, c).1.Placed? && PointBooks.NoPointsYet(s.points, |s.orders|)
    ensures var t := Cancel(Checkout(s, c).0, |s.orders|, false);
      t.cells == s.cells && t.promos == s.promos && PointBooks.Owned(t.points, user) == PointBooks.Owned(s.points, user)
  {
    var items := PlacedWrites(s, c);
    var u := Checkout(s, c).0;
    assert u.orders[|s.orders|].status == Pending;
    CancellationGivesBack(u, |s.orders|, false);
    RowsAreUndone(s, c, items, u, Cancel(u, |s.orders|, false));
    ChargeIsUndone(s, c, items, u, Cancel(u, |s.orders|, false), user);
  }
}
