/** When a refund is requested, read, decided, claimed, settled and restocked, and what each of
    these writes, in the terms of the rows. */
module RefundRules {
  import opened Basics
  import opened Gateway
  import opened Tables
  import opened Shop
  import StockBooks

  /** Customers can ask for a refund of delivered orders alone. */
  lemma RequestDecides(s: State, o: nat)
    ensures ApplyDesk(s, RequestRefund(o)) ==
      if o < |s.orders| && s.orders[o].status == Delivered then s.(requests := s.requests + [RefundRequest(o)]) else s
  {
  }

  /** A customer's refund, and a handler's, starts requested, with nothing recorded yet -- unless the
      order has another refund that is not rejected or the payment it names does not exist. */
  lemma InsertionsWrite(s: State, k: nat, payment: Option<nat>, damaged: bool)
    requires k < |s.requests|
    requires s.requests[k].RefundUnopposed? || (s.requests[k].Handling? && s.requests[k].notice < |s.notices|)
    ensures var handler := s.requests[k].Handling?;
            var o := if handler then s.notices[s.requests[k].notice].order else s.requests[k].order;
            var t := if handler then ApplyNotice(s, RegisterRefund(k, payment))
                     else ApplyDesk(s, InsertRefund(k, payment, damaged));
            var row := Refund(o, payment, Requested, None, damaged && !handler, false, 0, false, false, false);
            var found := handler && s.requests[k].found;
            var refused := || (exists r :: 0 <= r < |s.refunds| && s.refunds[r].order == o
                                           && s.refunds[r].status != Rejected)
                           || (payment.Some? && payment.value >= |s.payments|);
      && t == s.(refunds := t.refunds, requests := t.requests)
      && t.refunds == (if found || refused then s.refunds else s.refunds + [row])
      && t.requests == s.requests[k := if handler && (found || !refused) then Handled(s.requests[k].notice) else Over]
  {
  }

  predicate OtherActive(refunds: seq<Refund>, id: nat, order: nat) {
    exists r :: 0 <= r < |refunds| && r != id && refunds[r].order == order && refunds[r].status != Rejected
  }

  /** A payout can settle at once, as the rows stand: the refund is neither processed nor rejected,
      its order exists, a refund being processed has a reference in the request, a cash payout has
      a reference or notes, and an online one has a reference in the request or had one when read. */
  lemma SettlesIff(s: State, k: nat)
    requires k < |s.requests| && s.requests[k].PaymentRead? && s.requests[k].refund < |s.refunds|
    requires s.requests[k].dto.decision == Process
    ensures var q := s.requests[k];
            var row := s.refunds[q.refund];
      MaySettle(s, k) <==>
        && row.order < |s.orders| && row.status != Processed && row.status != Rejected
        && (row.status == InProcess ==> q.dto.reference.Some?)
        && (q.dto.reference.None? ==> if q.online then q.seen.Some? else q.dto.hasNotes)
  {
  }

  /** A payout claims the refund for the gateway exactly when it is online, nobody has given or
      recorded a reference, and the refund is requested or approved. */
  lemma ClaimsIff(s: State, k: nat)
    requires k < |s.requests| && s.requests[k].PaymentRead? && s.requests[k].refund < |s.refunds|
    ensures var q := s.requests[k];
            var row := s.refunds[q.refund];
            var claims := && q.dto.decision == Process && q.online && q.dto.reference.None? && q.seen.None?
                          && (row.status == Requested || row.status == Approved);
      ApplyDesk(s, Claim(k)) ==
        if claims then s.(refunds := s.refunds[q.refund := row.(status := InProcess, claimed := true)],
                          requests := s.requests[k := Calling(q.refund)])
        else s
  {
  }

  /** The goods come back with a settlement exactly if the order was not cancelled and they have not
      come back before, with the order or with this refund. */
  lemma RestocksIff(s: State, r: nat)
    requires r < |s.refunds| && s.refunds[r].order < |s.orders|
    ensures MustRestock(s, r) <==>
      && s.orders[s.refunds[r].order].status != Cancelled
      && forall m :: 0 <= m < |s.moves| && s.moves[m].direction == In ==>
           s.moves[m].source != ForOrder(s.refunds[r].order) && s.moves[m].source != ForRefund(r)
  {
    if MustRestock(s, r) {
      forall m | 0 <= m < |s.moves| && s.moves[m].direction == In
        ensures s.moves[m].source != ForOrder(s.refunds[r].order) && s.moves[m].source != ForRefund(r)
      {
        assert !IsReturn(s.moves[m], ForOrder(s.refunds[r].order)) && !IsReturn(s.moves[m], ForRefund(r));
      }
    }
  }

  /** What a settlement writes: the refund processed with the reference the request gave, or else
      the one it saw, or in cash a manual one; the order and the payment refunded; no other
      refund, payment or order status changed. */
  lemma SettlementWrites(s: State, k: nat)
    requires MaySettle(s, k)
    ensures var q := s.requests[k];
            var row := s.refunds[q.refund];
            var t := Settle(s, k);
            var p := row.payment;
      && |t.refunds| == |s.refunds|
      && (forall r :: 0 <= r < |s.refunds| && r != q.refund ==> t.refunds[r] == s.refunds[r])
      && t.refunds[q.refund].status == Processed && t.refunds[q.refund].settled
      && t.refunds[q.refund].order == row.order && t.refunds[q.refund].payment == p
      && (q.dto.reference.Some? ==> t.refunds[q.refund].reference == q.dto.reference)
      && (q.dto.reference.None? && q.seen.Some? ==> t.refunds[q.refund].reference == q.seen)
      && (q.dto.reference.None? && q.seen.None? ==> t.refunds[q.refund].reference == Some(MANUAL))
      && |t.orders| == |s.orders|
      && t.orders[row.order].status == Refunded && t.orders[row.order].pay == PaidBack
      && (forall o :: 0 <= o < |s.orders| && o != row.order ==>
            t.orders[o].status == s.orders[o].status && t.orders[o].pay == s.orders[o].pay)
      && t.payments == (if p.Some? && p.value < |s.payments|
                        then s.payments[p.value := s.payments[p.value].(status := Returned)] else s.payments)
      && t.points == WithPointsBack(s.points, s.orders[row.order].user, row.order)
      && t.promos == s.promos && t.keys == s.keys && t.carts == s.carts && t.notices == s.notices
      && t.requests == s.requests[k := Over]
  {
  }

  /** The goods of a settlement that restocks: each line in the ledger, quarantined if damaged or if
      its variant is gone, and back on its row unless the refund is for damage; the rest writes to
      neither. */
  lemma {:induction false} SettlementRestocks(s: State, k: nat)
    requires MaySettle(s, k)
    ensures var r := s.requests[k].refund;
            var row := s.refunds[r];
            var items := s.orders[row.order].items;
            var t := Settle(s, k);
            var n := |s.moves|;
      && |t.cells| == |s.cells|
      && (forall c: nat :: c < |s.cells| ==>
            var back := if MustRestock(s, r) && !row.damaged then StockBooks.Demand(items, c) else 0;
            t.cells[c] == s.cells[c].(stock := s.cells[c].stock + back))
      && |t.moves| == n + (if MustRestock(s, r) then |items| else 0) && t.moves[..n] == s.moves
      && (MustRestock(s, r) ==> forall i :: 0 <= i < |items| ==>
            t.moves[n + i] == Move(items[i].product, In, items[i].quantity, ForRefund(r),
                                   row.damaged || (items[i].isVariant && items[i].cell >= |s.cells|)))
  {
    StockBooks.RestoreRows(s.cells, s.orders[s.refunds[s.requests[k].refund].order].items);
  }

  /** What a local decision writes: nothing to a refund already processed or rejected, and otherwise
      its status, and the admin's reference where one is given. */
  lemma DecisionWrites(s: State, k: nat)
    requires k < |s.requests| && s.requests[k].RefundRead? && s.requests[k].refund < |s.refunds|
    requires s.requests[k].dto.decision != Process
    ensures var q := s.requests[k];
            var row := s.refunds[q.refund];
            var t := ApplyDesk(s, Decide(k));
            var approves := q.dto.decision == Approve;
            var writes := && row.status != Processed && row.status != Rejected
                          && !(approves && OtherActive(s.refunds, q.refund, row.order));
      && t == s.(refunds := t.refunds, requests := s.requests[k := Over])
      && (!writes ==> t.refunds == s.refunds)
      && (writes ==>
            && t.refunds == s.refunds[q.refund := t.refunds[q.refund]]
            && t.refunds[q.refund].status == (if approves then Approved else Rejected)
            && t.refunds[q.refund].reference == (if q.dto.reference.Some? then q.dto.reference else row.reference)
            && t.refunds[q.refund].order == row.order && t.refunds[q.refund].payment == row.payment)
  {
  }
}
