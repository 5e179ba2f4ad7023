/** The ledger's rows of returned goods, order by order and refund by refund, over every run in
    which no success callback revives an order whose goods are back. */
module ReturnRows {
  import opened Basics
  import opened Gateway
  import opened Tables
  import opened Shop
  import opened StockBooks

  // ---- Revival

  /** A success callback that is not ignored, on an order that has been refunded. */
  predicate RevivesRefunded(s: State, a: Action) {
    && a.Pay? && a.pay.Success? && a.pay.payment < |s.payments|
    && s.payments[a.pay.payment].online && s.payments[a.pay.payment].status != Completed
    && s.payments[a.pay.payment].order < |s.orders|
    && s.orders[s.payments[a.pay.payment].order].status == Refunded
  }

  predicate GoodsBack(s: State, order: nat) {
    GivenBack(s.moves, s.refunds, order) != []
  }

  /** Such a callback once the order's goods are back. */
  predicate RevivesReturned(s: State, a: Action) {
    RevivesRefunded(s, a) && GoodsBack(s, s.payments[a.pay.payment].order)
  }

  // ---- Stock given back

  /** The ledger's `in` rows with a given source. */
  function ReturnsFrom(moves: seq<Move>, source: Source): seq<Move> {
    if moves == [] then []
    else
      var m := moves[|moves| - 1];
      ReturnsFrom(moves[..|moves| - 1], source) + if IsReturn(m, source) then [m] else []
  }

  predicate Concerns(refunds: seq<Refund>, source: Source, order: nat) {
    match source
    case ForOrder(o) => o == order
    case ForRefund(r) => r < |refunds| && refunds[r].order == order
  }

  /** All `in` rows that give back the goods of an order. */
  function GivenBack(moves: seq<Move>, refunds: seq<Refund>, order: nat): seq<Move> {
    if moves == [] then []
    else
      var m := moves[|moves| - 1];
      GivenBack(moves[..|moves| - 1], refunds, order)
      + if m.direction == In && Concerns(refunds, m.source, order) then [m] else []
  }

  /** A block of returns is every line of the order, once. */
  predicate WholeOrder(block: seq<Move>, items: seq<Item>) {
    |block| == |items|
    && forall i :: 0 <= i < |items| ==>
         block[i].product == items[i].product && block[i].quantity == items[i].quantity && block[i].direction == In
  }

  lemma {:induction false} ReturnsAppend(a: seq<Move>, b: seq<Move>, source: Source)
    ensures ReturnsFrom(a + b, source) == ReturnsFrom(a, source) + ReturnsFrom(b, source)
    decreases |b|
  {
    if b == [] {
      assert a + b == a;
    } else {
      ReturnsAppend(a, b[..|b| - 1], source);
      assert (a + b)[..|a + b| - 1] == a + b[..|b| - 1];
    }
  }

  lemma {:induction false} ReturnsOfBlock(block: seq<Move>, own: Source, source: Source)
    requires forall i :: 0 <= i < |block| ==> block[i].direction == In && block[i].source == own
    ensures ReturnsFrom(block, source) == if source == own then block else []
    decreases |block|
  {
    if block != [] {
      ReturnsOfBlock(block[..|block| - 1], own, source);
      assert block == block[..|block| - 1] + [block[|block| - 1]];
    }
  }

  lemma {:induction false} NoReturnsOut(block: seq<Move>, source: Source)
    requires forall i :: 0 <= i < |block| ==> block[i].direction == Out
    ensures ReturnsFrom(block, source) == []
    decreases |block|
  {
    if block != [] {
      NoReturnsOut(block[..|block| - 1], source);
    }
  }

  lemma {:induction false} RestockedMeansReturns(moves: seq<Move>, source: Source)
    ensures Restocked(moves, source) <==> ReturnsFrom(moves, source) != []
    decreases |moves|
  {
    if moves != [] {
      var n := |moves| - 1;
      RestockedMeansReturns(moves[..n], source);
      if Restocked(moves[..n], source) {
        var m :| 0 <= m < n && IsReturn(moves[..n][m], source);
        assert IsReturn(moves[m], source);
      }
      if Restocked(moves, source) && !IsReturn(moves[n], source) {
        var m :| 0 <= m < |moves| && IsReturn(moves[m], source);
        assert IsReturn(moves[..n][m], source);
      }
    }
  }

  /** When all returns of an order have one source, that source's rows are all of them. */
  lemma {:induction false} SingleSource(moves: seq<Move>, refunds: seq<Refund>, order: nat, only: Source)
    requires Concerns(refunds, only, order)
    requires forall source :: Concerns(refunds, source, order) && source != only ==> ReturnsFrom(moves, source) == []
    ensures GivenBack(moves, refunds, order) == ReturnsFrom(moves, only)
    decreases |moves|
  {
    if moves != [] {
      var n := |moves| - 1;
      forall source | Concerns(refunds, source, order) && source != only
        ensures ReturnsFrom(moves[..n], source) == [] && !IsReturn(moves[n], source)
      {
        assert ReturnsFrom(moves, source) == [];
      }
      SingleSource(moves[..n], refunds, order, only);
    }
  }

  // ---- Invariant

  ghost predicate OrdersOk(s: State) {
    forall o :: 0 <= o < |s.orders| ==>
      && s.orders[o].items != []
      && (s.orders[o].wasCancelled ==> s.orders[o].status == Cancelled || s.orders[o].status == Refunded)
      && (s.orders[o].status == Cancelled ==> s.orders[o].wasCancelled)
  }

  ghost predicate RefundsOk(s: State) {
    forall r :: 0 <= r < |s.refunds| ==>
      && (s.refunds[r].order < |s.orders|)
      && (s.refunds[r].settled ==> s.orders[s.refunds[r].order].status == Refunded)
  }

  /** The unique index: an order never has two refunds that are not rejected. */
  ghost predicate OneActive(refunds: seq<Refund>) {
    forall q, r :: 0 <= q < r < |refunds| && refunds[q].order == refunds[r].order ==>
      !Active(refunds[q]) || !Active(refunds[r])
  }

  predicate SourceExists(s: State, source: Source) {
    match source case ForOrder(o) => o < |s.orders| case ForRefund(r) => r < |s.refunds|
  }

  ghost predicate OrderRows(s: State, o: nat)
    requires o < |s.orders|
  {
    if s.orders[o].wasCancelled then WholeOrder(ReturnsFrom(s.moves, ForOrder(o)), s.orders[o].items)
    else ReturnsFrom(s.moves, ForOrder(o)) == []
  }

  ghost predicate RefundRows(s: State, r: nat)
    requires r < |s.refunds| && s.refunds[r].order < |s.orders|
  {
    && (ReturnsFrom(s.moves, ForRefund(r)) != [] ==>
          && s.refunds[r].settled && !s.orders[s.refunds[r].order].wasCancelled
          && WholeOrder(ReturnsFrom(s.moves, ForRefund(r)), s.orders[s.refunds[r].order].items))
    && (s.refunds[r].settled ==>
          s.orders[s.refunds[r].order].wasCancelled || ReturnsFrom(s.moves, ForRefund(r)) != [])
  }

  ghost predicate MovesOk(s: State)
    requires RefundsOk(s)
  {
    && (forall m :: 0 <= m < |s.moves| ==> SourceExists(s, s.moves[m].source))
    && (forall o: nat :: o < |s.orders| ==> OrderRows(s, o))
    && (forall r: nat :: r < |s.refunds| ==> RefundRows(s, r))
  }

  ghost predicate RequestsOk(s: State) {
    forall k :: 0 <= k < |s.requests| ==>
      && (s.requests[k].RefundRequest? || s.requests[k].RefundUnopposed? ==> s.requests[k].order < |s.orders|)
      && (s.requests[k].Handling? ==> s.requests[k].notice < |s.notices|)
      && (s.requests[k].Calling? || s.requests[k].Asked? || s.requests[k].Inquiring? ==>
            s.requests[k].refund < |s.refunds|)
  }

  ghost predicate NoticesOk(s: State) {
    forall n :: 0 <= n < |s.notices| ==> s.notices[n].order < |s.orders|
  }

  ghost predicate Inv(s: State) {
    OrdersOk(s) && RefundsOk(s) && OneActive(s.refunds) && MovesOk(s) && RequestsOk(s) && NoticesOk(s)
  }

  // ---- Steps

  lemma {:induction false} NoStrangers(s: State, moves: seq<Move>, source: Source)
    requires forall m :: 0 <= m < |moves| ==> SourceExists(s, moves[m].source)
    requires !SourceExists(s, source)
    ensures ReturnsFrom(moves, source) == []
    decreases |moves|
  {
    if moves != [] {
      NoStrangers(s, moves[..|moves| - 1], source);
    }
  }

  lemma PlaceKeepsInv(s: State, c: CheckoutDto)
    requires Inv(s) && MayPlace(s, c)
    ensures Inv(Place(s, c))
  {
    var t := Place(s, c);
    var id := |s.orders|;
    var block := Sold(SortItems(CartOf(s, c.user)), id);
    assert forall m :: 0 <= m < |t.moves| ==> SourceExists(t, t.moves[m].source);
    forall o: nat | o < |t.orders| ensures OrderRows(t, o) {
      ReturnsAppend(s.moves, block, ForOrder(o));
      NoReturnsOut(block, ForOrder(o));
      if o == id {
        NoStrangers(s, s.moves, ForOrder(id));
      } else {
        assert OrderRows(s, o);
      }
    }
    forall r: nat | r < |t.refunds| ensures RefundRows(t, r) {
      ReturnsAppend(s.moves, block, ForRefund(r));
      NoReturnsOut(block, ForRefund(r));
      assert RefundRows(s, r);
    }
  }

  /** `t` is `s` after a block of returns from one source: an order being cancelled, or a
      refund being settled. */
  ghost predicate AddsReturns(s: State, t: State, block: seq<Move>, own: Source) {
    && SourceExists(s, own)
    && t.moves == s.moves + block && |t.orders| == |s.orders| && |t.refunds| == |s.refunds|
    && (forall i :: 0 <= i < |block| ==> block[i].direction == In && block[i].source == own)
    && (forall o :: 0 <= o < |s.orders| ==>
          && t.orders[o].items == s.orders[o].items
          && (s.orders[o].wasCancelled ==> t.orders[o].wasCancelled)
          && (own != ForOrder(o) ==> t.orders[o].wasCancelled == s.orders[o].wasCancelled))
    && (forall r :: 0 <= r < |s.refunds| ==>
          && t.refunds[r].order == s.refunds[r].order && s.refunds[r].order < |s.orders|
          && (s.refunds[r].settled ==> t.refunds[r].settled)
          && (own != ForRefund(r) ==> t.refunds[r].settled == s.refunds[r].settled))
    && ReturnsFrom(s.moves, own) == []
    && match own
       case ForOrder(o) =>
         && t.orders[o].wasCancelled && WholeOrder(block, s.orders[o].items)
         && forall r :: 0 <= r < |s.refunds| && s.refunds[r].order == o ==> !s.refunds[r].settled
       case ForRefund(r) =>
         && t.refunds[r].settled && !s.orders[s.refunds[r].order].wasCancelled
         && WholeOrder(block, s.orders[s.refunds[r].order].items)
  }

  lemma OrderRowsAfter(s: State, t: State, block: seq<Move>, own: Source, o: nat)
    requires AddsReturns(s, t, block, own) && o < |s.orders| && OrderRows(s, o)
    ensures OrderRows(t, o)
  {
    ReturnsAppend(s.moves, block, ForOrder(o));
    ReturnsOfBlock(block, own, ForOrder(o));
    if own == ForOrder(o) {
      assert ReturnsFrom(t.moves, own) == block;
    } else {
      assert ReturnsFrom(t.moves, ForOrder(o)) == ReturnsFrom(s.moves, ForOrder(o));
    }
  }

  lemma RefundReturnsAfter(s: State, t: State, block: seq<Move>, own: Source, r: nat)
    requires AddsReturns(s, t, block, own) && r < |s.refunds|
    ensures ReturnsFrom(t.moves, ForRefund(r)) ==
      if own == ForRefund(r) then block else ReturnsFrom(s.moves, ForRefund(r))
  {
    ReturnsAppend(s.moves, block, ForRefund(r));
    ReturnsOfBlock(block, own, ForRefund(r));
    assert [] + block == block;
  }

  lemma RefundRowsAfter(s: State, t: State, block: seq<Move>, own: Source, r: nat)
    requires AddsReturns(s, t, block, own) && block != [] && r < |s.refunds| && RefundRows(s, r)
    ensures RefundRows(t, r)
  {
    RefundReturnsAfter(s, t, block, own, r);
  }

  lemma RowsAfterBlock(s: State, t: State, block: seq<Move>, own: Source)
    requires RefundsOk(s) && MovesOk(s) && RefundsOk(t) && AddsReturns(s, t, block, own) && block != []
    ensures MovesOk(t)
  {
    forall m | 0 <= m < |t.moves| ensures SourceExists(t, t.moves[m].source) {
      assert m < |s.moves| ==> SourceExists(s, s.moves[m].source);
    }
    forall o: nat | o < |t.orders| ensures OrderRows(t, o) {
      OrderRowsAfter(s, t, block, own, o);
    }
    forall r: nat | r < |t.refunds| ensures RefundRows(t, r) {
      RefundRowsAfter(s, t, block, own, r);
    }
  }

  lemma CancelKeepsInv(s: State, order: nat, expiry: bool)
    requires Inv(s)
    ensures Inv(Cancel(s, order, expiry))
  {
    if MayCancel(s, order, expiry) {
      assert OrderRows(s, order);
      RowsAfterBlock(s, Cancel(s, order, expiry), Back(s.orders[order].items, order), ForOrder(order));
    }
  }

  lemma SettledRefundsOk(s: State, request: nat)
    requires Inv(s) && MaySettle(s, request)
    ensures var t := Settle(s, request);
      RefundsOk(t) && OrdersOk(t) && OneActive(t.refunds) && RequestsOk(t) && NoticesOk(t)
  {
  }

  lemma SettleKeepsRows(s: State, request: nat)
    requires Inv(s) && MaySettle(s, request) && MustRestock(s, s.requests[request].refund)
    ensures RefundsOk(Settle(s, request)) && MovesOk(Settle(s, request))
  {
    var id := s.requests[request].refund;
    var refund := s.refunds[id];
    RestockedMeansReturns(s.moves, ForOrder(refund.order));
    RestockedMeansReturns(s.moves, ForRefund(id));
    assert OrderRows(s, refund.order);
    SettledRefundsOk(s, request);
    RowsAfterBlock(s, Settle(s, request),
                   ReturnMoves(s.cells, s.orders[refund.order].items, id, refund.damaged), ForRefund(id));
  }

  lemma SettleKeepsInv(s: State, request: nat)
    requires Inv(s)
    ensures Inv(Settle(s, request))
  {
    if MaySettle(s, request) {
      var t := Settle(s, request);
      SettledRefundsOk(s, request);
      if MustRestock(s, s.requests[request].refund) {
        SettleKeepsRows(s, request);
      } else {
        assert forall m :: 0 <= m < |t.moves| ==> SourceExists(t, t.moves[m].source);
        forall o: nat | o < |t.orders| ensures OrderRows(t, o) {
          assert OrderRows(s, o);
        }
        RestockedMeansReturns(s.moves, ForOrder(s.refunds[s.requests[request].refund].order));
        RestockedMeansReturns(s.moves, ForRefund(s.requests[request].refund));
        assert OrderRows(s, s.refunds[s.requests[request].refund].order);
        forall r: nat | r < |t.refunds| ensures RefundRows(t, r) {
          assert RefundRows(s, r);
        }
      }
    }
  }

  /** Changing refunds without unsettling or rejecting a settled one. */
  ghost predicate RefundsMove(s: State, t: State) {
    && t == s.(refunds := t.refunds, requests := t.requests, notices := t.notices)
    && |t.refunds| >= |s.refunds|
    && (forall r :: 0 <= r < |s.refunds| ==>
          t.refunds[r].order == s.refunds[r].order && t.refunds[r].settled == s.refunds[r].settled)
    && (forall r :: |s.refunds| <= r < |t.refunds| ==> t.refunds[r].order < |s.orders| && !t.refunds[r].settled)
    && OneActive(t.refunds) && RequestsOk(t) && NoticesOk(t)
  }

  lemma RefundsMoveKeepsInv(s: State, t: State)
    requires Inv(s) && RefundsMove(s, t)
    ensures Inv(t)
  {
    forall r | 0 <= r < |t.refunds|
      ensures t.refunds[r].order < |t.orders|
      ensures t.refunds[r].settled ==> t.orders[t.refunds[r].order].status == Refunded
    {
      if r < |s.refunds| {
        assert s.refunds[r].order < |s.orders|;
      }
    }
    assert forall m :: 0 <= m < |t.moves| ==> SourceExists(s, t.moves[m].source) && SourceExists(t, t.moves[m].source);
    forall o: nat | o < |t.orders| ensures OrderRows(t, o) {
      assert OrderRows(s, o);
    }
    forall r: nat | r < |t.refunds| ensures RefundRows(t, r) {
      if r < |s.refunds| {
        assert RefundRows(s, r);
      } else {
        NoStrangers(s, s.moves, ForRefund(r));
      }
    }
  }

  lemma AppendKeepsIndex(refunds: seq<Refund>, row: Refund)
    requires OneActive(refunds) && !Clashes(refunds, |refunds|, row)
    ensures OneActive(refunds + [row])
  {
  }

  lemma UpdateMoves(s: State, k: nat, id: nat, row: Refund)
    requires Inv(s) && k < |s.requests| && id < |s.refunds|
    requires row.order == s.refunds[id].order && row.settled == s.refunds[id].settled
    ensures RefundsMove(s, UpdateRefund(Answer(s, k, Over), id, row))
  {
  }

  /** A refund row that stays active or becomes so only in its own place. */
  lemma ClaimMoves(s: State, k: nat, next: Request, id: nat, row: Refund)
    requires Inv(s) && k < |s.requests| && id < |s.refunds|
    requires !next.RefundRequest? && !next.RefundUnopposed? && !next.Handling?
    requires next.Calling? || next.Asked? || next.Inquiring? ==> next.refund < |s.refunds|
    requires row.order == s.refunds[id].order && row.settled == s.refunds[id].settled
    requires Active(s.refunds[id]) == Active(row)
    ensures RefundsMove(s, Answer(s.(refunds := s.refunds[id := row]), k, next))
  {
  }

  lemma RequestsMove(s: State, requests: seq<Request>)
    requires Inv(s) && RequestsOk(s.(requests := requests))
    ensures RefundsMove(s, s.(requests := requests))
  {
  }

  lemma DecideMoves(s: State, k: nat)
    requires Inv(s)
    ensures RefundsMove(s, ApplyDesk(s, Decide(k)))
  {
    RequestsMove(s, s.requests);
    if AtRefund(s, k) && s.requests[k].RefundRead? && s.requests[k].dto.decision != Process {
      var r := s.requests[k].refund;
      if Closed(s.refunds[r].status) {
        RequestsMove(s, s.requests[k := Over]);
      } else {
        UpdateMoves(s, k, r, Decided(s.refunds[r], s.requests[k].dto));
      }
    }
  }

  lemma GatewayMoves(s: State, k: nat, reply: Reply, bank: nat)
    requires Inv(s)
    ensures RefundsMove(s, ApplyDesk(s, GatewayReplies(k, reply, bank)))
  {
    RequestsMove(s, s.requests);
    if AtRefund(s, k) && s.requests[k].Asked? {
      var r := s.requests[k].refund;
      UpdateMoves(s, k, r, AfterGateway(s.refunds[r], InitiationOutcome(reply, bank)));
    }
  }

  lemma InquiryMoves(s: State, k: nat, reply: Reply)
    requires Inv(s)
    ensures RefundsMove(s, ApplyDesk(s, InquiryReplies(k, reply)))
  {
    RequestsMove(s, s.requests);
    if AtRefund(s, k) && s.requests[k].Inquiring? {
      var r := s.requests[k].refund;
      var q := s.requests[k];
      match InquiryOutcome(reply, q.reference, q.bankTran, q.tran)
      case InquiryRefunded => RequestsMove(s, ApplyDesk(s, InquiryReplies(k, reply)).requests);
      case InquiryCancelled => UpdateMoves(s, k, r, s.refunds[r].(status := Rejected));
      case InquiryUnsettled => UpdateMoves(s, k, r, s.refunds[r].(status := InProcess));
    }
  }

  lemma CallMoves(s: State, a: DeskAction)
    requires Inv(s) && (a.Claim? || a.AskGateway?)
    ensures RefundsMove(s, ApplyDesk(s, a))
  {
    RequestsMove(s, s.requests);
    if a.Claim? && MayClaim(s, a.request) {
      var r := s.requests[a.request].refund;
      ClaimMoves(s, a.request, Calling(r), r, s.refunds[r].(status := InProcess, claimed := true));
    } else if a.AskGateway? && AtRefund(s, a.request) && s.requests[a.request].Calling? {
      var r := s.requests[a.request].refund;
      ClaimMoves(s, a.request, Asked(r), r, s.refunds[r].(asked := s.refunds[r].asked + 1));
    }
  }

  lemma DeskMoves(s: State, a: DeskAction)
    requires Inv(s)
    ensures RefundsMove(s, ApplyDesk(s, a))
  {
    match a
    case InsertRefund(k, payment, damaged) => InsertMoves(s, k, payment, damaged);
    case Decide(k) => DecideMoves(s, k);
    case GatewayReplies(k, reply, bank) => GatewayMoves(s, k, reply, bank);
    case InquiryReplies(k, reply) => InquiryMoves(s, k, reply);
    case Claim(_) => CallMoves(s, a);
    case AskGateway(_) => CallMoves(s, a);
    case _ =>
      ReadsMove(s, a);
      RequestsMove(s, ApplyDesk(s, a).requests);
  }

  lemma ReadsMove(s: State, a: DeskAction)
    requires Reads(a) && Inv(s)
    ensures ApplyDesk(s, a) == s.(requests := ApplyDesk(s, a).requests)
    ensures RequestsOk(s.(requests := ApplyDesk(s, a).requests))
  {
    ReadsFrame(s, a);
  }

  lemma InsertMoves(s: State, k: nat, payment: Option<nat>, damaged: bool)
    requires Inv(s)
    ensures RefundsMove(s, ApplyDesk(s, InsertRefund(k, payment, damaged)))
  {
    RequestsMove(s, s.requests);
    if k < |s.requests| && s.requests[k].RefundUnopposed? {
      var row := NewRefund(s.requests[k].order, payment, damaged);
      if !Clashes(s.refunds, |s.refunds|, row) {
        AppendKeepsIndex(s.refunds, row);
      }
    }
  }

  lemma NoticeMoves(s: State, a: NoticeAction)
    requires Inv(s)
    ensures RefundsMove(s, ApplyNotice(s, a))
  {
    NoticeFrame(s, a);
    if a.RegisterRefund? && a.request < |s.requests| && s.requests[a.request].Handling?
       && s.requests[a.request].notice < |s.notices| {
      var row := NewRefund(s.notices[s.requests[a.request].notice].order, a.payment, false);
      if !Clashes(s.refunds, |s.refunds|, row) {
        AppendKeepsIndex(s.refunds, row);
      }
    }
  }

  /** Orders may change status, but not into or out of cancelled, nor out of refunded once their
      goods are back. */
  ghost predicate StatusesMove(s: State, t: State) {
    && t.moves == s.moves && t.refunds == s.refunds && |t.orders| == |s.orders|
    && (forall o :: 0 <= o < |s.orders| ==>
          && t.orders[o].items == s.orders[o].items && t.orders[o].wasCancelled == s.orders[o].wasCancelled
          && (t.orders[o].status == Cancelled <==> s.orders[o].status == Cancelled)
          && (s.orders[o].status == Refunded && GoodsBack(s, o) ==> t.orders[o].status == Refunded))
    && RequestsOk(t) && NoticesOk(t)
  }

  lemma {:induction false} ReturnsAreGivenBack(moves: seq<Move>, refunds: seq<Refund>, order: nat, source: Source)
    requires Concerns(refunds, source, order) && ReturnsFrom(moves, source) != []
    ensures GivenBack(moves, refunds, order) != []
    decreases |moves|
  {
    if !IsReturn(moves[|moves| - 1], source) {
      ReturnsAreGivenBack(moves[..|moves| - 1], refunds, order, source);
    }
  }

  /** The goods of a cancelled order, and of an order with a settled refund, are back. */
  lemma {:induction false} EndedMeansBack(s: State, r: nat, order: nat)
    requires Inv(s) && order < |s.orders|
    ensures s.orders[order].wasCancelled ==> GoodsBack(s, order)
    ensures r < |s.refunds| && s.refunds[r].order == order && s.refunds[r].settled ==> GoodsBack(s, order)
  {
    assert OrderRows(s, order);
    if s.orders[order].wasCancelled {
      ReturnsAreGivenBack(s.moves, s.refunds, order, ForOrder(order));
    } else if r < |s.refunds| && s.refunds[r].order == order && s.refunds[r].settled {
      assert RefundRows(s, r);
      ReturnsAreGivenBack(s.moves, s.refunds, order, ForRefund(r));
    }
  }

  lemma StatusesMoveKeepsInv(s: State, t: State)
    requires Inv(s) && StatusesMove(s, t)
    ensures Inv(t)
  {
    forall o: nat | o < |s.orders| && s.orders[o].wasCancelled ensures GoodsBack(s, o) {
      EndedMeansBack(s, 0, o);
    }
    forall r: nat | r < |s.refunds| && s.refunds[r].settled ensures GoodsBack(s, s.refunds[r].order) {
      EndedMeansBack(s, r, s.refunds[r].order);
    }
    assert forall m :: 0 <= m < |t.moves| ==> SourceExists(s, t.moves[m].source) && SourceExists(t, t.moves[m].source);
    forall o: nat | o < |t.orders| ensures OrderRows(t, o) {
      assert OrderRows(s, o);
    }
    forall r: nat | r < |t.refunds| ensures RefundRows(t, r) {
      assert RefundRows(s, r);
    }
  }

  lemma FailureMoves(s: State, payment: nat)
    requires Inv(s)
    ensures StatusesMove(s, FailPayment(s, payment))
  {
    FailPaymentFrame(s, payment);
  }

  lemma SuccessMoves(s: State, payment: nat)
    requires Inv(s) && !RevivesReturned(s, Pay(Success(payment)))
    ensures StatusesMove(s, PaymentSuccess(s, payment))
  {
  }

  lemma PayMoves(s: State, a: PayAction)
    requires Inv(s) && !RevivesReturned(s, Pay(a))
    ensures StatusesMove(s, ApplyPay(s, a))
  {
    match a
    case Initiate(order, online, stale) => InitiateMoves(s, order, online, stale);
    case Success(payment) => SuccessMoves(s, payment);
    case Fail(payment) => FailureMoves(s, payment);
    case FallbackRead(order) => FallbackReadMoves(s, order);
    case FallbackApply(k) => FallbackMoves(s, k);
  }

  lemma InitiateMoves(s: State, order: nat, online: bool, stale: bool)
    requires Inv(s)
    ensures StatusesMove(s, InitiatePayment(s, order, online, stale))
  {
    InitiateFrame(s, order, online, stale);
  }

  lemma FallbackReadMoves(s: State, order: nat)
    requires Inv(s)
    ensures StatusesMove(s, ApplyPay(s, FallbackRead(order)))
  {
  }

  lemma FallbackMoves(s: State, k: nat)
    requires Inv(s)
    ensures StatusesMove(s, ApplyPay(s, FallbackApply(k)))
  {
    if k < |s.requests| && s.requests[k].Fallback? {
      RequestsMove(s, s.requests[k := Over]);
      RefundsMoveKeepsInv(s, Answer(s, k, Over));
      FailureMoves(Answer(s, k, Over), s.requests[k].payment);
    }
  }

  lemma PayKeepsInv(s: State, a: PayAction)
    requires Inv(s) && !RevivesReturned(s, Pay(a))
    ensures Inv(ApplyPay(s, a))
  {
    PayMoves(s, a);
    StatusesMoveKeepsInv(s, ApplyPay(s, a));
  }

  lemma DeskKeepsInv(s: State, a: DeskAction)
    requires Inv(s)
    ensures Inv(ApplyDesk(s, a))
  {
    DeskMoves(s, a);
    RefundsMoveKeepsInv(s, ApplyDesk(s, a));
  }

  lemma NoticeKeepsInv(s: State, a: NoticeAction)
    requires Inv(s)
    ensures Inv(ApplyNotice(s, a))
  {
    NoticeMoves(s, a);
    RefundsMoveKeepsInv(s, ApplyNotice(s, a));
  }

  lemma QuietKeepsInv(s: State, a: Action)
    requires Inv(s) && ((a.UpdateStatus? && a.to != Cancelled) || a.Reward? || a.FillCart?)
    ensures Inv(Apply(s, a))
  {
    StatusesMoveKeepsInv(s, Apply(s, a));
  }

  lemma InvStep(s: State, a: Action)
    requires Inv(s) && !RevivesReturned(s, a)
    ensures Inv(Apply(s, a))
  {
    match a
    case Buy(dto) =>
      if !IsReplay(s, dto) && MayPlace(s, dto) {
        PlaceKeepsInv(s, dto);
      }
    case CancelOrder(order, expiry) => CancelKeepsInv(s, order, expiry);
    case UpdateStatus(order, to) =>
      if to == Cancelled {
        CancelKeepsInv(s, order, false);
      } else {
        QuietKeepsInv(s, a);
      }
    case Pay(pay) => PayKeepsInv(s, pay);
    case Desk(desk) => DeskKeepsInv(s, desk);
    case SettleRefund(request) => SettleKeepsInv(s, request);
    case Outbox(step) => NoticeKeepsInv(s, step);
    case _ => QuietKeepsInv(s, a);
  }

  lemma {:induction false} GivenBackAppend(a: seq<Move>, b: seq<Move>, refunds: seq<Refund>, order: nat)
    ensures GivenBack(a + b, refunds, order) == GivenBack(a, refunds, order) + GivenBack(b, refunds, order)
    decreases |b|
  {
    if b == [] {
      assert a + b == a;
    } else {
      GivenBackAppend(a, b[..|b| - 1], refunds, order);
      assert (a + b)[..|a + b| - 1] == a + b[..|b| - 1];
    }
  }

  lemma {:induction false} GivenBackBlock(block: seq<Move>, refunds: seq<Refund>, order: nat)
    requires forall i :: 0 <= i < |block| ==> block[i].direction == In && Concerns(refunds, block[i].source, order)
    ensures GivenBack(block, refunds, order) == block
    decreases |block|
  {
    if block != [] {
      GivenBackBlock(block[..|block| - 1], refunds, order);
      assert block == block[..|block| - 1] + [block[|block| - 1]];
    }
  }

  ghost predicate MovesRefsOk(s: State) {
    forall m :: 0 <= m < |s.moves| ==> SourceExists(s, s.moves[m].source)
  }

  lemma {:induction false} GivenBackSame(moves: seq<Move>, a: seq<Refund>, b: seq<Refund>, order: nat)
    requires |a| <= |b| && forall r :: 0 <= r < |a| ==> a[r].order == b[r].order
    requires forall m :: 0 <= m < |moves| ==> moves[m].source.ForRefund? ==> moves[m].source.refund < |a|
    ensures GivenBack(moves, a, order) == GivenBack(moves, b, order)
    decreases |moves|
  {
    if moves != [] {
      GivenBackSame(moves[..|moves| - 1], a, b, order);
    }
  }
}
