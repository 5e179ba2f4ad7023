/** What a `rejected` written over the refund that took an order's goods back leads to: exactly
    when the goods can be taken back a second time, without any revival of the order. */
module Reopening {
  import opened Basics
  import opened Gateway
  import opened Tables
  import opened Shop
  import opened ReturnRows

  // ---- The write, and the condition

  /** The refund a step is about to mark rejected, if any. */
  function Rejects(s: State, a: Action): Option<nat> {
    match a
    case Desk(Decide(k)) =>
      if AtRefund(s, k) && s.requests[k].RefundRead? && s.requests[k].dto.decision == Reject
         && !Closed(s.refunds[s.requests[k].refund].status)
      then Some(s.requests[k].refund) else None
    case Desk(GatewayReplies(k, reply, bank)) =>
      if AtRefund(s, k) && s.requests[k].Asked? && InitiationOutcome(reply, bank).GatewayFailed?
      then Some(s.requests[k].refund) else None
    case Desk(InquiryReplies(k, reply)) =>
      if AtRefund(s, k) && s.requests[k].Inquiring? && SaysCancelled(s.requests[k], reply)
      then Some(s.requests[k].refund) else None
    case _ => None
  }

  predicate SaysCancelled(q: Request, reply: Reply)
    requires q.Inquiring?
  {
    InquiryOutcome(reply, q.reference, q.bankTran, q.tran).InquiryCancelled?
  }

  predicate AllRejected(refunds: seq<Refund>, order: nat) {
    forall r :: 0 <= r < |refunds| && refunds[r].order == order ==> refunds[r].status == Rejected
  }

  /** A request in flight that will register a new refund of the order. */
  predicate Registers(s: State, q: Request, order: nat) {
    || ((q.RefundRequest? || q.RefundUnopposed?) && q.order == order)
    || (q.Handling? && !q.found && q.notice < |s.notices| && s.notices[q.notice].order == order)
  }

  /** A request in flight whose answer can put a rejected refund back in process. */
  predicate Awaits(q: Request, refund: nat) {
    (q.Calling? || q.Asked? || q.Inquiring?) && q.refund == refund
  }

  ghost predicate Reopens(s: State, refund: nat)
    requires refund < |s.refunds|
  {
    s.refunds[refund].reference.Some? || exists k :: 0 <= k < |s.requests| && Awaits(s.requests[k], refund)
  }

  /** The order, the refund its goods came back with set aside, can get another open refund. */
  ghost predicate MayReturnAgain(s: State, order: nat, settled: nat) {
    || (exists k :: 0 <= k < |s.requests| && Registers(s, s.requests[k], order))
    || (exists r: nat :: OtherReopens(s, order, settled, r))
  }

  ghost predicate OtherReopens(s: State, order: nat, settled: nat, r: nat) {
    r < |s.refunds| && r != settled && s.refunds[r].order == order && Reopens(s, r)
  }

  /** A success callback that revives this very order. */
  predicate Revives(s: State, a: Action, order: nat) {
    RevivesRefunded(s, a) && s.payments[a.pay.payment].order == order
  }

  ghost predicate NoRevival(s: State, actions: seq<Action>, order: nat)
    decreases |actions|
  {
    actions == [] || (!Revives(s, actions[0], order) && NoRevival(Apply(s, actions[0]), actions[1..], order))
  }

  // ---- Otherwise the order is done with

  /** Other refunds of the order are closed for good, and nothing will register one. */
  ghost predicate Finished(s: State, order: nat, settled: nat) {
    && order < |s.orders| && s.orders[order].status == Refunded
    && settled < |s.refunds| && s.refunds[settled].order == order
    && Restocked(s.moves, ForRefund(settled))
    && (forall r :: 0 <= r < |s.refunds| && r != settled && s.refunds[r].order == order ==>
          s.refunds[r].status == Rejected && s.refunds[r].reference.None? && !Restocked(s.moves, ForRefund(r)))
    && (forall k :: 0 <= k < |s.requests| ==> Harmless(s, s.requests[k], order, settled))
    && (forall m :: 0 <= m < |s.moves| ==> SourceExists(s, s.moves[m].source))
  }

  predicate Harmless(s: State, q: Request, order: nat, settled: nat) {
    && !Registers(s, q, order)
    && (q.Handling? ==> q.notice < |s.notices|)
    && (q.Calling? || q.Asked? || q.Inquiring? ==>
          q.refund < |s.refunds| && (q.refund == settled || s.refunds[q.refund].order != order))
  }

  /** A step that takes nothing back from the order and opens nothing for it. */
  ghost predicate Elsewhere(s: State, t: State, block: seq<Move>, order: nat, settled: nat) {
    && t.moves == s.moves + block
    && (forall i :: 0 <= i < |block| ==>
          && SourceExists(t, block[i].source)
          && (block[i].direction == In ==> !Concerns(t.refunds, block[i].source, order)))
    && |t.orders| >= |s.orders| > order && t.orders[order].status == Refunded
    && |t.refunds| >= |s.refunds| && |t.notices| >= |s.notices|
    && (forall n :: 0 <= n < |s.notices| ==> t.notices[n].order == s.notices[n].order)
    && (forall r :: 0 <= r < |s.refunds| ==>
          && t.refunds[r].order == s.refunds[r].order
          && (r != settled && s.refunds[r].order == order ==>
                t.refunds[r].status == Rejected && t.refunds[r].reference.None?))
    && (forall r :: |s.refunds| <= r < |t.refunds| ==> t.refunds[r].order != order)
    && (forall k :: 0 <= k < |t.requests| ==>
          (k < |s.requests| && t.requests[k] == s.requests[k]) || Harmless(t, t.requests[k], order, settled))
  }

  lemma {:induction false} NothingGivenBack(block: seq<Move>, refunds: seq<Refund>, order: nat)
    requires forall i :: 0 <= i < |block| && block[i].direction == In ==> !Concerns(refunds, block[i].source, order)
    ensures GivenBack(block, refunds, order) == []
    decreases |block|
  {
    if block != [] {
      NothingGivenBack(block[..|block| - 1], refunds, order);
    }
  }

  lemma {:induction false} ElsewhereKeepsDone(s: State, t: State, block: seq<Move>, order: nat, settled: nat)
    requires Finished(s, order, settled) && Elsewhere(s, t, block, order, settled)
    ensures Finished(t, order, settled)
    ensures GivenBack(t.moves, t.refunds, order) == GivenBack(s.moves, s.refunds, order)
  {
    forall m | 0 <= m < |t.moves| ensures SourceExists(t, t.moves[m].source) {
      if m < |s.moves| {
        assert SourceExists(s, s.moves[m].source);
      } else {
        assert t.moves[m] == block[m - |s.moves|];
      }
    }
    forall k | 0 <= k < |t.requests| ensures Harmless(t, t.requests[k], order, settled) {
      if k < |s.requests| && t.requests[k] == s.requests[k] {
        assert Harmless(s, s.requests[k], order, settled);
      }
    }
    var m :| 0 <= m < |s.moves| && IsReturn(s.moves[m], ForRefund(settled));
    assert IsReturn(t.moves[m], ForRefund(settled));
    assert forall m :: 0 <= m < |s.moves| ==> SourceExists(s, s.moves[m].source);
    GivenBackSame(s.moves, s.refunds, t.refunds, order);
    GivenBackAppend(s.moves, block, t.refunds, order);
    NothingGivenBack(block, t.refunds, order);
  }

  lemma {:induction false} StaysDone(s: State, t: State, order: nat, settled: nat)
    requires Finished(s, order, settled) && Elsewhere(s, t, [], order, settled)
    ensures Finished(t, order, settled)
    ensures GivenBack(t.moves, t.refunds, order) == GivenBack(s.moves, s.refunds, order)
  {
    ElsewhereKeepsDone(s, t, [], order, settled);
  }

  lemma BuyElsewhere(s: State, c: CheckoutDto, items: seq<Item>, cells: seq<Cell>, order: nat, settled: nat)
    requires Finished(s, order, settled)
    ensures Elsewhere(s, WriteOrder(s, c, items, cells), Sold(items, |s.orders|), order, settled)
  {
  }

  lemma CancelElsewhere(s: State, other: nat, expiry: bool, order: nat, settled: nat)
    requires Finished(s, order, settled) && MayCancel(s, other, expiry)
    ensures Elsewhere(s, Cancel(s, other, expiry), Back(s.orders[other].items, other), order, settled)
  {
  }

  lemma SettleElsewhere(s: State, request: nat, order: nat, settled: nat)
    requires Finished(s, order, settled) && MaySettle(s, request)
    ensures var r := s.requests[request].refund;
            var o := s.refunds[r].order;
      Elsewhere(s, Settle(s, request),
                if MustRestock(s, r) then ReturnMoves(s.cells, s.orders[o].items, r, s.refunds[r].damaged) else [],
                order, settled)
  {
    var r := s.requests[request].refund;
    var t := Settle(s, request);
    assert s.moves + [] == s.moves;
    if MustRestock(s, r) {
      RestocksElsewhere(s, request, order, settled);
      ReturnMovesSources(s.cells, s.orders[s.refunds[r].order].items, r, s.refunds[r].damaged);
      assert !Concerns(t.refunds, ForRefund(r), order);
    }
  }

  /** A settlement that restocks is of a refund of another order. */
  lemma RestocksElsewhere(s: State, request: nat, order: nat, settled: nat)
    requires Finished(s, order, settled) && MaySettle(s, request) && MustRestock(s, s.requests[request].refund)
    ensures s.refunds[s.requests[request].refund].order != order
  {
  }

  lemma ReturnMovesSources(cells: seq<Cell>, items: seq<Item>, refund: nat, damaged: bool)
    ensures forall i :: 0 <= i < |ReturnMoves(cells, items, refund, damaged)| ==>
      ReturnMoves(cells, items, refund, damaged)[i].source == ForRefund(refund)
  {
  }

  lemma PayElsewhere(s: State, a: PayAction, order: nat, settled: nat)
    requires Finished(s, order, settled) && !Revives(s, Pay(a), order)
    ensures Elsewhere(s, ApplyPay(s, a), [], order, settled)
  {
    PayFrame(s, a);
    PayRequests(s, a);
    PayNotices(s, a);
    assert s.moves + [] == s.moves;
    if a.Success? {
      SuccessElsewhere(s, a.payment, order);
    } else {
      OthersKeepStatus(s, a, order);
    }
  }

  lemma SuccessElsewhere(s: State, payment: nat, order: nat)
    requires order < |s.orders| && s.orders[order].status == Refunded
    requires !Revives(s, Pay(Success(payment)), order)
    ensures PaymentSuccess(s, payment).orders[order].status == Refunded
  {
  }

  lemma OthersKeepStatus(s: State, a: PayAction, order: nat)
    requires !a.Success? && order < |s.orders|
    ensures order < |ApplyPay(s, a).orders| && ApplyPay(s, a).orders[order].status == s.orders[order].status
  {
  }

  lemma PayNotices(s: State, a: PayAction)
    ensures var t := ApplyPay(s, a);
      |t.notices| >= |s.notices| && forall n :: 0 <= n < |s.notices| ==> t.notices[n] == s.notices[n]
  {
  }

  lemma ReadsElsewhere(s: State, a: DeskAction, order: nat, settled: nat)
    requires Finished(s, order, settled) && Reads(a)
    ensures Elsewhere(s, ApplyDesk(s, a), [], order, settled)
  {
    ReadsFrame(s, a);
    assert s.moves + [] == s.moves;
    if (a.CheckActive? || a.ReadPayment? || a.ReadConfirmed?) && a.request < |s.requests| {
      assert Harmless(s, s.requests[a.request], order, settled);
    }
  }

  lemma UpdateElsewhere(s: State, k: nat, id: nat, row: Refund, order: nat, settled: nat)
    requires Finished(s, order, settled) && k < |s.requests| && id < |s.refunds| && row.order == s.refunds[id].order
    requires id == settled || s.refunds[id].order != order
    ensures Elsewhere(s, UpdateRefund(Answer(s, k, Over), id, row), [], order, settled)
  {
    assert s.moves + [] == s.moves;
  }

  lemma OverElsewhere(s: State, k: nat, order: nat, settled: nat)
    requires Finished(s, order, settled) && k < |s.requests|
    ensures Elsewhere(s, Answer(s, k, Over), [], order, settled)
  {
    assert s.moves + [] == s.moves;
  }

  lemma DecideElsewhere(s: State, k: nat, order: nat, settled: nat)
    requires Finished(s, order, settled)
    ensures Elsewhere(s, ApplyDesk(s, Decide(k)), [], order, settled)
  {
    assert s.moves + [] == s.moves;
    if AtRefund(s, k) && s.requests[k].RefundRead? && s.requests[k].dto.decision != Process {
      var r := s.requests[k].refund;
      OverElsewhere(s, k, order, settled);
      if !Closed(s.refunds[r].status) {
        UpdateElsewhere(s, k, r, Decided(s.refunds[r], s.requests[k].dto), order, settled);
      }
    }
  }

  lemma InsertElsewhere(s: State, k: nat, payment: Option<nat>, damaged: bool, order: nat, settled: nat)
    requires Finished(s, order, settled)
    ensures Elsewhere(s, ApplyDesk(s, InsertRefund(k, payment, damaged)), [], order, settled)
  {
    assert s.moves + [] == s.moves;
    if k < |s.requests| {
      assert Harmless(s, s.requests[k], order, settled);
    }
  }

  lemma CallElsewhere(s: State, a: DeskAction, order: nat, settled: nat)
    requires Finished(s, order, settled) && (a.Claim? || a.AskGateway?)
    ensures Elsewhere(s, ApplyDesk(s, a), [], order, settled)
  {
    if a.Claim? {
      ClaimElsewhere(s, a.request, order, settled);
    } else {
      AskElsewhere(s, a.request, order, settled);
    }
  }

  lemma ClaimElsewhere(s: State, k: nat, order: nat, settled: nat)
    requires Finished(s, order, settled)
    ensures Elsewhere(s, ApplyDesk(s, Claim(k)), [], order, settled)
  {
    if MayClaim(s, k) {
      var r := s.requests[k].refund;
      CallingElsewhere(s, k, r, s.refunds[r].(status := InProcess, claimed := true), Calling(r), order, settled);
    } else {
      assert s.moves + [] == s.moves;
    }
  }

  lemma AskElsewhere(s: State, k: nat, order: nat, settled: nat)
    requires Finished(s, order, settled)
    ensures Elsewhere(s, ApplyDesk(s, AskGateway(k)), [], order, settled)
  {
    if AtRefund(s, k) && s.requests[k].Calling? {
      var r := s.requests[k].refund;
      assert Harmless(s, s.requests[k], order, settled);
      CallingElsewhere(s, k, r, s.refunds[r].(asked := s.refunds[r].asked + 1), Asked(r), order, settled);
    } else {
      assert s.moves + [] == s.moves;
    }
  }

  /** A request that goes on with the settled refund, or with one of another order. */
  lemma CallingElsewhere(s: State, k: nat, r: nat, row: Refund, q: Request, order: nat, settled: nat)
    requires Finished(s, order, settled) && k < |s.requests| && r < |s.refunds|
    requires row.order == s.refunds[r].order && (r == settled || row.order != order)
    requires (q.Calling? || q.Asked?) && q.refund == r
    ensures Elsewhere(s, Answer(s.(refunds := s.refunds[r := row]), k, q), [], order, settled)
  {
    assert s.moves + [] == s.moves;
  }

  lemma GatewayElsewhere(s: State, k: nat, reply: Reply, bank: nat, order: nat, settled: nat)
    requires Finished(s, order, settled)
    ensures Elsewhere(s, ApplyDesk(s, GatewayReplies(k, reply, bank)), [], order, settled)
  {
    assert s.moves + [] == s.moves;
    if AtRefund(s, k) && s.requests[k].Asked? {
      assert Harmless(s, s.requests[k], order, settled);
      var r := s.requests[k].refund;
      UpdateElsewhere(s, k, r, AfterGateway(s.refunds[r], InitiationOutcome(reply, bank)), order, settled);
    }
  }

  lemma ConfirmationElsewhere(s: State, k: nat, order: nat, settled: nat)
    requires Finished(s, order, settled) && k < |s.requests| && s.requests[k].Inquiring?
    ensures Elsewhere(s, Answer(s, k, Confirmed(s.requests[k].refund, s.requests[k].reference)), [], order, settled)
  {
    assert s.moves + [] == s.moves;
  }

  lemma InquiryElsewhere(s: State, k: nat, reply: Reply, order: nat, settled: nat)
    requires Finished(s, order, settled)
    ensures Elsewhere(s, ApplyDesk(s, InquiryReplies(k, reply)), [], order, settled)
  {
    assert s.moves + [] == s.moves;
    if AtRefund(s, k) && s.requests[k].Inquiring? {
      assert Harmless(s, s.requests[k], order, settled);
      var r := s.requests[k].refund;
      var q := s.requests[k];
      match InquiryOutcome(reply, q.reference, q.bankTran, q.tran)
      case InquiryRefunded => ConfirmationElsewhere(s, k, order, settled);
      case InquiryCancelled => UpdateElsewhere(s, k, r, s.refunds[r].(status := Rejected), order, settled);
      case InquiryUnsettled => UpdateElsewhere(s, k, r, s.refunds[r].(status := InProcess), order, settled);
    }
  }

  lemma DeskElsewhere(s: State, a: DeskAction, order: nat, settled: nat)
    requires Finished(s, order, settled)
    ensures Elsewhere(s, ApplyDesk(s, a), [], order, settled)
  {
    match a
    case InsertRefund(k, payment, damaged) => InsertElsewhere(s, k, payment, damaged, order, settled);
    case Decide(k) => DecideElsewhere(s, k, order, settled);
    case Claim(_) => CallElsewhere(s, a, order, settled);
    case AskGateway(_) => CallElsewhere(s, a, order, settled);
    case GatewayReplies(k, reply, bank) => GatewayElsewhere(s, k, reply, bank, order, settled);
    case InquiryReplies(k, reply) => InquiryElsewhere(s, k, reply, order, settled);
    case _ => ReadsElsewhere(s, a, order, settled);
  }

  lemma NoticeElsewhere(s: State, a: NoticeAction, order: nat, settled: nat)
    requires Finished(s, order, settled)
    ensures Elsewhere(s, ApplyNotice(s, a), [], order, settled)
  {
    NoticeFrame(s, a);
    assert s.moves + [] == s.moves;
    if !a.StartNotice? && a.request < |s.requests| {
      assert Harmless(s, s.requests[a.request], order, settled);
    }
  }

  lemma {:induction false} DoneStep(s: State, a: Action, order: nat, settled: nat)
    requires Finished(s, order, settled) && !Revives(s, a, order)
    ensures Finished(Apply(s, a), order, settled)
    ensures GivenBack(Apply(s, a).moves, Apply(s, a).refunds, order) == GivenBack(s.moves, s.refunds, order)
  {
    match a
    case Buy(dto) =>
      if !IsReplay(s, dto) && MayPlace(s, dto) {
        var items := SortItems(CartOf(s, dto.user));
        BuyElsewhere(s, dto, items, Deduct(s.cells, items).value, order, settled);
        ElsewhereKeepsDone(s, Apply(s, a), Sold(items, |s.orders|), order, settled);
      }
    case CancelOrder(other, expiry) => CancelStaysDone(s, other, expiry, order, settled);
    case UpdateStatus(other, to) =>
      if to == Cancelled {
        CancelStaysDone(s, other, false, order, settled);
      } else {
        QuietStaysDone(s, a, order, settled);
      }
    case Pay(pay) =>
      PayElsewhere(s, pay, order, settled);
      StaysDone(s, Apply(s, a), order, settled);
    case Desk(desk) =>
      DeskElsewhere(s, desk, order, settled);
      StaysDone(s, Apply(s, a), order, settled);
    case SettleRefund(request) => SettleStaysDone(s, request, order, settled);
    case Outbox(step) =>
      NoticeElsewhere(s, step, order, settled);
      StaysDone(s, Apply(s, a), order, settled);
    case _ => QuietStaysDone(s, a, order, settled);
  }

  lemma {:induction false} CancelStaysDone(s: State, other: nat, expiry: bool, order: nat, settled: nat)
    requires Finished(s, order, settled)
    ensures var t := Cancel(s, other, expiry);
      Finished(t, order, settled) && GivenBack(t.moves, t.refunds, order) == GivenBack(s.moves, s.refunds, order)
  {
    if MayCancel(s, other, expiry) {
      CancelElsewhere(s, other, expiry, order, settled);
      ElsewhereKeepsDone(s, Cancel(s, other, expiry), Back(s.orders[other].items, other), order, settled);
    }
  }

  lemma {:induction false} SettleStaysDone(s: State, request: nat, order: nat, settled: nat)
    requires Finished(s, order, settled)
    ensures var t := Settle(s, request);
      Finished(t, order, settled) && GivenBack(t.moves, t.refunds, order) == GivenBack(s.moves, s.refunds, order)
  {
    if MaySettle(s, request) {
      var r := s.requests[request].refund;
      var o := s.refunds[r].order;
      SettleElsewhere(s, request, order, settled);
      ElsewhereKeepsDone(s, Settle(s, request),
        if MustRestock(s, r) then ReturnMoves(s.cells, s.orders[o].items, r, s.refunds[r].damaged) else [],
        order, settled);
    }
  }

  lemma {:induction false} QuietStaysDone(s: State, a: Action, order: nat, settled: nat)
    requires Finished(s, order, settled)
    requires (a.UpdateStatus? && a.to != Cancelled) || a.Reward? || a.FillCart?
    ensures var t := Apply(s, a);
      Finished(t, order, settled) && GivenBack(t.moves, t.refunds, order) == GivenBack(s.moves, s.refunds, order)
  {
    assert s.moves + [] == s.moves;
    StaysDone(s, Apply(s, a), order, settled);
  }

  lemma {:induction false} DoneRun(s: State, actions: seq<Action>, order: nat, settled: nat)
    requires Finished(s, order, settled) && NoRevival(s, actions, order)
    ensures Finished(Run(s, actions), order, settled)
    ensures GivenBack(Run(s, actions).moves, Run(s, actions).refunds, order) == GivenBack(s.moves, s.refunds, order)
    decreases |actions|
  {
    if actions != [] {
      DoneStep(s, actions[0], order, settled);
      DoneRun(Apply(s, actions[0]), actions[1..], order, settled);
    }
  }

  // ---- How another refund opens

  /** An admin's payout with a reference and notes: no state of an open refund refuses it. */
  const FULL: Dto := Dto(Process, Some(0), true, false)

  /** `u` is `s` with an open refund `r` of the order besides the settled one. */
  ghost predicate Opened(s: State, u: State, r: nat, order: nat) {
    && u.moves == s.moves && u.orders == s.orders && |u.refunds| >= |s.refunds|
    && (forall i :: 0 <= i < |s.refunds| ==> u.refunds[i].order == s.refunds[i].order)
    && r < |u.refunds| && u.refunds[r].order == order && !Closed(u.refunds[r].status)
  }

  /** The order after the rejecting write: its goods came back with a refund that is rejected
      now, like every other refund of it. */
  ghost predicate Exposed(s: State, order: nat, settled: nat) {
    && order < |s.orders| && s.orders[order].status == Refunded && AllRejected(s.refunds, order)
    && settled < |s.refunds| && s.refunds[settled].order == order
    && MovesRefsOk(s) && ReturnsFrom(s.moves, ForOrder(order)) == []
    && (forall r: nat :: r < |s.refunds| && r != settled && s.refunds[r].order == order ==>
          ReturnsFrom(s.moves, ForRefund(r)) == [])
    && WholeOrder(GivenBack(s.moves, s.refunds, order), s.orders[order].items) && s.orders[order].items != []
  }

  lemma {:induction false} OpenSettles(s: State, r: nat) returns (more: seq<Action>)
    requires r < |s.refunds| && !Closed(s.refunds[r].status) && s.refunds[r].order < |s.orders| && MustRestock(s, r)
    ensures NoRevival(s, more, s.refunds[r].order)
    ensures var t := Run(s, more);
      && t.moves == s.moves + ReturnMoves(s.cells, s.orders[s.refunds[r].order].items, r, s.refunds[r].damaged)
      && |t.refunds| == |s.refunds| && forall i :: 0 <= i < |s.refunds| ==> t.refunds[i].order == s.refunds[i].order
  {
    var q := |s.requests|;
    more := [Desk(ReadRefund(r, FULL)), Desk(ReadPayment(q)), SettleRefund(q)];
    var s1 := Apply(s, more[0]);
    assert s1 == s.(requests := s.requests + [RefundRead(r, FULL, s.refunds[r].reference)]);
    var s2 := Apply(s1, more[1]);
    var online := IsOnline(s.payments, s.refunds[r].payment);
    assert s2 == s1.(requests := s1.requests[q := PaymentRead(r, FULL, s.refunds[r].reference, online)]);
    assert MaySettle(s2, q) && MustRestock(s2, r);
    RunThree(s, more[0], more[1], more[2]);
    QuietThree(s, more[0], more[1], more[2], s.refunds[r].order);
  }

  lemma {:induction false} QuietThree(s: State, a: Action, b: Action, c: Action, order: nat)
    requires !a.Pay? && !b.Pay? && !c.Pay?
    ensures NoRevival(s, [a, b, c], order) && NoRevival(s, [a, b], order) && NoRevival(s, [a], order)
  {
    assert [a, b, c][1..] == [b, c] && [b, c][1..] == [c] && [c][1..] == [];
    assert [a, b][1..] == [b] && [b][1..] == [] && [a][1..] == [];
    assert NoRevival(Apply(Apply(s, a), b), [c], order);
    assert NoRevival(Apply(s, a), [b, c], order) && NoRevival(Apply(s, a), [b], order);
  }

  lemma {:induction false} QuietNext(s: State, a: Action, rest: seq<Action>, order: nat)
    requires !Revives(s, a, order) && NoRevival(Apply(s, a), rest, order)
    ensures NoRevival(s, [a] + rest, order)
  {
    assert ([a] + rest)[1..] == rest;
  }

  lemma {:induction false} QuietConcat(s: State, a: seq<Action>, b: seq<Action>, order: nat)
    requires NoRevival(s, a, order) && NoRevival(Run(s, a), b, order)
    ensures NoRevival(s, a + b, order)
    decreases |a|
  {
    if a == [] {
      assert a + b == b;
    } else {
      var rest := a[1..] + b;
      assert a + b == [a[0]] + rest;
      QuietConcat(Apply(s, a[0]), a[1..], b, order);
      QuietNext(s, a[0], rest, order);
    }
  }

  lemma InsertionOpens(s: State, k: nat, order: nat)
    requires order < |s.orders| && AllRejected(s.refunds, order)
    requires k < |s.requests| && s.requests[k] == RefundUnopposed(order)
    ensures Opened(s, Apply(s, Desk(InsertRefund(k, None, false))), |s.refunds|, order)
  {
    assert !Clashes(s.refunds, |s.refunds|, NewRefund(order, None, false));
  }

  lemma RequestOpens(s: State, k: nat, order: nat)
    requires order < |s.orders| && AllRejected(s.refunds, order)
    requires k < |s.requests| && s.requests[k] == RefundRequest(order)
    ensures var u := Apply(s, Desk(CheckActive(k)));
      Opened(s, Apply(u, Desk(InsertRefund(k, None, false))), |s.refunds|, order)
  {
    var u := Answer(s, k, RefundUnopposed(order));
    assert Apply(s, Desk(CheckActive(k))) == u;
    InsertionOpens(u, k, order);
  }

  lemma NoticeOpens(s: State, k: nat, order: nat)
    requires order < |s.orders| && AllRejected(s.refunds, order)
    requires k < |s.requests| && s.requests[k].Handling? && Registers(s, s.requests[k], order)
    ensures Opened(s, Apply(s, Outbox(RegisterRefund(k, None))), |s.refunds|, order)
  {
    assert !Clashes(s.refunds, |s.refunds|, NewRefund(order, None, false));
  }

  lemma RegisteringOpens(s: State, k: nat, order: nat, settled: nat) returns (more: seq<Action>, r: nat)
    requires Exposed(s, order, settled) && k < |s.requests| && Registers(s, s.requests[k], order)
    ensures NoRevival(s, more, order) && Opened(s, Run(s, more), r, order) && r == |s.refunds|
  {
    r := |s.refunds|;
    var insert := Desk(InsertRefund(k, None, false));
    if s.requests[k].RefundRequest? {
      var check := Desk(CheckActive(k));
      more := [check, insert];
      RunTwo(s, check, insert);
      QuietThree(s, check, insert, insert, order);
      RequestOpens(s, k, order);
    } else if s.requests[k].RefundUnopposed? {
      more := [insert];
      RunOne(s, insert);
      InsertionOpens(s, k, order);
      QuietThree(s, insert, insert, insert, order);
    } else {
      var register := Outbox(RegisterRefund(k, None));
      more := [register];
      RunOne(s, register);
      QuietThree(s, register, register, register, order);
      NoticeOpens(s, k, order);
    }
  }

  lemma LostAnswerReopens(u: State, k: nat, r: nat, order: nat)
    requires r < |u.refunds| && u.refunds[r].order == order && AllRejected(u.refunds, order)
    requires k < |u.requests| && u.requests[k] == Asked(r)
    ensures Opened(u, Apply(u, Desk(GatewayReplies(k, Unusable, 0))), r, order)
  {
    assert !Clashes(u.refunds, r, u.refunds[r].(status := InProcess));
  }

  lemma OpenInquiryReopens(u: State, k: nat, r: nat, order: nat)
    requires r < |u.refunds| && u.refunds[r].order == order && AllRejected(u.refunds, order)
    requires k < |u.requests| && u.requests[k].Inquiring? && u.requests[k].refund == r
    ensures Opened(u, Apply(u, Desk(InquiryReplies(k, Unusable))), r, order)
  {
    assert !Clashes(u.refunds, r, u.refunds[r].(status := InProcess));
  }

  /** An answer that settles nothing puts a rejected refund back in process. */
  lemma UnsettledReopens(s: State, k: nat, r: nat, order: nat, settled: nat)
    requires Exposed(s, order, settled) && r < |s.refunds| && s.refunds[r].order == order
    requires k < |s.requests| && (s.requests[k].Inquiring? || s.requests[k].Asked?) && s.requests[k].refund == r
    ensures Opened(s, Apply(s, Desk(if s.requests[k].Asked? then GatewayReplies(k, Unusable, 0)
                                    else InquiryReplies(k, Unusable))), r, order)
  {
    if s.requests[k].Asked? {
      LostAnswerReopens(s, k, r, order);
    } else {
      OpenInquiryReopens(s, k, r, order);
    }
  }

  lemma AwaitingOpens(s: State, k: nat, r: nat, order: nat, settled: nat) returns (more: seq<Action>)
    requires Exposed(s, order, settled) && r < |s.refunds| && s.refunds[r].order == order
    requires k < |s.requests| && Awaits(s.requests[k], r)
    ensures NoRevival(s, more, order) && Opened(s, Run(s, more), r, order)
  {
    var reply := Desk(GatewayReplies(k, Unusable, 0));
    if s.requests[k].Inquiring? {
      more := [Desk(InquiryReplies(k, Unusable))];
      UnsettledReopens(s, k, r, order, settled);
      RunOne(s, more[0]);
      QuietThree(s, more[0], more[0], more[0], order);
    } else if s.requests[k].Asked? {
      more := [reply];
      UnsettledReopens(s, k, r, order, settled);
      RunOne(s, reply);
      QuietThree(s, reply, reply, reply, order);
    } else {
      more := [Desk(AskGateway(k)), reply];
      CallReopens(s, k, r, order, settled);
      RunTwo(s, more[0], reply);
      QuietThree(s, more[0], reply, reply, order);
    }
  }

  lemma CallReopens(s: State, k: nat, r: nat, order: nat, settled: nat)
    requires Exposed(s, order, settled) && r < |s.refunds| && s.refunds[r].order == order
    requires k < |s.requests| && s.requests[k] == Calling(r)
    ensures Opened(s, Apply(Apply(s, Desk(AskGateway(k))), Desk(GatewayReplies(k, Unusable, 0))), r, order)
  {
    var u := Apply(s, Desk(AskGateway(k)));
    assert u == Answer(s.(refunds := s.refunds[r := s.refunds[r].(asked := s.refunds[r].asked + 1)]), k, Asked(r));
    LostAnswerReopens(u, k, r, order);
  }

  lemma ReferenceOpens(s: State, r: nat, order: nat, settled: nat) returns (more: seq<Action>)
    requires Exposed(s, order, settled) && r < |s.refunds| && s.refunds[r].order == order
    requires s.refunds[r].reference.Some?
    ensures NoRevival(s, more, order) && Opened(s, Run(s, more), r, order)
  {
    var k := |s.requests|;
    more := [Desk(Reconcile(r, None)), Desk(InquiryReplies(k, Unusable))];
    var u := Apply(s, more[0]);
    assert s.refunds[r].status == Rejected && u == s.(requests := u.requests) && u.requests[k].Inquiring?;
    assert Exposed(u, order, settled);
    UnsettledReopens(u, k, r, order, settled);
    RunTwo(s, more[0], more[1]);
    QuietThree(s, more[0], more[1], more[1], order);
  }

  /** With another open refund the goods come back a second time. */
  lemma {:induction false} OpenReturnsAgain(s: State, open: seq<Action>, r: nat, order: nat, settled: nat)
    returns (more: seq<Action>)
    requires Exposed(s, order, settled) && r != settled && NoRevival(s, open, order)
    requires Opened(s, Run(s, open), r, order)
    ensures NoRevival(s, more, order)
    ensures var t := Run(s, more); |GivenBack(t.moves, t.refunds, order)| > |s.orders[order].items|
  {
    var u := Run(s, open);
    if r >= |s.refunds| {
      NoStrangers(s, s.moves, ForRefund(r));
    }
    RestockedMeansReturns(u.moves, ForOrder(order));
    RestockedMeansReturns(u.moves, ForRefund(r));
    var settle := OpenSettles(u, r);
    more := open + settle;
    QuietConcat(s, open, settle, order);
    RunConcat(s, open, settle);
    var t := Run(u, settle);
    var block := ReturnMoves(u.cells, u.orders[order].items, r, u.refunds[r].damaged);
    SourcesInRange(s);
    GivenBackSame(s.moves, s.refunds, t.refunds, order);
    GivenBackAppend(s.moves, block, t.refunds, order);
    GivenBackBlock(block, t.refunds, order);
  }

  lemma SourcesInRange(s: State)
    requires MovesRefsOk(s)
    ensures forall m :: 0 <= m < |s.moves| && s.moves[m].source.ForRefund? ==> s.moves[m].source.refund < |s.refunds|
  {
    forall m | 0 <= m < |s.moves| && s.moves[m].source.ForRefund? ensures s.moves[m].source.refund < |s.refunds| {
      assert SourceExists(s, s.moves[m].source);
    }
  }

  lemma {:induction false} SecondReturnIsReachable(s: State, order: nat, settled: nat) returns (more: seq<Action>)
    requires Exposed(s, order, settled) && MayReturnAgain(s, order, settled)
    ensures NoRevival(s, more, order)
    ensures var t := Run(s, more); |GivenBack(t.moves, t.refunds, order)| > |s.orders[order].items|
  {
    if k :| 0 <= k < |s.requests| && Registers(s, s.requests[k], order) {
      var open, r := RegisteringOpens(s, k, order, settled);
      more := OpenReturnsAgain(s, open, r, order, settled);
    } else {
      var r: nat :| OtherReopens(s, order, settled, r);
      var open: seq<Action>;
      if s.refunds[r].reference.Some? {
        open := ReferenceOpens(s, r, order, settled);
      } else {
        var k :| 0 <= k < |s.requests| && Awaits(s.requests[k], r);
        open := AwaitingOpens(s, k, r, order, settled);
      }
      more := OpenReturnsAgain(s, open, r, order, settled);
    }
  }

  // ---- From the write to either end

  /** The request whose step rejects the refund. */
  predicate StepsOn(q: Request, refund: nat) {
    (q.RefundRead? || q.Asked? || q.Inquiring?) && q.refund == refund
  }

  lemma RejectingWrites(s: State, a: Action)
    requires Rejects(s, a).Some? && Rejects(s, a).value < |s.refunds|
    ensures var r := Rejects(s, a).value;
            var t := Apply(s, a);
      && t == s.(refunds := s.refunds[r := t.refunds[r]], requests := t.requests)
      && t.refunds[r].status == Rejected && t.refunds[r].order == s.refunds[r].order
      && exists j :: 0 <= j < |s.requests| && t.requests == s.requests[j := Over] && StepsOn(s.requests[j], r)
  {
    var j := a.desk.request;
    assert Apply(s, a).requests == s.requests[j := Over] && StepsOn(s.requests[j], Rejects(s, a).value);
  }

  lemma {:induction false} GivenBackSameOrders(moves: seq<Move>, a: seq<Refund>, b: seq<Refund>, order: nat)
    requires |a| == |b| && forall r :: 0 <= r < |a| ==> a[r].order == b[r].order
    ensures GivenBack(moves, a, order) == GivenBack(moves, b, order)
    decreases |moves|
  {
    if moves != [] {
      GivenBackSameOrders(moves[..|moves| - 1], a, b, order);
    }
  }

  lemma {:induction false} UnexposedIsDone(s: State, order: nat, settled: nat)
    requires Exposed(s, order, settled) && !MayReturnAgain(s, order, settled)
    requires ReturnsFrom(s.moves, ForRefund(settled)) != []
    requires RequestsOk(s)
    ensures Finished(s, order, settled)
  {
    RestockedMeansReturns(s.moves, ForRefund(settled));
    forall r: nat | r < |s.refunds| && r != settled && s.refunds[r].order == order
      ensures s.refunds[r].reference.None? && !Restocked(s.moves, ForRefund(r))
    {
      RestockedMeansReturns(s.moves, ForRefund(r));
      assert !OtherReopens(s, order, settled, r);
    }
    forall k | 0 <= k < |s.requests| ensures Harmless(s, s.requests[k], order, settled) {
      var q := s.requests[k];
      if (q.Calling? || q.Asked? || q.Inquiring?) && q.refund != settled && s.refunds[q.refund].order == order {
        assert Awaits(q, q.refund);
        assert OtherReopens(s, order, settled, q.refund);
      }
    }
  }

  /** Some continuation without a revival gives more back than the order holds. */
  ghost predicate ReturnsAgain(s: State, order: nat)
    requires order < |s.orders|
  {
    exists more: seq<Action> ::
      NoRevival(s, more, order)
      && |GivenBack(Run(s, more).moves, Run(s, more).refunds, order)| > |s.orders[order].items|
  }
}
