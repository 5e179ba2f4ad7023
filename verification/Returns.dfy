/** An order gives its stock back at most once, over any mix of cancellations, expiries,
    settlements, re-settlements, rejections and reopenings -- exactly as long as no step is
    harmful: a success callback on a refunded order whose goods are back, or `rejected` written
    over the refund they came back with while the order can still get another open refund. */
module Returns {
  import opened Basics
  import opened Gateway
  import opened Tables
  import opened Shop
  import Rows = ReturnRows
  import opened ReturnRows
  import opened Reopening

  // ---- Harmful steps

  /** A write of `rejected` over the refund an order's goods came back with. */
  predicate RejectsReturned(s: State, a: Action) {
    && Rejects(s, a).Some? && Rejects(s, a).value < |s.refunds|
    && s.refunds[Rejects(s, a).value].order < |s.orders|
    && ReturnsFrom(s.moves, ForRefund(Rejects(s, a).value)) != []
  }

  ghost predicate Harmful(s: State, a: Action) {
    || RevivesReturned(s, a)
    || (RejectsReturned(s, a) && MayReturnAgain(s, s.refunds[Rejects(s, a).value].order, Rejects(s, a).value))
  }

  ghost predicate OrderlyRun(s: State, actions: seq<Action>)
    decreases |actions|
  {
    actions == [] || (!Harmful(s, actions[0]) && OrderlyRun(Apply(s, actions[0]), actions[1..]))
  }

  // ---- Invariant

  /** Once the refund the goods came back with is rejected, the order is done with. */
  ghost predicate RejectedOk(s: State, r: nat) {
    r < |s.refunds| && s.refunds[r].status == Rejected && ReturnsFrom(s.moves, ForRefund(r)) != [] ==>
      Finished(s, s.refunds[r].order, r)
  }

  ghost predicate Inv(s: State) {
    Rows.Inv(s) && forall r: nat :: r < |s.refunds| ==> RejectedOk(s, r)
  }

  lemma DoneExcludes(s: State, order: nat, settled: nat, r: nat)
    requires Finished(s, order, settled) && r < |s.refunds| && r != settled && s.refunds[r].order == order
    ensures ReturnsFrom(s.moves, ForRefund(r)) == [] && s.refunds[r].status == Rejected
  {
    RestockedMeansReturns(s.moves, ForRefund(r));
  }

  /** At most one refund of an order has goods that came back with it; the others are rejected. */
  lemma OneReturningRefund(s: State, q: nat, r: nat)
    requires Inv(s) && q < |s.refunds| && r < |s.refunds| && q != r && s.refunds[q].order == s.refunds[r].order
    requires ReturnsFrom(s.moves, ForRefund(q)) != []
    ensures ReturnsFrom(s.moves, ForRefund(r)) == [] && s.refunds[r].status == Rejected
  {
    assert RejectedOk(s, q) && RejectedOk(s, r);
    if s.refunds[q].status == Rejected {
      DoneExcludes(s, s.refunds[q].order, q, r);
    } else if ReturnsFrom(s.moves, ForRefund(r)) != [] && s.refunds[r].status == Rejected {
      DoneExcludes(s, s.refunds[r].order, r, q);
    }
  }

  lemma {:induction false} ReturnedFromOneSource(s: State, order: nat)
    requires Inv(s) && order < |s.orders|
    ensures var back := GivenBack(s.moves, s.refunds, order);
      back == [] || WholeOrder(back, s.orders[order].items)
  {
    assert OrderRows(s, order);
    if r: nat :| r < |s.refunds| && s.refunds[r].order == order && ReturnsFrom(s.moves, ForRefund(r)) != [] {
      assert RefundRows(s, r);
      forall source | Concerns(s.refunds, source, order) && source != ForRefund(r)
        ensures ReturnsFrom(s.moves, source) == []
      {
        if source.ForRefund? {
          OneReturningRefund(s, r, source.refund);
        }
      }
      SingleSource(s.moves, s.refunds, order, ForRefund(r));
    } else {
      SingleSource(s.moves, s.refunds, order, ForOrder(order));
    }
  }

  // ---- Steps

  lemma {:induction false} NewReturns(s: State, a: Action, r: nat)
    requires Rows.Inv(s) && Rows.Inv(Apply(s, a)) && r < |Apply(s, a).refunds|
    requires ReturnsFrom(Apply(s, a).moves, ForRefund(r)) != []
    requires r < |s.refunds| ==> ReturnsFrom(s.moves, ForRefund(r)) == []
    ensures Apply(s, a).refunds[r].status == Processed
  {
    match a
    case Buy(dto) => BuyReturnsNothing(s, dto, r);
    case CancelOrder(order, expiry) => CancelReturnsNothing(s, order, expiry, r);
    case UpdateStatus(order, to) => CancelReturnsNothing(s, order, false, r);
    case Pay(pay) => PayFrame(s, pay);
    case Desk(desk) => DeskReturnsNothing(s, desk, r);
    case SettleRefund(request) => SettleReturns(s, request, r);
    case Outbox(step) => NoticeReturnsNothing(s, step, r);
    case _ =>
  }

  lemma {:induction false} BuyReturnsNothing(s: State, c: CheckoutDto, r: nat)
    ensures var t := Checkout(s, c).0;
      ReturnsFrom(t.moves, ForRefund(r)) == ReturnsFrom(s.moves, ForRefund(r)) && t.refunds == s.refunds
  {
    if !IsReplay(s, c) && MayPlace(s, c) {
      var items := SortItems(CartOf(s, c.user));
      SaleReturnsNothing(s, c, items, Deduct(s.cells, items).value, r);
    }
  }

  lemma {:induction false} SaleReturnsNothing(s: State, c: CheckoutDto, items: seq<Item>, cells: seq<Cell>, r: nat)
    ensures var t := WriteOrder(s, c, items, cells);
      ReturnsFrom(t.moves, ForRefund(r)) == ReturnsFrom(s.moves, ForRefund(r)) && t.refunds == s.refunds
  {
    var block := Sold(items, |s.orders|);
    ReturnsAppend(s.moves, block, ForRefund(r));
    NoReturnsOut(block, ForRefund(r));
  }

  lemma {:induction false} CancelReturnsNothing(s: State, order: nat, expiry: bool, r: nat)
    requires r < |s.refunds|
    ensures ReturnsFrom(Cancel(s, order, expiry).moves, ForRefund(r)) == ReturnsFrom(s.moves, ForRefund(r))
  {
    if MayCancel(s, order, expiry) {
      var block := Back(s.orders[order].items, order);
      ReturnsAppend(s.moves, block, ForRefund(r));
      ReturnsOfBlock(block, ForOrder(order), ForRefund(r));
    }
  }

  lemma {:induction false} DeskReturnsNothing(s: State, a: DeskAction, r: nat)
    requires Rows.Inv(s) && Rows.Inv(ApplyDesk(s, a)) && r < |ApplyDesk(s, a).refunds|
    requires r < |s.refunds| ==> ReturnsFrom(s.moves, ForRefund(r)) == []
    ensures ReturnsFrom(ApplyDesk(s, a).moves, ForRefund(r)) == []
  {
    DeskFrame(s, a);
    if r >= |s.refunds| {
      NoStrangers(s, s.moves, ForRefund(r));
    }
  }

  lemma {:induction false} NoticeReturnsNothing(s: State, a: NoticeAction, r: nat)
    requires Rows.Inv(s) && r < |ApplyNotice(s, a).refunds|
    requires r < |s.refunds| ==> ReturnsFrom(s.moves, ForRefund(r)) == []
    ensures ReturnsFrom(ApplyNotice(s, a).moves, ForRefund(r)) == []
  {
    NoticeFrame(s, a);
    if r >= |s.refunds| {
      NoStrangers(s, s.moves, ForRefund(r));
    }
  }

  lemma {:induction false} SettleReturns(s: State, request: nat, r: nat)
    requires r < |s.refunds| && ReturnsFrom(s.moves, ForRefund(r)) == []
    requires ReturnsFrom(Settle(s, request).moves, ForRefund(r)) != []
    ensures Settle(s, request).refunds[r].status == Processed
  {
    if MaySettle(s, request) {
      var own := s.requests[request].refund;
      if MustRestock(s, own) {
        var block := ReturnMoves(s.cells, s.orders[s.refunds[own].order].items, own, s.refunds[own].damaged);
        ReturnsAppend(s.moves, block, ForRefund(r));
        ReturnsOfBlock(block, ForRefund(own), ForRefund(r));
      }
    }
  }

  /** Only the writes `Rejects` names reject a refund. */
  lemma BecomesRejected(s: State, a: Action, r: nat)
    requires r < |s.refunds| && s.refunds[r].status != Rejected
    requires r < |Apply(s, a).refunds| && Apply(s, a).refunds[r].status == Rejected
    ensures Rejects(s, a) == Some(r)
  {
    match a
    case Desk(desk) => DeskRejects(s, desk, r);
    case Pay(pay) => PayFrame(s, pay);
    case SettleRefund(_) =>
    case Outbox(_) =>
    case _ =>
  }

  lemma DeskRejects(s: State, a: DeskAction, r: nat)
    requires r < |s.refunds| && s.refunds[r].status != Rejected
    requires r < |ApplyDesk(s, a).refunds| && ApplyDesk(s, a).refunds[r].status == Rejected
    ensures Rejects(s, Desk(a)) == Some(r)
  {
    if Reads(a) {
      ReadsFrame(s, a);
    }
  }

  lemma RejectingExposes(s: State, a: Action)
    requires Inv(s) && RejectsReturned(s, a)
    ensures var settled := Rejects(s, a).value;
            var order := s.refunds[settled].order;
            var t := Apply(s, a);
      && t == s.(refunds := s.refunds[settled := t.refunds[settled]], requests := t.requests)
      && Exposed(t, order, settled) && t.orders == s.orders
  {
    var settled := Rejects(s, a).value;
    var order := s.refunds[settled].order;
    var t := Apply(s, a);
    assert RefundRows(s, settled) && OrderRows(s, order);
    forall r: nat | r < |s.refunds| && r != settled && s.refunds[r].order == order
      ensures ReturnsFrom(s.moves, ForRefund(r)) == [] && s.refunds[r].status == Rejected
    {
      OneReturningRefund(s, settled, r);
    }
    ReturnsAreGivenBack(s.moves, s.refunds, order, ForRefund(settled));
    ReturnedFromOneSource(s, order);
    RejectingWrites(s, a);
    GivenBackSameOrders(s.moves, s.refunds, t.refunds, order);
    assert forall m :: 0 <= m < |s.moves| ==> SourceExists(s, s.moves[m].source) && SourceExists(t, s.moves[m].source);
  }

  /** The write itself decides nothing about the condition. */
  lemma ConditionStands(s: State, a: Action)
    requires Rows.Inv(s) && RejectsReturned(s, a)
    ensures var settled := Rejects(s, a).value;
            var order := s.refunds[settled].order;
      && (MayReturnAgain(s, order, settled) <==> MayReturnAgain(Apply(s, a), order, settled))
      && RequestsOk(Apply(s, a))
  {
    var settled := Rejects(s, a).value;
    var order := s.refunds[settled].order;
    var t := Apply(s, a);
    RejectingWrites(s, a);
    var j :| 0 <= j < |s.requests| && t.requests == s.requests[j := Over] && StepsOn(s.requests[j], settled);
    if k :| 0 <= k < |s.requests| && Registers(s, s.requests[k], order) {
      assert Registers(t, t.requests[k], order);
    }
    if k :| 0 <= k < |t.requests| && Registers(t, t.requests[k], order) {
      assert Registers(s, s.requests[k], order);
    }
    forall r: nat ensures OtherReopens(s, order, settled, r) <==> OtherReopens(t, order, settled, r) {
      if r < |s.refunds| && r != settled {
        if k :| 0 <= k < |s.requests| && Awaits(s.requests[k], r) {
          assert Awaits(t.requests[k], r);
        }
        if k :| 0 <= k < |t.requests| && Awaits(t.requests[k], r) {
          assert Awaits(s.requests[k], r);
        }
      }
    }
  }

  lemma RejectionKeepsDone(s: State, a: Action)
    requires Inv(s) && RejectsReturned(s, a) && !Harmful(s, a)
    ensures var settled := Rejects(s, a).value; Finished(Apply(s, a), s.refunds[settled].order, settled)
  {
    var settled := Rejects(s, a).value;
    RejectingExposes(s, a);
    ConditionStands(s, a);
    UnexposedIsDone(Apply(s, a), s.refunds[settled].order, settled);
  }

  lemma InvStep(s: State, a: Action)
    requires Inv(s) && !Harmful(s, a)
    ensures Inv(Apply(s, a))
  {
    var t := Apply(s, a);
    Rows.InvStep(s, a);
    forall r: nat | r < |t.refunds| ensures RejectedOk(t, r) {
      RejectedStays(s, a, r);
    }
  }

  lemma RejectedStays(s: State, a: Action, r: nat)
    requires Inv(s) && !Harmful(s, a) && Rows.Inv(Apply(s, a)) && r < |Apply(s, a).refunds|
    ensures RejectedOk(Apply(s, a), r)
  {
    var t := Apply(s, a);
    if t.refunds[r].status == Rejected && ReturnsFrom(t.moves, ForRefund(r)) != [] {
      if r >= |s.refunds| || ReturnsFrom(s.moves, ForRefund(r)) == [] {
        NewReturns(s, a, r);
      } else {
        RefundsStay(s, a, r);
        assert RefundRows(s, r) && RejectedOk(s, r);
        if s.refunds[r].status == Rejected {
          EndedMeansBack(s, r, s.refunds[r].order);
          DoneStep(s, a, s.refunds[r].order, r);
        } else {
          BecomesRejected(s, a, r);
          RejectionKeepsDone(s, a);
        }
      }
    }
  }

  lemma RefundsStay(s: State, a: Action, r: nat)
    requires r < |s.refunds|
    ensures r < |Apply(s, a).refunds| && Apply(s, a).refunds[r].order == s.refunds[r].order
  {
    match a
    case Desk(desk) =>
      if Reads(desk) {
        ReadsFrame(s, desk);
      } else {
        WritesFrame(s, desk);
      }
    case Pay(pay) => PayFrame(s, pay);
    case Outbox(_) =>
    case SettleRefund(_) =>
    case _ =>
  }

  lemma {:induction false} InvRun(s: State, actions: seq<Action>)
    requires Inv(s) && OrderlyRun(s, actions)
    ensures Inv(Run(s, actions))
    decreases |actions|
  {
    if actions != [] {
      InvStep(s, actions[0]);
      InvRun(Apply(s, actions[0]), actions[1..]);
    }
  }

  /** The main result: after any run without a harmful step, what the ledger has taken back from
      an order is nothing, or each of its lines exactly once. */
  lemma {:induction false} ReturnedAtMostOnce(start: State, actions: seq<Action>, order: nat)
    requires Opening(start) && OrderlyRun(start, actions) && order < |Run(start, actions).orders|
    ensures var s := Run(start, actions);
            var back := GivenBack(s.moves, s.refunds, order);
      back == [] || WholeOrder(back, s.orders[order].items)
  {
    InvRun(start, actions);
    ReturnedFromOneSource(Run(start, actions), order);
  }

  // ---- The exact conditions, step by step

  /** From every state, a success callback on a refunded order whose goods are back, followed
      by a cancellation, takes the goods back a second time. */
  lemma RevivingReturnsTwice(s: State, payment: nat)
    requires Inv(s) && RevivesRefunded(s, Pay(Success(payment))) && GoodsBack(s, s.payments[payment].order)
    ensures var o := s.payments[payment].order;
            var t := Apply(Apply(s, Pay(Success(payment))), CancelOrder(o, false));
      |GivenBack(t.moves, t.refunds, o)| == 2 * |s.orders[o].items|
  {
    var o := s.payments[payment].order;
    ReturnedFromOneSource(s, o);
    var s1 := Apply(s, Pay(Success(payment)));
    assert s1.orders[o].status == Processing && s1.orders[o].items == s.orders[o].items;
    assert s1.moves == s.moves && s1.refunds == s.refunds;
    var block := Back(s.orders[o].items, o);
    GivenBackAppend(s.moves, block, s.refunds, o);
    GivenBackBlock(block, s.refunds, o);
  }

  /** The exact condition for the callback: followed by a cancellation, it gives the goods back
      beyond the order if and only if it revives the order after they are back. */
  lemma {:induction false} RevivalReturnsAgainIff(s: State, payment: nat)
    requires Inv(s) && payment < |s.payments| && s.payments[payment].order < |s.orders|
    ensures var o := s.payments[payment].order;
            var t := Apply(Apply(s, Pay(Success(payment))), CancelOrder(o, false));
      |GivenBack(t.moves, t.refunds, o)| > |s.orders[o].items| <==>
        RevivesRefunded(s, Pay(Success(payment))) && GoodsBack(s, o)
  {
    var o := s.payments[payment].order;
    var a := Pay(Success(payment));
    if RevivesRefunded(s, a) && GoodsBack(s, o) {
      RevivingReturnsTwice(s, payment);
    } else {
      InvStep(s, a);
      InvStep(Apply(s, a), CancelOrder(o, false));
      ReturnedFromOneSource(Apply(Apply(s, a), CancelOrder(o, false)), o);
    }
  }

  /** The exact condition for the write: afterwards the order's goods can come back a second
      time if and only if a request in flight will register another refund of it, or another of
      its refunds has a reference to reconcile or an answer on the way. */
  lemma {:induction false} RejectionReturnsAgainIff(s: State, a: Action)
    requires Inv(s) && RejectsReturned(s, a)
    ensures var settled := Rejects(s, a).value;
            var order := s.refunds[settled].order;
      && order < |Apply(s, a).orders|
      && (ReturnsAgain(Apply(s, a), order) <==> MayReturnAgain(s, order, settled))
  {
    var settled := Rejects(s, a).value;
    var order := s.refunds[settled].order;
    var t := Apply(s, a);
    RejectingExposes(s, a);
    ConditionStands(s, a);
    if MayReturnAgain(t, order, settled) {
      var more := SecondReturnIsReachable(t, order, settled);
    } else {
      UnexposedIsDone(t, order, settled);
      forall more: seq<Action> | NoRevival(t, more, order)
        ensures |GivenBack(Run(t, more).moves, Run(t, more).refunds, order)| <= |t.orders[order].items|
      {
        DoneRun(t, more, order, settled);
      }
    }
  }

  // ---- The exact condition, over runs

  /** What the ledger has taken back from an order is at most the order. */
  predicate ReturnedOnce(s: State, order: nat) {
    order < |s.orders| ==> |GivenBack(s.moves, s.refunds, order)| <= |s.orders[order].items|
  }

  ghost predicate AlwaysOnce(s: State) {
    forall actions: seq<Action>, order: nat :: ReturnedOnce(Run(s, actions), order)
  }

  ghost predicate NeverHarmful(s: State) {
    forall actions: seq<Action> :: OrderlyRun(s, actions)
  }

  /** After a harmful step some continuation takes an order back a second time. */
  lemma {:induction false} HarmReturnsTwice(s: State, a: Action) returns (more: seq<Action>, order: nat)
    requires Inv(s) && Harmful(s, a)
    ensures !ReturnedOnce(Run(Apply(s, a), more), order)
  {
    var t := Apply(s, a);
    if RevivesReturned(s, a) {
      order := s.payments[a.pay.payment].order;
      more := [CancelOrder(order, false)];
      RevivalReturnsAgainIff(s, a.pay.payment);
      RunOne(t, more[0]);
      CancelKeepsItems(t, order);
    } else {
      order := s.refunds[Rejects(s, a).value].order;
      RejectingExposes(s, a);
      ConditionStands(s, a);
      more := SecondReturnIsReachable(t, order, Rejects(s, a).value);
      RunKeepsItems(t, more, order);
    }
  }

  lemma CancelKeepsItems(s: State, order: nat)
    ensures var t := Apply(s, CancelOrder(order, false));
      |t.orders| == |s.orders| && forall o :: 0 <= o < |s.orders| ==> t.orders[o].items == s.orders[o].items
  {
  }

  lemma StepKeepsItems(s: State, a: Action, order: nat)
    requires order < |s.orders|
    ensures order < |Apply(s, a).orders| && Apply(s, a).orders[order].items == s.orders[order].items
  {
    match a
    case Pay(pay) => PayFrame(s, pay);
    case Desk(desk) => DeskFrame(s, desk);
    case Outbox(step) => NoticeFrame(s, step);
    case SettleRefund(_) =>
    case _ =>
  }

  lemma {:induction false} RunKeepsItems(s: State, actions: seq<Action>, order: nat)
    requires order < |s.orders|
    ensures order < |Run(s, actions).orders| && Run(s, actions).orders[order].items == s.orders[order].items
    decreases |actions|
  {
    if actions != [] {
      StepKeepsItems(s, actions[0], order);
      RunKeepsItems(Apply(s, actions[0]), actions[1..], order);
    }
  }

  lemma {:induction false} DisorderReturnsTwice(s: State, actions: seq<Action>)
    returns (more: seq<Action>, order: nat)
    requires Inv(s) && !OrderlyRun(s, actions)
    ensures !ReturnedOnce(Run(s, more), order)
    decreases |actions|
  {
    var a := actions[0];
    var rest: seq<Action>;
    if Harmful(s, a) {
      rest, order := HarmReturnsTwice(s, a);
    } else {
      InvStep(s, a);
      rest, order := DisorderReturnsTwice(Apply(s, a), actions[1..]);
    }
    more := [a] + rest;
    RunConcat(s, [a], rest);
    RunOne(s, a);
  }

  /** From every state the invariant holds in -- an opening among them -- no continuation takes
      an order back twice if and only if no continuation takes a harmful step. */
  lemma {:induction false} OnceIffNeverHarmful(s: State)
    requires Inv(s)
    ensures AlwaysOnce(s) <==> NeverHarmful(s)
  {
    if NeverHarmful(s) {
      forall actions: seq<Action>, order: nat ensures ReturnedOnce(Run(s, actions), order) {
        assert OrderlyRun(s, actions);
        InvRun(s, actions);
        if order < |Run(s, actions).orders| {
          ReturnedFromOneSource(Run(s, actions), order);
        }
      }
    } else {
      var actions: seq<Action> :| !OrderlyRun(s, actions);
      var more, order := DisorderReturnsTwice(s, actions);
    }
  }
}
