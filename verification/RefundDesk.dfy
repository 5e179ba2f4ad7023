/** Refund requests: no paid order is cancelled silently, and an order never has two refunds
    that are not rejected. */
module RefundDesk {
  import opened Basics
  import opened Gateway
  import opened Tables
  import opened Shop
  import ReturnRows

  // ---- No paid order is cancelled silently

  predicate NoticeFor(notices: seq<Notice>, n: nat, order: nat) {
    n < |notices| && notices[n].order == order
  }

  ghost predicate Noticed(notices: seq<Notice>, order: nat) {
    exists n: nat :: NoticeFor(notices, n, order)
  }

  /** A handler that found or wrote a refund row is right about it. */
  predicate HandlerOk(s: State, q: Request) {
    match q
    case Handling(n, found) => n < |s.notices| && (found ==> HasRefund(s.refunds, s.notices[n].order))
    case Handled(n) => n < |s.notices| && HasRefund(s.refunds, s.notices[n].order)
    case _ => true
  }

  ghost predicate Loud(s: State) {
    && (forall o: nat :: o < |s.orders| && s.orders[o].status == Cancelled && s.orders[o].pay == Paid ==>
          Noticed(s.notices, o))
    && (forall n :: 0 <= n < |s.notices| && s.notices[n].completed ==> HasRefund(s.refunds, s.notices[n].order))
    && (forall k :: 0 <= k < |s.requests| ==> HandlerOk(s, s.requests[k]))
  }

  /** Rows are only added, and no order becomes both cancelled and paid without a notice. */
  ghost predicate Louder(s: State, t: State) {
    && |t.notices| >= |s.notices| && |t.refunds| >= |s.refunds| && |t.orders| >= |s.orders|
    && (forall n :: 0 <= n < |s.notices| ==> t.notices[n].order == s.notices[n].order)
    && (forall r :: 0 <= r < |s.refunds| ==> t.refunds[r].order == s.refunds[r].order)
    && (forall o: nat :: o < |t.orders| && t.orders[o].status == Cancelled && t.orders[o].pay == Paid ==>
          || (o < |s.orders| && s.orders[o].status == Cancelled && s.orders[o].pay == Paid)
          || (|t.notices| > |s.notices| && t.notices[|s.notices|].order == o))
  }

  lemma LouderKeeps(s: State, t: State)
    requires Loud(s) && Louder(s, t)
    ensures forall o: nat :: o < |t.orders| && t.orders[o].status == Cancelled && t.orders[o].pay == Paid ==>
      Noticed(t.notices, o)
    ensures forall o: nat :: HasRefund(s.refunds, o) ==> HasRefund(t.refunds, o)
  {
    forall o: nat | o < |t.orders| && t.orders[o].status == Cancelled && t.orders[o].pay == Paid
      ensures Noticed(t.notices, o)
    {
      if o < |s.orders| && s.orders[o].status == Cancelled && s.orders[o].pay == Paid {
        var n: nat :| NoticeFor(s.notices, n, o);
        assert NoticeFor(t.notices, n, o);
      } else {
        assert NoticeFor(t.notices, |s.notices|, o);
      }
    }
    forall o: nat | HasRefund(s.refunds, o) ensures HasRefund(t.refunds, o) {
      var r :| 0 <= r < |s.refunds| && s.refunds[r].order == o;
      assert t.refunds[r].order == o;
    }
  }

  /** Steps outside the handlers: notices are added open, requests carry no handler. */
  ghost predicate HandlersIdle(s: State, t: State) {
    && (forall n :: 0 <= n < |t.notices| && t.notices[n].completed ==> n < |s.notices| && s.notices[n].completed)
    && (forall k :: 0 <= k < |t.requests| && (t.requests[k].Handling? || t.requests[k].Handled?) ==>
          k < |s.requests| && t.requests[k] == s.requests[k])
  }

  lemma IdleKeepsLoud(s: State, t: State)
    requires Loud(s) && Louder(s, t) && HandlersIdle(s, t)
    ensures Loud(t)
  {
    LouderKeeps(s, t);
    forall k | 0 <= k < |t.requests| ensures HandlerOk(t, t.requests[k]) {
      if t.requests[k].Handling? || t.requests[k].Handled? {
        assert HandlerOk(s, s.requests[k]);
      }
    }
  }

  lemma CancelIsLouder(s: State, order: nat, expiry: bool)
    ensures Louder(s, Cancel(s, order, expiry)) && HandlersIdle(s, Cancel(s, order, expiry))
  {
  }

  lemma StatusIsLouder(s: State, order: nat, to: OrderStatus)
    ensures Louder(s, SetStatus(s, order, to)) && HandlersIdle(s, SetStatus(s, order, to))
  {
    CancelIsLouder(s, order, false);
  }

  lemma QuietIsLouder(s: State, a: Action)
    requires a.Buy? || a.Reward? || a.FillCart?
    ensures Louder(s, Apply(s, a)) && HandlersIdle(s, Apply(s, a))
  {
  }

  lemma FailIsLouder(s: State, payment: nat)
    ensures Louder(s, FailPayment(s, payment)) && FailPayment(s, payment).notices == s.notices
    ensures FailPayment(s, payment).requests == s.requests
  {
  }

  lemma SuccessIsLouder(s: State, payment: nat)
    ensures Louder(s, PaymentSuccess(s, payment)) && HandlersIdle(s, PaymentSuccess(s, payment))
  {
  }

  lemma InitiateIsLouder(s: State, order: nat, online: bool, stale: bool)
    ensures Louder(s, InitiatePayment(s, order, online, stale))
    ensures HandlersIdle(s, InitiatePayment(s, order, online, stale))
  {
  }

  lemma PayIsLouder(s: State, a: PayAction)
    ensures Louder(s, ApplyPay(s, a)) && HandlersIdle(s, ApplyPay(s, a))
  {
    match a
    case Initiate(order, online, stale) => InitiateIsLouder(s, order, online, stale);
    case Success(payment) => SuccessIsLouder(s, payment);
    case Fail(payment) => FailIsLouder(s, payment);
    case FallbackRead(_) =>
    case FallbackApply(k) =>
      if k < |s.requests| && s.requests[k].Fallback? {
        FailIsLouder(Answer(s, k, Over), s.requests[k].payment);
      }
  }

  lemma DeskIsLouder(s: State, a: DeskAction)
    ensures Louder(s, ApplyDesk(s, a)) && HandlersIdle(s, ApplyDesk(s, a))
  {
    DeskFrame(s, a);
    if Reads(a) {
      ReadsIdle(s, a);
    } else {
      WritesFrame(s, a);
    }
  }

  lemma ReadsIdle(s: State, a: DeskAction)
    requires Reads(a)
    ensures Louder(s, ApplyDesk(s, a)) && HandlersIdle(s, ApplyDesk(s, a))
  {
  }

  lemma SettleIsLouder(s: State, request: nat)
    ensures Louder(s, Settle(s, request)) && HandlersIdle(s, Settle(s, request))
  {
  }

  lemma NoticeKeepsLoud(s: State, a: NoticeAction)
    requires Loud(s)
    ensures Loud(ApplyNotice(s, a))
  {
    var t := ApplyNotice(s, a);
    NoticeFrame(s, a);
    if a.RegisterRefund? && |t.refunds| > |s.refunds| {
      assert t.refunds[|s.refunds|].order == s.notices[s.requests[a.request].notice].order;
      assert HasRefund(t.refunds, s.notices[s.requests[a.request].notice].order);
    }
    LouderKeeps(s, t);
    forall k | 0 <= k < |t.requests| ensures HandlerOk(t, t.requests[k]) {
      if k < |s.requests| {
        assert HandlerOk(s, s.requests[k]);
      }
    }
    if a.CompleteNotice? && a.request < |s.requests| {
      assert HandlerOk(s, s.requests[a.request]);
    }
  }

  lemma LoudStep(s: State, a: Action)
    requires Loud(s)
    ensures Loud(Apply(s, a))
  {
    var t := Apply(s, a);
    match a
    case CancelOrder(order, expiry) =>
      CancelIsLouder(s, order, expiry);
      IdleKeepsLoud(s, t);
    case UpdateStatus(order, to) =>
      StatusIsLouder(s, order, to);
      IdleKeepsLoud(s, t);
    case Pay(pay) =>
      PayIsLouder(s, pay);
      IdleKeepsLoud(s, t);
    case Desk(desk) =>
      DeskIsLouder(s, desk);
      IdleKeepsLoud(s, t);
    case SettleRefund(request) =>
      SettleIsLouder(s, request);
      IdleKeepsLoud(s, t);
    case Outbox(step) => NoticeKeepsLoud(s, step);
    case _ =>
      QuietIsLouder(s, a);
      IdleKeepsLoud(s, t);
  }

  lemma {:induction false} LoudRun(s: State, actions: seq<Action>)
    requires Loud(s)
    ensures Loud(Run(s, actions))
    decreases |actions|
  {
    if actions != [] {
      LoudStep(s, actions[0]);
      LoudRun(Apply(s, actions[0]), actions[1..]);
    }
  }

  /** In every reachable state, with no condition on the run: an order that is cancelled and
      paid has a refund or reconciliation event, and a completed event has its refund row. */
  lemma {:induction false} NoSilentCancellation(start: State, actions: seq<Action>, order: nat)
    requires Opening(start) && order < |Run(start, actions).orders|
    ensures var s := Run(start, actions);
      && (s.orders[order].status == Cancelled && s.orders[order].pay == Paid ==> Noticed(s.notices, order))
      && (forall n :: 0 <= n < |s.notices| && s.notices[n].completed ==> HasRefund(s.refunds, s.notices[n].order))
  {
    LoudRun(start, actions);
  }

  // ---- One active refund per order

  lemma IndexStep(s: State, a: Action)
    requires ReturnRows.OneActive(s.refunds)
    ensures ReturnRows.OneActive(Apply(s, a).refunds)
  {
    match a
    case Pay(pay) => PayFrame(s, pay);
    case Desk(desk) => DeskKeepsIndex(s, desk);
    case Outbox(step) => NoticeKeepsIndex(s, step);
    case _ =>
  }

  lemma DeskKeepsIndex(s: State, a: DeskAction)
    requires ReturnRows.OneActive(s.refunds)
    ensures ReturnRows.OneActive(ApplyDesk(s, a).refunds)
  {
    if Reads(a) {
      ReadsFrame(s, a);
    } else if a.InsertRefund? {
      if a.request < |s.requests| && s.requests[a.request].RefundUnopposed? {
        var row := NewRefund(s.requests[a.request].order, a.payment, a.damaged);
        if !Clashes(s.refunds, |s.refunds|, row) {
          ReturnRows.AppendKeepsIndex(s.refunds, row);
        }
      }
    } else {
      UpdatesKeepIndex(s, a);
    }
  }

  lemma UpdatesKeepIndex(s: State, a: DeskAction)
    requires ReturnRows.OneActive(s.refunds) && !Reads(a) && !a.InsertRefund?
    ensures ReturnRows.OneActive(ApplyDesk(s, a).refunds)
  {
    match a
    case Decide(k) =>
      if AtRefund(s, k) && s.requests[k].RefundRead? {
        UpdateKeepsIndex(s, k, s.requests[k].refund,
                         Decided(s.refunds[s.requests[k].refund], s.requests[k].dto));
      }
    case Claim(_) =>
    case AskGateway(_) =>
    case GatewayReplies(k, reply, bank) =>
      if AtRefund(s, k) {
        UpdateKeepsIndex(s, k, s.requests[k].refund,
                         AfterGateway(s.refunds[s.requests[k].refund], InitiationOutcome(reply, bank)));
      }
    case InquiryReplies(k, _) =>
      if AtRefund(s, k) {
        var r := s.requests[k].refund;
        UpdateKeepsIndex(s, k, r, s.refunds[r].(status := Rejected));
        UpdateKeepsIndex(s, k, r, s.refunds[r].(status := InProcess));
      }
  }

  lemma UpdateKeepsIndex(s: State, k: nat, id: nat, row: Refund)
    requires ReturnRows.OneActive(s.refunds) && k < |s.requests| && id < |s.refunds|
    requires row.order == s.refunds[id].order
    ensures ReturnRows.OneActive(UpdateRefund(Answer(s, k, Over), id, row).refunds)
  {
  }

  lemma NoticeKeepsIndex(s: State, a: NoticeAction)
    requires ReturnRows.OneActive(s.refunds)
    ensures ReturnRows.OneActive(ApplyNotice(s, a).refunds)
  {
    if a.RegisterRefund? && a.request < |s.requests| && s.requests[a.request].Handling?
       && s.requests[a.request].notice < |s.notices| {
      var row := NewRefund(s.notices[s.requests[a.request].notice].order, a.payment, false);
      if !Clashes(s.refunds, |s.refunds|, row) {
        ReturnRows.AppendKeepsIndex(s.refunds, row);
      }
    }
  }

  /** Every write keeps the unique index: an order never has two non-rejected refunds. */
  lemma {:induction false} OneActiveRefund(s: State, actions: seq<Action>)
    requires ReturnRows.OneActive(s.refunds)
    ensures ReturnRows.OneActive(Run(s, actions).refunds)
    decreases |actions|
  {
    if actions != [] {
      IndexStep(s, actions[0]);
      OneActiveRefund(Apply(s, actions[0]), actions[1..]);
    }
  }
}
