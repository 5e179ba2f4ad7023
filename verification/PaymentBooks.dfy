/** Payment callbacks are order-insensitive: until a settlement names it, an order is paid
    exactly when one of its payments is completed, a completed payment stays completed, and a
    payment is completed exactly when a success callback for it has arrived -- whatever the
    sequence, duplication and interleaving of callbacks, cancellations and expiries. */
module PaymentBooks {
  import opened Basics
  import opened Tables
  import opened Shop

  predicate PaidBy(payments: seq<Payment>, p: nat, order: nat) {
    p < |payments| && payments[p].order == order && payments[p].status == Completed
  }

  ghost predicate SomeCompleted(payments: seq<Payment>, order: nat) {
    exists p: nat :: PaidBy(payments, p, order)
  }

  predicate PaymentOk(s: State, p: Payment) {
    && p.order < |s.orders|
    && (p.status == Completed ==> p.online)
    && (p.status == Returned ==> s.orders[p.order].touched)
  }

  ghost predicate OrderOk(s: State, o: nat)
    requires o < |s.orders|
  {
    && (s.orders[o].pay == PaidBack ==> s.orders[o].touched)
    && (!s.orders[o].touched ==> (s.orders[o].pay == Paid <==> SomeCompleted(s.payments, o)))
  }

  ghost predicate Inv(s: State) {
    && (forall p :: 0 <= p < |s.payments| ==> PaymentOk(s, s.payments[p]))
    && (forall o: nat :: o < |s.orders| ==> OrderOk(s, o))
  }

  /** No completed payment appears or disappears, and no order's being paid or touched changes. */
  ghost predicate SamePaid(s: State, t: State) {
    && |t.orders| == |s.orders|
    && (forall o :: 0 <= o < |s.orders| ==>
          && (t.orders[o].pay == Paid <==> s.orders[o].pay == Paid)
          && (t.orders[o].pay == PaidBack ==> s.orders[o].pay == PaidBack)
          && t.orders[o].touched == s.orders[o].touched)
    && |t.payments| >= |s.payments|
    && (forall p :: 0 <= p < |s.payments| ==>
          && t.payments[p].order == s.payments[p].order && t.payments[p].online == s.payments[p].online
          && (t.payments[p].status == Completed <==> s.payments[p].status == Completed)
          && (t.payments[p].status == Returned ==> s.payments[p].status == Returned))
    && (forall p :: |s.payments| <= p < |t.payments| ==>
          t.payments[p].order < |s.orders| && t.payments[p].status == Awaiting)
  }

  lemma SamePaidKeepsInv(s: State, t: State)
    requires Inv(s) && SamePaid(s, t)
    ensures Inv(t)
  {
    forall o: nat | o < |t.orders| ensures OrderOk(t, o) {
      assert OrderOk(s, o);
      if p: nat :| PaidBy(s.payments, p, o) {
        assert PaidBy(t.payments, p, o);
      }
      if p: nat :| PaidBy(t.payments, p, o) {
        assert PaidBy(s.payments, p, o);
      }
    }
    forall p | 0 <= p < |t.payments| ensures PaymentOk(t, t.payments[p]) {
      if p < |s.payments| {
        assert PaymentOk(s, s.payments[p]);
      }
    }
  }

  lemma FailureIsSamePaid(s: State, payment: nat)
    requires Inv(s) && payment < |s.payments| && s.payments[payment].status != Completed
    ensures SamePaid(s, FailPayment(s, payment))
  {
    assert PaymentOk(s, s.payments[payment]);
  }

  lemma InitiationIsSamePaid(s: State, order: nat, online: bool, stale: bool)
    requires Inv(s)
    ensures SamePaid(s, InitiatePayment(s, order, online, stale))
  {
  }

  lemma SuccessKeepsInv(s: State, payment: nat)
    requires Inv(s)
    ensures Inv(PaymentSuccess(s, payment))
  {
    var t := PaymentSuccess(s, payment);
    if payment < |s.payments| && s.payments[payment].online && s.payments[payment].status != Completed {
      var order := s.payments[payment].order;
      assert PaymentOk(s, s.payments[payment]);
      forall o: nat | o < |t.orders| ensures OrderOk(t, o) {
        assert OrderOk(s, o);
        if o == order {
          assert PaidBy(t.payments, payment, o);
        } else {
          assert forall p: nat :: PaidBy(t.payments, p, o) <==> PaidBy(s.payments, p, o);
        }
      }
      forall p | 0 <= p < |t.payments| ensures PaymentOk(t, t.payments[p]) {
        assert PaymentOk(s, s.payments[p]);
      }
    }
  }

  lemma PlaceKeepsInv(s: State, c: CheckoutDto)
    requires Inv(s) && MayPlace(s, c)
    ensures Inv(Place(s, c))
  {
    var t := Place(s, c);
    forall p | 0 <= p < |t.payments| ensures PaymentOk(t, t.payments[p]) && t.payments[p].order < |s.orders| {
      assert PaymentOk(s, s.payments[p]);
    }
    forall o: nat | o < |t.orders| ensures OrderOk(t, o) {
      if o < |s.orders| {
        assert OrderOk(s, o);
      } else {
        assert forall p: nat :: !PaidBy(t.payments, p, o);
      }
    }
  }

  lemma SettleKeepsInv(s: State, request: nat)
    requires Inv(s)
    ensures Inv(Settle(s, request))
  {
    if MaySettle(s, request) {
      var t := Settle(s, request);
      forall p | 0 <= p < |t.payments| ensures PaymentOk(t, t.payments[p]) {
        assert PaymentOk(s, s.payments[p]);
      }
      forall o: nat | o < |t.orders| ensures OrderOk(t, o) {
        assert OrderOk(s, o);
        if !t.orders[o].touched {
          assert forall p: nat :: PaidBy(t.payments, p, o) <==> PaidBy(s.payments, p, o);
        }
      }
    }
  }

  lemma PayKeepsInv(s: State, a: PayAction)
    requires Inv(s)
    ensures Inv(ApplyPay(s, a))
  {
    var t := ApplyPay(s, a);
    match a
    case Initiate(order, online, stale) =>
      InitiationIsSamePaid(s, order, online, stale);
      SamePaidKeepsInv(s, t);
    case Success(payment) => SuccessKeepsInv(s, payment);
    case Fail(payment) =>
      if t != s {
        FailureIsSamePaid(s, payment);
        SamePaidKeepsInv(s, t);
      }
    case FallbackRead(_) => SamePaidKeepsInv(s, t);
    case FallbackApply(k) =>
      if k < |s.requests| && s.requests[k].Fallback? {
        FallbackIsSamePaid(s, k);
        SamePaidKeepsInv(s, t);
      }
  }

  lemma FallbackIsSamePaid(s: State, k: nat)
    requires Inv(s) && k < |s.requests| && s.requests[k].Fallback?
    ensures SamePaid(s, ApplyPay(s, FallbackApply(k)))
  {
    var s1 := Answer(s, k, Over);
    var p := s.requests[k].payment;
    if p < |s.payments| && !(s.payments[p].online && Terminal(s.payments[p].status)) {
      assert PaymentOk(s, s.payments[p]);
      SamePaidKeepsInv(s, s1);
      FailureIsSamePaid(s1, p);
    }
  }

  lemma CancelIsSamePaid(s: State, order: nat, expiry: bool)
    requires Inv(s)
    ensures SamePaid(s, Cancel(s, order, expiry))
  {
  }

  lemma StatusIsSamePaid(s: State, order: nat, to: OrderStatus)
    requires Inv(s)
    ensures SamePaid(s, SetStatus(s, order, to))
  {
    CancelIsSamePaid(s, order, false);
  }

  lemma SameTablesIsSamePaid(s: State, t: State)
    requires Inv(s) && t.orders == s.orders && t.payments == s.payments
    ensures SamePaid(s, t)
  {
  }

  lemma InvStep(s: State, a: Action)
    requires Inv(s)
    ensures Inv(Apply(s, a))
  {
    var t := Apply(s, a);
    match a
    case Buy(dto) =>
      if !IsReplay(s, dto) && MayPlace(s, dto) {
        PlaceKeepsInv(s, dto);
      }
    case Pay(pay) => PayKeepsInv(s, pay);
    case SettleRefund(request) => SettleKeepsInv(s, request);
    case CancelOrder(order, expiry) =>
      CancelIsSamePaid(s, order, expiry);
      SamePaidKeepsInv(s, t);
    case UpdateStatus(order, to) =>
      StatusIsSamePaid(s, order, to);
      SamePaidKeepsInv(s, t);
    case Desk(desk) =>
      DeskFrame(s, desk);
      SameTablesIsSamePaid(s, t);
      SamePaidKeepsInv(s, t);
    case Outbox(step) =>
      NoticeFrame(s, step);
      SameTablesIsSamePaid(s, t);
      SamePaidKeepsInv(s, t);
    case Reward(_, _, _, _, _) =>
      SameTablesIsSamePaid(s, t);
      SamePaidKeepsInv(s, t);
    case FillCart(_, _) =>
      SameTablesIsSamePaid(s, t);
      SamePaidKeepsInv(s, t);
  }

  lemma {:induction false} InvRun(s: State, actions: seq<Action>)
    requires Inv(s)
    ensures Inv(Run(s, actions))
    decreases |actions|
  {
    if actions != [] {
      InvStep(s, actions[0]);
      InvRun(Apply(s, actions[0]), actions[1..]);
    }
  }

  /** In every reachable state, an order no settlement has named is paid exactly when some
      payment of it is completed. */
  lemma {:induction false} PaidIffCompleted(start: State, actions: seq<Action>, order: nat)
    requires Opening(start) && order < |Run(start, actions).orders|
    requires !Run(start, actions).orders[order].touched
    ensures var s := Run(start, actions);
      s.orders[order].pay == Paid <==> SomeCompleted(s.payments, order)
  {
    InvRun(start, actions);
    assert OrderOk(Run(start, actions), order);
  }

  // ---- Callbacks in any order

  /** Callbacks, cancellations, expiries and status changes: everything that happens to orders
      and payments that already exist, short of a refund. */
  predicate Callback(a: Action) {
    || (a.Pay? && !a.pay.Initiate?) || a.CancelOrder? || a.UpdateStatus?
  }

  predicate Callbacks(actions: seq<Action>) {
    forall i :: 0 <= i < |actions| ==> Callback(actions[i])
  }

  /** A step that completes at most the payment a success names, and uncompletes none. */
  ghost predicate Completes(s: State, t: State, a: Action) {
    && |t.payments| == |s.payments| && |t.orders| == |s.orders|
    && (forall o :: 0 <= o < |s.orders| ==> t.orders[o].touched == s.orders[o].touched)
    && (forall p :: 0 <= p < |s.payments| ==>
          && t.payments[p].order == s.payments[p].order && t.payments[p].online == s.payments[p].online
          && (t.payments[p].status == Completed <==>
                s.payments[p].status == Completed || (a == Pay(Success(p)) && s.payments[p].online)))
  }

  lemma SuccessCompletes(s: State, payment: nat)
    ensures Completes(s, Apply(s, Pay(Success(payment))), Pay(Success(payment)))
  {
  }

  lemma FailureCompletesNothing(s: State, a: PayAction)
    requires Inv(s) && (a.Fail? || a.FallbackRead? || a.FallbackApply?)
    ensures Completes(s, Apply(s, Pay(a)), Pay(a))
  {
    match a
    case Fail(payment) =>
      if ApplyPay(s, a) != s {
        FailureIsSamePaid(s, payment);
      }
    case FallbackApply(k) =>
      if k < |s.requests| && s.requests[k].Fallback? {
        FallbackIsSamePaid(s, k);
      }
    case _ =>
  }

  lemma CallbackStep(s: State, a: Action)
    requires Inv(s) && Callback(a)
    ensures Completes(s, Apply(s, a), a)
  {
    match a
    case Pay(pay) =>
      if pay.Success? {
        SuccessCompletes(s, pay.payment);
      } else {
        FailureCompletesNothing(s, pay);
      }
    case CancelOrder(order, expiry) => CancelIsSamePaid(s, order, expiry);
    case UpdateStatus(order, to) => StatusIsSamePaid(s, order, to);
  }

  lemma {:induction false} CallbacksKeepTables(s: State, actions: seq<Action>)
    requires Inv(s) && Callbacks(actions)
    ensures var t := Run(s, actions);
      && |t.payments| == |s.payments| && |t.orders| == |s.orders|
      && (forall o :: 0 <= o < |s.orders| ==> t.orders[o].touched == s.orders[o].touched)
    decreases |actions|
  {
    if actions != [] {
      InvStep(s, actions[0]);
      CallbackStep(s, actions[0]);
      CallbacksKeepTables(Apply(s, actions[0]), actions[1..]);
    }
  }

  lemma {:induction false} CompletedIffConfirmed(s: State, actions: seq<Action>, p: nat)
    requires Inv(s) && Callbacks(actions) && p < |s.payments|
    ensures var t := Run(s, actions);
      && |t.payments| == |s.payments|
      && t.payments[p].order == s.payments[p].order && t.payments[p].online == s.payments[p].online
      && (t.payments[p].status == Completed <==>
            s.payments[p].status == Completed || (Pay(Success(p)) in actions && s.payments[p].online))
    decreases |actions|
  {
    if actions != [] {
      InvStep(s, actions[0]);
      CallbackStep(s, actions[0]);
      CompletedIffConfirmed(Apply(s, actions[0]), actions[1..], p);
    }
  }

  /** The main result: two runs of the same callbacks, in any order and with any repetition,
      leave the same payments completed and the same orders paid. */
  lemma {:induction false} OrderInsensitive(s: State, one: seq<Action>, other: seq<Action>, order: nat)
    requires Inv(s) && Callbacks(one) && Callbacks(other)
    requires forall a :: a in one <==> a in other
    requires order < |s.orders| && !s.orders[order].touched
    ensures var t, u := Run(s, one), Run(s, other);
      && |t.orders| == |u.orders| == |s.orders| && |t.payments| == |u.payments| == |s.payments|
      && (forall p :: 0 <= p < |s.payments| ==>
            (t.payments[p].status == Completed <==> u.payments[p].status == Completed))
      && (t.orders[order].pay == Paid <==> u.orders[order].pay == Paid)
      && (t.orders[order].pay == Paid <==>
            exists p: nat :: PaidBy(s.payments, p, order)
              || (p < |s.payments| && s.payments[p].order == order && s.payments[p].online
                  && Pay(Success(p)) in one))
  {
    var t, u := Run(s, one), Run(s, other);
    InvRun(s, one);
    InvRun(s, other);
    CallbacksKeepTables(s, one);
    CallbacksKeepTables(s, other);
    forall p: nat | p < |s.payments|
      ensures t.payments[p].order == u.payments[p].order == s.payments[p].order
      ensures t.payments[p].status == Completed <==> u.payments[p].status == Completed
      ensures t.payments[p].status == Completed <==>
        s.payments[p].status == Completed || (Pay(Success(p)) in one && s.payments[p].online)
    {
      CompletedIffConfirmed(s, one, p);
      CompletedIffConfirmed(s, other, p);
    }
    assert OrderOk(t, order) && OrderOk(u, order);
    assert forall p: nat :: PaidBy(t.payments, p, order) <==> PaidBy(u.payments, p, order);
    assert forall p: nat :: PaidBy(t.payments, p, order) <==>
      PaidBy(s.payments, p, order)
      || (p < |s.payments| && s.payments[p].order == order && s.payments[p].online && Pay(Success(p)) in one);
  }
}
