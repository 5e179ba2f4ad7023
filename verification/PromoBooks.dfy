/** A promo's `currentUses` counts the orders placed with it that were never cancelled, as long
    as no success callback revives such an order after it was cancelled and then refunded; and
    it never exceeds the maximum, on every run. */
module PromoBooks {
  import opened Basics
  import opened Tables
  import opened Shop
  import ReturnRows

  predicate Uses(o: Order, promo: nat) {
    o.promo == Some(promo) && !o.wasCancelled
  }

  function CountUses(orders: seq<Order>, promo: nat): nat {
    if orders == [] then 0
    else CountUses(orders[..|orders| - 1], promo) + if Uses(orders[|orders| - 1], promo) then 1 else 0
  }

  lemma {:induction false} CountUpdate(orders: seq<Order>, o: nat, row: Order, promo: nat)
    requires o < |orders|
    ensures CountUses(orders[o := row], promo) + (if Uses(orders[o], promo) then 1 else 0)
         == CountUses(orders, promo) + (if Uses(row, promo) then 1 else 0)
    decreases |orders|
  {
    var n := |orders| - 1;
    if o < n {
      CountUpdate(orders[..n], o, row, promo);
      assert orders[o := row][..n] == orders[..n][o := row];
    } else {
      assert orders[o := row][..n] == orders[..n];
    }
  }

  lemma {:induction false} CountSame(a: seq<Order>, b: seq<Order>, promo: nat)
    requires |a| == |b|
    requires forall o :: 0 <= o < |a| ==> a[o].promo == b[o].promo && a[o].wasCancelled == b[o].wasCancelled
    ensures CountUses(a, promo) == CountUses(b, promo)
    decreases |a|
  {
    if a != [] {
      CountSame(a[..|a| - 1], b[..|b| - 1], promo);
    }
  }

  predicate PromoOk(s: State, p: nat)
    requires p < |s.promos|
  {
    s.promos[p].uses == CountUses(s.orders, p)
  }

  /** The order has given its use of an existing promo back. */
  predicate Uncounted(s: State, o: Order) {
    o.wasCancelled && o.promo.Some? && o.promo.value < |s.promos|
  }

  ghost predicate Inv(s: State) {
    && (forall o :: 0 <= o < |s.orders| && Uncounted(s, s.orders[o]) ==>
          s.orders[o].status == Cancelled || s.orders[o].status == Refunded)
    && (forall p: nat :: p < |s.promos| ==> PromoOk(s, p))
  }

  predicate RevivesCancelled(s: State, a: Action) {
    ReturnRows.RevivesRefunded(s, a) && Uncounted(s, s.orders[s.payments[a.pay.payment].order])
  }

  ghost predicate CalmRun(s: State, actions: seq<Action>)
    decreases |actions|
  {
    actions == [] || (!RevivesCancelled(s, actions[0]) && CalmRun(Apply(s, actions[0]), actions[1..]))
  }

  /** Nothing that counts uses has changed, and no cancelled order has left its two statuses. */
  ghost predicate SameUses(s: State, t: State) {
    && t.promos == s.promos && |t.orders| == |s.orders|
    && forall o :: 0 <= o < |s.orders| ==>
         && t.orders[o].promo == s.orders[o].promo && t.orders[o].wasCancelled == s.orders[o].wasCancelled
         && (Uncounted(s, s.orders[o]) ==>
               t.orders[o].status == s.orders[o].status || t.orders[o].status == Refunded)
  }

  lemma SameUsesKeepsInv(s: State, t: State)
    requires Inv(s) && SameUses(s, t)
    ensures Inv(t)
  {
    forall p: nat | p < |t.promos| ensures PromoOk(t, p) {
      assert PromoOk(s, p);
      CountSame(s.orders, t.orders, p);
    }
  }

  lemma PlaceKeepsInv(s: State, c: CheckoutDto, items: seq<Item>, cells: seq<Cell>)
    requires Inv(s)
    ensures Inv(WriteOrder(s, c, items, cells))
  {
    var t := WriteOrder(s, c, items, cells);
    forall p: nat | p < |t.promos| ensures PromoOk(t, p) {
      assert PromoOk(s, p);
      assert t.orders[..|s.orders|] == s.orders;
    }
  }

  lemma CancelKeepsInv(s: State, order: nat, expiry: bool)
    requires Inv(s)
    ensures Inv(Cancel(s, order, expiry))
  {
    if MayCancel(s, order, expiry) {
      var t := Cancel(s, order, expiry);
      forall p: nat | p < |t.promos| ensures PromoOk(t, p) {
        assert PromoOk(s, p);
        CountUpdate(s.orders, order, t.orders[order], p);
      }
    }
  }

  lemma SuccessKeepsUses(s: State, payment: nat)
    requires Inv(s) && !RevivesCancelled(s, Pay(Success(payment)))
    ensures SameUses(s, PaymentSuccess(s, payment))
  {
  }

  lemma PayKeepsUses(s: State, a: PayAction)
    requires !a.Success?
    ensures SameUses(s, ApplyPay(s, a))
  {
    match a
    case Fail(payment) => FailKeepsUses(s, payment);
    case FallbackApply(k) =>
      if k < |s.requests| && s.requests[k].Fallback? {
        FailKeepsUses(Answer(s, k, Over), s.requests[k].payment);
      }
    case _ =>
  }

  lemma FailKeepsUses(s: State, payment: nat)
    ensures SameUses(s, FailPayment(s, payment))
  {
  }

  lemma SettleKeepsUses(s: State, request: nat)
    ensures SameUses(s, Settle(s, request))
  {
  }

  lemma InvStep(s: State, a: Action)
    requires Inv(s) && !RevivesCancelled(s, a)
    ensures Inv(Apply(s, a))
  {
    var t := Apply(s, a);
    match a
    case Buy(dto) =>
      if !IsReplay(s, dto) && MayPlace(s, dto) {
        var items := SortItems(CartOf(s, dto.user));
        PlaceKeepsInv(s, dto, items, Deduct(s.cells, items).value);
      }
    case CancelOrder(order, expiry) => CancelKeepsInv(s, order, expiry);
    case UpdateStatus(order, to) =>
      if to == Cancelled {
        CancelKeepsInv(s, order, false);
      } else {
        SameUsesKeepsInv(s, t);
      }
    case Pay(pay) =>
      if pay.Success? {
        SuccessKeepsUses(s, pay.payment);
      } else {
        PayKeepsUses(s, pay);
      }
      SameUsesKeepsInv(s, t);
    case Desk(desk) =>
      DeskFrame(s, desk);
      SameUsesKeepsInv(s, t);
    case SettleRefund(request) =>
      SettleKeepsUses(s, request);
      SameUsesKeepsInv(s, t);
    case Outbox(step) =>
      NoticeFrame(s, step);
      SameUsesKeepsInv(s, t);
    case _ => SameUsesKeepsInv(s, t);
  }

  lemma {:induction false} InvRun(s: State, actions: seq<Action>)
    requires Inv(s) && CalmRun(s, actions)
    ensures Inv(Run(s, actions))
    decreases |actions|
  {
    if actions != [] {
      InvStep(s, actions[0]);
      InvRun(Apply(s, actions[0]), actions[1..]);
    }
  }

  /** Under any interleaving of checkouts, cancellations and everything else, a promo's uses
      are the orders placed with it and never cancelled. */
  lemma {:induction false} UsesAreLiveOrders(start: State, actions: seq<Action>, promo: nat)
    requires Opening(start) && CalmRun(start, actions)
    requires promo < |Run(start, actions).promos|
    ensures Run(start, actions).promos[promo].uses == CountUses(Run(start, actions).orders, promo)
  {
    InvRun(start, actions);
    assert PromoOk(Run(start, actions), promo);
  }

  /** From every state, reviving such an order and cancelling it again takes one use too many
      off its promo. */
  lemma {:induction false} RevivalUncountsTwice(s: State, payment: nat, promo: nat)
    requires Inv(s) && RevivesCancelled(s, Pay(Success(payment)))
    requires promo < |s.promos| && s.promos[promo].uses > 0
    requires s.orders[s.payments[payment].order].promo == Some(promo)
    ensures var o := s.payments[payment].order;
            var t := Apply(Apply(s, Pay(Success(payment))), CancelOrder(o, false));
      |t.promos| == |s.promos| && t.promos[promo].uses == CountUses(t.orders, promo) - 1
  {
    var o := s.payments[payment].order;
    var s1 := Apply(s, Pay(Success(payment)));
    var t := Apply(s1, CancelOrder(o, false));
    assert PromoOk(s, promo);
    assert s1.orders == s.orders[o := s.orders[o].(status := Processing, pay := Paid)];
    CountSame(s.orders, s1.orders, promo);
    CountUpdate(s1.orders, o, t.orders[o], promo);
  }

  /** All uses of all promos count the orders placed with them and never cancelled. */
  ghost predicate AllCounted(s: State) {
    forall p: nat :: p < |s.promos| ==> PromoOk(s, p)
  }

  /** With no use left to take off, the second cancellation counts right again. */
  lemma UnusedStaysCounted(s: State, payment: nat)
    requires Inv(s) && RevivesCancelled(s, Pay(Success(payment)))
    requires var o := s.payments[payment].order; s.promos[s.orders[o].promo.value].uses == 0
    ensures AllCounted(Apply(Apply(s, Pay(Success(payment))), CancelOrder(s.payments[payment].order, false)))
  {
    var o := s.payments[payment].order;
    var s1 := Apply(s, Pay(Success(payment)));
    var t := Apply(s1, CancelOrder(o, false));
    assert s1.orders == s.orders[o := s.orders[o].(status := Processing, pay := Paid)];
    forall p: nat | p < |t.promos| ensures PromoOk(t, p) {
      assert PromoOk(s, p);
      CountSame(s.orders, s1.orders, p);
      CountUpdate(s1.orders, o, t.orders[o], p);
    }
  }

  /** The exact condition: after a success callback and a cancellation of its order, some
      promo's uses are off if and only if the callback revived an order that was cancelled and
      then refunded, and that had counted towards a promo still in use. */
  lemma {:induction false} RevivalUncountsIff(s: State, payment: nat)
    requires Inv(s) && payment < |s.payments| && s.payments[payment].order < |s.orders|
    ensures var o := s.payments[payment].order;
            var t := Apply(Apply(s, Pay(Success(payment))), CancelOrder(o, false));
      !AllCounted(t) <==>
        && ReturnRows.RevivesRefunded(s, Pay(Success(payment)))
        && Uncounted(s, s.orders[o]) && s.promos[s.orders[o].promo.value].uses > 0
  {
    var o := s.payments[payment].order;
    var a := Pay(Success(payment));
    if !RevivesCancelled(s, a) {
      InvStep(s, a);
      CancelKeepsInv(Apply(s, a), o, false);
    } else if s.promos[s.orders[o].promo.value].uses > 0 {
      var promo := s.orders[o].promo.value;
      RevivalUncountsTwice(s, payment, promo);
      assert !PromoOk(Apply(Apply(s, a), CancelOrder(o, false)), promo);
    } else {
      UnusedStaysCounted(s, payment);
    }
  }

  // ---- The exact condition, over runs

  /** The order a step cancels, if any. */
  function Cancels(s: State, a: Action): Option<nat> {
    match a
    case CancelOrder(order, expiry) => if MayCancel(s, order, expiry) then Some(order) else None
    case UpdateStatus(order, to) => if to == Cancelled && MayCancel(s, order, false) then Some(order) else None
    case _ => None
  }

  /** The step cancels an order a second time, and its promo still has a use to take off. */
  predicate Recancels(s: State, a: Action) {
    && Cancels(s, a).Some? && Cancels(s, a).value < |s.orders|
    && var o := s.orders[Cancels(s, a).value];
       Uncounted(s, o) && s.promos[o.promo.value].uses > 0
  }

  ghost predicate NeverRecancels(s: State, actions: seq<Action>)
    decreases |actions|
  {
    actions == [] || (!Recancels(s, actions[0]) && NeverRecancels(Apply(s, actions[0]), actions[1..]))
  }

  /** The uses are right in every state of the run. */
  ghost predicate CountedThroughout(s: State, actions: seq<Action>)
    decreases |actions|
  {
    AllCounted(s) && (actions == [] || CountedThroughout(Apply(s, actions[0]), actions[1..]))
  }

  /** Nothing that counts uses has changed. */
  ghost predicate SameCounts(s: State, t: State) {
    && t.promos == s.promos && |t.orders| == |s.orders|
    && forall o :: 0 <= o < |s.orders| ==>
         t.orders[o].promo == s.orders[o].promo && t.orders[o].wasCancelled == s.orders[o].wasCancelled
  }

  lemma SameCountsStayCounted(s: State, t: State)
    requires AllCounted(s) && SameCounts(s, t)
    ensures AllCounted(t)
  {
    forall p: nat | p < |t.promos| ensures PromoOk(t, p) {
      assert PromoOk(s, p);
      CountSame(s.orders, t.orders, p);
    }
  }

  lemma PlaceStaysCounted(s: State, c: CheckoutDto, items: seq<Item>, cells: seq<Cell>)
    requires AllCounted(s)
    ensures AllCounted(WriteOrder(s, c, items, cells))
  {
    var t := WriteOrder(s, c, items, cells);
    forall p: nat | p < |t.promos| ensures PromoOk(t, p) {
      assert PromoOk(s, p);
      assert t.orders[..|s.orders|] == s.orders;
    }
  }

  /** A cancellation miscounts exactly when it takes a use off for an order that has none. */
  lemma CancelCountsIff(s: State, order: nat, expiry: bool)
    requires AllCounted(s) && MayCancel(s, order, expiry)
    ensures var row := s.orders[order];
      AllCounted(Cancel(s, order, expiry)) <==> !(Uncounted(s, row) && s.promos[row.promo.value].uses > 0)
  {
    var t := Cancel(s, order, expiry);
    var row := s.orders[order];
    forall p: nat | p < |s.promos|
      ensures PromoOk(t, p) <==> !(Uncounted(s, row) && row.promo == Some(p) && s.promos[p].uses > 0)
    {
      assert PromoOk(s, p);
      CountUpdate(s.orders, order, t.orders[order], p);
    }
    if Uncounted(s, row) {
      assert PromoOk(t, row.promo.value) <==> s.promos[row.promo.value].uses == 0;
    }
  }

  lemma OthersKeepCounts(s: State, a: Action)
    requires !a.Buy? && Cancels(s, a).None?
    ensures SameCounts(s, Apply(s, a))
  {
    match a
    case Pay(pay) => PayFrame(s, pay);
    case Desk(desk) => DeskFrame(s, desk);
    case SettleRefund(request) => SettleKeepsUses(s, request);
    case Outbox(step) => NoticeFrame(s, step);
    case _ =>
  }

  /** The exact condition, step by step: right uses stay right if and only if the step is not such
      a second cancellation. */
  lemma CountedStepIff(s: State, a: Action)
    requires AllCounted(s)
    ensures AllCounted(Apply(s, a)) <==> !Recancels(s, a)
  {
    match a
    case Buy(dto) =>
      if !IsReplay(s, dto) && MayPlace(s, dto) {
        var items := SortItems(CartOf(s, dto.user));
        PlaceStaysCounted(s, dto, items, Deduct(s.cells, items).value);
      }
    case CancelOrder(order, expiry) =>
      if MayCancel(s, order, expiry) {
        CancelCountsIff(s, order, expiry);
      }
    case UpdateStatus(order, to) =>
      if to == Cancelled && MayCancel(s, order, false) {
        CancelCountsIff(s, order, false);
      } else {
        OthersKeepCounts(s, a);
        SameCountsStayCounted(s, Apply(s, a));
      }
    case _ =>
      OthersKeepCounts(s, a);
      SameCountsStayCounted(s, Apply(s, a));
  }

  /** The exact condition, for every run: the uses of all promos are right in each of its states
      if and only if it never cancels an order a second time while its promo has a use left. */
  lemma {:induction false} CountedIffNeverRecancels(s: State, actions: seq<Action>)
    requires AllCounted(s)
    ensures CountedThroughout(s, actions) <==> NeverRecancels(s, actions)
    decreases |actions|
  {
    if actions != [] {
      CountedStepIff(s, actions[0]);
      if !Recancels(s, actions[0]) {
        CountedIffNeverRecancels(Apply(s, actions[0]), actions[1..]);
      }
    }
  }

  /** Only a revived order can be cancelled a second time. */
  lemma {:induction false} CalmRunsNeverRecancel(s: State, actions: seq<Action>)
    requires Inv(s) && CalmRun(s, actions)
    ensures NeverRecancels(s, actions)
    decreases |actions|
  {
    if actions != [] {
      InvStep(s, actions[0]);
      CalmRunsNeverRecancel(Apply(s, actions[0]), actions[1..]);
    }
  }

  // ---- The maximum

  /** Uses within the maximum. */
  predicate Within(p: Promo) {
    p.maxUses.Some? ==> p.uses <= p.maxUses.value
  }

  ghost predicate AllWithin(s: State) {
    forall p :: 0 <= p < |s.promos| ==> Within(s.promos[p])
  }

  lemma WithinStep(s: State, a: Action)
    requires AllWithin(s)
    ensures AllWithin(Apply(s, a))
  {
    match a
    case Buy(dto) =>
      if !IsReplay(s, dto) && MayPlace(s, dto) {
        assert Place(s, dto).promos == CountUse(s.promos, dto.promo);
      }
    case Pay(pay) => PayFrame(s, pay);
    case Desk(desk) => DeskFrame(s, desk);
    case SettleRefund(request) => SettleKeepsUses(s, request);
    case Outbox(step) => NoticeFrame(s, step);
    case _ =>
  }

  /** The maximum is never exceeded, on every run without condition. */
  lemma {:induction false} NeverOverTheMaximum(s: State, actions: seq<Action>)
    requires AllWithin(s)
    ensures AllWithin(Run(s, actions))
    decreases |actions|
  {
    if actions != [] {
      WithinStep(s, actions[0]);
      NeverOverTheMaximum(Apply(s, actions[0]), actions[1..]);
    }
  }
}
