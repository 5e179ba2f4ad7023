/** Loyalty: no user's rows ever sum below zero, the available balance lies between zero and
    that sum, and a cancelled or settled order's own rows sum to exactly zero -- over every
    run, with no condition. */
module PointBooks {
  import opened Basics
  import opened Tables
  import opened Shop

  /** Spent and given back on one order. */
  function OwnSum(rows: seq<PointRow>, order: nat): int {
    OrderPoints(rows, order, SpentCheckout) + OrderPoints(rows, order, AdminAdjustment)
  }

  lemma {:induction false} SumSnoc(rows: seq<PointRow>, row: PointRow, user: nat, now: int, validOnly: bool)
    ensures SumPoints(rows + [row], user, now, validOnly)
         == SumPoints(rows, user, now, validOnly) + if Counts(row, user, now, validOnly) then row.points else 0
  {
    assert (rows + [row])[..|rows|] == rows;
  }

  lemma {:induction false} OwnSnoc(rows: seq<PointRow>, row: PointRow, order: nat, kind: PointKind)
    ensures OrderPoints(rows + [row], order, kind)
         == OrderPoints(rows, order, kind)
            + if row.reference == Some(OfOrder(order)) && row.kind == kind then row.points else 0
  {
    assert (rows + [row])[..|rows|] == rows;
  }

  lemma RefundedSnoc(rows: seq<PointRow>, row: PointRow, order: nat)
    ensures PointsRefunded(rows + [row], order) <==> PointsRefunded(rows, order) || IsPointRefund(row, order)
  {
    var all := rows + [row];
    if PointsRefunded(rows, order) {
      var i :| 0 <= i < |rows| && IsPointRefund(rows[i], order);
      assert IsPointRefund(all[i], order);
    }
    if IsPointRefund(row, order) {
      assert IsPointRefund(all[|rows|], order);
    }
    if PointsRefunded(all, order) && !IsPointRefund(row, order) {
      var i :| 0 <= i < |all| && IsPointRefund(all[i], order);
      assert IsPointRefund(rows[i], order);
    }
  }

  /** The points of an order have been given back in full, or not at all. */
  predicate Level(rows: seq<PointRow>, order: nat) {
    var spent := OrderPoints(rows, order, SpentCheckout);
    var back := OrderPoints(rows, order, AdminAdjustment);
    && spent <= 0
    && (if PointsRefunded(rows, order) then spent < 0 && back == -spent else back == 0)
  }

  predicate NoPointsYet(rows: seq<PointRow>, order: nat) {
    forall i :: 0 <= i < |rows| ==> rows[i].reference != Some(OfOrder(order))
  }

  lemma {:induction false} NoPointsMeansZero(rows: seq<PointRow>, order: nat, kind: PointKind)
    requires NoPointsYet(rows, order)
    ensures OrderPoints(rows, order, kind) == 0
    decreases |rows|
  {
    if rows != [] {
      NoPointsMeansZero(rows[..|rows| - 1], order, kind);
    }
  }

  ghost predicate Inv(s: State) {
    && (forall user: nat :: Balance(s.points, user) >= 0)
    && (forall o: nat :: o < |s.orders| ==> Level(s.points, o))
    && (forall o: nat :: o >= |s.orders| ==> NoPointsYet(s.points, o))
    && (forall o: nat :: o < |s.orders| && s.orders[o].wasCancelled ==> OwnSum(s.points, o) == 0)
    && (forall r :: 0 <= r < |s.refunds| && s.refunds[r].settled ==>
          s.refunds[r].order < |s.orders| && OwnSum(s.points, s.refunds[r].order) == 0)
  }

  lemma AvailableIsBetween(rows: seq<PointRow>, user: nat, now: int)
    ensures Balance(rows, user) >= 0 ==> 0 <= Available(rows, user, now) <= Balance(rows, user)
    ensures Available(rows, user, now) >= 0
  {
  }

  lemma GivingBack(rows: seq<PointRow>, user: nat, order: nat)
    requires Level(rows, order)
    ensures var after := WithPointsBack(rows, user, order);
      && OwnSum(after, order) == 0 && Level(after, order)
      && (forall u: nat :: Balance(rows, u) >= 0 ==> Balance(after, u) >= 0)
      && (forall o: nat :: o != order ==>
            && (Level(rows, o) ==> Level(after, o)) && OwnSum(after, o) == OwnSum(rows, o)
            && (NoPointsYet(rows, o) ==> NoPointsYet(after, o)))
  {
    var after := WithPointsBack(rows, user, order);
    var spent := Abs(OrderPoints(rows, order, SpentCheckout));
    if spent > 0 && !PointsRefunded(rows, order) {
      var row := PointRow(user, spent, AdminAdjustment, Some(OfOrder(order)), None);
      assert after == rows + [row];
      forall u: nat ensures Balance(rows, u) >= 0 ==> Balance(after, u) >= 0 {
        SumSnoc(rows, row, u, 0, false);
      }
      forall o: nat
        ensures o != order ==>
          && (Level(rows, o) ==> Level(after, o)) && OwnSum(after, o) == OwnSum(rows, o)
          && (NoPointsYet(rows, o) ==> NoPointsYet(after, o))
        ensures o == order ==> OwnSum(after, o) == 0 && Level(after, o)
      {
        OwnSnoc(rows, row, o, SpentCheckout);
        OwnSnoc(rows, row, o, AdminAdjustment);
        RefundedSnoc(rows, row, o);
      }
    }
  }

  lemma SpendingKeepsInv(s: State, c: CheckoutDto, items: seq<Item>, cells: seq<Cell>)
    requires Inv(s) && (c.points > 0 ==> Available(s.points, c.user, c.now) >= c.points)
    ensures Inv(WriteOrder(s, c, items, cells))
  {
    var t := WriteOrder(s, c, items, cells);
    var id: nat := |s.orders|;
    NoPointsMeansZero(s.points, id, SpentCheckout);
    NoPointsMeansZero(s.points, id, AdminAdjustment);
    if c.points > 0 {
      var row := PointRow(c.user, -(c.points as int), SpentCheckout, Some(OfOrder(id)), None);
      AvailableIsBetween(s.points, c.user, c.now);
      forall user: nat ensures Balance(t.points, user) >= 0 {
        assert Balance(s.points, user) >= 0;
        SumSnoc(s.points, row, user, 0, false);
      }
      forall o: nat
        ensures o < |t.orders| ==> Level(t.points, o)
        ensures o < id ==> OwnSum(t.points, o) == OwnSum(s.points, o)
        ensures o > id ==> NoPointsYet(t.points, o)
      {
        OwnSnoc(s.points, row, o, SpentCheckout);
        OwnSnoc(s.points, row, o, AdminAdjustment);
        RefundedSnoc(s.points, row, o);
        if o < id {
          assert Level(s.points, o);
        } else {
          assert NoPointsYet(s.points, o);
          assert !PointsRefunded(s.points, o);
        }
      }
    } else {
      assert NoPointsYet(s.points, id);
    }
  }

  lemma CancelKeepsInv(s: State, order: nat, expiry: bool)
    requires Inv(s)
    ensures Inv(Cancel(s, order, expiry))
  {
    if MayCancel(s, order, expiry) {
      GivingBack(s.points, s.orders[order].user, order);
    }
  }

  lemma SettleKeepsInv(s: State, request: nat)
    requires Inv(s)
    ensures Inv(Settle(s, request))
  {
    if MaySettle(s, request) {
      var refund := s.refunds[s.requests[request].refund];
      GivingBack(s.points, s.orders[refund.order].user, refund.order);
    }
  }

  lemma AwardKeepsInv(s: State, user: nat, points: nat, kind: RewardKind, review: nat, validUntil: Option<int>)
    requires Inv(s)
    ensures Inv(Award(s, user, points, kind, review, validUntil))
  {
    var t := Award(s, user, points, kind, review, validUntil);
    if t != s {
      var row := PointRow(user, points, kind, Some(OfReview(review)), validUntil);
      forall u: nat ensures Balance(t.points, u) >= 0 {
        assert Balance(s.points, u) >= 0;
        SumSnoc(s.points, row, u, 0, false);
      }
      forall o: nat
        ensures Level(s.points, o) ==> Level(t.points, o)
        ensures OwnSum(t.points, o) == OwnSum(s.points, o)
        ensures NoPointsYet(s.points, o) ==> NoPointsYet(t.points, o)
      {
        OwnSnoc(s.points, row, o, SpentCheckout);
        OwnSnoc(s.points, row, o, AdminAdjustment);
        RefundedSnoc(s.points, row, o);
      }
    }
  }

  /** Desk and outbox steps neither settle a refund nor touch points. */
  lemma RefundsKeepSettled(s: State, a: DeskAction)
    ensures var t := ApplyDesk(s, a);
      && |t.refunds| >= |s.refunds|
      && (forall r :: 0 <= r < |s.refunds| ==>
            t.refunds[r].settled == s.refunds[r].settled && t.refunds[r].order == s.refunds[r].order)
      && (forall r :: |s.refunds| <= r < |t.refunds| ==> !t.refunds[r].settled)
  {
    if Reads(a) {
      ReadsFrame(s, a);
    } else {
      WritesFrame(s, a);
    }
  }

  lemma InvStep(s: State, a: Action)
    requires Inv(s)
    ensures Inv(Apply(s, a))
  {
    match a
    case Buy(dto) =>
      if !IsReplay(s, dto) && MayPlace(s, dto) {
        var items := SortItems(CartOf(s, dto.user));
        SpendingKeepsInv(s, dto, items, Deduct(s.cells, items).value);
      }
    case CancelOrder(order, expiry) => CancelKeepsInv(s, order, expiry);
    case UpdateStatus(order, to) =>
      if to == Cancelled {
        CancelKeepsInv(s, order, false);
      }
    case Pay(pay) => PayFrame(s, pay);
    case Desk(desk) =>
      DeskFrame(s, desk);
      RefundsKeepSettled(s, desk);
    case SettleRefund(request) => SettleKeepsInv(s, request);
    case Outbox(step) => NoticeFrame(s, step);
    case Reward(user, points, kind, review, validUntil) => AwardKeepsInv(s, user, points, kind, review, validUntil);
    case FillCart(_, _) =>
  }

  lemma {:induction false} InvRun(s: State, actions: seq<Action>)
    requires Inv(s)
    ensures Inv(Run(s, actions))
    decreases |actions|
  {
    if actions != [] {
      InvStep(s, actions[0]);
      InvRun(Apply(s, actions[0]), actions[1..]);
    }
  }

  /** The main result, for every run, user, order and moment. */
  lemma {:induction false} PointsAreSound(start: State, actions: seq<Action>, user: nat, order: nat, now: int)
    requires Opening(start)
    ensures var s := Run(start, actions);
      && 0 <= Available(s.points, user, now) <= Balance(s.points, user)
      && (order < |s.orders| && s.orders[order].wasCancelled ==> OwnSum(s.points, order) == 0)
      && (forall r :: 0 <= r < |s.refunds| && s.refunds[r].settled ==> OwnSum(s.points, s.refunds[r].order) == 0)
      // ... and until then nothing more has come back than was spent.
      && (order < |s.orders| ==> OrderPoints(s.points, order, SpentCheckout) <= OwnSum(s.points, order) <= 0)
  {
    InvRun(start, actions);
    var s := Run(start, actions);
    AvailableIsBetween(s.points, user, now);
    if order < |s.orders| {
      assert Level(s.points, order);
    }
  }

  // ---- What the available balance is

  /** All points of a user, earned, spent and given back. */
  function Owned(rows: seq<PointRow>, user: nat): int {
    if rows == [] then 0
    else (if rows[0].user == user then rows[0].points else 0) + Owned(rows[1..], user)
  }

  /** The user's positive rows that have not expired. */
  function Unexpired(rows: seq<PointRow>, user: nat, now: int): nat {
    if rows == [] then 0
    else
      var row := rows[0];
      var expired := row.validUntil.Some? && row.validUntil.value <= now;
      (if row.user == user && row.points > 0 && !expired then row.points else 0) + Unexpired(rows[1..], user, now)
  }

  lemma {:induction false} OwnedSnoc(rows: seq<PointRow>, row: PointRow, user: nat, now: int)
    ensures Owned(rows + [row], user) == Owned(rows, user) + if row.user == user then row.points else 0
    ensures Unexpired(rows + [row], user, now) == Unexpired(rows, user, now)
      + if row.user == user && row.points > 0 && (row.validUntil.Some? ==> row.validUntil.value > now)
        then row.points else 0
    decreases |rows|
  {
    if rows == [] {
      assert [row][1..] == [] && [] + [row] == [row];
    } else {
      OwnedSnoc(rows[1..], row, user, now);
      assert (rows + [row])[1..] == rows[1..] + [row];
    }
  }

  lemma {:induction false} SumsAreOwned(rows: seq<PointRow>, user: nat, now: int)
    ensures Balance(rows, user) == Owned(rows, user)
    ensures SumPoints(rows, user, now, true) == Unexpired(rows, user, now)
    decreases |rows|
  {
    if rows != [] {
      var n := |rows| - 1;
      SumsAreOwned(rows[..n], user, now);
      OwnedSnoc(rows[..n], rows[n], user, now);
      assert rows == rows[..n] + [rows[n]];
    }
  }

  /** What is available is what is owned or what is unexpired, whichever is less; so points can be
      spent if and only if both reach that far. */
  lemma {:induction false} AvailableIs(rows: seq<PointRow>, user: nat, now: int, points: nat)
    ensures Available(rows, user, now) <= Unexpired(rows, user, now)
    ensures Owned(rows, user) <= 0 ==> Available(rows, user, now) == 0
    ensures var cap := Unexpired(rows, user, now);
            var all := Owned(rows, user);
      all > 0 ==> Available(rows, user, now) == (if cap < all then cap else all)
    ensures points > 0 ==>
      (Available(rows, user, now) >= points <==> Unexpired(rows, user, now) >= points && Owned(rows, user) >= points)
  {
    SumsAreOwned(rows, user, now);
  }

  /** A row that has expired never raises the cap, wherever it stands, nor does another user's. */
  lemma {:induction false} ExpiredNeverCounts(before: seq<PointRow>, row: PointRow, after: seq<PointRow>,
                                              user: nat, now: int)
    requires row.user != user || (row.validUntil.Some? && row.validUntil.value <= now)
    ensures Unexpired(before + [row] + after, user, now) == Unexpired(before + after, user, now)
    decreases |before|
  {
    if before == [] {
      assert [] + [row] + after == [row] + after && ([row] + after)[1..] == after && [] + after == after;
    } else {
      ExpiredNeverCounts(before[1..], row, after, user, now);
      assert (before + [row] + after)[1..] == before[1..] + [row] + after;
      assert (before + after)[1..] == before[1..] + after;
    }
  }

  /** An order's points go back to its user, all of them and never to expire, unless they have gone
      back already; nobody else's change. */
  lemma {:induction false} PointsComeBack(rows: seq<PointRow>, user: nat, order: nat, other: nat, now: int)
    ensures var after := WithPointsBack(rows, user, order);
            var spent := OrderPoints(rows, order, SpentCheckout);
            var back := if PointsRefunded(rows, order) then 0 else if spent < 0 then -spent else spent;
      && Owned(after, other) == Owned(rows, other) + (if other == user then back else 0)
      && Unexpired(after, other, now) == Unexpired(rows, other, now) + (if other == user then back else 0)
  {
    var spent := Abs(OrderPoints(rows, order, SpentCheckout));
    OwnedSnoc(rows, PointRow(user, spent, AdminAdjustment, Some(OfOrder(order)), None), other, now);
  }

  /** An order that is placed takes its points from its buyer, out of unexpired points that cover
      them, and from nobody else. */
  lemma {:induction false} CheckoutCharges(s: State, c: CheckoutDto, user: nat)
    requires Checkout(s, c).1.Placed?
    ensures c.points > 0 ==> Unexpired(s.points, c.user, c.now) >= c.points && Owned(s.points, c.user) >= c.points
    ensures Owned(Checkout(s, c).0.points, user) == Owned(s.points, user) - (if user == c.user then c.points else 0)
  {
    AvailableIs(s.points, c.user, c.now, c.points);
    var items := SortItems(CartOf(s, c.user));
    ChargeOf(s, c, items, Deduct(s.cells, items).value, user);
  }

  lemma {:induction false} ChargeOf(s: State, c: CheckoutDto, items: seq<Item>, cells: seq<Cell>, user: nat)
    ensures Owned(WriteOrder(s, c, items, cells).points, user)
         == Owned(s.points, user) - (if user == c.user then c.points else 0)
  {
    OwnedSnoc(s.points, PointRow(c.user, -(c.points as int), SpentCheckout, Some(OfOrder(|s.orders|)), None), user, 0);
  }

  // ---- One reward for a review

  ghost predicate OncePerReview(rows: seq<PointRow>) {
    forall i, j, review: nat :: 0 <= i < j < |rows| && Rewards(rows[i], review) ==> !Rewards(rows[j], review)
  }

  lemma RewardStep(s: State, a: Action)
    requires OncePerReview(s.points)
    ensures OncePerReview(Apply(s, a).points)
  {
    match a
    case Buy(dto) =>
      if !IsReplay(s, dto) && MayPlace(s, dto) {
        var items := SortItems(CartOf(s, dto.user));
        SpendingRewardsNobody(s, dto, items, Deduct(s.cells, items).value);
      }
    case Pay(pay) => PayFrame(s, pay);
    case Desk(desk) => DeskFrame(s, desk);
    case SettleRefund(request) => SettlementRewardsNobody(s, request);
    case Outbox(step) => NoticeFrame(s, step);
    case _ =>
  }

  lemma SpendingRewardsNobody(s: State, c: CheckoutDto, items: seq<Item>, cells: seq<Cell>)
    requires OncePerReview(s.points)
    ensures OncePerReview(WriteOrder(s, c, items, cells).points)
  {
  }

  lemma SettlementRewardsNobody(s: State, request: nat)
    requires OncePerReview(s.points)
    ensures OncePerReview(Settle(s, request).points)
  {
  }

  /** Over every run, no review is rewarded twice, for its text or for its media. */
  lemma {:induction false} OneRewardPerReview(s: State, actions: seq<Action>)
    requires OncePerReview(s.points)
    ensures OncePerReview(Run(s, actions).points)
    decreases |actions|
  {
    if actions != [] {
      RewardStep(s, actions[0]);
      OneRewardPerReview(Apply(s, actions[0]), actions[1..]);
    }
  }

  /** A first reward of a review adds its points to its user's, to last until they expire. */
  lemma {:induction false} RewardAdds(s: State, user: nat, points: nat, kind: RewardKind, review: nat,
                                      validUntil: Option<int>, other: nat, now: int)
    ensures var t := Award(s, user, points, kind, review, validUntil);
            var first := forall i :: 0 <= i < |s.points| ==> !Rewards(s.points[i], review);
            var live := validUntil.Some? ==> validUntil.value > now;
      && Owned(t.points, other) == Owned(s.points, other) + (if first && other == user then points else 0)
      && Unexpired(t.points, other, now)
         == Unexpired(s.points, other, now) + (if first && other == user && live then points else 0)
  {
    OwnedSnoc(s.points, PointRow(user, points, kind, Some(OfReview(review)), validUntil), other, now);
  }
}
