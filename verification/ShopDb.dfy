/** The order books updated in place, statement by statement.  Every transaction is proved to
    have exactly the effect of its step in module Shop -- in particular one that fails part of
    the way leaves every table as it found it. */
module ShopDb {
  import opened Basics
  import opened Gateway
  import opened Tables
  import opened Shop
  import OrderRules
  import PointBooks
  import RefundRules
  import StockBooks

  lemma {:induction false} DeductPrefix(cells: seq<Cell>, items: seq<Item>, n: nat)
    requires n <= |items| && Deduct(cells, items).Some?
    ensures Deduct(cells, items[..n]).Some?
    decreases |items|
  {
    if n == |items| {
      assert items[..n] == items;
    } else {
      DeductPrefix(cells, items[..|items| - 1], n);
      assert items[..|items| - 1][..n] == items[..n];
    }
  }

  /** The key row started first is overwritten by the order's own. */
  lemma OpeningIsOverwritten(s: State, keys: map<(nat, nat), KeyRow>, c: CheckoutDto,
                             items: seq<Item>, cells: seq<Cell>)
    requires c.key.None? ==> keys == s.keys
    requires c.key.Some? ==>
      (c.user, c.key.value) in keys && keys == s.keys[(c.user, c.key.value) := keys[(c.user, c.key.value)]]
    ensures WriteOrder(s.(keys := keys), c, items, cells) == WriteOrder(s, c, items, cells)
  {
    if c.key.Some? {
      var id := (c.user, c.key.value);
      var row := KeyRow(c.hash, KeyCompleted, Some(|s.orders|));
      assert keys[id := row] == s.keys[id := row];
    }
  }

  predicate Takeable(cells: seq<Cell>, orders: seq<Order>, c: CheckoutDto, items: seq<Item>) {
    items != [] && InStock(cells, items) && !KeyTaken(orders, c.user, c.key) && Deduct(cells, items).Some?
  }

  predicate Chargeable(promos: seq<Promo>, points: seq<PointRow>, c: CheckoutDto) {
    PromoUsable(promos, c.promo, c.live) && (c.points > 0 ==> Available(points, c.user, c.now) >= c.points)
  }

  // ---- Uninterrupted refund requests, as steps of the shop

  /** A refund request, once its row is read, taken to its end as request 0. */
  ghost function Finish(s: State, reply: Reply, bank: nat): State {
    var decided := ApplyDesk(s, Decide(0));
    var looked := ApplyDesk(decided, ReadPayment(0));
    var claimed := ApplyDesk(looked, Claim(0));
    var asked := ApplyDesk(claimed, AskGateway(0));
    var answered := ApplyDesk(asked, GatewayReplies(0, reply, bank));
    Settle(answered, 0)
  }

  function FinishSteps(reply: Reply, bank: nat): seq<Action> {
    [Desk(Decide(0)), Desk(ReadPayment(0)), Desk(Claim(0)), Desk(AskGateway(0)),
     Desk(GatewayReplies(0, reply, bank)), SettleRefund(0)]
  }

  lemma {:induction false} RunCons(s: State, a: Action, rest: seq<Action>)
    ensures Run(s, [a] + rest) == Run(Apply(s, a), rest)
  {
    assert ([a] + rest)[1..] == rest;
  }

  /** An uninterrupted request is one of the runs every claim about the shop speaks of. */
  lemma {:induction false} FinishIsARun(s: State, reply: Reply, bank: nat)
    ensures Finish(s, reply, bank) == Run(s, FinishSteps(reply, bank))
  {
    var steps := FinishSteps(reply, bank);
    var decided := ApplyDesk(s, Decide(0));
    var looked := ApplyDesk(decided, ReadPayment(0));
    var claimed := ApplyDesk(looked, Claim(0));
    var asked := ApplyDesk(claimed, AskGateway(0));
    var answered := ApplyDesk(asked, GatewayReplies(0, reply, bank));
    assert steps == [steps[0]] + ([steps[1]] + ([steps[2]] + ([steps[3]] + ([steps[4]] + ([steps[5]] + [])))));
    RunCons(s, steps[0], [steps[1]] + ([steps[2]] + ([steps[3]] + ([steps[4]] + ([steps[5]] + [])))));
    RunCons(decided, steps[1], [steps[2]] + ([steps[3]] + ([steps[4]] + ([steps[5]] + []))));
    RunCons(looked, steps[2], [steps[3]] + ([steps[4]] + ([steps[5]] + [])));
    RunCons(claimed, steps[3], [steps[4]] + ([steps[5]] + []));
    RunCons(asked, steps[4], [steps[5]] + []);
    RunCons(answered, steps[5], []);
  }

  /** Claim, call and answer, as one write of the refund row. */
  function AfterAsking(s: State, id: nat, reply: Reply, bank: nat): State
    requires id < |s.refunds|
  {
    var asked := s.refunds[id].(status := InProcess, claimed := true, asked := s.refunds[id].asked + 1);
    UpdateRefund(s.(refunds := s.refunds[id := asked]), id, AfterGateway(asked, InitiationOutcome(reply, bank)))
  }

  lemma FinishDecides(s: State, reply: Reply, bank: nat)
    requires AtRefund(s, 0) && |s.requests| == 1 && s.requests[0].RefundRead?
    requires s.requests[0].dto.decision != Process && !Closed(s.refunds[s.requests[0].refund].status)
    ensures var q := s.requests[0];
      Finish(s, reply, bank).(requests := [])
      == UpdateRefund(s, q.refund, Decided(s.refunds[q.refund], q.dto)).(requests := [])
  {
    var decided := ApplyDesk(s, Decide(0));
    assert decided.requests[0] == Over;
    OverStays(decided, reply, bank);
  }

  /** A request that is over takes no further step. */
  lemma OverStays(s: State, reply: Reply, bank: nat)
    requires |s.requests| == 1 && s.requests[0] == Over
    ensures Finish(s, reply, bank) == s
  {
  }

  /** The payment read of a payout, and what it leads to. */
  predicate Paying(s: State, looked: Request) {
    && AtRefund(s, 0) && |s.requests| == 1 && s.requests[0].RefundRead? && s.requests[0].dto.decision == Process
    && var q := s.requests[0];
       && !Closed(s.refunds[q.refund].status)
       && (s.refunds[q.refund].status == InProcess ==> q.dto.reference.Some?)
       && looked == PaymentRead(q.refund, q.dto, q.seen, IsOnline(s.payments, s.refunds[q.refund].payment))
  }

  lemma FinishAsks(s: State, looked: Request, reply: Reply, bank: nat)
    requires Paying(s, looked) && TakesClaimPath(looked)
    ensures Finish(s, reply, bank) == AfterAsking(s.(requests := [Over]), looked.refund, reply, bank)
  {
    var t := Answer(s, 0, looked);
    assert ApplyDesk(s, Decide(0)) == s && ApplyDesk(s, ReadPayment(0)) == t;
    AskingSteps(t, reply, bank);
    assert t.(requests := [Over]) == s.(requests := [Over]);
  }

  lemma FinishSettles(s: State, looked: Request, reply: Reply, bank: nat)
    requires Paying(s, looked) && !TakesClaimPath(looked)
    ensures Finish(s, reply, bank) == Settle(Answer(s, 0, looked), 0)
  {
    var t := Answer(s, 0, looked);
    assert ApplyDesk(s, Decide(0)) == s && ApplyDesk(s, ReadPayment(0)) == t;
    assert ApplyDesk(t, Claim(0)) == t && ApplyDesk(t, AskGateway(0)) == t;
    assert ApplyDesk(t, GatewayReplies(0, reply, bank)) == t;
  }

  lemma ClaimAndAsk(s: State)
    requires |s.requests| == 1 && MayClaim(s, 0)
    ensures var r := s.requests[0].refund;
            var row := s.refunds[r].(status := InProcess, claimed := true, asked := s.refunds[r].asked + 1);
      ApplyDesk(ApplyDesk(s, Claim(0)), AskGateway(0)) == s.(refunds := s.refunds[r := row], requests := [Asked(r)])
  {
    assert ApplyDesk(s, Claim(0)).requests == [Calling(s.requests[0].refund)];
  }

  lemma AnswerAndEnd(s: State, r: nat, reply: Reply, bank: nat)
    requires s.requests == [Asked(r)] && r < |s.refunds|
    ensures Settle(ApplyDesk(s, GatewayReplies(0, reply, bank)), 0)
         == UpdateRefund(s.(requests := [Over]), r, AfterGateway(s.refunds[r], InitiationOutcome(reply, bank)))
  {
    assert Answer(s, 0, Over) == s.(requests := [Over]);
  }

  lemma AskingSteps(s: State, reply: Reply, bank: nat)
    requires |s.requests| == 1 && MayClaim(s, 0)
    ensures var asked := ApplyDesk(ApplyDesk(s, Claim(0)), AskGateway(0));
            var answered := ApplyDesk(asked, GatewayReplies(0, reply, bank));
      Settle(answered, 0) == AfterAsking(s.(requests := [Over]), s.requests[0].refund, reply, bank)
  {
    var asked := ApplyDesk(ApplyDesk(s, Claim(0)), AskGateway(0));
    ClaimAndAsk(s);
    AnswerAndEnd(asked, s.requests[0].refund, reply, bank);
    assert asked.(requests := [Over]) == s.(refunds := asked.refunds, requests := [Over]);
  }

  /** What one uninterrupted request does to the tables after reading its refund row. */
  ghost function Outcome(s: State, id: nat, dto: Dto, seen: Option<nat>, reply: Reply, bank: nat): State
    requires id < |s.refunds|
  {
    if dto.decision != Process then UpdateRefund(s, id, Decided(s.refunds[id], dto))
    else
      var looked := PaymentRead(id, dto, seen, IsOnline(s.payments, s.refunds[id].payment));
      if TakesClaimPath(looked) then AfterAsking(s, id, reply, bank)
      else Settle(s.(requests := [looked]), 0).(requests := [])
  }

  lemma DecisionIsOutcome(s: State, id: nat, dto: Dto, reply: Reply, bank: nat)
    requires s.requests == [] && RefundReadBy(s, id, dto).Some? && dto.decision != Process
    ensures Finish(s.(requests := [RefundReadBy(s, id, dto).value]), reply, bank).(requests := [])
         == Outcome(s, id, dto, s.refunds[id].reference, reply, bank)
  {
    FinishDecides(s.(requests := [RefundReadBy(s, id, dto).value]), reply, bank);
  }

  lemma AskingIgnoresRequests(s: State, requests: seq<Request>, id: nat, reply: Reply, bank: nat)
    requires id < |s.refunds|
    ensures AfterAsking(s.(requests := requests), id, reply, bank)
         == AfterAsking(s, id, reply, bank).(requests := requests)
  {
  }

  lemma PayoutIsOutcome(s: State, id: nat, dto: Dto, reply: Reply, bank: nat)
    requires s.requests == [] && RefundReadBy(s, id, dto).Some? && dto.decision == Process
    ensures Finish(s.(requests := [RefundReadBy(s, id, dto).value]), reply, bank).(requests := [])
         == Outcome(s, id, dto, s.refunds[id].reference, reply, bank)
  {
    var read := RefundRead(id, dto, s.refunds[id].reference);
    var looked := PaymentRead(id, dto, s.refunds[id].reference, IsOnline(s.payments, s.refunds[id].payment));
    var t := s.(requests := [read]);
    if TakesClaimPath(looked) {
      FinishAsks(t, looked, reply, bank);
      assert t.(requests := [Over]) == s.(requests := [Over]);
      AskingIgnoresRequests(s, [Over], id, reply, bank);
    } else {
      FinishSettles(t, looked, reply, bank);
      assert Answer(t, 0, looked) == s.(requests := [looked]);
    }
  }

  /** It is one of the runs every claim about the shop speaks of. */
  lemma OutcomeIsARun(s: State, id: nat, dto: Dto, reply: Reply, bank: nat)
    requires s.requests == [] && RefundReadBy(s, id, dto).Some?
    ensures Outcome(s, id, dto, s.refunds[id].reference, reply, bank)
         == Run(s.(requests := [RefundReadBy(s, id, dto).value]), FinishSteps(reply, bank)).(requests := [])
  {
    FinishIsARun(s.(requests := [RefundReadBy(s, id, dto).value]), reply, bank);
    if dto.decision != Process {
      DecisionIsOutcome(s, id, dto, reply, bank);
    } else {
      PayoutIsOutcome(s, id, dto, reply, bank);
    }
  }

  /** Settlement, table by table. */
  lemma SettleIs(s: State)
    requires |s.requests| == 1 && MaySettle(s, 0)
    ensures var q := s.requests[0];
            var refund := s.refunds[q.refund];
            var order := s.orders[refund.order];
            var restock := MustRestock(s, q.refund);
      Settle(s, 0) == State(
        if restock && !refund.damaged then RestoreAll(s.cells, order.items) else s.cells,
        if restock then s.moves + ReturnMoves(s.cells, order.items, q.refund, refund.damaged) else s.moves,
        Touch(s.orders[refund.order := order.(status := Refunded, pay := PaidBack, touched := true)],
              s.payments, refund.payment),
        PaidBackRows(s.payments, refund.payment),
        s.refunds[q.refund := SettledRow(refund, q.dto, q.seen, q.online)],
        s.notices, WithPointsBack(s.points, order.user, refund.order), s.promos, s.keys, s.carts, [Over])
  {
  }

  /** What one uninterrupted reconciliation does to the tables. */
  ghost function Reconciled(s: State, id: nat, bank: Option<nat>, reply: Reply): State {
    if id >= |s.refunds| || s.refunds[id].status == Processed || s.refunds[id].reference.None? then s
    else
      var tran := TranOf(s.payments, s.refunds[id].payment);
      match InquiryOutcome(reply, s.refunds[id].reference.value, Or(bank, tran), tran)
      case InquiryRefunded =>
        var dto := Dto(Process, s.refunds[id].reference, true, true);
        if RefundReadBy(s, id, dto).None? then s
        else Outcome(s, id, dto, s.refunds[id].reference, Unusable, 0)
      case InquiryCancelled => UpdateRefund(s, id, s.refunds[id].(status := Rejected))
      case InquiryUnsettled => UpdateRefund(s, id, s.refunds[id].(status := InProcess))
  }

  /** Whether the refund can be reconciled: it has a reference and is not processed. */
  predicate Reconcilable(s: State, id: nat) {
    id < |s.refunds| && s.refunds[id].status != Processed && s.refunds[id].reference.Some?
  }

  /** The reply is authenticated, matches the identities recorded for the refund, and says this. */
  predicate RepliedFor(s: State, id: nat, bank: Option<nat>, reply: Reply, word: StatusWord)
    requires Reconcilable(s, id)
  {
    var row := s.refunds[id];
    var online := row.payment.Some? && row.payment.value < |s.payments| && s.payments[row.payment.value].online;
    var tran := if online then row.payment else None;
    Says(reply, word, row.reference.value, if bank.Some? then bank else tran, tran)
  }

  /** What a reconciliation owes to the gateway's reply: rejected on "cancelled" alone, settled on
      "refunded" alone, and on anything else open again, reference and all, unless the order has
      another refund that is not rejected. */
  predicate AsReplied(s: State, t: State, id: nat, bank: Option<nat>, reply: Reply) {
    if !Reconcilable(s, id) then t == s
    else
      var row := s.refunds[id];
      if RepliedFor(s, id, bank, reply, WordCancelled) then
        t == s.(refunds := s.refunds[id := row.(status := Rejected)])
      else if RepliedFor(s, id, bank, reply, WordRefunded) then
        if row.status == Rejected || row.order >= |s.orders| then t == s
        else
          && |t.refunds| == |s.refunds| && t.refunds[id].status == Processed && t.refunds[id].settled
          && row.order < |t.orders| && t.orders[row.order].status == Refunded && t.orders[row.order].pay == PaidBack
      else if exists r :: 0 <= r < |s.refunds| && r != id && s.refunds[r].order == row.order
                          && s.refunds[r].status != Rejected then
        t == s
      else t == s.(refunds := s.refunds[id := row.(status := InProcess)])
  }

  /** The refund can be worked on: it is neither processed nor rejected, and while it is in process
      only with a reference. */
  predicate Workable(s: State, id: nat, dto: Dto) {
    && id < |s.refunds| && s.refunds[id].status != Processed && s.refunds[id].status != Rejected
    && (s.refunds[id].status == InProcess ==> dto.reference.Some?)
  }

  /** Paid online and completed, as the payout reads it. */
  predicate CompletedOnline(s: State, id: nat)
    requires id < |s.refunds|
  {
    var p := s.refunds[id].payment;
    p.Some? && p.value < |s.payments| && s.payments[p.value].online && s.payments[p.value].status == Completed
  }

  /** What an uninterrupted request owes to its decision: approved or rejected as it says; without
      any reference an online payout asks the gateway once, and is rejected or left in process as
      that answers; without a reference or notes a cash payout does nothing; and every other payout
      is settled, order and all. */
  predicate AsDecided(s: State, t: State, id: nat, dto: Dto, reply: Reply, bank: nat) {
    if !Workable(s, id, dto) then t == s
    else
      var row := s.refunds[id];
      var other := RefundRules.OtherActive(s.refunds, id, row.order);
      var failed := reply.Body? && (|| reply.apiConnect != Done
                                    || (reply.bankTran.Some? && reply.bankTran != Some(bank))
                                    || (reply.status == WordSuccess && reply.refundRef.None?)
                                    || (reply.status != WordSuccess && reply.status != WordProcessing));
      var online := CompletedOnline(s, id);
      && |t.refunds| == |s.refunds|
      && (forall r :: 0 <= r < |s.refunds| && r != id ==> t.refunds[r] == s.refunds[r])
      && t.refunds[id].order == row.order && t.refunds[id].payment == row.payment
      && (dto.decision == Approve && !other ==> t.refunds[id].status == Approved)
      && (dto.decision == Approve && other ==> t == s)
      && (dto.decision == Reject ==> t.refunds[id].status == Rejected)
      && (dto.decision != Process ==> t == s.(refunds := t.refunds))
      && (dto.decision == Process && !online && dto.reference.None? && !dto.hasNotes ==> t == s)
      && (dto.decision == Process && online && dto.reference.None? && row.reference.None? ==>
            && t == s.(refunds := t.refunds) && t.refunds[id].asked == row.asked + 1
            && t.refunds[id].status == (if failed then Rejected else InProcess)
            && (!failed && !other ==>
                  t.refunds[id].reference == if reply.Body? then reply.refundRef else None))
      && (dto.decision == Process && row.order < |s.orders|
          && (dto.reference.Some? || (if online then row.reference.Some? else dto.hasNotes)) ==>
            && t.refunds[id].status == Processed && t.refunds[id].asked == row.asked
            && |t.orders| == |s.orders| && t.orders[row.order].status == Refunded
            && t.orders[row.order].pay == PaidBack)
  }

  lemma OutcomeDecides(s: State, id: nat, dto: Dto, reply: Reply, bank: nat)
    requires s.requests == []
    ensures AsDecided(s, if RefundReadBy(s, id, dto).None? then s
                         else Outcome(s, id, dto, s.refunds[id].reference, reply, bank), id, dto, reply, bank)
  {
    if Workable(s, id, dto) {
      var looked := PaymentRead(id, dto, s.refunds[id].reference, CompletedOnline(s, id));
      if dto.decision != Process {
        DecidedAsSaid(s, id, dto, reply, bank);
      } else if TakesClaimPath(looked) {
        AskedAsAnswered(s, id, dto, reply, bank);
      } else {
        PaidOutAsAllowed(s, id, dto, reply, bank);
      }
    }
  }

  lemma DecidedAsSaid(s: State, id: nat, dto: Dto, reply: Reply, bank: nat)
    requires Workable(s, id, dto) && dto.decision != Process
    ensures AsDecided(s, UpdateRefund(s, id, Decided(s.refunds[id], dto)), id, dto, reply, bank)
  {
  }

  lemma AskedAsAnswered(s: State, id: nat, dto: Dto, reply: Reply, bank: nat)
    requires Workable(s, id, dto) && dto.decision == Process && dto.reference.None?
    requires CompletedOnline(s, id) && s.refunds[id].reference.None?
    ensures AsDecided(s, AfterAsking(s, id, reply, bank), id, dto, reply, bank)
  {
    InitiationFailsIff(reply, bank);
  }

  lemma PaidOutAsAllowed(s: State, id: nat, dto: Dto, reply: Reply, bank: nat)
    requires Workable(s, id, dto) && dto.decision == Process
    requires dto.reference.None? && CompletedOnline(s, id) ==> s.refunds[id].reference.Some?
    ensures var looked := PaymentRead(id, dto, s.refunds[id].reference, CompletedOnline(s, id));
      AsDecided(s, Settle(s.(requests := [looked]), 0).(requests := s.requests), id, dto, reply, bank)
  {
    var looked := PaymentRead(id, dto, s.refunds[id].reference, CompletedOnline(s, id));
    var u := s.(requests := [looked]);
    RefundRules.SettlesIff(u, 0);
    if MaySettle(u, 0) {
      RefundRules.SettlementWrites(u, 0);
    }
  }

  lemma ReconciliationDecides(s: State, id: nat, bank: Option<nat>, reply: Reply)
    requires s.requests == []
    ensures AsReplied(s, Reconciled(s, id, bank, reply), id, bank, reply)
  {
    if Reconcilable(s, id) {
      var row := s.refunds[id];
      var tran := TranOf(s.payments, row.payment);
      CancelledOnlyWhenCancelled(reply, row.reference.value, Or(bank, tran), tran);
      if RepliedFor(s, id, bank, reply, WordRefunded) && row.status != Rejected && row.order < |s.orders| {
        ConfirmationSettles(s, id);
      }
    }
  }

  lemma ConfirmationSettles(s: State, id: nat)
    requires s.requests == [] && Reconcilable(s, id) && s.refunds[id].order < |s.orders|
    requires s.refunds[id].status != Rejected
    ensures var row := s.refunds[id];
            var t := Outcome(s, id, Dto(Process, row.reference, true, true), row.reference, Unusable, 0);
      && |t.refunds| == |s.refunds| && t.refunds[id].status == Processed && t.refunds[id].settled
      && row.order < |t.orders| && t.orders[row.order].status == Refunded && t.orders[row.order].pay == PaidBack
  {
    var dto := Dto(Process, s.refunds[id].reference, true, true);
    var looked := PaymentRead(id, dto, s.refunds[id].reference, IsOnline(s.payments, s.refunds[id].payment));
    assert MaySettle(s.(requests := [looked]), 0);
  }

  class ShopStore {
    var cells: seq<Cell>
    var moves: seq<Move>
    var orders: seq<Order>
    var payments: seq<Payment>
    var refunds: seq<Refund>
    var notices: seq<Notice>
    var points: seq<PointRow>
    var promos: seq<Promo>
    var keys: map<(nat, nat), KeyRow>
    var carts: map<nat, seq<Item>>

    /** The tables, with the requests that are in flight beside them. */
    function Db(requests: seq<Request>): State
      reads this
    {
      State(cells, moves, orders, payments, refunds, notices, points, promos, keys, carts, requests)
    }

    constructor (cells: seq<Cell>, promos: seq<Promo>)
      ensures Db([]) == State(cells, [], [], [], [], [], [], promos, map[], map[], [])
    {
      this.cells, this.promos := cells, promos;
      moves, orders, payments, refunds, notices, points := [], [], [], [], [], [];
      keys, carts := map[], map[];
    }

    /** A transaction that throws. */
    method RollBack(to: State)
      modifies this
      ensures Db(to.requests) == to
    {
      cells, moves, orders, payments, refunds := to.cells, to.moves, to.orders, to.payments, to.refunds;
      notices, points, promos, keys, carts := to.notices, to.points, to.promos, to.keys, to.carts;
    }

    // ---- Stock, promos and points

    method DeductStock(item: Item) returns (updated: bool)
      modifies this`cells
      ensures updated == (item.cell < |old(cells)| && old(cells)[item.cell].stock >= item.quantity)
      ensures updated ==>
        var row := old(cells)[item.cell];
        cells == old(cells)[item.cell := row.(stock := row.stock - item.quantity)]
      ensures !updated ==> cells == old(cells)
    {
      updated := item.cell < |cells| && cells[item.cell].stock >= item.quantity;
      if updated {
        cells := cells[item.cell := cells[item.cell].(stock := cells[item.cell].stock - item.quantity)];
      }
    }

    method RestoreStock(item: Item)
      modifies this`cells
      ensures cells == Restore(old(cells), item)
    {
      if item.cell < |cells| {
        cells := cells[item.cell := cells[item.cell].(stock := cells[item.cell].stock + item.quantity)];
      }
    }

    method IncrementPromoUsage(promo: nat, live: bool) returns (updated: bool)
      modifies this`promos
      ensures updated <==>
        && promo < |old(promos)| && live
        && (old(promos)[promo].maxUses.Some? ==> old(promos)[promo].uses < old(promos)[promo].maxUses.value)
      ensures promos == if updated then CountUse(old(promos), Some(promo)) else old(promos)
    {
      updated := promo < |promos| && live
                 && (promos[promo].maxUses.None? || promos[promo].uses < promos[promo].maxUses.value);
      if updated {
        promos := promos[promo := promos[promo].(uses := promos[promo].uses + 1)];
      }
    }

    method DecrementPromoUsage(promo: nat)
      modifies this`promos
      ensures promos == GiveUseBack(old(promos), Some(promo))
    {
      if promo < |promos| && promos[promo].uses > 0 {
        promos := promos[promo := promos[promo].(uses := promos[promo].uses - 1)];
      }
    }

    /** `spendPoints` under the user's row lock. */
    method SpendPoints(user: nat, amount: nat, order: nat, now: int) returns (spent: bool)
      modifies this`points
      ensures spent <==>
        amount > 0 && PointBooks.Unexpired(old(points), user, now) >= amount
                   && PointBooks.Owned(old(points), user) >= amount
      ensures points == if spent
                        then old(points) + [PointRow(user, -(amount as int), SpentCheckout, Some(OfOrder(order)), None)]
                        else old(points)
    {
      if amount <= 0 {
        return false;
      }
      PointBooks.AvailableIs(points, user, now, amount);
      var balance := Available(points, user, now);
      if balance < amount {
        return false;
      }
      points := points + [PointRow(user, -(amount as int), SpentCheckout, Some(OfOrder(order)), None)];
      spent := true;
    }

    /** The guarded refund shared by cancellation and settlement. */
    method RefundSpentPoints(user: nat, order: nat)
      modifies this`points
      ensures points == WithPointsBack(old(points), user, order)
    {
      var spent := Abs(OrderPoints(points, order, SpentCheckout));
      if spent > 0 {
        var alreadyRefunded := PointsRefunded(points, order);
        if !alreadyRefunded {
          points := points + [PointRow(user, spent, AdminAdjustment, Some(OfOrder(order)), None)];
        }
      }
    }

    /** `awardPoints`, for a review with text or with media: its check, and the insert that the
        unique index may turn into nothing. */
    method AwardPoints(user: nat, amount: nat, kind: RewardKind, review: nat, validUntil: Option<int>)
      modifies this
      ensures Db([]) == Award(old(Db([])), user, amount, kind, review, validUntil)
    {
      if amount <= 0 {
        return;
      }
      var i := 0;
      while i < |points|
        invariant 0 <= i <= |points|
        invariant forall j :: 0 <= j < i ==> !(Rewards(points[j], review) && points[j].points > 0)
      {
        if Rewards(points[i], review) && points[i].points > 0 {
          return;
        }
        i := i + 1;
      }
      if !(exists j :: 0 <= j < |points| && Rewards(points[j], review)) {
        points := points + [PointRow(user, amount, kind, Some(OfReview(review)), validUntil)];
      }
    }

    // ---- Checkout

    /** Deducts the lines one by one, in order; false as soon as one matches no row. */
    method DeductLines(items: seq<Item>) returns (sold: bool)
      modifies this`cells
      ensures sold <==> Deduct(old(cells), items).Some?
      ensures sold ==> cells == Deduct(old(cells), items).value
    {
      var i := 0;
      while i < |items|
        invariant 0 <= i <= |items|
        invariant Deduct(old(cells), items[..i]) == Some(cells)
      {
        assert items[..i + 1][..i] == items[..i];
        var updated := DeductStock(items[i]);
        if !updated {
          if Deduct(old(cells), items).Some? {
            DeductPrefix(old(cells), items, i + 1);
          }
          return false;
        }
        i := i + 1;
      }
      assert items[..i] == items;
      sold := true;
    }

    method VerifyStock(items: seq<Item>) returns (available: bool)
      ensures available <==> InStock(cells, items)
    {
      var i := 0;
      while i < |items|
        invariant 0 <= i <= |items|
        invariant InStock(cells, items[..i])
      {
        if items[i].cell >= |cells| || cells[items[i].cell].stock < items[i].quantity {
          return false;
        }
        assert items[..i + 1][..i] == items[..i];
        i := i + 1;
      }
      assert items[..i] == items;
      available := true;
    }

    /** Writes the order with its lines, stock and ledger; the caller rolls back on failure. */
    method TakeLines(c: CheckoutDto, items: seq<Item>) returns (taken: bool)
      modifies this`cells, this`moves, this`orders, this`carts
      ensures taken <==> Takeable(old(cells), old(orders), c, items)
      ensures taken ==>
        && cells == Deduct(old(cells), items).value
        && moves == old(moves) + Sold(items, |old(orders)|)
        && orders == old(orders) + [Order(c.user, items, Pending, Unpaid, c.promo, c.key, false, false)]
        && carts == old(carts)[c.user := []]
    {
      if items == [] {
        return false;
      }
      var available := VerifyStock(items);
      if !available || KeyTaken(orders, c.user, c.key) {
        return false;
      }
      var id := |orders|;
      orders := orders + [Order(c.user, items, Pending, Unpaid, c.promo, c.key, false, false)];
      taken := DeductLines(items);
      if taken {
        moves := moves + Sold(items, id);
        carts := carts[c.user := []];
      }
    }

    /** Counts the promo and spends the points; the caller rolls back on failure. */
    method Charge(c: CheckoutDto, order: nat) returns (charged: bool)
      modifies this`promos, this`points
      ensures charged <==> Chargeable(old(promos), old(points), c)
      ensures charged ==>
        && promos == CountUse(old(promos), c.promo)
        && var spending := PointRow(c.user, -(c.points as int), SpentCheckout, Some(OfOrder(order)), None);
           points == if c.points > 0 then old(points) + [spending] else old(points)
    {
      charged := true;
      if c.promo.Some? {
        charged := IncrementPromoUsage(c.promo.value, c.live);
        if !charged {
          return;
        }
      }
      if c.points > 0 {
        PointBooks.AvailableIs(points, c.user, c.now, c.points);
        charged := SpendPoints(c.user, c.points, order, c.now);
      }
    }

    /** The idempotency rows: a completed one is answered at once, a new one is started. */
    method OpenKey(c: CheckoutDto) returns (r: Option<CheckoutResult>)
      modifies this`keys
      ensures var s := old(Db([]));
        && r == (if IsReplay(s, c) then Some(Replayed(KeyOf(s, c).value.order.value))
                 else if KeyOf(s, c).Some?
                         && (KeyOf(s, c).value.hash != c.hash || KeyOf(s, c).value.status == KeyStarted)
                 then Some(Refused)
                 else None)
        && (r.Some? ==> keys == s.keys)
        && (r.None? && c.key.Some? ==>
              && (c.user, c.key.value) in keys && keys[(c.user, c.key.value)].hash == c.hash
              && keys == s.keys[(c.user, c.key.value) := keys[(c.user, c.key.value)]])
        && (c.key.None? ==> keys == s.keys)
    {
      r := None;
      if c.key.Some? {
        var id := (c.user, c.key.value);
        if id in keys {
          var row := keys[id];
          if row.hash != c.hash {
            return Some(Refused);
          }
          if row.status == KeyCompleted && row.order.Some? && row.order.value < |orders| {
            return Some(Replayed(row.order.value));
          }
          if row.status == KeyStarted {
            return Some(Refused);
          }
        } else {
          keys := keys[id := KeyRow(c.hash, KeyStarted, None)];
        }
      }
    }

    method CompleteKey(c: CheckoutDto, order: nat)
      requires c.key.Some? ==> (c.user, c.key.value) in keys && keys[(c.user, c.key.value)].hash == c.hash
      modifies this`keys
      ensures keys == if c.key.Some?
                      then old(keys)[(c.user, c.key.value) := KeyRow(c.hash, KeyCompleted, Some(order))]
                      else old(keys)
    {
      if c.key.Some? {
        var row := (c.user, c.key.value);
        keys := keys[row := keys[row].(status := KeyCompleted, order := Some(order))];
      }
    }

    /** The transaction once the key is open and the cart is sorted; the caller rolls back when
        it answers None. */
    method BuyLines(c: CheckoutDto, items: seq<Item>) returns (placed: Option<nat>)
      requires c.key.Some? ==> (c.user, c.key.value) in keys && keys[(c.user, c.key.value)].hash == c.hash
      modifies this
      ensures placed == if Takeable(old(cells), old(orders), c, items) && Chargeable(old(promos), old(points), c)
                        then Some(|old(orders)|) else None
      ensures placed.Some? ==> Db([]) == WriteOrder(old(Db([])), c, items, Deduct(old(cells), items).value)
    {
      var id := |orders|;
      var taken := TakeLines(c, items);
      if !taken {
        return None;
      }
      var charged := Charge(c, id);
      if !charged {
        return None;
      }
      CompleteKey(c, id);
      placed := Some(id);
    }

    /** Checkout, whole: placed, replayed, or refused with every table as it was. */
    method CreateOrderFromCart(c: CheckoutDto) returns (r: CheckoutResult)
      modifies this
      ensures (Db([]), r) == Checkout(old(Db([])), c)
      ensures StockBooks.NoneNegative(old(cells)) ==>
        (r.Placed? <==> OrderRules.KeyOpen(old(Db([])), c) && OrderRules.Orderable(old(Db([])), c))
      ensures r.Placed? && c.points > 0 ==>
        && PointBooks.Unexpired(old(points), c.user, c.now) >= c.points
        && PointBooks.Owned(old(points), c.user) >= c.points
    {
      var before := Db([]);
      if StockBooks.NoneNegative(cells) {
        OrderRules.PlacedIff(before, c);
      }
      var answer := OpenKey(c);
      if answer.Some? {
        assert !MayPlace(before, c) || IsReplay(before, c);
        return answer.value;
      }
      ghost var started := keys;
      var items := SortItems(CartOf(before, c.user));
      var placed := BuyLines(c, items);
      if placed.None? {
        RollBack(before);
        return Refused;
      }
      OpeningIsOverwritten(before, started, c, items, cells);
      PointBooks.CheckoutCharges(before, c, c.user);
      r := Placed(placed.value);
    }

    // ---- Cancellation and status changes

    method FailPendingPayments(order: nat)
      modifies this`payments
      ensures payments == FailPending(old(payments), order)
    {
      var p := 0;
      while p < |payments|
        invariant 0 <= p <= |payments| == |old(payments)|
        invariant payments[..p] == FailPending(old(payments), order)[..p]
        invariant payments[p..] == old(payments)[p..]
      {
        ghost var rest := payments[p..];
        if payments[p].order == order && payments[p].status == Awaiting {
          payments := payments[p := payments[p].(status := Failed)];
        }
        assert payments[p + 1..] == rest[1..];
        p := p + 1;
      }
    }

    /** The restock loop of a cancellation: every line back to its row and into the ledger. */
    method RestockCancelled(items: seq<Item>, order: nat)
      modifies this`cells, this`moves
      ensures cells == RestoreAll(old(cells), items)
      ensures moves == old(moves) + Back(items, order)
    {
      var i := 0;
      while i < |items|
        invariant 0 <= i <= |items|
        invariant cells == RestoreAll(old(cells), items[..i])
        invariant moves == old(moves) + Back(items[..i], order)
      {
        assert items[..i + 1][..i] == items[..i];
        RestoreStock(items[i]);
        moves := moves + [Move(items[i].product, In, items[i].quantity, ForOrder(order), false)];
        assert Back(items[..i + 1], order) ==
          Back(items[..i], order) + [Move(items[i].product, In, items[i].quantity, ForOrder(order), false)];
        i := i + 1;
      }
      assert items[..i] == items;
    }

    /** Promo use and points of a cancelled order go back, its pending payments fail. */
    method ReleaseClaims(existing: Order, order: nat)
      modifies this`promos, this`points, this`payments
      ensures promos == GiveUseBack(old(promos), existing.promo)
      ensures points == WithPointsBack(old(points), existing.user, order)
      ensures payments == FailPending(old(payments), order)
    {
      if existing.promo.Some? {
        DecrementPromoUsage(existing.promo.value);
      }
      RefundSpentPoints(existing.user, order);
      FailPendingPayments(order);
    }

    /** The writes of a cancellation that passed its checks. */
    method UndoOrder(order: nat)
      requires MayCancel(Db([]), order, false)
      modifies this
      ensures Db([]) == Cancel(old(Db([])), order, false)
    {
      var existing := orders[order];
      orders := orders[order := existing.(status := Cancelled, wasCancelled := true)];
      RestockCancelled(existing.items, order);
      ReleaseClaims(existing, order);
      if existing.pay == Paid {
        notices := notices + [Notice(order, false, false)];
      }
    }

    method CancelOrderInternal(order: nat, isExpiry: bool) returns (cancelled: bool)
      modifies this
      ensures Db([]) == Cancel(old(Db([])), order, isExpiry)
      ensures cancelled <==>
        && order < |old(orders)|
        && (old(orders)[order].status == Pending || (old(orders)[order].status == Processing && !isExpiry))
        && (isExpiry ==> old(orders)[order].pay != Paid)
    {
      if order >= |orders| || orders[order].status == Cancelled {
        return false;
      }
      if isExpiry && (orders[order].status != Pending || orders[order].pay == Paid) {
        return false;
      }
      if orders[order].status != Pending && orders[order].status != Processing {
        return false;
      }
      UndoOrder(order);
      cancelled := true;
    }

    method UpdateOrderStatus(order: nat, to: OrderStatus)
      modifies this
      ensures Db([]) == SetStatus(old(Db([])), order, to)
      ensures order < |old(orders)| ==>
        && order < |orders|
        && var from := old(orders)[order].status;
           orders[order].status == if (from, to) in OrderRules.MOVES then to else from
    {
      if order < |orders| {
        OrderRules.StatusMoves(Db([]), order, to);
      }
      if to == Cancelled {
        var _ := CancelOrderInternal(order, false);
      } else if order < |orders| && orders[order].status != to && Transition(orders[order].status, to) {
        orders := orders[order := orders[order].(status := to)];
      }
    }

    // ---- Payments

    method HandleSuccessfulPayment(payment: nat)
      modifies this
      ensures Db([]) == PaymentSuccess(old(Db([])), payment)
    {
      if payment >= |payments| || !payments[payment].online || payments[payment].status == Completed {
        return;
      }
      var order := payments[payment].order;
      payments := payments[payment := payments[payment].(status := Completed)];
      if order < |orders| && orders[order].status == Cancelled {
        orders := orders[order := orders[order].(pay := Paid)];
        notices := notices + [Notice(order, true, false)];
        return;
      }
      if order < |orders| {
        orders := orders[order := orders[order].(status := Processing, pay := Paid)];
      }
    }

    method HandleFailedPayment(payment: nat)
      modifies this
      ensures Db([]) == PaymentFailure(old(Db([])), payment)
      ensures if payment < |old(payments)| && old(payments)[payment].online
                 && old(payments)[payment].status != Completed && old(payments)[payment].status != Failed
              then OrderRules.Fails(old(Db([])), Db([]), payment) else Db([]) == old(Db([]))
    {
      OrderRules.FailureDecides(Db([]), payment);
      if payment >= |payments| || !payments[payment].online {
        return;
      }
      if payments[payment].status == Completed || payments[payment].status == Failed {
        return;
      }
      var order := payments[payment].order;
      payments := payments[payment := payments[payment].(status := Failed)];
      if order < |orders| && orders[order].pay != Paid && orders[order].status != Cancelled {
        orders := orders[order := orders[order].(pay := Unpaid)];
      }
    }

    /** The payment transaction of `initiatePayment` (online) and `initiateCod`. */
    method CreatePayment(order: nat, online: bool, stale: bool) returns (created: Option<nat>)
      modifies this
      ensures Db([]) == InitiatePayment(old(Db([])), order, online, stale)
      ensures created.Some? ==>
        && created.value == |old(payments)| && |payments| == |old(payments)| + 1
        && payments[created.value] == Payment(order, Awaiting, online)
        && order < |orders| && orders[order].pay == Initiated
      ensures created.None? ==> Db([]) == old(Db([]))
      ensures created.Some? <==> OrderRules.Payable(old(Db([])), order, online, stale)
    {
      OrderRules.LatestIsLast(payments, order);
      created := None;
      if order >= |orders| || orders[order].pay == Paid || orders[order].pay == PaidBack {
        return;
      }
      if online {
        if orders[order].status == Cancelled {
          return;
        }
        if orders[order].pay == Initiated {
          var latest := LatestPending(payments, order);
          if latest.Some? {
            if !stale {
              return;
            }
            payments := payments[latest.value := payments[latest.value].(status := Failed)];
          }
        }
      } else if orders[order].pay == Initiated {
        return;
      }
      created := Some(|payments|);
      payments := payments + [Payment(order, Awaiting, online)];
      orders := orders[order := orders[order].(pay := Initiated)];
    }

    // ---- Refunds

    /** `updateRefund`; the unique index refuses a second non-rejected row of an order. */
    method UpdateRefundRow(id: nat, row: Refund)
      requires id < |refunds|
      modifies this`refunds
      ensures refunds == if Clashes(old(refunds), id, row) then old(refunds) else old(refunds)[id := row]
    {
      if row.status != Rejected {
        var r := 0;
        while r < |refunds|
          invariant 0 <= r <= |refunds| && refunds == old(refunds)
          invariant forall j :: 0 <= j < r && j != id ==> refunds[j].order != row.order || !Active(refunds[j])
        {
          if r != id && refunds[r].order == row.order && refunds[r].status != Rejected {
            assert Active(refunds[r]);
            return;
          }
          r := r + 1;
        }
      }
      refunds := refunds[id := row];
    }

    /** The restock loop of a settlement, with its quarantine branches. */
    method RestockReturned(items: seq<Item>, refund: nat, damaged: bool)
      modifies this`cells, this`moves
      ensures cells == if damaged then old(cells) else RestoreAll(old(cells), items)
      ensures moves == old(moves) + ReturnMoves(old(cells), items, refund, damaged)
    {
      var i := 0;
      while i < |items|
        invariant 0 <= i <= |items| && |cells| == |old(cells)|
        invariant cells == if damaged then old(cells) else RestoreAll(old(cells), items[..i])
        invariant moves == old(moves) + ReturnMoves(old(cells), items[..i], refund, damaged)
      {
        var item := items[i];
        assert items[..i + 1][..i] == items[..i];
        var quarantined := true;
        if !damaged {
          if item.isVariant {
            if item.cell < |cells| {
              RestoreStock(item);
              quarantined := false;
            }
          } else {
            RestoreStock(item);
            quarantined := false;
          }
        }
        moves := moves + [Move(item.product, In, item.quantity, ForRefund(refund), quarantined)];
        assert ReturnMoves(old(cells), items[..i + 1], refund, damaged) ==
          ReturnMoves(old(cells), items[..i], refund, damaged)
          + [Move(item.product, In, item.quantity, ForRefund(refund), quarantined)];
        i := i + 1;
      }
      assert items[..i] == items;
    }

    /** Payment and order rows of a settled refund. */
    method MarkPaidBack(order: nat, payment: Option<nat>)
      requires order < |orders|
      modifies this`payments, this`orders
      ensures payments == PaidBackRows(old(payments), payment)
      ensures var row := old(orders)[order].(status := Refunded, pay := PaidBack, touched := true);
        orders == Touch(old(orders)[order := row], old(payments), payment)
    {
      var paidFor := payments;
      if payment.Some? && payment.value < |payments| {
        payments := payments[payment.value := payments[payment.value].(status := Returned)];
      }
      orders := orders[order := orders[order].(status := Refunded, pay := PaidBack, touched := true)];
      orders := Touch(orders, paidFor, payment);
    }

    method CloseRefund(id: nat, dto: Dto, seen: Option<nat>, online: bool)
      requires id < |refunds|
      modifies this`refunds
      ensures refunds == old(refunds)[id := SettledRow(old(refunds)[id], dto, seen, online)]
    {
      var reference := Or(dto.reference, seen);
      if !online {
        reference := Or(reference, Some(MANUAL));
      }
      refunds := refunds[id := refunds[id].(
        status := Processed, settled := true, reference := Or(reference, refunds[id].reference),
        adminReference := refunds[id].adminReference || (dto.reference.Some? && !dto.confirmed),
        inquired := refunds[id].inquired || (dto.reference.Some? && dto.confirmed))];
    }

    /** The writes of a settlement that passed its checks. */
    method WriteSettlement(id: nat, dto: Dto, seen: Option<nat>, online: bool)
      requires MaySettle(Db([PaymentRead(id, dto, seen, online)]), 0)
      modifies this
      ensures Db([]) == Settle(old(Db([PaymentRead(id, dto, seen, online)])), 0).(requests := [])
    {
      ghost var s := Db([PaymentRead(id, dto, seen, online)]);
      SettleIs(s);
      var refund := refunds[id];
      var order := orders[refund.order];
      MarkPaidBack(refund.order, refund.payment);
      if order.status != Cancelled && !Restocked(moves, ForOrder(refund.order)) && !Restocked(moves, ForRefund(id)) {
        RestockReturned(order.items, id, refund.damaged);
      }
      RefundSpentPoints(order.user, refund.order);
      CloseRefund(id, dto, seen, online);
    }

    /** The settlement transaction of a request that holds `seen` and `online` from its reads. */
    method SettlementTransaction(id: nat, dto: Dto, seen: Option<nat>, online: bool)
      requires id < |refunds| && dto.decision == Process
      requires !TakesClaimPath(PaymentRead(id, dto, seen, online))
      requires !online ==> dto.reference.Some? || dto.hasNotes
      modifies this
      ensures Db([]) == Settle(old(Db([PaymentRead(id, dto, seen, online)])), 0).(requests := [])
    {
      if refunds[id].order >= |orders| || Closed(refunds[id].status) {
        return;
      }
      if dto.reference.None? && refunds[id].status == InProcess {
        return;
      }
      WriteSettlement(id, dto, seen, online);
    }

    /** The local decisions: approved or rejected. */
    method DecideTransaction(id: nat, dto: Dto)
      requires id < |refunds| && dto.decision != Process && !Closed(refunds[id].status)
      modifies this`refunds
      ensures refunds == UpdateRefund(old(Db([])), id, Decided(old(refunds)[id], dto)).refunds
    {
      var row := refunds[id].(status := if dto.decision == Approve then Approved else Rejected);
      if dto.reference.Some? {
        row := row.(reference := dto.reference, adminReference := true);
      }
      UpdateRefundRow(id, row);
    }

    /** Claim, provider call and the write of its answer, uninterrupted. */
    method AskProvider(id: nat, reply: Reply, bank: nat)
      requires id < |refunds| && !Closed(refunds[id].status) && refunds[id].status != InProcess
      modifies this`refunds
      ensures refunds == AfterAsking(old(Db([])), id, reply, bank).refunds
    {
      refunds := refunds[id := refunds[id].(status := InProcess, claimed := true)];
      refunds := refunds[id := refunds[id].(asked := refunds[id].asked + 1)];
      assert refunds == old(refunds)[id := refunds[id]];
      match InitiationOutcome(reply, bank) {
        case GatewayFailed => UpdateRefundRow(id, refunds[id].(status := Rejected));
        case GatewayOpen(reference) =>
          UpdateRefundRow(id, refunds[id].(status := InProcess, reference := Or(reference, refunds[id].reference)));
      }
    }

    /** One uninterrupted `processRefund`; the row it reads first may refuse it. */
    method ProcessRefund(id: nat, dto: Dto, reply: Reply, bank: nat)
      modifies this
      ensures Db([]) == if RefundReadBy(old(Db([])), id, dto).None? then old(Db([]))
                        else Outcome(old(Db([])), id, dto, old(refunds)[id].reference, reply, bank)
      ensures AsDecided(old(Db([])), Db([]), id, dto, reply, bank)
    {
      OutcomeDecides(Db([]), id, dto, reply, bank);
      if id >= |refunds| || Closed(refunds[id].status) {
        return;
      }
      if refunds[id].status == InProcess && dto.reference.None? {
        return;
      }
      var seen := refunds[id].reference;
      if dto.decision != Process {
        DecideTransaction(id, dto);
        return;
      }
      var online := IsOnline(payments, refunds[id].payment);
      if !online && dto.reference.None? && !dto.hasNotes {
        return;
      }
      if online && dto.reference.None? && seen.None? {
        AskProvider(id, reply, bank);
        return;
      }
      SettlementTransaction(id, dto, seen, online);
    }

    /** One uninterrupted `reconcileRefund`. */
    method ReconcileRefund(id: nat, bank: Option<nat>, reply: Reply)
      modifies this
      ensures Db([]) == Reconciled(old(Db([])), id, bank, reply)
      ensures AsReplied(old(Db([])), Db([]), id, bank, reply)
    {
      ReconciliationDecides(Db([]), id, bank, reply);
      if id >= |refunds| || refunds[id].status == Processed || refunds[id].reference.None? {
        return;
      }
      var tran := TranOf(payments, refunds[id].payment);
      match InquiryOutcome(reply, refunds[id].reference.value, Or(bank, tran), tran) {
        case InquiryRefunded => ProcessRefund(id, Dto(Process, refunds[id].reference, true, true), Unusable, 0);
        case InquiryCancelled => UpdateRefundRow(id, refunds[id].(status := Rejected));
        case InquiryUnsettled => UpdateRefundRow(id, refunds[id].(status := InProcess));
      }
    }

    /** One uninterrupted REFUND_REQUIRED or RECONCILIATION_REQUIRED event: afterwards the order
        has a refund row, and the event completes exactly once it does.  An insert that names no
        existing payment fails. */
    method HandleRefundRequired(notice: nat, payment: Option<nat>) returns (completed: bool)
      requires notice < |notices| && !notices[notice].completed
      modifies this
      ensures completed <==> old(notices)[notice].order < |orders|
                             && (HasRefund(old(refunds), old(notices)[notice].order) || IsPayment(payments, payment))
      ensures completed ==> HasRefund(refunds, old(notices)[notice].order)
      ensures completed ==>
        var row := old(notices)[notice].(completed := true);
        Db([]) == old(Db([])).(refunds := refunds, notices := old(notices)[notice := row])
      ensures completed ==> refunds == if HasRefund(old(refunds), old(notices)[notice].order) then old(refunds)
        else old(refunds) + [Refund(old(notices)[notice].order, payment, Requested, None, false, false, 0,
                                    false, false, false)]
      ensures !completed ==> Db([]) == old(Db([]))
    {
      var order := notices[notice].order;
      if order >= |orders| {
        return false;
      }
      var found := HasRefund(refunds, order);
      if !found {
        if !IsPayment(payments, payment) {
          return false;
        }
        refunds := refunds + [NewRefund(order, payment, false)];
        assert refunds[|refunds| - 1].order == order;
      }
      notices := notices[notice := notices[notice].(completed := true)];
      completed := true;
    }
  }
}
