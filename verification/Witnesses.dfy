/** Runs from a shop's opening to states in which one more step breaks a condition of the main
    results, so that none of those conditions is there for nothing. */
module Witnesses {
  import opened Basics
  import opened Gateway
  import opened Tables
  import opened Shop
  import PromoBooks
  import RefundCalls
  import RefundProof
  import Reopening
  import ReturnRows
  import Returns

  /** A step that breaks none of the conditions. */
  ghost predicate Plain(s: State, a: Action) {
    && !Returns.Harmful(s, a) && !PromoBooks.RevivesCancelled(s, a)
    && !RefundCalls.LateApproval(s, a) && !RefundProof.Unproven(s, a)
  }

  ghost predicate PlainRun(s: State, actions: seq<Action>)
    decreases |actions|
  {
    actions == [] || (Plain(s, actions[0]) && PlainRun(Apply(s, actions[0]), actions[1..]))
  }

  /** Such a run meets every condition. */
  lemma {:induction false} PlainRunsMeetAll(s: State, actions: seq<Action>)
    requires PlainRun(s, actions)
    ensures Returns.OrderlyRun(s, actions) && PromoBooks.CalmRun(s, actions)
    ensures RefundCalls.TimelyRun(s, actions) && RefundProof.ProvenRun(s, actions)
    decreases |actions|
  {
    if actions != [] {
      PlainRunsMeetAll(Apply(s, actions[0]), actions[1..]);
    }
  }

  lemma {:induction false} Next(start: State, done: seq<Action>, a: Action)
    ensures Run(start, done + [a]) == Apply(Run(start, done), a)
    ensures PlainRun(start, done) && Plain(Run(start, done), a) ==> PlainRun(start, done + [a])
    decreases |done|
  {
    if done == [] {
      assert [a][1..] == [];
    } else {
      Next(Apply(start, done[0]), done[1..], a);
      assert (done + [a])[1..] == done[1..] + [a];
    }
  }

  ghost predicate Reaches(start: State, done: seq<Action>, s: State) {
    Opening(start) && Run(start, done) == s && PlainRun(start, done)
  }

  lemma Then(start: State, done: seq<Action>, s: State, a: Action, t: State) returns (more: seq<Action>)
    requires Reaches(start, done, s) && Apply(s, a) == t && Plain(s, a)
    ensures Reaches(start, more, t)
  {
    Next(start, done, a);
    more := done + [a];
  }

  const LINE: Item := Item(0, 0, false, 1)

  /** A shop with two pieces of one product and one promo; users 0 and 1 each buy one piece. */
  function OpeningShop(): State {
    State([Cell(0, 2)], [], [], [], [], [], [], [Promo(0, None)], map[], map[], [])
  }

  function Bought(user: nat): Order {
    Order(user, [LINE], Pending, Unpaid, Some(0), None, false, false)
  }

  function TwoOrders(): State {
    State([Cell(0, 0)], [Move(0, Out, 1, ForOrder(0), false), Move(0, Out, 1, ForOrder(1), false)],
          [Bought(0), Bought(1)], [], [], [], [], [Promo(2, None)], map[], map[0 := [], 1 := []], [])
  }

  function BuyOne(user: nat): Action {
    Buy(CheckoutDto(user, None, 0, Some(0), true, 0, 0))
  }

  lemma Filling(s: State, user: nat)
    requires |s.cells| == 1 && s.cells[0].product == 0 && user !in s.carts
    ensures Apply(s, FillCart(user, LINE)) == s.(carts := s.carts[user := [LINE]])
  {
    assert [] + [LINE] == [LINE];
  }

  lemma {:induction false} OneLine(cells: seq<Cell>)
    requires |cells| == 1 && cells[0].stock >= 1
    ensures SortItems([LINE]) == [LINE] && InStock(cells, [LINE])
    ensures Deduct(cells, [LINE]) == Some([cells[0].(stock := cells[0].stock - 1)])
  {
    assert [LINE][..0] == [] && Deduct(cells, []) == Some(cells);
    assert cells[0 := cells[0].(stock := cells[0].stock - 1)] == [cells[0].(stock := cells[0].stock - 1)];
  }

  lemma WritingOne(s: State, user: nat, cells: seq<Cell>)
    requires |s.promos| == 1
    ensures WriteOrder(s, BuyOne(user).dto, [LINE], cells) == s.(
      cells := cells,
      moves := s.moves + [Move(0, Out, 1, ForOrder(|s.orders|), false)],
      orders := s.orders + [Bought(user)],
      promos := [s.promos[0].(uses := s.promos[0].uses + 1)],
      carts := s.carts[user := []])
  {
    assert Sold([LINE], |s.orders|) == [Move(0, Out, 1, ForOrder(|s.orders|), false)];
    assert CountUse(s.promos, Some(0)) == [s.promos[0].(uses := s.promos[0].uses + 1)];
  }

  lemma ThenBuy(start: State, done: seq<Action>, s: State, user: nat, cells: seq<Cell>) returns (more: seq<Action>)
    requires Reaches(start, done, s) && user in s.carts && s.carts[user] == [LINE]
    requires |s.cells| == 1 && s.cells[0].stock >= 1 && cells == [s.cells[0].(stock := s.cells[0].stock - 1)]
    requires |s.promos| == 1 && s.promos[0].maxUses.None?
    ensures Reaches(start, more, WriteOrder(s, BuyOne(user).dto, [LINE], cells))
  {
    OneLine(s.cells);
    more := Then(start, done, s, BuyOne(user), WriteOrder(s, BuyOne(user).dto, [LINE], cells));
  }

  function Filled(): State {
    OpeningShop().(carts := map[0 := [LINE], 1 := [LINE]])
  }

  function OneOrder(): State {
    State([Cell(0, 1)], [Move(0, Out, 1, ForOrder(0), false)], [Bought(0)], [], [], [], [], [Promo(1, None)],
          map[], map[0 := [], 1 := [LINE]], [])
  }

  lemma FilledIsReached() returns (done: seq<Action>)
    ensures Reaches(OpeningShop(), done, Filled())
  {
    var start := OpeningShop();
    var half := start.(carts := start.carts[0 := [LINE]]);
    Filling(start, 0);
    Filling(half, 1);
    assert half.carts[1 := [LINE]] == Filled().carts;
    done := Then(start, [], start, FillCart(0, LINE), half);
    done := Then(start, done, half, FillCart(1, LINE), Filled());
  }

  lemma OneOrderIsReached() returns (done: seq<Action>)
    ensures Reaches(OpeningShop(), done, OneOrder())
  {
    done := FilledIsReached();
    done := ThenBuy(OpeningShop(), done, Filled(), 0, OneOrder().cells);
    WritingOne(Filled(), 0, OneOrder().cells);
    assert Filled().carts[0 := []] == OneOrder().carts;
  }

  lemma TwoOrdersAreReached() returns (done: seq<Action>)
    ensures Reaches(OpeningShop(), done, TwoOrders())
  {
    done := OneOrderIsReached();
    done := ThenBuy(OpeningShop(), done, OneOrder(), 1, TwoOrders().cells);
    WritingOne(OneOrder(), 1, TwoOrders().cells);
    assert OneOrder().carts[1 := []] == TwoOrders().carts;
  }

  // ---- A refunded order revived by a late success

  function Attempted(): State {
    TwoOrders().(payments := [Payment(0, Awaiting, true)], orders := [Bought(0).(pay := Initiated), Bought(1)])
  }

  function Retried(): State {
    Attempted().(payments := [Payment(0, Failed, true), Payment(0, Awaiting, true)])
  }

  function PaidOnce(): State {
    Retried().(payments := [Payment(0, Failed, true), Payment(0, Completed, true)],
               orders := [Bought(0).(status := Processing, pay := Paid), Bought(1)])
  }

  function CancelledPaid(): State {
    PaidOnce().(
      cells := [Cell(0, 1)], moves := TwoOrders().moves + [Move(0, In, 1, ForOrder(0), false)],
      orders := [Bought(0).(status := Cancelled, pay := Paid, wasCancelled := true), Bought(1)],
      promos := [Promo(1, None)], notices := [Notice(0, false, false)])
  }

  lemma RetriedIsReached() returns (done: seq<Action>)
    ensures Reaches(OpeningShop(), done, Retried())
  {
    var start := OpeningShop();
    done := TwoOrdersAreReached();
    done := Then(start, done, TwoOrders(), Pay(Initiate(0, true, false)), Attempted());
    assert LatestPending(Attempted().payments, 0) == Some(0);
    done := Then(start, done, Attempted(), Pay(Initiate(0, true, true)), Retried());
  }

  lemma CancelledPaidIsReached() returns (done: seq<Action>)
    ensures Reaches(OpeningShop(), done, CancelledPaid())
  {
    var start := OpeningShop();
    done := RetriedIsReached();
    done := Then(start, done, Retried(), Pay(Success(1)), PaidOnce());
    CancellingPaid(PaidOnce().payments);
    assert FailPending(PaidOnce().payments, 0) == CancelledPaid().payments;
    done := Then(start, done, PaidOnce(), CancelOrder(0, false), CancelledPaid());
  }

  lemma CancellingPaid(payments: seq<Payment>)
    ensures Apply(PaidOnce().(payments := payments), CancelOrder(0, false))
         == CancelledPaid().(payments := FailPending(payments, 0))
  {
    assert [LINE][..0] == [] && RestoreAll([Cell(0, 0)], []) == [Cell(0, 0)];
    assert RestoreAll([Cell(0, 0)], [LINE]) == [Cell(0, 1)];
    assert Back([LINE], 0) == [Move(0, In, 1, ForOrder(0), false)];
    assert OrderPoints([], 0, SpentCheckout) == 0;
  }

  const PAYOUT: Dto := Dto(Process, Some(7), false, false)

  function Registered(): State {
    CancelledPaid().(refunds := [NewRefund(0, Some(1), false)], requests := [Handled(0)])
  }

  function PaidOut(): State {
    Registered().(
      payments := [Payment(0, Failed, true), Payment(0, Returned, true)],
      orders := [Bought(0).(status := Refunded, pay := PaidBack, wasCancelled := true, touched := true), Bought(1)],
      refunds := [Refund(0, Some(1), Processed, Some(7), false, false, 0, true, true, false)],
      requests := [Handled(0), Over])
  }

  lemma SettlingCancelled()
    ensures Apply(Registered().(requests := [Handled(0), PaymentRead(0, PAYOUT, None, true)]), SettleRefund(1))
         == PaidOut()
  {
    var s := Registered().(requests := [Handled(0), PaymentRead(0, PAYOUT, None, true)]);
    assert MaySettle(s, 1) && !MustRestock(s, 0);
    assert OrderPoints([], 0, SpentCheckout) == 0;
  }

  lemma RegisteredIsReached() returns (done: seq<Action>)
    ensures Reaches(OpeningShop(), done, Registered())
  {
    var start := OpeningShop();
    done := CancelledPaidIsReached();
    var s1 := CancelledPaid().(requests := [Handling(0, false)]);
    done := Then(start, done, CancelledPaid(), Outbox(StartNotice(0)), s1);
    done := Then(start, done, s1, Outbox(RegisterRefund(0, Some(1))), Registered());
  }

  lemma PaidOutIsReached() returns (done: seq<Action>)
    ensures Reaches(OpeningShop(), done, PaidOut())
  {
    var start := OpeningShop();
    done := RegisteredIsReached();
    var s2 := Registered().(requests := [Handled(0), RefundRead(0, PAYOUT, None)]);
    done := Then(start, done, Registered(), Desk(ReadRefund(0, PAYOUT)), s2);
    var s3 := Registered().(requests := [Handled(0), PaymentRead(0, PAYOUT, None, true)]);
    done := Then(start, done, s2, Desk(ReadPayment(1)), s3);
    SettlingCancelled();
    done := Then(start, done, s3, SettleRefund(1), PaidOut());
  }

  lemma RevivalReturnsTwice()
    requires Returns.Inv(PaidOut())
    ensures var t := Apply(Apply(PaidOut(), Pay(Success(0))), CancelOrder(0, false));
      |ReturnRows.GivenBack(t.moves, t.refunds, 0)| == 2
  {
    var s := PaidOut();
    assert s.moves[2] == Move(0, In, 1, ForOrder(0), false);
    assert ReturnRows.GivenBack(s.moves, s.refunds, 0) != [];
    Returns.RevivingReturnsTwice(s, 0);
  }

  lemma RevivalUncountsTwice()
    ensures var t := Apply(Apply(PaidOut(), Pay(Success(0))), CancelOrder(0, false));
      |t.promos| == 1 && t.promos[0].uses == PromoBooks.CountUses(t.orders, 0) - 1
  {
    var s := PaidOut();
    var first := [s.orders[0]];
    assert first[..0] == [] && PromoBooks.CountUses(first, 0) == 0;
    assert s.orders[..1] == first && PromoBooks.CountUses(s.orders, 0) == 1;
    assert PromoBooks.Inv(s);
    PromoBooks.RevivalUncountsTwice(s, 0, 0);
  }

  /** A run that breaks no condition, after which the success of an abandoned payment attempt,
      and one more cancellation, give an order of one line back twice and uncount its promo
      twice. */
  lemma LateSuccessWitness() returns (done: seq<Action>)
    ensures Opening(OpeningShop()) && PlainRun(OpeningShop(), done)
    ensures |Run(OpeningShop(), done).orders| == 2 && |Run(OpeningShop(), done).orders[0].items| == 1
    ensures var t := Apply(Apply(Run(OpeningShop(), done), Pay(Success(0))), CancelOrder(0, false));
      && |ReturnRows.GivenBack(t.moves, t.refunds, 0)| == 2
      && |t.promos| == 1 && t.promos[0].uses == PromoBooks.CountUses(t.orders, 0) - 1
  {
    done := PaidOutIsReached();
    PlainRunsMeetAll(OpeningShop(), done);
    Returns.InvRun(OpeningShop(), done);
    RevivalReturnsTwice();
    RevivalUncountsTwice();
  }

  // ---- A delivered order with a refund registered and another request in flight

  function Delivery(status: OrderStatus, pay: PayStatus, payment: PaymentStatus): State {
    OneOrder().(orders := [Bought(0).(status := status, pay := pay)], payments := [Payment(0, payment, true)])
  }

  function Open(): State {
    Delivery(Delivered, Paid, Completed).(refunds := [NewRefund(0, Some(0), false)],
                                          requests := [Over, RefundRequest(0)])
  }

  lemma PaymentIsReached() returns (done: seq<Action>)
    ensures Reaches(OpeningShop(), done, Delivery(Processing, Paid, Completed))
  {
    var start := OpeningShop();
    done := OneOrderIsReached();
    done := Then(start, done, OneOrder(), Pay(Initiate(0, true, false)), Delivery(Pending, Initiated, Awaiting));
    done := Then(start, done, Delivery(Pending, Initiated, Awaiting), Pay(Success(0)),
                 Delivery(Processing, Paid, Completed));
  }

  lemma DeliveryIsReached() returns (done: seq<Action>)
    ensures Reaches(OpeningShop(), done, Delivery(Delivered, Paid, Completed))
  {
    var start := OpeningShop();
    done := PaymentIsReached();
    var shipped := Delivery(Shipped, Paid, Completed);
    done := Then(start, done, Delivery(Processing, Paid, Completed), UpdateStatus(0, Shipped), shipped);
    done := Then(start, done, shipped, UpdateStatus(0, Delivered), Delivery(Delivered, Paid, Completed));
  }

  lemma RequestedIsReached() returns (done: seq<Action>)
    ensures Reaches(OpeningShop(), done,
                    Delivery(Delivered, Paid, Completed).(requests := [RefundRequest(0), RefundRequest(0)]))
  {
    var start := OpeningShop();
    var s := Delivery(Delivered, Paid, Completed);
    done := DeliveryIsReached();
    done := Then(start, done, s, Desk(RequestRefund(0)), s.(requests := [RefundRequest(0)]));
    done := Then(start, done, s.(requests := [RefundRequest(0)]), Desk(RequestRefund(0)),
         s.(requests := [RefundRequest(0), RefundRequest(0)]));
  }

  lemma OpenIsReached() returns (done: seq<Action>)
    ensures Reaches(OpeningShop(), done, Open())
  {
    var start := OpeningShop();
    var s := Delivery(Delivered, Paid, Completed);
    done := RequestedIsReached();
    done := Then(start, done, s.(requests := [RefundRequest(0), RefundRequest(0)]), Desk(CheckActive(0)),
         s.(requests := [RefundUnopposed(0), RefundRequest(0)]));
    done := Then(start, done, s.(requests := [RefundUnopposed(0), RefundRequest(0)]),
                 Desk(InsertRefund(0, Some(0), false)), Open());
  }

  // ---- A settled refund overwritten as rejected

  const APPROVAL: Dto := Dto(Approve, Some(7), false, false)
  /** An authenticated reply that names no identity and says "cancelled". */
  const CANCELLED: Reply := Body(Done, WordCancelled, None, None, None)

  function Inquired(): State {
    Open().(refunds := [Refund(0, Some(0), Approved, Some(7), false, false, 0, false, true, false)],
            requests := [Over, RefundRequest(0), Over, Inquiring(0, 7, Some(0), Some(0))])
  }

  function SettledBeside(): State {
    Inquired().(
      cells := [Cell(0, 2)], moves := OneOrder().moves + [Move(0, In, 1, ForRefund(0), false)],
      payments := [Payment(0, Returned, true)],
      orders := [Bought(0).(status := Refunded, pay := PaidBack, touched := true)],
      refunds := [Refund(0, Some(0), Processed, Some(7), false, false, 0, true, true, false)],
      requests := Inquired().requests + [Over])
  }

  function ApprovedOpen(): State {
    Inquired().(requests := [Over, RefundRequest(0), Over])
  }

  lemma ApprovedIsReached() returns (done: seq<Action>)
    ensures Reaches(OpeningShop(), done, ApprovedOpen())
  {
    var start := OpeningShop();
    done := OpenIsReached();
    var s := Open().(requests := [Over, RefundRequest(0), RefundRead(0, APPROVAL, None)]);
    done := Then(start, done, Open(), Desk(ReadRefund(0, APPROVAL)), s);
    done := Then(start, done, s, Desk(Decide(2)), ApprovedOpen());
  }

  lemma InquiredIsReached() returns (done: seq<Action>)
    ensures Reaches(OpeningShop(), done, Inquired())
  {
    done := ApprovedIsReached();
    done := Then(OpeningShop(), done, ApprovedOpen(), Desk(Reconcile(0, None)), Inquired());
  }

  lemma SettlingDelivered()
    ensures Apply(Looked(), SettleRefund(4)) == SettledBeside()
  {
    var s := Looked();
    assert MaySettle(s, 4) && MustRestock(s, 0);
    assert [LINE][..0] == [] && RestoreAll([Cell(0, 1)], []) == [Cell(0, 1)];
    assert RestoreAll([Cell(0, 1)], [LINE]) == [Cell(0, 2)];
    assert ReturnMoves([Cell(0, 1)], [LINE], 0, false) == [Move(0, In, 1, ForRefund(0), false)];
    assert OrderPoints([], 0, SpentCheckout) == 0;
  }

  function Looked(): State {
    Inquired().(requests := Inquired().requests + [PaymentRead(0, PLAIN, Some(7), true)])
  }

  lemma LookedIsReached() returns (done: seq<Action>)
    ensures Reaches(OpeningShop(), done, Looked())
  {
    var start := OpeningShop();
    done := InquiredIsReached();
    var s := Inquired().(requests := Inquired().requests + [RefundRead(0, PLAIN, Some(7))]);
    done := Then(start, done, Inquired(), Desk(ReadRefund(0, PLAIN)), s);
    done := Then(start, done, s, Desk(ReadPayment(4)), Looked());
  }

  lemma SettledBesideIsReached() returns (done: seq<Action>)
    ensures Reaches(OpeningShop(), done, SettledBeside())
  {
    done := LookedIsReached();
    SettlingDelivered();
    done := Then(OpeningShop(), done, Looked(), SettleRefund(4), SettledBeside());
  }

  lemma SettledReturned()
    ensures ReturnRows.ReturnsFrom(SettledBeside().moves, ForRefund(0)) != []
  {
    var sale, back := Move(0, Out, 1, ForOrder(0), false), Move(0, In, 1, ForRefund(0), false);
    assert SettledBeside().moves == [sale, back] && [sale, back][..1] == [sale];
    assert ReturnRows.ReturnsFrom([sale, back], ForRefund(0)) == ReturnRows.ReturnsFrom([sale], ForRefund(0)) + [back];
  }

  /** A run that breaks no condition, after which an inquiry sent before the settlement answers
      "cancelled", and a refund request read before it takes the order's goods back again. */
  lemma LateRejectionWitness() returns (done: seq<Action>)
    ensures Opening(OpeningShop()) && PlainRun(OpeningShop(), done)
    ensures var t := Apply(Run(OpeningShop(), done), Desk(InquiryReplies(3, CANCELLED)));
      |t.orders| == 1 && Reopening.ReturnsAgain(t, 0)
  {
    done := SettledBesideIsReached();
    PlainRunsMeetAll(OpeningShop(), done);
    Returns.InvRun(OpeningShop(), done);
    ReturnedAgain();
  }

  lemma ReturnedAgain()
    requires Returns.Inv(SettledBeside())
    ensures var t := Apply(SettledBeside(), Desk(InquiryReplies(3, CANCELLED)));
      |t.orders| == 1 && Reopening.ReturnsAgain(t, 0)
  {
    CancelledRejects();
    StillRegisters();
    Returns.RejectionReturnsAgainIff(SettledBeside(), Desk(InquiryReplies(3, CANCELLED)));
  }

  lemma CancelledRejects()
    ensures var s := SettledBeside();
            var a := Desk(InquiryReplies(3, CANCELLED));
      && Reopening.Rejects(s, a) == Some(0) && Returns.RejectsReturned(s, a)
      && |s.refunds| == 1 && s.refunds[0].order == 0 && |Apply(s, a).orders| == 1
  {
    SettledReturned();
  }

  lemma StillRegisters()
    ensures Reopening.MayReturnAgain(SettledBeside(), 0, 0)
  {
    var s := SettledBeside();
    assert |s.requests| == 5 && s.requests[1] == RefundRequest(0);
    assert Reopening.Registers(s, s.requests[1], 0);
  }

  // ---- An approval that commits after the claim

  function Claimed(): State {
    Open().(refunds := [NewRefund(0, Some(0), false).(status := InProcess, claimed := true, asked := 1)],
            requests := [Over, RefundRequest(0), RefundRead(0, APPROVAL.(reference := None), None), Asked(0)])
  }

  /** An approval and a payout have both read the refund, and the payout its payment. */
  function BothRead(): State {
    Claimed().(refunds := Open().refunds,
               requests := Claimed().requests[3 := PaymentRead(0, PLAIN, None, true)])
  }

  lemma BothReadIsReached() returns (done: seq<Action>)
    ensures Reaches(OpeningShop(), done, BothRead())
  {
    var start := OpeningShop();
    var approve := RefundRead(0, APPROVAL.(reference := None), None);
    done := OpenIsReached();
    var s1 := Open().(requests := [Over, RefundRequest(0), approve]);
    done := Then(start, done, Open(), Desk(ReadRefund(0, APPROVAL.(reference := None))), s1);
    var s2 := Open().(requests := [Over, RefundRequest(0), approve, RefundRead(0, PLAIN, None)]);
    done := Then(start, done, s1, Desk(ReadRefund(0, PLAIN)), s2);
    done := Then(start, done, s2, Desk(ReadPayment(3)), BothRead());
  }

  lemma ClaimedIsReached() returns (done: seq<Action>)
    ensures Reaches(OpeningShop(), done, Claimed())
  {
    var start := OpeningShop();
    done := BothReadIsReached();
    var s := Claimed().(refunds := [Claimed().refunds[0].(asked := 0)],
                        requests := Claimed().requests[3 := Calling(0)]);
    done := Then(start, done, BothRead(), Desk(Claim(3)), s);
    done := Then(start, done, s, Desk(AskGateway(3)), Claimed());
  }

  /** A run that breaks no condition, after which a late approval lets the gateway be asked a
      second time. */
  lemma LateApprovalWitness() returns (done: seq<Action>, more: seq<Action>)
    ensures Opening(OpeningShop()) && PlainRun(OpeningShop(), done)
    ensures RefundCalls.Asks(Run(Apply(Run(OpeningShop(), done), Desk(Decide(2))), more), 0) >= 2
  {
    done := ClaimedIsReached();
    PlainRunsMeetAll(OpeningShop(), done);
    RefundCalls.OnceRun(OpeningShop(), done);
    more := AskedAgain();
  }

  lemma AskedAgain() returns (more: seq<Action>)
    requires RefundCalls.Once(Claimed())
    ensures RefundCalls.Asks(Run(Apply(Claimed(), Desk(Decide(2))), more), 0) >= 2
  {
    var s := Claimed();
    assert s.requests[2] == RefundRead(0, APPROVAL.(reference := None), None);
    assert RefundCalls.LateApproval(s, Desk(Decide(2))) && IsOnline(s.payments, s.refunds[0].payment);
    RefundCalls.LateApprovalAsksAgainIff(s, 2);
    more :| RefundCalls.Asks(Run(Apply(s, Desk(Decide(2))), more), 0) >= 2;
  }

  // ---- A settlement without proof

  /** The gateway has accepted the initiation and named its reference. */
  const ACCEPTED: Reply := Body(Done, WordSuccess, Some(9), None, None)

  function GatewayAccepted(): State {
    Claimed().(refunds := [Claimed().refunds[0].(reference := Some(9))], requests := Claimed().requests[3 := Over])
  }

  lemma AcceptedIsReached() returns (done: seq<Action>)
    ensures Reaches(OpeningShop(), done, GatewayAccepted())
  {
    done := ClaimedIsReached();
    done := Then(OpeningShop(), done, Claimed(), Desk(GatewayReplies(3, ACCEPTED, 0)), GatewayAccepted());
  }

  /** A run that breaks no condition, after which a late approval and a plain payout settle an
      online refund: the order and its payment are refunded although no admin has supplied a
      reference and no inquiry has confirmed that the money moved. */
  lemma UnprovenSettlementWitness() returns (done: seq<Action>, more: seq<Action>)
    ensures Opening(OpeningShop()) && PlainRun(OpeningShop(), done)
    ensures var t := Run(Apply(Run(OpeningShop(), done), Desk(Decide(2))), more);
            var u := Apply(t, SettleRefund(4));
      && RefundProof.UnprovenSettlement(t, 4) && |u.refunds| == 1 && u.refunds[0].settled
      && !u.refunds[0].adminReference && !u.refunds[0].inquired
      && |u.orders| == 1 && u.orders[0].status == Refunded && u.orders[0].pay == PaidBack
  {
    done := AcceptedIsReached();
    var s := GatewayAccepted();
    var t := Apply(s, Desk(Decide(2)));
    assert t == s.(refunds := [s.refunds[0].(status := Approved)], requests := s.requests[2 := Over]);
    more := RefundProof.ReferenceSettles(t, 0);
    UnprovenEnds(t, Run(t, more));
  }

  lemma UnprovenEnds(s: State, u: State)
    requires RefundProof.UnprovenSettlement(u, 4) && u.requests[4].refund == 0 && u.refunds == s.refunds
    requires |s.refunds| == 1 && s.refunds[0].order == 0 && |u.orders| == 1
    ensures var t := Apply(u, SettleRefund(4));
      && |t.refunds| == 1 && t.refunds[0].settled && !RefundProof.HasProof(t.refunds[0])
      && |t.orders| == 1 && t.orders[0].status == Refunded && t.orders[0].pay == PaidBack
  {
    RefundProof.UnprovenSettles(u, 4);
  }

  // ---- An online payment settled on notes

  const NOTES: Dto := Dto(Process, None, true, false)

  /** The abandoned attempt succeeds while the second one is still pending. */
  function LateCompletion(): State {
    PaidOnce().(payments := [Payment(0, Completed, true), Payment(0, Awaiting, true)])
  }

  function CancelledLate(): State {
    CancelledPaid().(payments := [Payment(0, Completed, true), Payment(0, Failed, true)])
  }

  /** The refund is registered for the latest payment, and a payout with notes has read it. */
  function PayoutRead(): State {
    CancelledLate().(refunds := [NewRefund(0, Some(1), false)], requests := [Handled(0), RefundRead(0, NOTES, None)])
  }

  lemma CancelledLateIsReached() returns (done: seq<Action>)
    ensures Reaches(OpeningShop(), done, CancelledLate())
  {
    var start := OpeningShop();
    done := RetriedIsReached();
    done := Then(start, done, Retried(), Pay(Success(0)), LateCompletion());
    CancellingPaid(LateCompletion().payments);
    assert FailPending(LateCompletion().payments, 0) == CancelledLate().payments;
    done := Then(start, done, LateCompletion(), CancelOrder(0, false), CancelledLate());
  }

  lemma PayoutReadIsReached() returns (done: seq<Action>)
    ensures Reaches(OpeningShop(), done, PayoutRead())
  {
    var start := OpeningShop();
    done := CancelledLateIsReached();
    var s1 := CancelledLate().(requests := [Handling(0, false)]);
    done := Then(start, done, CancelledLate(), Outbox(StartNotice(0)), s1);
    var s2 := PayoutRead().(requests := [Handled(0)]);
    done := Then(start, done, s1, Outbox(RegisterRefund(0, Some(1))), s2);
    done := Then(start, done, s2, Desk(ReadRefund(0, NOTES)), PayoutRead());
  }

  /** A run that breaks no condition, after which a payout on notes reads an online payment that
      has failed, and settles: the order and that payment are refunded although the gateway was
      never asked, while the attempt that took the money stays completed. */
  lemma CashReadWitness() returns (done: seq<Action>)
    ensures Opening(OpeningShop()) && PlainRun(OpeningShop(), done)
    ensures var s := Run(OpeningShop(), done);
            var t := Apply(s, Desk(ReadPayment(1)));
            var u := Apply(t, SettleRefund(1));
      && RefundProof.CashRead(s, Desk(ReadPayment(1))) && RefundProof.UnprovenSettlement(t, 1)
      && |u.refunds| == 1 && u.refunds[0].settled && u.refunds[0].asked == 0 && !RefundProof.HasProof(u.refunds[0])
      && |u.orders| == 2 && u.orders[0].status == Refunded && u.orders[0].pay == PaidBack
      && u.payments == [Payment(0, Completed, true), Payment(0, Returned, true)]
  {
    done := PayoutReadIsReached();
    var t := Apply(PayoutRead(), Desk(ReadPayment(1)));
    assert t == PayoutRead().(requests := [Handled(0), PaymentRead(0, NOTES, None, false)]);
    RefundProof.UnprovenSettles(t, 1);
  }
}
