/** The gateway is asked to initiate a refund at most once, as long as no approval commits on a
    refund already claimed for the gateway; and when one does, exactly when it is asked again. */
module RefundCalls {
  import opened Basics
  import opened Gateway
  import opened Tables
  import opened Shop
  import ReturnRows

  /** An approval that commits on a refund already claimed for the gateway. */
  predicate LateApproval(s: State, a: Action) {
    && a.Desk? && a.desk.Decide? && AtRefund(s, a.desk.request) && s.requests[a.desk.request].RefundRead?
    && s.requests[a.desk.request].dto.decision == Approve
    && !Closed(s.refunds[s.requests[a.desk.request].refund].status)
    && s.refunds[s.requests[a.desk.request].refund].claimed
  }

  ghost predicate TimelyRun(s: State, actions: seq<Action>)
    decreases |actions|
  {
    actions == [] || (!LateApproval(s, actions[0]) && TimelyRun(Apply(s, actions[0]), actions[1..]))
  }

  // ---- Invariant

  predicate ClaimOk(r: Refund) {
    && r.asked <= 1
    && (r.claimed ==> r.status == InProcess || Closed(r.status))
    && (r.asked > 0 ==> r.claimed)
  }

  /** What a request in flight may assume about its refund. */
  predicate CarriesOk(s: State, q: Request) {
    match q
    case Calling(r) => r < |s.refunds| && s.refunds[r].claimed && s.refunds[r].asked == 0
    case Asked(r) => r < |s.refunds| && s.refunds[r].claimed
    case _ => true
  }

  predicate CallingFor(s: State, k: nat, refund: nat) {
    k < |s.requests| && s.requests[k] == Calling(refund)
  }

  /** Between its claim and its call a refund has a request that is about to call. */
  ghost predicate CallPending(s: State, refund: nat) {
    exists k: nat :: CallingFor(s, k, refund)
  }

  ghost predicate Once(s: State) {
    && (forall r: nat :: r < |s.refunds| ==>
          ClaimOk(s.refunds[r]) && (s.refunds[r].claimed && s.refunds[r].asked == 0 ==> CallPending(s, r)))
    && (forall k :: 0 <= k < |s.requests| ==> CarriesOk(s, s.requests[k]))
    && OneCaller(s)
  }

  ghost predicate OneCaller(s: State) {
    forall j, k :: 0 <= j < k < |s.requests| && s.requests[j].Calling? && s.requests[k].Calling? ==>
      s.requests[j].refund != s.requests[k].refund
  }

  /** Refund rows keep what requests rely on; claims and calls stand; only the stepping request
      changes. */
  ghost predicate KeepsClaims(s: State, t: State) {
    && |t.refunds| >= |s.refunds| && |t.requests| >= |s.requests|
    && (forall r :: 0 <= r < |t.refunds| ==> ClaimOk(t.refunds[r]))
    && (forall r :: 0 <= r < |s.refunds| ==>
          t.refunds[r].asked == s.refunds[r].asked && t.refunds[r].claimed == s.refunds[r].claimed)
    && (forall r :: |s.refunds| <= r < |t.refunds| ==> t.refunds[r].asked == 0 && !t.refunds[r].claimed)
    && (forall k :: 0 <= k < |t.requests| ==>
          (k < |s.requests| && t.requests[k] == s.requests[k])
          || (!t.requests[k].Calling? && !t.requests[k].Asked? && !(k < |s.requests| && s.requests[k].Calling?)))
  }

  lemma KeepsClaimsKeepsOnce(s: State, t: State)
    requires Once(s) && KeepsClaims(s, t)
    ensures Once(t)
  {
    forall k | 0 <= k < |t.requests| ensures CarriesOk(t, t.requests[k]) {
      if k < |s.requests| && t.requests[k] == s.requests[k] {
        assert CarriesOk(s, s.requests[k]);
      }
    }
    forall r: nat | r < |t.refunds| && t.refunds[r].claimed && t.refunds[r].asked == 0 ensures CallPending(t, r) {
      assert CallPending(s, r);
      var k: nat :| CallingFor(s, k, r);
      assert CallingFor(t, k, r);
    }
  }

  // ---- Steps

  lemma ClaimKeepsOnce(s: State, k: nat)
    requires Once(s) && MayClaim(s, k)
    ensures Once(ApplyDesk(s, Claim(k)))
  {
    var t := ApplyDesk(s, Claim(k));
    var r := s.requests[k].refund;
    assert ClaimOk(s.refunds[r]) && !s.refunds[r].claimed;
    forall j | 0 <= j < |t.requests| ensures CarriesOk(t, t.requests[j]) {
      assert CarriesOk(s, s.requests[j]);
    }
    forall i, j | 0 <= i < j < |t.requests| && t.requests[i].Calling? && t.requests[j].Calling?
      ensures t.requests[i].refund != t.requests[j].refund
    {
      assert CarriesOk(s, s.requests[i]) && CarriesOk(s, s.requests[j]);
    }
    forall x: nat | x < |t.refunds| && t.refunds[x].claimed && t.refunds[x].asked == 0 ensures CallPending(t, x) {
      if x == r {
        assert CallingFor(t, k, r);
      } else {
        var j: nat :| CallingFor(s, j, x);
        assert CallingFor(t, j, x);
      }
    }
  }

  lemma AskKeepsOnce(s: State, k: nat)
    requires Once(s) && AtRefund(s, k) && s.requests[k].Calling?
    ensures Once(ApplyDesk(s, AskGateway(k)))
  {
    var t := ApplyDesk(s, AskGateway(k));
    assert CarriesOk(s, s.requests[k]);
    forall j | 0 <= j < |t.requests| ensures CarriesOk(t, t.requests[j]) {
      assert CarriesOk(s, s.requests[j]);
    }
    forall x: nat | x < |t.refunds|
      ensures ClaimOk(t.refunds[x])
      ensures t.refunds[x].claimed && t.refunds[x].asked == 0 ==> CallPending(t, x)
    {
      assert ClaimOk(s.refunds[x]);
      if t.refunds[x].claimed && t.refunds[x].asked == 0 {
        var j: nat :| CallingFor(s, j, x);
        assert CallingFor(t, j, x);
      }
    }
  }

  lemma UpdateKeepsOnce(s: State, k: nat, id: nat, row: Refund)
    requires Once(s) && k < |s.requests| && !s.requests[k].Calling? && id < |s.refunds| && ClaimOk(row)
    requires row.asked == s.refunds[id].asked && row.claimed == s.refunds[id].claimed
    ensures Once(UpdateRefund(Answer(s, k, Over), id, row))
  {
    KeepsClaimsKeepsOnce(s, UpdateRefund(Answer(s, k, Over), id, row));
  }

  /** Steps that read and note what they read, in a new request or in their own. */
  lemma ReadsKeepOnce(s: State, a: DeskAction)
    requires Reads(a) && Once(s)
    ensures Once(ApplyDesk(s, a))
  {
    ReadsFrame(s, a);
    KeepsClaimsKeepsOnce(s, ApplyDesk(s, a));
  }

  lemma DecideKeepsOnce(s: State, k: nat)
    requires Once(s) && !LateApproval(s, Desk(Decide(k)))
    requires AtRefund(s, k) && s.requests[k].RefundRead? && s.requests[k].dto.decision != Process
    ensures Once(ApplyDesk(s, Decide(k)))
  {
    var r := s.requests[k].refund;
    assert ClaimOk(s.refunds[r]);
    KeepsClaimsKeepsOnce(s, Answer(s, k, Over));
    if !Closed(s.refunds[r].status) {
      UpdateKeepsOnce(s, k, r, Decided(s.refunds[r], s.requests[k].dto));
    }
  }

  lemma InquiryKeepsOnce(s: State, k: nat, reply: Reply)
    requires Once(s) && AtRefund(s, k) && s.requests[k].Inquiring?
    ensures Once(ApplyDesk(s, InquiryReplies(k, reply)))
  {
    var q := s.requests[k];
    assert ClaimOk(s.refunds[q.refund]);
    match InquiryOutcome(reply, q.reference, q.bankTran, q.tran)
    case InquiryRefunded => KeepsClaimsKeepsOnce(s, Answer(s, k, Confirmed(q.refund, q.reference)));
    case InquiryCancelled => UpdateKeepsOnce(s, k, q.refund, s.refunds[q.refund].(status := Rejected));
    case InquiryUnsettled => UpdateKeepsOnce(s, k, q.refund, s.refunds[q.refund].(status := InProcess));
  }

  lemma DeskKeepsOnce(s: State, a: DeskAction)
    requires Once(s) && !LateApproval(s, Desk(a))
    ensures Once(ApplyDesk(s, a))
  {
    match a
    case Claim(k) =>
      if MayClaim(s, k) {
        ClaimKeepsOnce(s, k);
      }
    case AskGateway(k) =>
      if AtRefund(s, k) && s.requests[k].Calling? {
        AskKeepsOnce(s, k);
      }
    case Decide(k) =>
      if AtRefund(s, k) && s.requests[k].RefundRead? && s.requests[k].dto.decision != Process {
        DecideKeepsOnce(s, k);
      }
    case GatewayReplies(k, reply, bank) =>
      if AtRefund(s, k) && s.requests[k].Asked? {
        var r := s.requests[k].refund;
        assert ClaimOk(s.refunds[r]) && CarriesOk(s, s.requests[k]);
        UpdateKeepsOnce(s, k, r, AfterGateway(s.refunds[r], InitiationOutcome(reply, bank)));
      }
    case InquiryReplies(k, reply) =>
      if AtRefund(s, k) && s.requests[k].Inquiring? {
        InquiryKeepsOnce(s, k, reply);
      }
    case InsertRefund(_, _, _) => KeepsClaimsKeepsOnce(s, ApplyDesk(s, a));
    case _ => ReadsKeepOnce(s, a);
  }

  lemma SettleKeepsOnce(s: State, request: nat)
    requires Once(s)
    ensures Once(Settle(s, request))
  {
    if MaySettle(s, request) {
      assert ClaimOk(s.refunds[s.requests[request].refund]);
      KeepsClaimsKeepsOnce(s, Settle(s, request));
    }
  }

  lemma NoticeKeepsOnce(s: State, a: NoticeAction)
    requires Once(s)
    ensures Once(ApplyNotice(s, a))
  {
    KeepsClaimsKeepsOnce(s, ApplyNotice(s, a));
  }

  lemma PayKeepsOnce(s: State, a: PayAction)
    requires Once(s)
    ensures Once(ApplyPay(s, a))
  {
    PayFrame(s, a);
    PayRequests(s, a);
    KeepsClaimsKeepsOnce(s, ApplyPay(s, a));
  }

  lemma OnceStep(s: State, a: Action)
    requires Once(s) && !LateApproval(s, a)
    ensures Once(Apply(s, a))
  {
    match a
    case Pay(pay) => PayKeepsOnce(s, pay);
    case Desk(desk) => DeskKeepsOnce(s, desk);
    case SettleRefund(request) => SettleKeepsOnce(s, request);
    case Outbox(step) => NoticeKeepsOnce(s, step);
    case _ =>
      assert Apply(s, a).refunds == s.refunds && Apply(s, a).requests == s.requests;
      KeepsClaimsKeepsOnce(s, Apply(s, a));
  }

  lemma {:induction false} OnceRun(s: State, actions: seq<Action>)
    requires Once(s) && TimelyRun(s, actions)
    ensures Once(Run(s, actions))
    decreases |actions|
  {
    if actions != [] {
      OnceStep(s, actions[0]);
      OnceRun(Apply(s, actions[0]), actions[1..]);
    }
  }

  /** Over any number of concurrent requests and reconciliations on a refund, the gateway is
      asked to initiate it at most once, provided no approval commits after its claim. */
  lemma {:induction false} GatewayAskedAtMostOnce(start: State, actions: seq<Action>, refund: nat)
    requires Opening(start) && TimelyRun(start, actions) && refund < |Run(start, actions).refunds|
    ensures Run(start, actions).refunds[refund].asked <= 1
  {
    OnceRun(start, actions);
  }

  // ---- After a late approval: exactly when the gateway can be asked again

  function Asks(s: State, refund: nat): nat {
    if refund < |s.refunds| then s.refunds[refund].asked else 0
  }

  /** A payout in flight that will go to the gateway whatever has been recorded since. */
  predicate SawNoReference(q: Request, refund: nat) {
    && (q.RefundRead? || (q.PaymentRead? && q.online))
    && q.refund == refund && q.dto.decision == Process && q.dto.reference.None? && q.seen.None?
  }

  ghost predicate CanAskAgain(s: State, refund: nat)
    requires refund < |s.refunds|
  {
    s.refunds[refund].reference.None? || exists k :: 0 <= k < |s.requests| && SawNoReference(s.requests[k], refund)
  }

  /** No payout will claim this refund again, and at most the one call is still to come. */
  ghost predicate Hushed(s: State, r: nat) {
    && r < |s.refunds| && s.refunds[r].reference.Some? && s.refunds[r].asked <= 1
    && (forall k :: 0 <= k < |s.requests| ==> !SawNoReference(s.requests[k], r))
    && (forall k :: 0 <= k < |s.requests| && s.requests[k] == Calling(r) ==> s.refunds[r].asked == 0)
    && (forall j, k :: 0 <= j < k < |s.requests| && s.requests[j] == Calling(r) ==> s.requests[k] != Calling(r))
  }

  /** Steps other than a call of this refund. */
  ghost predicate StaysHushed(s: State, t: State, r: nat) {
    && r < |s.refunds| <= |t.refunds| && |t.requests| >= |s.requests|
    && t.refunds[r].asked == s.refunds[r].asked && t.refunds[r].reference.Some?
    && (forall k :: 0 <= k < |t.requests| ==>
          (k < |s.requests| && t.requests[k] == s.requests[k])
          || (!SawNoReference(t.requests[k], r) && t.requests[k] != Calling(r)))
  }

  lemma StayingHushed(s: State, t: State, r: nat)
    requires Hushed(s, r) && StaysHushed(s, t, r)
    ensures Hushed(t, r)
  {
  }

  lemma HushedDesk(s: State, a: DeskAction, r: nat)
    requires Hushed(s, r)
    ensures Hushed(ApplyDesk(s, a), r)
  {
    if a.AskGateway? {
      HushedCall(s, a.request, r);
    } else if Reads(a) {
      ReadsFrame(s, a);
      ReadsStayHushed(s, a, r);
      StayingHushed(s, ApplyDesk(s, a), r);
    } else {
      WritesStayHushed(s, a, r);
      StayingHushed(s, ApplyDesk(s, a), r);
    }
  }

  lemma HushedCall(s: State, k: nat, r: nat)
    requires Hushed(s, r)
    ensures Hushed(ApplyDesk(s, AskGateway(k)), r)
  {
  }

  lemma ReadsStayHushed(s: State, a: DeskAction, r: nat)
    requires Hushed(s, r) && Reads(a)
    ensures StaysHushed(s, ApplyDesk(s, a), r)
  {
    if (a.ReadPayment? || a.ReadConfirmed? || a.CheckActive?) && a.request < |s.requests| {
      assert !SawNoReference(s.requests[a.request], r);
    }
  }

  lemma UpdateStaysHushed(s: State, k: nat, id: nat, row: Refund, r: nat)
    requires Hushed(s, r) && k < |s.requests| && id < |s.refunds|
    requires row.asked == s.refunds[id].asked && (s.refunds[id].reference.Some? ==> row.reference.Some?)
    ensures StaysHushed(s, UpdateRefund(Answer(s, k, Over), id, row), r)
  {
  }

  lemma WritesStayHushed(s: State, a: DeskAction, r: nat)
    requires Hushed(s, r) && !Reads(a) && !a.AskGateway?
    ensures StaysHushed(s, ApplyDesk(s, a), r)
  {
    match a
    case InsertRefund(k, payment, damaged) => InsertStaysHushed(s, k, payment, damaged, r);
    case Decide(k) =>
      if AtRefund(s, k) && s.requests[k].RefundRead? {
        UpdateStaysHushed(s, k, s.requests[k].refund, Decided(s.refunds[s.requests[k].refund], s.requests[k].dto), r);
      }
    case Claim(k) =>
      if MayClaim(s, k) {
        assert !SawNoReference(s.requests[k], r);
      }
    case GatewayReplies(k, reply, bank) =>
      if AtRefund(s, k) {
        var row := s.refunds[s.requests[k].refund];
        UpdateStaysHushed(s, k, s.requests[k].refund, AfterGateway(row, InitiationOutcome(reply, bank)), r);
      }
    case InquiryReplies(k, reply) => InquiryStaysHushed(s, k, reply, r);
  }

  lemma InsertStaysHushed(s: State, k: nat, payment: Option<nat>, damaged: bool, r: nat)
    requires Hushed(s, r)
    ensures StaysHushed(s, ApplyDesk(s, InsertRefund(k, payment, damaged)), r)
  {
  }

  lemma InquiryStaysHushed(s: State, k: nat, reply: Reply, r: nat)
    requires Hushed(s, r)
    ensures StaysHushed(s, ApplyDesk(s, InquiryReplies(k, reply)), r)
  {
    if AtRefund(s, k) && s.requests[k].Inquiring? {
      var id := s.requests[k].refund;
      UpdateStaysHushed(s, k, id, s.refunds[id].(status := Rejected), r);
      UpdateStaysHushed(s, k, id, s.refunds[id].(status := InProcess), r);
    }
  }

  lemma SettleStaysHushed(s: State, request: nat, r: nat)
    requires Hushed(s, r)
    ensures Hushed(Settle(s, request), r)
  {
    StayingHushed(s, Settle(s, request), r);
  }

  lemma NoticeStaysHushed(s: State, a: NoticeAction, r: nat)
    requires Hushed(s, r)
    ensures Hushed(ApplyNotice(s, a), r)
  {
    StayingHushed(s, ApplyNotice(s, a), r);
  }

  lemma HushedStep(s: State, a: Action, r: nat)
    requires Hushed(s, r)
    ensures Hushed(Apply(s, a), r)
  {
    match a
    case Desk(desk) => HushedDesk(s, desk, r);
    case Pay(pay) =>
      PayFrame(s, pay);
      PayRequests(s, pay);
      StayingHushed(s, Apply(s, a), r);
    case SettleRefund(request) => SettleStaysHushed(s, request, r);
    case Outbox(step) => NoticeStaysHushed(s, step, r);
    case _ =>
      assert Apply(s, a).refunds == s.refunds && Apply(s, a).requests == s.requests;
      StayingHushed(s, Apply(s, a), r);
  }

  lemma {:induction false} HushedRun(s: State, actions: seq<Action>, r: nat)
    requires Hushed(s, r)
    ensures Hushed(Run(s, actions), r)
    decreases |actions|
  {
    if actions != [] {
      HushedStep(s, actions[0], r);
      HushedRun(Apply(s, actions[0]), actions[1..], r);
    }
  }

  /** The refund is claimed by request `j`; the requests that were about to call still are. */
  ghost predicate ClaimedBy(s: State, u: State, r: nat, j: nat)
    requires r < |s.refunds|
  {
    && u.refunds == s.refunds[r := s.refunds[r].(status := InProcess, claimed := true)]
    && |u.requests| >= |s.requests| && CallingFor(u, j, r)
    && forall k :: 0 <= k < |s.requests| && s.requests[k].Calling? ==> k != j && u.requests[k] == s.requests[k]
  }

  /** The refund stands open and online, and a payout may still go to the gateway for it. */
  ghost predicate Claimable(s: State, r: nat) {
    && r < |s.refunds| && s.refunds[r].status == Approved && IsOnline(s.payments, s.refunds[r].payment)
  }

  lemma ClaimLooked(s: State, r: nat, j: nat)
    requires Claimable(s, r) && j < |s.requests| && s.requests[j].PaymentRead? && SawNoReference(s.requests[j], r)
    ensures ClaimedBy(s, Apply(s, Desk(Claim(j))), r, j)
  {
    assert MayClaim(s, j);
  }

  lemma ClaimRead(s: State, r: nat, j: nat)
    requires Claimable(s, r) && j < |s.requests| && s.requests[j].RefundRead? && SawNoReference(s.requests[j], r)
    ensures ClaimedBy(s, Apply(Apply(s, Desk(ReadPayment(j))), Desk(Claim(j))), r, j)
  {
    var u := Apply(s, Desk(ReadPayment(j)));
    assert u == s.(requests := s.requests[j := PaymentRead(r, s.requests[j].dto, None, true)]);
    ClaimLooked(u, r, j);
  }

  lemma ClaimAnew(s: State, r: nat)
    requires Claimable(s, r) && s.refunds[r].reference.None?
    ensures var j := |s.requests|;
      ClaimedBy(s, Apply(Apply(Apply(s, Desk(ReadRefund(r, PLAIN))), Desk(ReadPayment(j))), Desk(Claim(j))), r, j)
  {
    var j := |s.requests|;
    var u := Apply(s, Desk(ReadRefund(r, PLAIN)));
    assert u == s.(requests := s.requests + [RefundRead(r, PLAIN, None)]);
    ClaimRead(u, r, j);
  }

  lemma ClaimIsReachable(s: State, r: nat) returns (more: seq<Action>, j: nat)
    requires Claimable(s, r) && CanAskAgain(s, r)
    ensures ClaimedBy(s, Run(s, more), r, j)
  {
    if s.refunds[r].reference.None? {
      j := |s.requests|;
      more := [Desk(ReadRefund(r, PLAIN)), Desk(ReadPayment(j)), Desk(Claim(j))];
      RunThree(s, more[0], more[1], more[2]);
      ClaimAnew(s, r);
    } else {
      j :| j < |s.requests| && SawNoReference(s.requests[j], r);
      if s.requests[j].RefundRead? {
        more := [Desk(ReadPayment(j)), Desk(Claim(j))];
        RunTwo(s, more[0], more[1]);
        ClaimRead(s, r, j);
      } else {
        more := [Desk(Claim(j))];
        RunOne(s, more[0]);
        ClaimLooked(s, r, j);
      }
    }
  }

  lemma CallCounts(s: State, k: nat, r: nat)
    requires CallingFor(s, k, r) && r < |s.refunds|
    ensures var t := Apply(s, Desk(AskGateway(k)));
      && |t.refunds| == |s.refunds| && t.refunds[r].asked == s.refunds[r].asked + 1
      && t.requests == s.requests[k := Asked(r)]
  {
  }

  /** The state after the approval: claimed and approved, called for or about to be. */
  ghost predicate ApprovedLate(s: State, r: nat) {
    && r < |s.refunds| && s.refunds[r].status == Approved && s.refunds[r].claimed && s.refunds[r].asked <= 1
    && (s.refunds[r].asked == 0 ==> CallPending(s, r))
    && (forall k :: 0 <= k < |s.requests| && s.requests[k] == Calling(r) ==> s.refunds[r].asked == 0)
    && OneCaller(s)
  }

  lemma ApprovedLateStays(s: State, t: State, r: nat)
    requires ApprovedLate(s, r) && t.refunds == s.refunds && t.requests == s.requests
    ensures ApprovedLate(t, r) && (CanAskAgain(t, r) <==> CanAskAgain(s, r))
  {
    if s.refunds[r].asked == 0 {
      var k: nat :| CallingFor(s, k, r);
      assert CallingFor(t, k, r);
    }
  }

  /** When the payment is not completed, a success callback completes it first. */
  lemma LateCallIsReachable(s: State, r: nat) returns (more: seq<Action>)
    requires ApprovedLate(s, r) && TranOf(s.payments, s.refunds[r].payment).Some? && CanAskAgain(s, r)
    ensures Asks(Run(s, more), r) >= 2
  {
    if IsOnline(s.payments, s.refunds[r].payment) {
      more := SecondCallIsReachable(s, r);
    } else {
      var a := Pay(Success(s.refunds[r].payment.value));
      var t := Apply(s, a);
      SuccessFrame(s, a.pay.payment);
      assert t.requests == s.requests && IsOnline(t.payments, t.refunds[r].payment);
      ApprovedLateStays(s, t, r);
      var rest := SecondCallIsReachable(t, r);
      more := [a] + rest;
      assert more[1..] == rest;
    }
  }

  lemma SecondCallIsReachable(s: State, r: nat) returns (more: seq<Action>)
    requires ApprovedLate(s, r) && Claimable(s, r) && CanAskAgain(s, r)
    ensures Asks(Run(s, more), r) >= 2
  {
    var claim, j := ClaimIsReachable(s, r);
    var u := Run(s, claim);
    if s.refunds[r].asked == 1 {
      more := claim + [Desk(AskGateway(j))];
      RunConcat(s, claim, [Desk(AskGateway(j))]);
      RunOne(u, Desk(AskGateway(j)));
      CallCounts(u, j, r);
    } else {
      var k: nat :| CallingFor(s, k, r);
      assert CallingFor(u, k, r);
      var calls := [Desk(AskGateway(k)), Desk(AskGateway(j))];
      more := claim + calls;
      RunConcat(s, claim, calls);
      RunTwo(u, calls[0], calls[1]);
      CallCounts(u, k, r);
      CallCounts(Apply(u, calls[0]), j, r);
    }
  }

  lemma ApprovalIsLate(s: State, k: nat)
    requires Once(s) && ReturnRows.OneActive(s.refunds) && LateApproval(s, Desk(Decide(k)))
    ensures ApprovedLate(Apply(s, Desk(Decide(k))), s.requests[k].refund)
  {
    var r := s.requests[k].refund;
    var t := Apply(s, Desk(Decide(k)));
    assert ClaimOk(s.refunds[r]);
    assert t == Answer(s, k, Over).(refunds := s.refunds[r := Decided(s.refunds[r], s.requests[k].dto)]);
    if s.refunds[r].asked == 0 {
      var c: nat :| CallingFor(s, c, r);
      assert CallingFor(t, c, r);
    }
    forall c | 0 <= c < |t.requests| && t.requests[c] == Calling(r) ensures t.refunds[r].asked == 0 {
      assert CarriesOk(s, s.requests[c]);
    }
  }

  /** The approval adds at most its own reference to the condition. */
  lemma ConditionStands(s: State, k: nat)
    requires ReturnRows.OneActive(s.refunds) && LateApproval(s, Desk(Decide(k)))
    ensures var r := s.requests[k].refund;
            var t := Apply(s, Desk(Decide(k)));
      && r < |t.refunds|
      && (CanAskAgain(t, r) <==>
            || (s.refunds[r].reference.None? && s.requests[k].dto.reference.None?)
            || exists j :: 0 <= j < |s.requests| && SawNoReference(s.requests[j], r))
  {
    var r := s.requests[k].refund;
    var t := Apply(s, Desk(Decide(k)));
    assert t == Answer(s, k, Over).(refunds := s.refunds[r := Decided(s.refunds[r], s.requests[k].dto)]);
    if j :| 0 <= j < |s.requests| && SawNoReference(s.requests[j], r) {
      assert SawNoReference(t.requests[j], r);
    }
    if j :| 0 <= j < |t.requests| && SawNoReference(t.requests[j], r) {
      assert SawNoReference(s.requests[j], r);
    }
  }

  /** The exact condition.  After an approval that commits on a claimed refund paid online,
      whatever its payment's status now, some continuation asks the gateway a second time if and
      only if neither the refund nor the approval has a reference, or a payout in flight saw
      none. */
  lemma {:induction false} LateApprovalAsksAgainIff(s: State, k: nat)
    requires Once(s) && ReturnRows.OneActive(s.refunds) && LateApproval(s, Desk(Decide(k)))
    requires TranOf(s.payments, s.refunds[s.requests[k].refund].payment).Some?
    ensures var r := s.requests[k].refund;
            var t := Apply(s, Desk(Decide(k)));
      (exists more: seq<Action> :: Asks(Run(t, more), r) >= 2) <==>
        || (s.refunds[r].reference.None? && s.requests[k].dto.reference.None?)
        || exists j :: 0 <= j < |s.requests| && SawNoReference(s.requests[j], r)
  {
    var r := s.requests[k].refund;
    var t := Apply(s, Desk(Decide(k)));
    ApprovalIsLate(s, k);
    ConditionStands(s, k);
    if CanAskAgain(t, r) {
      var more := LateCallIsReachable(t, r);
    } else {
      assert Hushed(t, r);
      forall more: seq<Action> ensures Asks(Run(t, more), r) < 2 {
        HushedRun(t, more, r);
      }
    }
  }
}
