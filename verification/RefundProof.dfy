/** Money paid online goes back only on proof: an admin's gateway reference, or an inquiry about
    this refund that was authenticated, matched every identity and answered "refunded" -- as long
    as no payout reads the payment of an open refund before it is completed, and no approval
    commits on a refund whose reference only the gateway has given; and exactly those two steps
    make a settlement without proof possible. */
module RefundProof {
  import opened Basics
  import opened Gateway
  import opened Tables
  import opened Shop
  import ReturnRows

  // ---- The condition

  /** The refund's payment was made online, whatever its status is now. */
  predicate PaidOnline(s: State, r: nat) {
    r < |s.refunds| && TranOf(s.payments, s.refunds[r].payment).Some?
  }

  predicate HasProof(r: Refund) {
    r.adminReference || r.inquired
  }

  /** No payout without a reference settles this refund, or it has its proof. */
  predicate Safe(r: Refund) {
    HasProof(r) || r.status == InProcess || Closed(r.status)
  }

  /** A payout in flight whose payment read saw no completed online payment, so that the admin's
      notes are enough for it. */
  predicate SettlesOnNotes(s: State, k: nat, r: nat) {
    && k < |s.requests| && s.requests[k].PaymentRead? && !s.requests[k].online && s.requests[k].refund == r
    && s.requests[k].dto.decision == Process && s.requests[k].dto.reference.None? && s.requests[k].dto.hasNotes
  }

  /** A payout with notes and without a reference reads an online payment that is not completed,
      for an open refund without proof. */
  predicate CashRead(s: State, a: Action) {
    && a.Desk? && a.desk.ReadPayment? && AtRefund(s, a.desk.request)
    && var q := s.requests[a.desk.request];
       && q.RefundRead? && q.dto.decision == Process && q.dto.reference.None? && q.dto.hasNotes
       && PaidOnline(s, q.refund) && !IsOnline(s.payments, s.refunds[q.refund].payment)
       && !Safe(s.refunds[q.refund])
  }

  /** An approval without a reference commits on an open refund without proof, though a payout
      may settle on the reference the gateway's answer to the initiation left, or on notes. */
  ghost predicate UnprovenApproval(s: State, a: Action) {
    && a.Desk? && a.desk.Decide? && AtRefund(s, a.desk.request) && s.requests[a.desk.request].RefundRead?
    && s.requests[a.desk.request].dto.decision == Approve && s.requests[a.desk.request].dto.reference.None?
    && var r := s.requests[a.desk.request].refund;
       && PaidOnline(s, r) && !Closed(s.refunds[r].status) && !HasProof(s.refunds[r])
       && (s.refunds[r].reference.Some? || exists k: nat :: SettlesOnNotes(s, k, r))
  }

  ghost predicate Unproven(s: State, a: Action) {
    CashRead(s, a) || UnprovenApproval(s, a)
  }

  ghost predicate ProvenRun(s: State, actions: seq<Action>)
    decreases |actions|
  {
    actions == [] || (!Unproven(s, actions[0]) && ProvenRun(Apply(s, actions[0]), actions[1..]))
  }

  // ---- Invariant

  /** Where there is a reference or a payout on notes, the refund is safe. */
  ghost predicate RowOk(s: State, r: nat) {
    && (r < |s.refunds| ==> IsPayment(s.payments, s.refunds[r].payment))
    && (PaidOnline(s, r) && s.refunds[r].reference.Some? ==> Safe(s.refunds[r]))
    && (PaidOnline(s, r) && !Safe(s.refunds[r]) ==> forall k: nat :: !SettlesOnNotes(s, k, r))
  }

  predicate SeenOk(s: State, q: Request) {
    q.RefundRead? || q.PaymentRead? ==>
      q.refund < |s.refunds| && (q.seen.Some? ==> s.refunds[q.refund].reference.Some?)
  }

  ghost predicate Inv(s: State) {
    && (forall r: nat :: RowOk(s, r))
    && (forall k :: 0 <= k < |s.requests| ==> SeenOk(s, s.requests[k]))
  }

  /** Payments and refunds stay; references stay; a refund that changed is safe, was not paid
      online, or has neither a reference nor a payout on notes; requests that changed see no more
      than there is, and settle on notes only what is safe. */
  ghost predicate Keeps(s: State, t: State) {
    && SameOnline(s.payments, t.payments) && |t.refunds| >= |s.refunds|
    && (forall r :: 0 <= r < |s.refunds| ==>
          && t.refunds[r].payment == s.refunds[r].payment
          && (s.refunds[r].reference.Some? ==> t.refunds[r].reference.Some?)
          && RowMoves(s, r, t.refunds[r]))
    && (forall r :: |s.refunds| <= r < |t.refunds| ==>
          t.refunds[r].reference.None? && IsPayment(t.payments, t.refunds[r].payment))
    && (forall k :: 0 <= k < |t.requests| ==>
          || (k < |s.requests| && t.requests[k] == s.requests[k])
          || (SeenOk(t, t.requests[k]) && !NewOnNotes(t, k)))
  }

  ghost predicate RowMoves(s: State, r: nat, row: Refund)
    requires r < |s.refunds|
  {
    || row == s.refunds[r] || Safe(row) || !PaidOnline(s, r)
    || (row.reference.None? && forall k: nat :: !SettlesOnNotes(s, k, r))
  }

  predicate NewOnNotes(t: State, k: nat)
    requires k < |t.requests| && SeenOk(t, t.requests[k])
  {
    && t.requests[k].PaymentRead? && SettlesOnNotes(t, k, t.requests[k].refund)
    && PaidOnline(t, t.requests[k].refund) && !Safe(t.refunds[t.requests[k].refund])
  }

  lemma KeepsKeepsInv(s: State, t: State)
    requires Inv(s) && Keeps(s, t)
    ensures Inv(t)
  {
    forall k | 0 <= k < |t.requests| ensures SeenOk(t, t.requests[k]) {
      if k < |s.requests| && t.requests[k] == s.requests[k] {
        assert SeenOk(s, s.requests[k]);
      }
    }
    assert forall k: nat, r: nat ::
      (k < |s.requests| && k < |t.requests| && t.requests[k] == s.requests[k] && SettlesOnNotes(t, k, r)) ==>
        SeenOk(s, s.requests[k]) && SettlesOnNotes(s, k, r);
    forall r: nat ensures RowOk(t, r) {
      assert RowOk(s, r);
      if r < |s.refunds| {
        assert RowMoves(s, r, t.refunds[r]) && PaidOnline(t, r) == PaidOnline(s, r);
      }
    }
  }

  lemma UpdateKeepsInv(s: State, k: nat, id: nat, row: Refund)
    requires Inv(s) && k < |s.requests| && id < |s.refunds| && row.payment == s.refunds[id].payment
    requires RowMoves(s, id, row) && (s.refunds[id].reference.Some? ==> row.reference.Some?)
    ensures Inv(UpdateRefund(Answer(s, k, Over), id, row))
  {
    KeepsKeepsInv(s, UpdateRefund(Answer(s, k, Over), id, row));
  }

  lemma DecideKeepsInv(s: State, k: nat)
    requires Inv(s) && !UnprovenApproval(s, Desk(Decide(k)))
    ensures Inv(ApplyDesk(s, Decide(k)))
  {
    if AtRefund(s, k) && s.requests[k].RefundRead? && s.requests[k].dto.decision != Process {
      var r := s.requests[k].refund;
      KeepsKeepsInv(s, Answer(s, k, Over));
      if !Closed(s.refunds[r].status) {
        UpdateKeepsInv(s, k, r, Decided(s.refunds[r], s.requests[k].dto));
      }
    }
  }

  lemma InquiryKeepsInv(s: State, k: nat, reply: Reply)
    requires Inv(s)
    ensures Inv(ApplyDesk(s, InquiryReplies(k, reply)))
  {
    if AtRefund(s, k) && s.requests[k].Inquiring? {
      var q := s.requests[k];
      match InquiryOutcome(reply, q.reference, q.bankTran, q.tran)
      case InquiryRefunded => KeepsKeepsInv(s, Answer(s, k, Confirmed(q.refund, q.reference)));
      case InquiryCancelled => UpdateKeepsInv(s, k, q.refund, s.refunds[q.refund].(status := Rejected));
      case InquiryUnsettled => UpdateKeepsInv(s, k, q.refund, s.refunds[q.refund].(status := InProcess));
    }
  }

  lemma ReadsKeepInv(s: State, a: DeskAction)
    requires Inv(s) && Reads(a) && !CashRead(s, Desk(a))
    ensures Inv(ApplyDesk(s, a))
  {
    ReadsFrame(s, a);
    if (a.ReadPayment? || a.ReadConfirmed? || a.CheckActive?) && a.request < |s.requests| {
      assert SeenOk(s, s.requests[a.request]);
    }
    KeepsKeepsInv(s, ApplyDesk(s, a));
  }

  lemma CallKeepsInv(s: State, a: DeskAction)
    requires Inv(s) && (a.Claim? || a.AskGateway? || a.InsertRefund?)
    ensures Inv(ApplyDesk(s, a))
  {
    if a.AskGateway? && AtRefund(s, a.request) && s.requests[a.request].Calling? {
      AskKeepsInv(s, a.request);
    } else {
      KeepsKeepsInv(s, ApplyDesk(s, a));
    }
  }

  lemma AskKeepsInv(s: State, k: nat)
    requires Inv(s) && AtRefund(s, k) && s.requests[k].Calling?
    ensures Inv(ApplyDesk(s, AskGateway(k)))
  {
    var t := ApplyDesk(s, AskGateway(k));
    var r := s.requests[k].refund;
    assert RowOk(s, r);
    KeepsKeepsInv(s, t);
  }

  lemma DeskKeepsInv(s: State, a: DeskAction)
    requires Inv(s) && !Unproven(s, Desk(a))
    ensures Inv(ApplyDesk(s, a))
  {
    match a
    case Decide(k) => DecideKeepsInv(s, k);
    case GatewayReplies(k, reply, bank) =>
      if AtRefund(s, k) && s.requests[k].Asked? {
        var r := s.requests[k].refund;
        UpdateKeepsInv(s, k, r, AfterGateway(s.refunds[r], InitiationOutcome(reply, bank)));
      }
    case InquiryReplies(k, reply) => InquiryKeepsInv(s, k, reply);
    case Claim(_) => CallKeepsInv(s, a);
    case AskGateway(_) => CallKeepsInv(s, a);
    case InsertRefund(_, _, _) => CallKeepsInv(s, a);
    case _ => ReadsKeepInv(s, a);
  }

  lemma SettleKeepsInv(s: State, request: nat)
    requires Inv(s)
    ensures Inv(Settle(s, request))
  {
    KeepsKeepsInv(s, Settle(s, request));
  }

  lemma NoticeKeepsInv(s: State, a: NoticeAction)
    requires Inv(s)
    ensures Inv(ApplyNotice(s, a))
  {
    KeepsKeepsInv(s, ApplyNotice(s, a));
  }

  lemma PayKeepsInv(s: State, a: PayAction)
    requires Inv(s)
    ensures Inv(ApplyPay(s, a))
  {
    PayFrame(s, a);
    PayRequests(s, a);
    PaymentsStay(s, a);
    KeepsKeepsInv(s, ApplyPay(s, a));
  }

  lemma InvStep(s: State, a: Action)
    requires Inv(s) && !Unproven(s, a)
    ensures Inv(Apply(s, a))
  {
    match a
    case Desk(desk) => DeskKeepsInv(s, desk);
    case SettleRefund(request) => SettleKeepsInv(s, request);
    case Outbox(step) => NoticeKeepsInv(s, step);
    case Pay(pay) => PayKeepsInv(s, pay);
    case _ => RestKeepsInv(s, a);
  }

  lemma RestKeepsInv(s: State, a: Action)
    requires Inv(s) && !a.Desk? && !a.SettleRefund? && !a.Outbox? && !a.Pay?
    ensures Inv(Apply(s, a))
  {
    var t := Apply(s, a);
    assert t.refunds == s.refunds && t.requests == s.requests && SameOnline(s.payments, t.payments);
    KeepsKeepsInv(s, t);
  }

  lemma {:induction false} InvRun(s: State, actions: seq<Action>)
    requires Inv(s) && ProvenRun(s, actions)
    ensures Inv(Run(s, actions))
    decreases |actions|
  {
    if actions != [] {
      InvStep(s, actions[0]);
      InvRun(Apply(s, actions[0]), actions[1..]);
    }
  }

  /** A settlement of a refund paid online that neither the request nor the row has proof for. */
  predicate UnprovenSettlement(s: State, request: nat) {
    && MaySettle(s, request) && PaidOnline(s, s.requests[request].refund)
    && s.requests[request].dto.reference.None? && !HasProof(s.refunds[s.requests[request].refund])
  }

  lemma NothingUnproven(s: State, request: nat)
    requires Inv(s)
    ensures !UnprovenSettlement(s, request)
  {
    if MaySettle(s, request) {
      var r := s.requests[request].refund;
      assert SeenOk(s, s.requests[request]) && RowOk(s, r);
      assert !s.requests[request].online && s.requests[request].dto.reference.None? ==>
        SettlesOnNotes(s, request, r);
    }
  }

  // ---- Where the proof comes from

  /** The inquiry step of request `k` about this refund and reference, answered "refunded" by an
      authenticated reply whose every identity is the expected one. */
  predicate AnsweredRefunded(s: State, a: Action, k: nat, refund: nat, reference: nat) {
    && a.Desk? && a.desk.InquiryReplies? && a.desk.request == k && k < |s.requests|
    && s.requests[k].Inquiring? && s.requests[k].refund == refund && s.requests[k].reference == reference
    && var q := s.requests[k];
       var reply := a.desk.reply;
       && reply.Body? && reply.apiConnect == Done && reply.status == WordRefunded
       && (reply.refundRef.None? || reply.refundRef == Some(reference))
       && (reply.bankTran.None? || q.bankTran.None? || reply.bankTran == q.bankTran)
       && (reply.tran.None? || q.tran.None? || reply.tran == q.tran)
  }

  /** Such a step lies in the run. */
  ghost predicate InquiryIn(s: State, actions: seq<Action>, k: nat, refund: nat, reference: nat)
    decreases |actions|
  {
    actions != []
    && (AnsweredRefunded(s, actions[0], k, refund, reference)
        || InquiryIn(Apply(s, actions[0]), actions[1..], k, refund, reference))
  }

  /** The refund and reference a request carries as confirmed. */
  function Carried(q: Request): Option<(nat, nat)> {
    match q
    case Confirmed(refund, reference) => Some((refund, reference))
    case RefundRead(refund, dto, _) =>
      if dto.confirmed && dto.reference.Some? then Some((refund, dto.reference.value)) else None
    case PaymentRead(refund, dto, _, _) =>
      if dto.confirmed && dto.reference.Some? then Some((refund, dto.reference.value)) else None
    case _ => None
  }

  predicate Carries(s: State, k: nat, refund: nat, reference: nat) {
    k < |s.requests| && Carried(s.requests[k]) == Some((refund, reference))
  }

  lemma CarryingDesk(s: State, a: DeskAction, k: nat, refund: nat, reference: nat)
    requires Carries(ApplyDesk(s, a), k, refund, reference)
    ensures Carries(s, k, refund, reference) || AnsweredRefunded(s, Desk(a), k, refund, reference)
  {
    match a
    case InquiryReplies(j, reply) => CarryingInquiry(s, j, reply, k, refund, reference);
    case Decide(j) => CarryingDecision(s, j, k, refund, reference);
    case GatewayReplies(_, _, _) =>
    case Claim(_) =>
    case AskGateway(_) =>
    case InsertRefund(_, _, _) =>
    case _ => ReadsFrame(s, a);
  }

  lemma CarryingDecision(s: State, j: nat, k: nat, refund: nat, reference: nat)
    requires Carries(ApplyDesk(s, Decide(j)), k, refund, reference)
    ensures Carries(s, k, refund, reference)
  {
  }

  lemma CarryingInquiry(s: State, j: nat, reply: Reply, k: nat, refund: nat, reference: nat)
    requires Carries(ApplyDesk(s, InquiryReplies(j, reply)), k, refund, reference)
    ensures Carries(s, k, refund, reference)
         || AnsweredRefunded(s, Desk(InquiryReplies(j, reply)), k, refund, reference)
  {
    if AtRefund(s, j) && s.requests[j].Inquiring? && j == k {
      var q := s.requests[j];
      SettledOnlyWhenRefunded(reply, q.reference, q.bankTran, q.tran);
    }
  }

  lemma CarryingStep(s: State, a: Action, k: nat, refund: nat, reference: nat)
    requires Carries(Apply(s, a), k, refund, reference)
    ensures Carries(s, k, refund, reference) || AnsweredRefunded(s, a, k, refund, reference)
  {
    match a
    case Desk(desk) => CarryingDesk(s, desk, k, refund, reference);
    case Pay(pay) => PayRequests(s, pay);
    case SettleRefund(_) =>
    case Outbox(step) => CarryingNotice(s, step, k, refund, reference);
    case _ => assert Apply(s, a).requests == s.requests;
  }

  lemma CarryingNotice(s: State, a: NoticeAction, k: nat, refund: nat, reference: nat)
    requires Carries(ApplyNotice(s, a), k, refund, reference)
    ensures Carries(s, k, refund, reference)
  {
  }

  /** What a request carries as confirmed, an inquiry of its own has answered. */
  lemma {:induction false} ConfirmedByInquiry(s: State, actions: seq<Action>, k: nat, refund: nat, reference: nat)
    requires Carries(Run(s, actions), k, refund, reference)
    ensures Carries(s, k, refund, reference) || InquiryIn(s, actions, k, refund, reference)
    decreases |actions|
  {
    if actions != [] {
      var t := Apply(s, actions[0]);
      ConfirmedByInquiry(t, actions[1..], k, refund, reference);
      if Carries(t, k, refund, reference) {
        CarryingStep(s, actions[0], k, refund, reference);
      }
    }
  }

  predicate IsInquired(s: State, refund: nat) {
    refund < |s.refunds| && s.refunds[refund].inquired
  }

  ghost predicate SomeInquiryIn(s: State, actions: seq<Action>, refund: nat) {
    exists k: nat, reference: nat :: InquiryIn(s, actions, k, refund, reference)
  }

  ghost predicate SomeCarries(s: State, refund: nat) {
    exists k: nat, reference: nat :: Carries(s, k, refund, reference)
  }

  /** Only a settlement whose request carries a confirmation marks a refund. */
  lemma InquiredStep(s: State, a: Action, refund: nat)
    requires IsInquired(Apply(s, a), refund) && !IsInquired(s, refund)
    ensures SomeCarries(s, refund)
  {
    match a
    case SettleRefund(k) =>
      if MaySettle(s, k) {
        assert Carries(s, k, refund, s.requests[k].dto.reference.value);
      }
    case Desk(desk) => DeskKeepsInquired(s, desk, refund);
    case Pay(pay) => PayFrame(s, pay);
    case Outbox(_) =>
    case _ =>
  }

  lemma UpdateKeepsInquired(s: State, k: nat, id: nat, row: Refund, refund: nat)
    requires k < |s.requests| && id < |s.refunds| && row.inquired == s.refunds[id].inquired
    ensures IsInquired(UpdateRefund(Answer(s, k, Over), id, row), refund) ==> IsInquired(s, refund)
  {
  }

  lemma DeskKeepsInquired(s: State, a: DeskAction, refund: nat)
    ensures IsInquired(ApplyDesk(s, a), refund) ==> IsInquired(s, refund)
  {
    match a
    case Decide(k) =>
      if AtRefund(s, k) && s.requests[k].RefundRead? {
        var r := s.requests[k].refund;
        UpdateKeepsInquired(s, k, r, Decided(s.refunds[r], s.requests[k].dto), refund);
      }
    case GatewayReplies(k, reply, bank) =>
      if AtRefund(s, k) {
        var r := s.requests[k].refund;
        UpdateKeepsInquired(s, k, r, AfterGateway(s.refunds[r], InitiationOutcome(reply, bank)), refund);
      }
    case InquiryReplies(k, reply) =>
      if AtRefund(s, k) {
        var r := s.requests[k].refund;
        UpdateKeepsInquired(s, k, r, s.refunds[r].(status := Rejected), refund);
        UpdateKeepsInquired(s, k, r, s.refunds[r].(status := InProcess), refund);
      }
    case Claim(_) =>
    case AskGateway(_) =>
    case InsertRefund(_, _, _) =>
    case _ => ReadsFrame(s, a);
  }

  lemma {:induction false} InquiredByInquiry(s: State, actions: seq<Action>, refund: nat)
    requires IsInquired(Run(s, actions), refund)
    ensures IsInquired(s, refund) || SomeCarries(s, refund) || SomeInquiryIn(s, actions, refund)
    decreases |actions|
  {
    if actions != [] {
      var t := Apply(s, actions[0]);
      InquiredByInquiry(t, actions[1..], refund);
      if SomeInquiryIn(t, actions[1..], refund) {
        var k: nat, reference: nat :| InquiryIn(t, actions[1..], k, refund, reference);
        assert InquiryIn(s, actions, k, refund, reference);
      } else if SomeCarries(t, refund) {
        var k: nat, reference: nat :| Carries(t, k, refund, reference);
        CarryingStep(s, actions[0], k, refund, reference);
        if AnsweredRefunded(s, actions[0], k, refund, reference) {
          assert InquiryIn(s, actions, k, refund, reference);
        }
      } else if !IsInquired(s, refund) {
        InquiredStep(s, actions[0], refund);
      }
    }
  }

  /** The main result.  In every state a run without unproven steps reaches, each settlement of a
      refund paid online -- the first or a repeated one, whatever the payment's status is now --
      rests on a reference an admin supplied, now or before, or on an inquiry in the run about
      this very refund whose authenticated, matching reply said "refunded"; and a request that
      says it was confirmed made that inquiry itself, about the reference it settles with. */
  lemma {:induction false} OnlineSettlementHasProof(start: State, actions: seq<Action>, request: nat)
    requires Opening(start) && ProvenRun(start, actions)
    requires MaySettle(Run(start, actions), request)
    requires PaidOnline(Run(start, actions), Run(start, actions).requests[request].refund)
    ensures var s := Run(start, actions);
            var q := s.requests[request];
      && (|| s.refunds[q.refund].adminReference
          || (q.dto.reference.Some? && !q.dto.confirmed)
          || SomeInquiryIn(start, actions, q.refund))
      && (q.dto.confirmed && q.dto.reference.Some? ==>
            InquiryIn(start, actions, request, q.refund, q.dto.reference.value))
  {
    InvRun(start, actions);
    var s := Run(start, actions);
    var q := s.requests[request];
    NothingUnproven(s, request);
    if q.dto.confirmed && q.dto.reference.Some? {
      assert Carries(s, request, q.refund, q.dto.reference.value);
      ConfirmedByInquiry(start, actions, request, q.refund, q.dto.reference.value);
    } else if q.dto.reference.None? && !s.refunds[q.refund].adminReference {
      InquiredByInquiry(start, actions, q.refund);
    }
  }

  // ---- Exactly which steps make an unproven settlement possible

  /** A payout of a refund with a reference, once the payment is completed. */
  lemma ReferenceSettles(s: State, r: nat) returns (more: seq<Action>)
    requires r < |s.refunds| && s.refunds[r].status == Approved && s.refunds[r].reference.Some?
    requires !HasProof(s.refunds[r]) && s.refunds[r].order < |s.orders|
    requires IsOnline(s.payments, s.refunds[r].payment)
    ensures ProvenRun(s, more) && |Run(s, more).requests| == |s.requests| + 1
    ensures UnprovenSettlement(Run(s, more), |s.requests|) && Run(s, more).requests[|s.requests|].refund == r
    ensures Run(s, more).refunds == s.refunds && Run(s, more).orders == s.orders
  {
    var j := |s.requests|;
    var seen := s.refunds[r].reference;
    more := [Desk(ReadRefund(r, PLAIN)), Desk(ReadPayment(j))];
    var s1 := Apply(s, more[0]);
    assert s1 == s.(requests := s.requests + [RefundRead(r, PLAIN, seen)]);
    var s2 := Apply(s1, more[1]);
    assert s2 == s1.(requests := s1.requests[j := PaymentRead(r, PLAIN, seen, true)]);
    RunTwo(s, more[0], more[1]);
    assert more[1..] == [more[1]] && [more[1]][1..] == [];
    assert ProvenRun(s1, [more[1]]);
    assert MaySettle(s2, j);
  }

  /** The same whatever the payment's status: a success callback completes it first. */
  lemma ReferenceSettlesLater(s: State, r: nat) returns (more: seq<Action>)
    requires PaidOnline(s, r) && s.refunds[r].status == Approved && s.refunds[r].reference.Some?
    requires !HasProof(s.refunds[r]) && s.refunds[r].order < |s.orders|
    ensures ProvenRun(s, more) && UnprovenSettlement(Run(s, more), |s.requests|)
  {
    if IsOnline(s.payments, s.refunds[r].payment) {
      more := ReferenceSettles(s, r);
    } else {
      var a := Pay(Success(s.refunds[r].payment.value));
      var t := Apply(s, a);
      SuccessFrame(s, a.pay.payment);
      assert t.requests == s.requests && IsOnline(t.payments, t.refunds[r].payment);
      var rest := ReferenceSettles(t, r);
      more := [a] + rest;
      assert more[1..] == rest;
    }
  }

  /** Some run without a further unproven step leads to an unproven settlement. */
  ghost predicate UnprovenAhead(s: State) {
    exists more: seq<Action>, request: nat :: ProvenRun(s, more) && UnprovenSettlement(Run(s, more), request)
  }

  lemma NotesSettle(s: State, k: nat, r: nat)
    requires SettlesOnNotes(s, k, r) && PaidOnline(s, r) && !Safe(s.refunds[r]) && s.refunds[r].order < |s.orders|
    ensures UnprovenAhead(s)
  {
    assert MaySettle(s, k);
    assert ProvenRun(s, []) && UnprovenSettlement(Run(s, []), k);
  }

  lemma ApprovalSettles(s: State, a: Action)
    requires UnprovenApproval(s, a) && ReturnRows.OneActive(s.refunds)
    requires s.refunds[s.requests[a.desk.request].refund].order < |s.orders|
    ensures UnprovenAhead(Apply(s, a))
  {
    var k := a.desk.request;
    var r := s.requests[k].refund;
    var t := Apply(s, a);
    assert t == Answer(s, k, Over).(refunds := s.refunds[r := Decided(s.refunds[r], s.requests[k].dto)]);
    if s.refunds[r].reference.Some? {
      var more := ReferenceSettlesLater(t, r);
    } else {
      var j: nat :| SettlesOnNotes(s, j, r);
      assert t.requests[j] == s.requests[j];
      NotesSettle(t, j, r);
    }
  }

  /** The exact condition, for every step: after it an unproven settlement is possible if and
      only if it was a payout's read of an uncompleted online payment, or an approval, of the two
      kinds above. */
  lemma {:induction false} UnprovenSettlementIff(s: State, a: Action)
    requires Inv(s) && ReturnRows.OneActive(s.refunds)
    requires forall r :: 0 <= r < |s.refunds| ==> s.refunds[r].order < |s.orders|
    ensures UnprovenAhead(Apply(s, a)) <==> Unproven(s, a)
  {
    var t := Apply(s, a);
    if UnprovenApproval(s, a) {
      ApprovalSettles(s, a);
    } else if CashRead(s, a) {
      var k := a.desk.request;
      var r := s.requests[k].refund;
      assert t == Answer(s, k, PaymentRead(r, s.requests[k].dto, s.requests[k].seen, false));
      NotesSettle(t, k, r);
    } else {
      InvStep(s, a);
      forall more: seq<Action>, request: nat | ProvenRun(t, more)
        ensures !UnprovenSettlement(Run(t, more), request)
      {
        InvRun(t, more);
        NothingUnproven(Run(t, more), request);
      }
    }
  }

  /** The exact condition for an uninterrupted payout without a reference: it may settle a refund
      paid online without proof if and only if it has notes, the refund is open, not in process
      and without proof, and the payment is not completed. */
  lemma UninterruptedPayoutIff(s: State, r: nat, notes: bool)
    requires Inv(s) && PaidOnline(s, r) && s.refunds[r].order < |s.orders|
    ensures var k := |s.requests|;
            var t := Apply(Apply(s, Desk(ReadRefund(r, Dto(Process, None, notes, false)))), Desk(ReadPayment(k)));
      UnprovenSettlement(t, k) <==>
        && notes && !Closed(s.refunds[r].status) && s.refunds[r].status != InProcess
        && !HasProof(s.refunds[r]) && s.payments[s.refunds[r].payment.value].status != Completed
  {
    var dto := Dto(Process, None, notes, false);
    var k := |s.requests|;
    var u := Apply(s, Desk(ReadRefund(r, dto)));
    var t := Apply(u, Desk(ReadPayment(k)));
    assert RowOk(s, r);
    if RefundReadBy(s, r, dto).Some? {
      assert u == s.(requests := s.requests + [RefundRead(r, dto, s.refunds[r].reference)]);
      var online := IsOnline(s.payments, s.refunds[r].payment);
      assert t == u.(requests := u.requests[k := PaymentRead(r, dto, s.refunds[r].reference, online)]);
    } else {
      assert u == s && t == s;
    }
  }

  /** Such a settlement takes the order, the payment and the refund to their final states, and
      leaves every other payment as it is. */
  lemma UnprovenSettles(s: State, request: nat)
    requires UnprovenSettlement(s, request)
    ensures var r := s.requests[request].refund;
            var p := s.refunds[r].payment.value;
            var t := Apply(s, SettleRefund(request));
      && |t.refunds| == |s.refunds| && t.refunds[r].settled && !HasProof(t.refunds[r])
      && t.refunds[r].asked == s.refunds[r].asked
      && |t.orders| == |s.orders| && t.orders[s.refunds[r].order].status == Refunded
      && t.orders[s.refunds[r].order].pay == PaidBack
      && t.payments == s.payments[p := s.payments[p].(status := Returned)]
  {
  }
}
