/** Courier dispatch: the CREATE_CONSIGNMENT handler run by the workers of `Outbox`, with
    the `null` / PENDING_DISPATCH / real-id sentinel on the order row, the provider's
    inquiry, and the provider itself, which may act on a create call long after the caller
    gave up on it.  Every database statement and every provider call is a step of its own. */
module Dispatch {
  import opened Basics
  import opened Courier
  import Outbox

  datatype Sentinel = Unset | PendingDispatch | Real(id: Id)

  /** What of an order's status matters here: the handler dispatches neither cancelled nor refunded
      orders. */
  datatype Standing = Open | Cancelled | Refunded

  datatype Order = Order(standing: Standing, sentinel: Sentinel)

  datatype Fate = InFlight | Created | Declined

  /** One call of `createConsignment` and what the provider has made of it so far. */
  datatype Request = Request(order: nat, fate: Fate)

  datatype Pc =
    | Waiting                              // claimed, lease not proved yet
    | NotDispatch                          // a job of another event type
    | Entered                              // about to read the order row
    | Asking(pending: bool)                // attempts > 1: about to inquire
    | Claiming(found: Option<Id>)          // about to compare-and-set the sentinel
    | Holding                              // owns the claim, about to call the provider
    | Called(request: nat)                 // waiting for the provider's answer
    | Refused                              // definitive rejection, about to release
    | Linking(id: Id)                      // about to write the id back
    | Returned(outcome: Outbox.Outcome)
    | Left

  datatype Worker = Worker(order: nat, attempt: nat, pc: Pc)

  datatype State = State(outbox: Outbox.State, workers: seq<Worker>, orders: seq<Order>,
                         requests: seq<Request>)

  datatype Action =
    | Lease(step: Outbox.Action)
    | PlaceOrder
    | SetStanding(order: nat, to: Standing)
    | ReadOrder(job: nat)
    | Inquire(job: nat, inquiry: InquiryAnswer)
    | ClaimDispatch(job: nat)
    | CallProvider(job: nat)
    | ProviderActs(request: nat, created: bool)
    | ReceiveAnswer(job: nat, answer: CreateAnswer)
    | Release(job: nat)
    | WriteBack(job: nat)
    | Throw(job: nat)
    | AdoptConsignment(event: nat, id: Id, now: int)
    | ClearAndRetry(event: nat, now: int)
    | CancelDispatch(event: nat, now: int)

  predicate Admin(a: Action) {
    a.AdoptConsignment? || Clears(a)
  }

  /** The admin's steps that give the sentinel back, on the admin's word alone. */
  predicate Clears(a: Action) {
    a.ClearAndRetry? || a.CancelDispatch?
  }

  // ---- The handler's decisions

  /** The unlocked read of the order row. */
  function AfterRead(orders: seq<Order>, w: Worker): Pc {
    if w.order >= |orders| then Returned(Outbox.Retryable)
    else
      var order := orders[w.order];
      if !order.standing.Open? || order.sentinel.Real? then Returned(Outbox.Succeeded)
      else if w.attempt > 1 then Asking(order.sentinel.PendingDispatch?)
      else if order.sentinel.Unset? then Claiming(None)
      else Returned(Outbox.Succeeded)
  }

  function AfterInquiry(pending: bool, inquiry: InquiryAnswer): Pc {
    match inquiry
    case InquiryAmbiguous => Returned(Outbox.Retryable)
    case ExistsUnlinked => Returned(Outbox.NonRetryable)
    case Found(id) => if pending then Linking(id) else Claiming(Some(id))
    case NotFound => if pending then Returned(Outbox.NonRetryable) else Claiming(None)
  }

  function AfterClaim(claimed: bool, found: Option<Id>): Pc {
    if !claimed then Returned(Outbox.Succeeded)
    else match found case None => Holding case Some(id) => Linking(id)
  }

  function AfterAnswer(answer: CreateAnswer): Pc {
    match answer
    case Accepted(id) => Linking(id)
    case Rejected => Refused
    case CreateAmbiguous => Returned(Outbox.Retryable)
  }

  /** An accepted call has created a shipment and a definitively rejected one never will;
      an ambiguous answer says nothing. */
  predicate Truthful(fate: Fate, answer: CreateAnswer) {
    match answer
    case Accepted(_) => fate.Created?
    case Rejected => fate.Declined?
    case CreateAmbiguous => true
  }

  /** Cancellation, settlement of a refund, and the success callback that revives an order. */
  predicate Moves(from: Standing, to: Standing) {
    match from
    case Open => !to.Open?
    case Cancelled => to.Refunded?
    case Refunded => to.Open?
  }

  // ---- The machine

  /** The worker won the claim on its order, and has neither an id for it nor given it back. */
  predicate Holds(w: Worker) {
    w.pc.Holding? || w.pc.Called? || w.pc.Refused?
  }

  predicate Live(r: Request) {
    !r.fate.Declined?
  }

  predicate AtPc(s: State, job: nat) {
    job < |s.workers| && job < |s.outbox.jobs|
  }

  predicate EventOpen(s: State, event: nat) {
    && event < |s.outbox.rows|
    && s.outbox.rows[event].kind.Consignment?
    && s.outbox.rows[event].kind.order < |s.orders|
    && !s.outbox.rows[event].status.Completed?
  }

  predicate Enabled(s: State, a: Action) {
    match a
    case Lease(step) =>
      && Outbox.Enabled(s.outbox, step)
      && (step.Finish? ==>
            && AtPc(s, step.job)
            && (|| s.workers[step.job].pc.NotDispatch?
                || s.workers[step.job].pc == Returned(step.outcome)
                || (step.outcome == Outbox.Retryable
                    && (s.workers[step.job].pc.Waiting? || s.workers[step.job].pc.Returned?))))
    case PlaceOrder => true
    case SetStanding(o, to) => o < |s.orders| && Moves(s.orders[o].standing, to)
    case ReadOrder(j) => AtPc(s, j) && s.workers[j].pc.Entered?
    case Inquire(j, _) => AtPc(s, j) && s.workers[j].pc.Asking?
    case ClaimDispatch(j) => AtPc(s, j) && s.workers[j].pc.Claiming? && s.workers[j].order < |s.orders|
    case CallProvider(j) => AtPc(s, j) && s.workers[j].pc.Holding?
    case ProviderActs(r, _) => r < |s.requests| && s.requests[r].fate.InFlight?
    case ReceiveAnswer(j, answer) =>
      && AtPc(s, j) && s.workers[j].pc.Called? && s.workers[j].pc.request < |s.requests|
      && Truthful(s.requests[s.workers[j].pc.request].fate, answer)
    case Release(j) => AtPc(s, j) && s.workers[j].pc.Refused? && s.workers[j].order < |s.orders|
    case WriteBack(j) => AtPc(s, j) && s.workers[j].pc.Linking? && s.workers[j].order < |s.orders|
    case Throw(j) =>
      AtPc(s, j) && !s.workers[j].pc.Waiting? && !s.workers[j].pc.NotDispatch?
      && !s.workers[j].pc.Returned? && !s.workers[j].pc.Left?
    case AdoptConsignment(e, _, _) => EventOpen(s, e)
    case ClearAndRetry(e, _) => EventOpen(s, e) && !s.orders[s.outbox.rows[e].kind.order].sentinel.Real?
    case CancelDispatch(e, _) => EventOpen(s, e)
  }

  function NewWorker(rows: seq<Outbox.Row>, job: Outbox.Job): Worker {
    if job.event < |rows| && rows[job.event].kind.Consignment? then
      Worker(rows[job.event].kind.order, job.attempt, Waiting)
    else Worker(0, job.attempt, NotDispatch)
  }

  function SetPc(s: State, job: nat, pc: Pc): State
    requires job < |s.workers|
  {
    s.(workers := s.workers[job := s.workers[job].(pc := pc)])
  }

  function SetSentinel(s: State, order: nat, sentinel: Sentinel): State
    requires order < |s.orders|
  {
    s.(orders := s.orders[order := s.orders[order].(sentinel := sentinel)])
  }

  function SetRow(s: State, event: nat, row: Outbox.Row): State
    requires event < |s.outbox.rows|
  {
    s.(outbox := s.outbox.(rows := s.outbox.rows[event := row]))
  }

  function ApplyLease(s: State, step: Outbox.Action): State {
    var next := Outbox.Apply(s.outbox, step);
    var t := s.(outbox := next);
    match step
    case Claim(batch, _) =>
      var added := if |next.jobs| >= |s.outbox.jobs| then next.jobs[|s.outbox.jobs|..] else [];
      t.(workers := s.workers + seq(|added|, i requires 0 <= i < |added| => NewWorker(s.outbox.rows, added[i])))
    case Renew(j, _) =>
      if j < |s.workers| && j < |next.jobs| && s.workers[j].pc.Waiting? then
        SetPc(t, j, if next.jobs[j].phase.Running? then Entered else Left)
      else t
    case Finish(j, _, _) => if j < |s.workers| then SetPc(t, j, Left) else t
    case Crash(j) => if j < |s.workers| then SetPc(t, j, Left) else t
    case _ => t
  }

  function Apply(s: State, a: Action): State {
    if !Enabled(s, a) then s else
    match a
    case Lease(step) => ApplyLease(s, step)
    case PlaceOrder => s.(orders := s.orders + [Order(Open, Unset)])
    case SetStanding(o, to) => s.(orders := s.orders[o := s.orders[o].(standing := to)])
    case ReadOrder(j) => SetPc(s, j, AfterRead(s.orders, s.workers[j]))
    case Inquire(j, inquiry) => SetPc(s, j, AfterInquiry(s.workers[j].pc.pending, inquiry))
    case ClaimDispatch(j) =>
      var w := s.workers[j];
      var free := s.orders[w.order].sentinel.Unset?;
      var t := SetPc(s, j, AfterClaim(free, w.pc.found));
      if free then SetSentinel(t, w.order, PendingDispatch) else t
    case CallProvider(j) =>
      SetPc(s, j, Called(|s.requests|)).(requests := s.requests + [Request(s.workers[j].order, InFlight)])
    case ProviderActs(r, created) =>
      s.(requests := s.requests[r := s.requests[r].(fate := if created then Created else Declined)])
    case ReceiveAnswer(j, answer) => SetPc(s, j, AfterAnswer(answer))
    case Release(j) =>
      var order := s.workers[j].order;
      var t := SetPc(s, j, Returned(Outbox.Retryable));
      if s.orders[order].sentinel.PendingDispatch? then SetSentinel(t, order, Unset) else t
    case WriteBack(j) =>
      SetSentinel(SetPc(s, j, Returned(Outbox.Succeeded)), s.workers[j].order, Real(s.workers[j].pc.id))
    case Throw(j) => SetPc(s, j, Returned(Outbox.Retryable))
    case AdoptConsignment(e, id, now) =>
      var row := s.outbox.rows[e];
      SetRow(SetSentinel(s, row.kind.order, Real(id)), e, row.(status := Outbox.Completed, updatedAt := now))
    case ClearAndRetry(e, now) =>
      var row := s.outbox.rows[e];
      SetRow(SetSentinel(s, row.kind.order, Unset), e,
             row.(status := Outbox.Pending, attempts := 0, updatedAt := now))
    case CancelDispatch(e, now) =>
      var row := s.outbox.rows[e];
      var order := row.kind.order;
      SetRow(if s.orders[order].sentinel.PendingDispatch? then SetSentinel(s, order, Unset) else s, e,
             row.(status := Outbox.Completed, updatedAt := now))
  }

  function Run(s: State, actions: seq<Action>): State
    decreases |actions|
  {
    if actions == [] then s else Run(Apply(s, actions[0]), actions[1..])
  }

  const EMPTY: State := State(Outbox.EMPTY, [], [], [])

  // ---- At most one shipment per order

  predicate SentinelSet(s: State, order: nat) {
    order < |s.orders| && !s.orders[order].sentinel.Unset?
  }

  predicate LiveFor(s: State, r: nat, order: nat) {
    r < |s.requests| && s.requests[r].order == order && Live(s.requests[r])
  }

  predicate HolderFor(s: State, j: nat, order: nat) {
    j < |s.workers| && s.workers[j].order == order && Holds(s.workers[j])
  }

  /** The sentinel guards the order: one holder and one call that may have succeeded, and before
      a holder has its answer that call is its own. */
  ghost predicate Guarded(s: State, order: nat) {
    && (forall q: nat, r: nat :: LiveFor(s, q, order) && LiveFor(s, r, order) ==> q == r)
    && (forall i: nat, j: nat :: HolderFor(s, i, order) && HolderFor(s, j, order) ==> i == j)
    && (forall j: nat :: HolderFor(s, j, order) ==> SentinelSet(s, order))
    && (forall r: nat :: LiveFor(s, r, order) ==> SentinelSet(s, order))
    && (forall j: nat, r: nat :: HolderFor(s, j, order) && LiveFor(s, r, order) ==> s.workers[j].pc == Called(r))
  }

  predicate CalledOk(s: State, w: Worker) {
    w.pc.Called? ==> w.pc.request < |s.requests| && s.requests[w.pc.request].order == w.order
  }

  ghost predicate Wired(s: State) {
    |s.workers| == |s.outbox.jobs| && forall j :: 0 <= j < |s.workers| ==> CalledOk(s, s.workers[j])
  }

  ghost predicate Inv(s: State) {
    Wired(s) && forall order: nat :: Guarded(s, order)
  }

  /** Something is under way for the order: a call that may have succeeded, or a holder. */
  ghost predicate UnderWay(s: State, order: nat) {
    (exists r: nat :: LiveFor(s, r, order)) || (exists j: nat :: HolderFor(s, j, order))
  }

  /** The admin gives the sentinel back while something is under way. */
  ghost predicate Unsafe(s: State, a: Action) {
    && Clears(a) && Enabled(s, a)
    && var order := s.outbox.rows[a.event].kind.order;
       !s.orders[order].sentinel.Real? && UnderWay(s, order)
  }

  ghost predicate SafeRun(s: State, actions: seq<Action>)
    decreases |actions|
  {
    actions == [] || (!Unsafe(s, actions[0]) && SafeRun(Apply(s, actions[0]), actions[1..]))
  }

  /** For this order nothing new is held, called for, or given back. */
  ghost predicate LetsGo(s: State, t: State, order: nat) {
    && (SentinelSet(s, order) ==> SentinelSet(t, order))
    && (forall r: nat :: LiveFor(t, r, order) ==> LiveFor(s, r, order))
    && (forall j: nat :: HolderFor(t, j, order) ==> HolderFor(s, j, order))
    && (forall j: nat, r: nat :: HolderFor(t, j, order) && LiveFor(t, r, order) && s.workers[j].pc == Called(r) ==>
          t.workers[j].pc == Called(r))
  }

  lemma LettingGo(s: State, t: State, order: nat)
    requires Guarded(s, order) && LetsGo(s, t, order)
    ensures Guarded(t, order)
  {
  }

  lemma ClaimStaysGuarded(s: State, job: nat, order: nat)
    requires Guarded(s, order) && Enabled(s, ClaimDispatch(job))
    ensures Guarded(Apply(s, ClaimDispatch(job)), order)
  {
    var t := Apply(s, ClaimDispatch(job));
    if s.workers[job].order != order || !s.orders[order].sentinel.Unset? {
      LettingGo(s, t, order);
    } else {
      assert forall r: nat :: LiveFor(t, r, order) ==> LiveFor(s, r, order);
      assert forall j: nat :: HolderFor(t, j, order) ==> j == job || HolderFor(s, j, order);
    }
  }

  lemma CallStaysGuarded(s: State, job: nat, order: nat)
    requires Guarded(s, order) && Enabled(s, CallProvider(job))
    ensures Guarded(Apply(s, CallProvider(job)), order)
  {
    var t := Apply(s, CallProvider(job));
    assert SentinelSet(t, order) == SentinelSet(s, order);
    if s.workers[job].order != order {
      LettingGo(s, t, order);
    } else {
      assert HolderFor(s, job, order);
      assert forall r: nat :: LiveFor(t, r, order) ==> r == |s.requests| || LiveFor(s, r, order);
      assert forall j: nat :: HolderFor(t, j, order) ==> HolderFor(s, j, order);
    }
  }

  lemma AnswerStaysGuarded(s: State, job: nat, answer: CreateAnswer, order: nat)
    requires Guarded(s, order) && Enabled(s, ReceiveAnswer(job, answer))
    ensures Guarded(Apply(s, ReceiveAnswer(job, answer)), order)
  {
    LettingGo(s, Apply(s, ReceiveAnswer(job, answer)), order);
  }

  lemma ReleaseStaysGuarded(s: State, job: nat, order: nat)
    requires Guarded(s, order) && Enabled(s, Release(job))
    ensures Guarded(Apply(s, Release(job)), order)
  {
    var t := Apply(s, Release(job));
    if s.workers[job].order != order {
      LettingGo(s, t, order);
    } else {
      assert HolderFor(s, job, order);
      assert forall j: nat :: HolderFor(t, j, order) ==> HolderFor(s, j, order) && j != job;
      assert forall r: nat :: LiveFor(t, r, order) ==> LiveFor(s, r, order);
    }
  }

  lemma ClearStaysGuarded(s: State, a: Action, order: nat)
    requires Guarded(s, order) && Enabled(s, a) && Clears(a) && !Unsafe(s, a)
    ensures Guarded(Apply(s, a), order)
  {
    var t := Apply(s, a);
    assert forall r: nat :: LiveFor(t, r, order) <==> LiveFor(s, r, order);
    assert forall j: nat :: HolderFor(t, j, order) <==> HolderFor(s, j, order);
    if s.outbox.rows[a.event].kind.order != order || s.orders[order].sentinel.Real? {
      LettingGo(s, t, order);
    }
  }

  lemma LeaseLetsGo(s: State, step: Outbox.Action, order: nat)
    requires Outbox.Enabled(s.outbox, step)
    ensures LetsGo(s, ApplyLease(s, step), order)
  {
    var t := ApplyLease(s, step);
    match step
    case Claim(_, _) => ClaimAddsWaiting(s, step);
    case _ =>
  }

  lemma ClaimAddsWaiting(s: State, step: Outbox.Action)
    requires step.Claim?
    ensures var t := ApplyLease(s, step);
      && t.orders == s.orders && t.requests == s.requests && |t.workers| >= |s.workers|
      && t.workers[..|s.workers|] == s.workers
      && forall j :: |s.workers| <= j < |t.workers| ==> t.workers[j].pc.Waiting? || t.workers[j].pc.NotDispatch?
  {
    var n := |s.workers|;
    var t := ApplyLease(s, step);
    forall j | n <= j < |t.workers| ensures t.workers[j].pc.Waiting? || t.workers[j].pc.NotDispatch? {
      var jobs := Outbox.Apply(s.outbox, step).jobs;
      assert t.workers[j] == NewWorker(s.outbox.rows, jobs[|s.outbox.jobs|..][j - n]);
    }
  }

  lemma GuardedStep(s: State, a: Action, order: nat)
    requires Guarded(s, order) && Enabled(s, a) && !Unsafe(s, a)
    ensures Guarded(Apply(s, a), order)
  {
    match a
    case ClaimDispatch(j) => ClaimStaysGuarded(s, j, order);
    case CallProvider(j) => CallStaysGuarded(s, j, order);
    case ReceiveAnswer(j, answer) => AnswerStaysGuarded(s, j, answer, order);
    case Release(j) => ReleaseStaysGuarded(s, j, order);
    case ClearAndRetry(_, _) => ClearStaysGuarded(s, a, order);
    case CancelDispatch(_, _) => ClearStaysGuarded(s, a, order);
    case Lease(step) =>
      LeaseLetsGo(s, step, order);
      LettingGo(s, Apply(s, a), order);
    case _ => LettingGo(s, Apply(s, a), order);
  }

  /** Workers keep their orders, and wait only for calls that were made for them. */
  lemma WiredSetPc(s: State, job: nat, pc: Pc)
    requires Wired(s) && job < |s.workers| && CalledOk(s, s.workers[job].(pc := pc))
    ensures Wired(SetPc(s, job, pc))
  {
  }

  lemma WiredLease(s: State, step: Outbox.Action)
    requires Wired(s) && Outbox.Enabled(s.outbox, step)
    ensures Wired(ApplyLease(s, step))
  {
    if step.Claim? {
      ClaimAddsWaiting(s, step);
    }
  }

  lemma WiredCall(s: State, job: nat)
    requires Wired(s) && Enabled(s, CallProvider(job))
    ensures Wired(Apply(s, CallProvider(job)))
  {
    WiredSetPc(s, job, Holding);
  }

  lemma WiredStep(s: State, a: Action)
    requires Wired(s)
    ensures Wired(Apply(s, a))
  {
    if !Enabled(s, a) {
      return;
    }
    match a
    case Lease(step) => WiredLease(s, step);
    case ReadOrder(j) => WiredSetPc(s, j, AfterRead(s.orders, s.workers[j]));
    case Inquire(j, inquiry) => WiredSetPc(s, j, AfterInquiry(s.workers[j].pc.pending, inquiry));
    case CallProvider(j) => WiredCall(s, j);
    case ReceiveAnswer(j, answer) => WiredSetPc(s, j, AfterAnswer(answer));
    case Throw(j) => WiredSetPc(s, j, Returned(Outbox.Retryable));
    case _ =>
  }

  lemma InvStep(s: State, a: Action)
    requires Inv(s) && !Unsafe(s, a)
    ensures Inv(Apply(s, a))
  {
    if Enabled(s, a) {
      WiredStep(s, a);
      forall order: nat ensures Guarded(Apply(s, a), order) {
        GuardedStep(s, a, order);
      }
    }
  }

  lemma {:induction false} InvRun(s: State, actions: seq<Action>)
    requires Inv(s) && SafeRun(s, actions)
    ensures Inv(Run(s, actions))
    decreases |actions|
  {
    if actions != [] {
      InvStep(s, actions[0]);
      InvRun(Apply(s, actions[0]), actions[1..]);
    }
  }

  function Shipments(s: State, order: nat): set<nat> {
    set r: nat | r < |s.requests| && s.requests[r].order == order && s.requests[r].fate.Created?
  }

  /** Calls that have created a shipment, or still may. */
  function LiveCalls(s: State, order: nat): set<nat> {
    set r: nat | r < |s.requests| && LiveFor(s, r, order)
  }

  lemma OneLiveCall(s: State, order: nat)
    requires Inv(s)
    ensures |LiveCalls(s, order)| <= 1 && |Shipments(s, order)| <= 1
  {
    assert Guarded(s, order);
    AtMostOne(LiveCalls(s, order));
    forall q: nat, r: nat | q in Shipments(s, order) && r in Shipments(s, order) ensures q == r {
      assert LiveFor(s, q, order) && LiveFor(s, r, order);
    }
    AtMostOne(Shipments(s, order));
  }

  /** Over any run of any number of events, workers, crashes, expiries, ambiguous answers, late
      provider actions, retries and admin steps -- as long as no admin gives the sentinel back
      while something is under way -- at most one call for an order has created a shipment or can
      still create one. */
  lemma {:induction false} AtMostOneShipment(actions: seq<Action>, order: nat)
    requires SafeRun(EMPTY, actions)
    ensures |LiveCalls(Run(EMPTY, actions), order)| <= 1
    ensures |Shipments(Run(EMPTY, actions), order)| <= 1
  {
    InvRun(EMPTY, actions);
    OneLiveCall(Run(EMPTY, actions), order);
  }

  lemma AtMostOne(xs: set<nat>)
    requires forall x, y :: x in xs && y in xs ==> x == y
    ensures |xs| <= 1
  {
    if x :| x in xs {
      assert xs == {x};
    }
  }

  /** A create call is made only by the worker that won the compare-and-set, while the
      sentinel stands and no earlier call for the order can succeed; and the sentinel goes
      back to null only by that worker's definitive rejection or by an admin. */
  lemma CallsFollowClaims(s: State, a: Action, order: nat)
    requires Inv(s) && order < |s.orders|
    ensures |Apply(s, a).requests| > |s.requests| ==>
      && a.CallProvider? && Holds(s.workers[a.job])
      && SentinelSet(s, s.workers[a.job].order)
      && LiveCalls(s, s.workers[a.job].order) == {}
    ensures SentinelSet(s, order) && !SentinelSet(Apply(s, a), order) ==>
      || Clears(a)
      || (a.Release? && s.workers[a.job].order == order && s.workers[a.job].pc.Refused?
          && LiveCalls(s, order) == {})
  {
    if Enabled(s, a) && (a.CallProvider? || a.Release?) {
      var o := s.workers[a.job].order;
      assert Guarded(s, o) && HolderFor(s, a.job, o);
      assert forall r: nat :: !LiveFor(s, r, o);
    }
  }

  /** What an admin's step on an event that is not completed does: adopting links the id and completes
      the event; clearing, refused once an id is linked, frees the order and queues the event anew
      with no attempts; cancelling frees a claim but never an id, and completes the event. */
  lemma AdminDecides(s: State, a: Action)
    requires Admin(a)
    ensures var t := Apply(s, a);
            var e := a.event;
            var acts := && e < |s.outbox.rows| && s.outbox.rows[e].kind.Consignment?
                        && s.outbox.rows[e].kind.order < |s.orders| && s.outbox.rows[e].status != Outbox.Completed
                        && (a.ClearAndRetry? ==> !s.orders[s.outbox.rows[e].kind.order].sentinel.Real?);
      if !acts then t == s
      else
        var row := s.outbox.rows[e];
        var o := s.orders[row.kind.order];
        && t == s.(orders := t.orders, outbox := s.outbox.(rows := t.outbox.rows))
        && t.orders == s.orders[row.kind.order := o.(sentinel :=
             if a.AdoptConsignment? then Real(a.id) else if o.sentinel == PendingDispatch then Unset else o.sentinel)]
        && t.outbox.rows == s.outbox.rows[e :=
             if a.ClearAndRetry? then row.(status := Outbox.Pending, attempts := 0, updatedAt := a.now)
             else row.(status := Outbox.Completed, updatedAt := a.now)]
  {
  }

  // ---- The dispatch protocol runs on the lease protocol

  ghost predicate NoAdmin(actions: seq<Action>) {
    forall i :: 0 <= i < |actions| ==> !Admin(actions[i])
  }

  /** The lease steps a dispatch run takes. */
  function Project(s: State, actions: seq<Action>): seq<Outbox.Action>
    decreases |actions|
  {
    if actions == [] then []
    else
      var rest := Project(Apply(s, actions[0]), actions[1..]);
      if actions[0].Lease? && Enabled(s, actions[0]) then [actions[0].step] + rest else rest
  }

  /** Without admin steps, the event rows and jobs of a dispatch run are those of a run of
      the lease protocol, so everything proved there holds here. */
  lemma {:induction false} RefinesOutbox(s: State, actions: seq<Action>)
    requires NoAdmin(actions)
    ensures Run(s, actions).outbox == Outbox.Run(s.outbox, Project(s, actions))
    decreases |actions|
  {
    if actions != [] {
      RefinesOutbox(Apply(s, actions[0]), actions[1..]);
      if actions[0].Lease? && Enabled(s, actions[0]) {
        Outbox.RunCons(s.outbox, actions[0].step, Project(Apply(s, actions[0]), actions[1..]));
      }
    }
  }

  /** The fence of the lease protocol, for consignment events. */
  lemma {:induction false} DispatchIsFenced(actions: seq<Action>, event: nat)
    requires NoAdmin(actions)
    ensures var s := Run(EMPTY, actions).outbox;
      && |Outbox.Entries(s, event)| <= Outbox.MAX_ATTEMPTS
      && (event < |s.rows| && s.rows[event].status == Outbox.Pending ==> Outbox.Claimable(s.rows[event]))
  {
    RefinesOutbox(EMPTY, actions);
    Outbox.AtMostThreeEntries(Project(EMPTY, actions), event);
    if event < |Run(EMPTY, actions).outbox.rows| {
      Outbox.PendingIsClaimable(Project(EMPTY, actions), event);
    }
  }

  // ---- One handler call

  datatype Handled = Handled(sentinel: Sentinel, calls: nat, outcome: Outbox.Outcome)

  /** What an uninterrupted handler makes of its order, by the state it finds. */
  function HandlerResult(order: Order, attempt: nat, inquiry: InquiryAnswer, answer: CreateAnswer): Handled {
    var keep := order.sentinel;
    if !order.standing.Open? || keep.Real? || (keep.PendingDispatch? && attempt <= 1) then
      Handled(keep, 0, Outbox.Succeeded)
    else if attempt > 1 && inquiry.InquiryAmbiguous? then Handled(keep, 0, Outbox.Retryable)
    else if attempt > 1 && inquiry.Found? then Handled(Real(inquiry.id), 0, Outbox.Succeeded)
    else if attempt > 1 && (inquiry.ExistsUnlinked? || keep.PendingDispatch?) then
      Handled(keep, 0, Outbox.NonRetryable)
    else
      match answer
      case Accepted(id) => Handled(Real(id), 1, Outbox.Succeeded)
      case Rejected => Handled(Unset, 1, Outbox.Retryable)
      case CreateAmbiguous => Handled(PendingDispatch, 1, Outbox.Retryable)
  }

  /** The table in the provider's replies.  A closed or linked order, and on a first attempt one
      that is being dispatched, needs nothing; a retry asks first, waits on silence, links what it
      finds, and gives up on a shipment without an id or one a lost call may have made; otherwise
      the provider is called once, and the claim is given back on its refusal alone. */
  lemma HandlerDecides(order: Order, attempt: nat, asked: Reply, made: Reply, id: Id)
    ensures var h := HandlerResult(order, attempt, InquiryOutcome(asked), CreateOutcome(made));
            var pending := order.sentinel == PendingDispatch;
            var done := order.standing != Open || order.sentinel.Real? || (pending && attempt <= 1);
            var missing := asked.Http? && (asked.status == 404 || (200 <= asked.status <= 299 && asked.body.Json?
                             && !(asked.body.status == 200 && NamesShipment(asked.body))));
      && (done ==> h == Handled(order.sentinel, 0, Outbox.Succeeded))
      && (!done && attempt > 1 && Unanswered(asked) ==> h == Handled(order.sentinel, 0, Outbox.Retryable))
      && (!done && attempt > 1 && InquiryOutcome(asked) == Found(id) ==> h == Handled(Real(id), 0, Outbox.Succeeded))
      && (!done && attempt > 1 && pending && missing ==> h == Handled(order.sentinel, 0, Outbox.NonRetryable))
      && (!done && attempt > 1 && InquiryOutcome(asked).ExistsUnlinked? ==>
            h == Handled(order.sentinel, 0, Outbox.NonRetryable))
      && (h.calls <= 1)
      && (h.calls == 1 <==> !done && !pending && (attempt <= 1 || missing))
      && (h.calls == 1 && CreateOutcome(made) == Accepted(id) ==> h == Handled(Real(id), 1, Outbox.Succeeded))
      && (h.calls == 1 && CreateOutcome(made).Rejected? ==> h == Handled(Unset, 1, Outbox.Retryable))
      && (h.calls == 1 && CreateOutcome(made).CreateAmbiguous? ==> h == Handled(PendingDispatch, 1, Outbox.Retryable))
  {
    InquiryDecides(asked, id);
  }

  function AnswerSteps(s: State, job: nat, request: nat, answer: CreateAnswer): State {
    var s1 := Apply(Apply(s, ProviderActs(request, answer.Accepted?)), ReceiveAnswer(job, answer));
    Apply(Apply(s1, Release(job)), WriteBack(job))
  }

  function DispatchSteps(s: State, job: nat, answer: CreateAnswer): State {
    AnswerSteps(Apply(Apply(s, ClaimDispatch(job)), CallProvider(job)), job, |s.requests|, answer)
  }

  /** The handler's steps taken one after the other; a step whose turn does not come is
      not enabled and changes nothing. */
  function HandlerSteps(s: State, job: nat, inquiry: InquiryAnswer, answer: CreateAnswer): State {
    DispatchSteps(Apply(Apply(s, ReadOrder(job)), Inquire(job, inquiry)), job, answer)
  }

  lemma UninterruptedDispatch(s: State, job: nat, answer: CreateAnswer)
    requires AtPc(s, job) && s.workers[job].order < |s.orders|
    requires s.workers[job].pc == Claiming(None) && s.orders[s.workers[job].order].sentinel.Unset?
    ensures var o := s.workers[job].order;
            var h := HandlerResult(s.orders[o].(standing := Open), 1, NotFound, answer);
            var t := DispatchSteps(s, job, answer);
      && t.orders == s.orders[o := s.orders[o].(sentinel := h.sentinel)]
      && |t.requests| == |s.requests| + 1
      && job < |t.workers| && t.workers[job].pc == Returned(h.outcome)
  {
    var o := s.workers[job].order;
    var s1 := Apply(Apply(s, ClaimDispatch(job)), CallProvider(job));
    assert s1.workers[job] == s.workers[job].(pc := Called(|s.requests|));
    assert s1.orders == s.orders[o := s.orders[o].(sentinel := PendingDispatch)];
    assert s1.requests == s.requests + [Request(o, InFlight)];
    UninterruptedAnswer(s1, job, |s.requests|, answer);
  }

  lemma UninterruptedAnswer(s: State, job: nat, request: nat, answer: CreateAnswer)
    requires AtPc(s, job) && s.workers[job].order < |s.orders| && s.workers[job].pc == Called(request)
    requires request < |s.requests| && s.requests[request].fate.InFlight?
    requires s.orders[s.workers[job].order].sentinel.PendingDispatch?
    ensures var o := s.workers[job].order;
            var h := HandlerResult(Order(Open, Unset), 1, NotFound, answer);
            var t := AnswerSteps(s, job, request, answer);
      && t.orders == s.orders[o := s.orders[o].(sentinel := h.sentinel)]
      && |t.requests| == |s.requests|
      && job < |t.workers| && t.workers[job].pc == Returned(h.outcome)
  {
    var o := s.workers[job].order;
    var s1 := Apply(s, ProviderActs(request, answer.Accepted?));
    assert s1.workers == s.workers && s1.orders == s.orders;
    var s2 := Apply(s1, ReceiveAnswer(job, answer));
    assert s2 == SetPc(s1, job, AfterAnswer(answer));
    var t := AnswerSteps(s, job, request, answer);
    assert t == Apply(Apply(s2, Release(job)), WriteBack(job));
    assert t.orders[o] == s.orders[o].(sentinel := t.orders[o].sentinel);
  }

  lemma UninterruptedLink(s: State, job: nat, answer: CreateAnswer)
    requires AtPc(s, job) && s.workers[job].order < |s.orders|
    requires || (s.workers[job].pc.Claiming? && s.workers[job].pc.found.Some?
                 && s.orders[s.workers[job].order].sentinel.Unset?)
             || s.workers[job].pc.Linking?
    ensures var o := s.workers[job].order;
            var id := if s.workers[job].pc.Linking? then s.workers[job].pc.id
                      else s.workers[job].pc.found.value;
            var t := DispatchSteps(s, job, answer);
      && t.orders == s.orders[o := s.orders[o].(sentinel := Real(id))] && t.requests == s.requests
      && job < |t.workers| && t.workers[job].pc == Returned(Outbox.Succeeded)
  {
    var o := s.workers[job].order;
    var s1 := Apply(Apply(s, ClaimDispatch(job)), CallProvider(job));
    assert s1.workers[job].pc.Linking? && s1.requests == s.requests;
    var s2 := Apply(Apply(s1, ProviderActs(|s.requests|, answer.Accepted?)), ReceiveAnswer(job, answer));
    assert s2 == s1;
    var t := DispatchSteps(s, job, answer);
    assert t == Apply(Apply(s2, Release(job)), WriteBack(job));
    assert t.orders[o] == s.orders[o].(sentinel := t.orders[o].sentinel);
  }

  lemma UninterruptedHandler(s: State, job: nat, inquiry: InquiryAnswer, answer: CreateAnswer)
    requires AtPc(s, job) && s.workers[job].pc.Entered? && s.workers[job].order < |s.orders|
    ensures var w := s.workers[job];
            var h := HandlerResult(s.orders[w.order], w.attempt, inquiry, answer);
            var t := HandlerSteps(s, job, inquiry, answer);
      && t.orders == s.orders[w.order := s.orders[w.order].(sentinel := h.sentinel)]
      && |t.requests| == |s.requests| + h.calls
      && job < |t.workers| && t.workers[job].pc == Returned(h.outcome)
  {
    var w := s.workers[job];
    var next := Opening(s.orders, w, inquiry);
    var s1 := SetPc(s, job, next);
    ReadAndInquire(s, job, inquiry);
    if next.Returned? {
      NothingMore(s1, job, answer);
      assert s.orders == s.orders[w.order := s.orders[w.order].(sentinel := s.orders[w.order].sentinel)];
    } else if next == Claiming(None) {
      UninterruptedDispatch(s1, job, answer);
    } else {
      UninterruptedLink(s1, job, answer);
    }
  }

  function Opening(orders: seq<Order>, w: Worker, inquiry: InquiryAnswer): Pc {
    var read := AfterRead(orders, w);
    if read.Asking? then AfterInquiry(read.pending, inquiry) else read
  }

  lemma ReadAndInquire(s: State, job: nat, inquiry: InquiryAnswer)
    requires AtPc(s, job) && s.workers[job].pc.Entered?
    ensures Apply(Apply(s, ReadOrder(job)), Inquire(job, inquiry))
         == SetPc(s, job, Opening(s.orders, s.workers[job], inquiry))
  {
    var s1 := Apply(s, ReadOrder(job));
    assert s1 == SetPc(s, job, AfterRead(s.orders, s.workers[job]));
    if AfterRead(s.orders, s.workers[job]).Asking? {
      assert Apply(s1, Inquire(job, inquiry)) == SetPc(s1, job, Opening(s.orders, s.workers[job], inquiry));
    }
  }

  lemma NothingMore(s: State, job: nat, answer: CreateAnswer)
    requires AtPc(s, job) && s.workers[job].pc.Returned?
    ensures DispatchSteps(s, job, answer) == s
  {
  }

  /** The order rows as the handler and the reconciliation desk update them. */
  class OrderRows {
    var orders: seq<Order>
    var calls: nat

    constructor (orders: seq<Order>)
      ensures this.orders == orders && calls == 0
    {
      this.orders := orders;
      calls := 0;
    }

    method ClaimDispatchSlot(order: nat) returns (claimed: bool)
      requires order < |orders|
      modifies this`orders
      ensures claimed == old(orders)[order].sentinel.Unset?
      ensures orders == if claimed then old(orders)[order := old(orders)[order].(sentinel := PendingDispatch)]
                        else old(orders)
    {
      claimed := orders[order].sentinel.Unset?;
      if claimed {
        orders := orders[order := orders[order].(sentinel := PendingDispatch)];
      }
    }

    /** `handleCreateConsignment`, with the provider's two replies given. */
    method HandleCreateConsignment(order: nat, attempt: nat, inquiryReply: Reply, createReply: Reply)
      returns (outcome: Outbox.Outcome)
      modifies this
      ensures order >= |old(orders)| ==>
        outcome == Outbox.Retryable && orders == old(orders) && calls == old(calls)
      ensures order < |old(orders)| ==>
        var h := HandlerResult(old(orders)[order], attempt, InquiryOutcome(inquiryReply), CreateOutcome(createReply));
        && orders == old(orders)[order := old(orders)[order].(sentinel := h.sentinel)]
        && calls == old(calls) + h.calls
        && outcome == h.outcome
      ensures order < |old(orders)| && attempt > 1 && Unanswered(inquiryReply)
              && old(orders)[order].standing.Open? && !old(orders)[order].sentinel.Real? ==>
        outcome == Outbox.Retryable && orders == old(orders) && calls == old(calls)
    {
      InquiryDecides(inquiryReply, 0);
      if order >= |orders| {
        return Outbox.Retryable;
      }
      var row := orders[order];
      if !row.standing.Open? || row.sentinel.Real? {
        return Outbox.Succeeded;
      }
      var consignment: Option<Id> := None;
      var uncertain := attempt > 1 && row.sentinel.PendingDispatch?;
      if attempt > 1 {
        match InquiryOutcome(inquiryReply) {
          case InquiryAmbiguous => return Outbox.Retryable;
          case Found(id) => consignment := Some(id);
          case ExistsUnlinked => return Outbox.NonRetryable;
          case NotFound =>
            if uncertain {
              return Outbox.NonRetryable;
            }
        }
      }
      if row.sentinel.Unset? {
        var claimed := ClaimDispatchSlot(order);
        if !claimed {
          return Outbox.Succeeded;
        }
      } else if attempt <= 1 {
        return Outbox.Succeeded;
      }
      if consignment.None? {
        calls := calls + 1;
        match CreateOutcome(createReply) {
          case Accepted(id) => consignment := Some(id);
          case CreateAmbiguous => return Outbox.Retryable;
          case Rejected =>
            if orders[order].sentinel.PendingDispatch? {
              orders := orders[order := orders[order].(sentinel := Unset)];
            }
            return Outbox.Retryable;
        }
      }
      orders := orders[order := orders[order].(sentinel := Real(consignment.value))];
      outcome := Outbox.Succeeded;
    }
  }
}
