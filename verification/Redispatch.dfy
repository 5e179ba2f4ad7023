/** What an admin's CLEAR_AND_RETRY or CANCEL_DISPATCH leads to: exactly when a second create call
    for the order becomes possible, while the first has created a shipment or still may. */
module Redispatch {
  import opened Basics
  import opened Courier
  import Outbox
  import opened Dispatch

  // ---- Runs without such a step

  ghost predicate NoClears(actions: seq<Action>) {
    forall i :: 0 <= i < |actions| ==> !Clears(actions[i])
  }

  /** Steps of workers, lease and provider. */
  ghost predicate Working(actions: seq<Action>) {
    forall i :: 0 <= i < |actions| ==> !Clears(actions[i]) && !actions[i].SetStanding?
  }

  lemma {:induction false} NoClearsIsSafe(s: State, actions: seq<Action>)
    requires NoClears(actions)
    ensures SafeRun(s, actions)
    decreases |actions|
  {
    if actions != [] {
      NoClearsIsSafe(Apply(s, actions[0]), actions[1..]);
    }
  }

  lemma {:induction false} RunConcat(s: State, a: seq<Action>, b: seq<Action>)
    ensures Run(s, a + b) == Run(Run(s, a), b)
    decreases |a|
  {
    if a == [] {
      assert a + b == b;
    } else {
      RunConcat(Apply(s, a[0]), a[1..], b);
      assert (a + b)[1..] == a[1..] + b;
    }
  }

  lemma {:induction false} RunOne(s: State, a: Action)
    ensures Run(s, [a]) == Apply(s, a)
  {
    assert [a][1..] == [];
  }

  /** The target is reached by steps of workers, lease and provider. */
  ghost predicate Leads(s: State, actions: seq<Action>, t: State) {
    Working(actions) && Run(s, actions) == t
  }

  lemma {:induction false} Then(s: State, before: seq<Action>, u: State, a: Action, t: State)
    returns (actions: seq<Action>)
    requires Leads(s, before, u) && !Clears(a) && !a.SetStanding? && Apply(u, a) == t
    ensures Leads(s, actions, t)
  {
    actions := before + [a];
    RunConcat(s, before, [a]);
    RunOne(u, a);
  }

  lemma {:induction false} Onward(s: State, before: seq<Action>, u: State, after: seq<Action>, t: State)
    returns (actions: seq<Action>)
    requires Leads(s, before, u) && Leads(u, after, t)
    ensures Leads(s, actions, t)
  {
    actions := before + after;
    RunConcat(s, before, after);
  }

  ghost predicate TwoLive(s: State, order: nat) {
    exists q: nat, r: nat :: q != r && LiveFor(s, q, order) && LiveFor(s, r, order)
  }

  lemma TwoLiveCalls(s: State, order: nat)
    requires TwoLive(s, order)
    ensures |LiveCalls(s, order)| >= 2
  {
    var q: nat, r: nat :| q != r && LiveFor(s, q, order) && LiveFor(s, r, order);
    assert q in LiveCalls(s, order) && r in LiveCalls(s, order) && {q, r} <= LiveCalls(s, order);
    SubsetSize({q, r}, LiveCalls(s, order));
  }

  // ---- Workers past their read of the order

  /** The worker may make a call for its order without reading the order again. */
  predicate MayCall(w: Worker) {
    w.pc.Holding? || (w.pc.Claiming? && w.pc.found.None?) || (w.pc.Asking? && !w.pc.pending)
  }

  predicate CallerFor(s: State, j: nat, order: nat) {
    j < |s.workers| && s.workers[j].order == order && MayCall(s.workers[j])
  }

  /** Two calls, made or still to come from workers past their read of the order. */
  ghost predicate TwoCalls(s: State, order: nat) {
    || (exists q: nat, r: nat :: q != r && LiveFor(s, q, order) && LiveFor(s, r, order))
    || (exists i: nat, j: nat :: i != j && CallerFor(s, i, order) && CallerFor(s, j, order))
    || (exists j: nat, r: nat :: CallerFor(s, j, order) && LiveFor(s, r, order))
  }

  predicate Free(s: State, order: nat) {
    order < |s.orders| && s.orders[order].sentinel.Unset?
  }

  /** Worker `j` is about to claim its order and then to call. */
  predicate Claimer(s: State, j: nat, order: nat) {
    AtPc(s, j) && CallerFor(s, j, order) && !s.workers[j].pc.Holding?
  }

  /** An inquiry that finds nothing takes a claimer to its claim. */
  lemma {:induction false} ToClaim(s: State, before: seq<Action>, u: State, j: nat, order: nat)
    returns (actions: seq<Action>)
    requires Leads(s, before, u) && Claimer(u, j, order)
    ensures Leads(s, actions, SetPc(u, j, Claiming(None)))
  {
    if u.workers[j].pc.Asking? {
      actions := Then(s, before, u, Inquire(j, NotFound), SetPc(u, j, Claiming(None)));
    } else {
      assert u == SetPc(u, j, Claiming(None));
      actions := before;
    }
  }

  function Claimed(s: State, j: nat, order: nat): State
    requires j < |s.workers| && order < |s.orders|
  {
    SetSentinel(SetPc(s, j, Holding), order, PendingDispatch)
  }

  lemma {:induction false} ThenClaim(s: State, before: seq<Action>, u: State, j: nat, order: nat)
    returns (actions: seq<Action>)
    requires Leads(s, before, u) && Claimer(u, j, order) && Free(u, order)
    ensures Leads(s, actions, Claimed(u, j, order))
  {
    actions := ToClaim(s, before, u, j, order);
    var v := SetPc(u, j, Claiming(None));
    assert Apply(v, ClaimDispatch(j)) == Claimed(v, j, order) == Claimed(u, j, order);
    actions := Then(s, actions, v, ClaimDispatch(j), Claimed(u, j, order));
  }

  function Calls(s: State, j: nat): State
    requires j < |s.workers|
  {
    SetPc(s, j, Called(|s.requests|)).(requests := s.requests + [Request(s.workers[j].order, InFlight)])
  }

  lemma {:induction false} ThenCall(s: State, before: seq<Action>, u: State, j: nat) returns (actions: seq<Action>)
    requires Leads(s, before, u) && AtPc(u, j) && u.workers[j].pc.Holding?
    ensures Leads(s, actions, Calls(u, j))
  {
    actions := Then(s, before, u, CallProvider(j), Calls(u, j));
  }

  // ---- The three ways to a second call

  /** After a call that may have succeeded, another worker claims the order and calls. */
  lemma {:induction false} SecondAfterLive(s: State, r: nat, j: nat, order: nat) returns (actions: seq<Action>)
    requires LiveFor(s, r, order) && Claimer(s, j, order) && Free(s, order)
    ensures Working(actions) && TwoLive(Run(s, actions), order)
  {
    assert Leads(s, [], s);
    actions := ThenClaim(s, [], s, j, order);
    var u := Claimed(s, j, order);
    actions := ThenCall(s, actions, u, j);
    assert LiveFor(Calls(u, j), |s.requests|, order) && LiveFor(Calls(u, j), r, order);
  }

  /** A stalled holder and a second one both call. */
  lemma {:induction false} SecondBesideHolder(s: State, i: nat, j: nat, order: nat) returns (actions: seq<Action>)
    requires AtPc(s, i) && CallerFor(s, i, order) && s.workers[i].pc.Holding?
    requires Claimer(s, j, order) && Free(s, order)
    ensures Working(actions) && TwoLive(Run(s, actions), order)
  {
    assert Leads(s, [], s);
    actions := ThenClaim(s, [], s, j, order);
    var u := Claimed(s, j, order);
    actions := ThenCall(s, actions, u, j);
    var v := Calls(u, j);
    actions := ThenCall(s, actions, v, i);
    var t := Calls(v, i);
    assert LiveFor(t, |s.requests|, order) && LiveFor(t, |s.requests| + 1, order);
  }

  /** A rejected holder gives back a claim that is no longer its own, and a third worker takes
      it. */
  lemma {:induction false} SecondAfterRelease(s: State, k: nat, i: nat, j: nat, order: nat)
    returns (actions: seq<Action>)
    requires AtPc(s, k) && HolderFor(s, k, order) && s.workers[k].pc.Refused? && Free(s, order)
    requires Claimer(s, i, order) && Claimer(s, j, order) && i != j
    ensures Working(actions) && TwoLive(Run(s, actions), order)
  {
    assert Leads(s, [], s);
    actions := ThenClaim(s, [], s, i, order);
    var u := Claimed(s, i, order);
    var v := SetSentinel(SetPc(u, k, Returned(Outbox.Retryable)), order, Unset);
    actions := Then(s, actions, u, Release(k), v);
    actions := ThenClaim(s, actions, v, j, order);
    var w := Claimed(v, j, order);
    var t := TwoHoldersCall(w, i, j, order);
    actions := Onward(s, actions, w, t, Run(w, t));
  }

  lemma {:induction false} TwoHoldersCall(s: State, i: nat, j: nat, order: nat) returns (actions: seq<Action>)
    requires AtPc(s, i) && CallerFor(s, i, order) && s.workers[i].pc.Holding?
    requires AtPc(s, j) && CallerFor(s, j, order) && s.workers[j].pc.Holding? && i != j
    ensures Working(actions) && TwoLive(Run(s, actions), order)
  {
    assert Leads(s, [], s);
    actions := ThenCall(s, [], s, i);
    actions := ThenCall(s, actions, Calls(s, i), j);
    var t := Calls(Calls(s, i), j);
    assert LiveFor(t, |s.requests|, order) && LiveFor(t, |s.requests| + 1, order);
  }

  /** The same before the rejection has arrived. */
  lemma {:induction false} SecondAfterDecline(s: State, k: nat, i: nat, j: nat, order: nat)
    returns (actions: seq<Action>)
    requires AtPc(s, k) && HolderFor(s, k, order) && Free(s, order)
    requires s.workers[k].pc.Called? && s.workers[k].pc.request < |s.requests|
    requires s.requests[s.workers[k].pc.request].fate.Declined?
    requires Claimer(s, i, order) && Claimer(s, j, order) && i != j
    ensures Working(actions) && TwoLive(Run(s, actions), order)
  {
    assert Leads(s, [], s);
    var u := SetPc(s, k, Refused);
    actions := Then(s, [], s, ReceiveAnswer(k, Rejected), u);
    var rest := SecondAfterRelease(u, k, i, j, order);
    actions := Onward(s, actions, u, rest, Run(u, rest));
  }

  /** What the sentinel guarded before it was given back. */
  ghost predicate OneUnderWay(s: State, order: nat) {
    && (forall q: nat, r: nat :: LiveFor(s, q, order) && LiveFor(s, r, order) ==> q == r)
    && (forall i: nat, j: nat :: HolderFor(s, i, order) && HolderFor(s, j, order) ==> i == j)
    && (forall j: nat, r: nat :: HolderFor(s, j, order) && LiveFor(s, r, order) ==> s.workers[j].pc == Called(r))
    && UnderWay(s, order)
  }

  /** Two workers past their read, beside whatever is under way. */
  lemma {:induction false} TwoClaimersCall(s: State, i: nat, j: nat, order: nat) returns (actions: seq<Action>)
    requires Wired(s) && Free(s, order) && OneUnderWay(s, order)
    requires Claimer(s, i, order) && Claimer(s, j, order) && i != j
    ensures Working(actions) && TwoLive(Run(s, actions), order)
  {
    if r: nat :| LiveFor(s, r, order) {
      actions := SecondAfterLive(s, r, j, order);
    } else {
      var k: nat :| HolderFor(s, k, order);
      assert CalledOk(s, s.workers[k]);
      if s.workers[k].pc.Holding? {
        actions := SecondBesideHolder(s, k, j, order);
      } else if s.workers[k].pc.Refused? {
        actions := SecondAfterRelease(s, k, i, j, order);
      } else {
        assert !LiveFor(s, s.workers[k].pc.request, order);
        actions := SecondAfterDecline(s, k, i, j, order);
      }
    }
  }

  lemma {:induction false} TwoCallsFollow(s: State, order: nat) returns (actions: seq<Action>)
    requires Wired(s) && Free(s, order) && OneUnderWay(s, order) && TwoCalls(s, order)
    ensures Working(actions) && TwoLive(Run(s, actions), order)
  {
    if j: nat, r: nat :| CallerFor(s, j, order) && LiveFor(s, r, order) {
      assert s.workers[j].pc.Holding? ==> HolderFor(s, j, order);
      actions := SecondAfterLive(s, r, j, order);
    } else {
      var i: nat, j: nat :| i != j && CallerFor(s, i, order) && CallerFor(s, j, order);
      assert s.workers[i].pc.Holding? ==> HolderFor(s, i, order);
      assert s.workers[j].pc.Holding? ==> HolderFor(s, j, order);
      if s.workers[i].pc.Holding? {
        actions := SecondBesideHolder(s, i, j, order);
      } else if s.workers[j].pc.Holding? {
        actions := SecondBesideHolder(s, j, i, order);
      } else {
        actions := TwoClaimersCall(s, i, j, order);
      }
    }
  }

  // ---- New workers for an order that is open

  predicate EventFor(s: State, event: nat, order: nat) {
    && event < |s.outbox.rows| && s.outbox.rows[event].kind == Outbox.Consignment(order)
    && Outbox.Claimable(s.outbox.rows[event])
  }

  /** One more worker, past its read; its lease has been running since time 0. */
  ghost predicate OneMore(s: State, t: State, event: nat, order: nat) {
    && t.orders == s.orders && t.requests == s.requests && |t.outbox.jobs| == |t.workers|
    && |t.workers| == |s.workers| + 1 && t.workers[..|s.workers|] == s.workers
    && Claimer(t, |s.workers|, order)
    && |t.outbox.rows| == |s.outbox.rows| && event < |s.outbox.rows|
    && t.outbox.rows[event]
       == s.outbox.rows[event].(status := Outbox.Processing, attempts := s.outbox.rows[event].attempts + 1,
                                updatedAt := 0)
  }

  lemma {:induction false} ClaimEvent(s: State, event: nat, order: nat)
    requires Wired(s) && EventFor(s, event, order)
    ensures var n := |s.workers|;
            var t := Apply(s, Lease(Outbox.Claim([event], 0)));
      && t.orders == s.orders && t.requests == s.requests
      && t.workers == s.workers + [Worker(order, s.outbox.rows[event].attempts + 1, Waiting)]
      && t.outbox.jobs == s.outbox.jobs + [Outbox.Job(event, s.outbox.rows[event].attempts + 1, Outbox.Claimed, false)]
      && |t.outbox.rows| == |s.outbox.rows| && t.outbox.rows[event] == Outbox.Taken(s.outbox.rows[event], 0)
  {
    var rows := s.outbox.rows;
    assert Outbox.ValidBatch(rows, [event]);
    assert Outbox.NewJobs(rows, [event]) == [Outbox.Job(event, rows[event].attempts + 1, Outbox.Claimed, false)];
    var next := Outbox.Apply(s.outbox, Outbox.Claim([event], 0));
    var job := Outbox.Job(event, rows[event].attempts + 1, Outbox.Claimed, false);
    assert next.jobs[|s.outbox.jobs|..] == [job];
    var t := Apply(s, Lease(Outbox.Claim([event], 0)));
    assert t.workers == s.workers + [NewWorker(rows, job)];
    assert event in [event] && next.rows[event] == Outbox.Taken(rows[event], 0);
  }

  lemma {:induction false} NewClaimer(s: State, event: nat, order: nat) returns (actions: seq<Action>)
    requires Wired(s) && EventFor(s, event, order) && Free(s, order) && s.orders[order].standing.Open?
    ensures Working(actions) && OneMore(s, Run(s, actions), event, order)
  {
    var n := |s.workers|;
    ClaimEvent(s, event, order);
    var u := Apply(s, Lease(Outbox.Claim([event], 0)));
    var v := Apply(u, Lease(Outbox.Renew(n, 0)));
    assert v == SetPc(u.(outbox := v.outbox), n, Entered);
    var w := Apply(v, ReadOrder(n));
    assert w == SetPc(v, n, AfterRead(v.orders, v.workers[n]));
    assert Leads(s, [], s);
    actions := Then(s, [], s, Lease(Outbox.Claim([event], 0)), u);
    actions := Then(s, actions, u, Lease(Outbox.Renew(n, 0)), v);
    actions := Then(s, actions, v, ReadOrder(n), w);
    assert w.workers[..n] == s.workers;
  }

  /** The lease of its worker expires, and the event can be claimed again. */
  lemma {:induction false} ExpireEvent(s: State, event: nat, order: nat)
    requires event < |s.outbox.rows| && s.outbox.rows[event].kind == Outbox.Consignment(order)
    requires s.outbox.rows[event].status == Outbox.Processing && s.outbox.rows[event].updatedAt == 0
    requires s.outbox.rows[event].attempts < Outbox.MAX_ATTEMPTS
    ensures var t := Apply(s, Lease(Outbox.Recover(Outbox.LEASE_MS + 1)));
      && t == s.(outbox := t.outbox) && t.outbox.jobs == s.outbox.jobs && EventFor(t, event, order)
  {
  }

  /** The event is claimed, its lease expires, and it is claimed again. */
  lemma {:induction false} TwoNewClaimers(s: State, event: nat, order: nat) returns (actions: seq<Action>)
    requires Wired(s) && EventFor(s, event, order) && s.outbox.rows[event].attempts == 0
    requires Free(s, order) && s.orders[order].standing.Open? && OneUnderWay(s, order)
    ensures Working(actions) && TwoLive(Run(s, actions), order)
  {
    var n := |s.workers|;
    var first := NewClaimer(s, event, order);
    var u := Run(s, first);
    var expiry := Lease(Outbox.Recover(Outbox.LEASE_MS + 1));
    ExpireEvent(u, event, order);
    var v := Apply(u, expiry);
    WiredMore(s, u, event, order);
    actions := Then(s, first, u, expiry, v);
    var second := NewClaimer(v, event, order);
    var w := Run(v, second);
    WiredMore(v, w, event, order);
    actions := Onward(s, actions, v, second, w);
    MoreUnderWay(s, u, event, order);
    SameUnderWay(u, v, order);
    MoreUnderWay(v, w, event, order);
    assert w.workers[n] == w.workers[..n + 1][n] == v.workers[n];
    var calls := TwoClaimersCall(w, n, n + 1, order);
    actions := Onward(s, actions, w, calls, Run(w, calls));
  }

  lemma WiredMore(s: State, t: State, event: nat, order: nat)
    requires Wired(s) && OneMore(s, t, event, order)
    ensures Wired(t)
  {
    forall j | 0 <= j < |t.workers| ensures CalledOk(t, t.workers[j]) {
      if j < |s.workers| {
        assert t.workers[j] == t.workers[..|s.workers|][j] == s.workers[j];
        assert CalledOk(s, s.workers[j]);
      }
    }
  }

  lemma MoreUnderWay(s: State, t: State, event: nat, order: nat)
    requires OneUnderWay(s, order) && OneMore(s, t, event, order)
    ensures OneUnderWay(t, order)
  {
    forall j: nat ensures HolderFor(t, j, order) <==> HolderFor(s, j, order) {
      if j < |s.workers| {
        assert t.workers[j] == t.workers[..|s.workers|][j] == s.workers[j];
      }
    }
    assert forall r: nat :: LiveFor(t, r, order) <==> LiveFor(s, r, order);
    forall j: nat, r: nat | HolderFor(t, j, order) && LiveFor(t, r, order) ensures t.workers[j].pc == Called(r) {
      assert HolderFor(s, j, order) && LiveFor(s, r, order);
      assert t.workers[j] == t.workers[..|s.workers|][j] == s.workers[j];
    }
  }

  // ---- The exact condition

  /** Some run without a further unsafe step makes a second call while the first may succeed. */
  ghost predicate SecondAhead(s: State, order: nat) {
    exists more: seq<Action> :: SafeRun(s, more) && |LiveCalls(Run(s, more), order)| >= 2
  }

  lemma {:induction false} ClearedUnderWay(s: State, a: Action)
    requires Inv(s) && Unsafe(s, a)
    ensures var order := s.outbox.rows[a.event].kind.order;
            var t := Apply(s, a);
      && Wired(t) && Free(t, order) && OneUnderWay(t, order) && t.workers == s.workers && t.requests == s.requests
      && t.orders[order].standing == s.orders[order].standing
      && (a.ClearAndRetry? ==> EventFor(t, a.event, order) && t.outbox.rows[a.event].attempts == 0)
  {
    var order := s.outbox.rows[a.event].kind.order;
    var t := Apply(s, a);
    assert Guarded(s, order);
    WiredStep(s, a);
    assert forall r: nat :: LiveFor(t, r, order) <==> LiveFor(s, r, order);
    assert forall j: nat :: HolderFor(t, j, order) <==> HolderFor(s, j, order);
  }

  function WithStanding(s: State, order: nat, standing: Standing): State
    requires order < |s.orders|
  {
    s.(orders := s.orders[order := s.orders[order].(standing := standing)])
  }

  /** A closed order can open again: once refunded, a success callback revives it. */
  lemma {:induction false} Reopen(s: State, order: nat) returns (actions: seq<Action>)
    requires order < |s.orders|
    ensures NoClears(actions) && Run(s, actions) == WithStanding(s, order, Open)
  {
    var open := WithStanding(s, order, Open);
    var revive := SetStanding(order, Open);
    if s.orders[order].standing.Open? {
      assert open == s;
      actions := [];
    } else if s.orders[order].standing.Refunded? {
      actions := [revive];
      RunOne(s, revive);
      assert Apply(s, revive) == open;
    } else {
      var refund := SetStanding(order, Refunded);
      var u := WithStanding(s, order, Refunded);
      actions := [refund] + [revive];
      RunOne(s, refund);
      RunOne(u, revive);
      RunConcat(s, [refund], [revive]);
      assert Apply(s, refund) == u && Apply(u, revive) == open;
    }
  }

  lemma SameUnderWay(s: State, t: State, order: nat)
    requires Wired(s) && OneUnderWay(s, order) && t.outbox.jobs == s.outbox.jobs
    requires t.workers == s.workers && t.requests == s.requests
    ensures Wired(t) && OneUnderWay(t, order)
  {
    forall j | 0 <= j < |t.workers| ensures CalledOk(t, t.workers[j]) {
      assert CalledOk(s, s.workers[j]);
    }
    assert forall j: nat :: HolderFor(t, j, order) <==> HolderFor(s, j, order);
    assert forall r: nat :: LiveFor(t, r, order) <==> LiveFor(s, r, order);
  }

  /** On an open order, by the event the admin has queued again or by a new one. */
  lemma {:induction false} OpenLeadsToSecond(s: State, event: Option<nat>, order: nat) returns (actions: seq<Action>)
    requires Wired(s) && OneUnderWay(s, order) && Free(s, order) && s.orders[order].standing.Open?
    requires event.Some? ==> EventFor(s, event.value, order) && s.outbox.rows[event.value].attempts == 0
    ensures Working(actions) && TwoLive(Run(s, actions), order)
  {
    if event.Some? {
      actions := TwoNewClaimers(s, event.value, order);
    } else {
      var insert := Lease(Outbox.Insert(Outbox.Consignment(order), 0));
      var u := Apply(s, insert);
      assert u == s.(outbox := u.outbox) && u.outbox.jobs == s.outbox.jobs && EventFor(u, |s.outbox.rows|, order);
      assert Leads(s, [], s);
      actions := Then(s, [], s, insert, u);
      SameUnderWay(s, u, order);
      var rest := TwoNewClaimers(u, |s.outbox.rows|, order);
      actions := Onward(s, actions, u, rest, Run(u, rest));
    }
  }

  lemma {:induction false} UnsafeLeadsToSecond(s: State, a: Action) returns (actions: seq<Action>)
    requires Inv(s) && Unsafe(s, a)
    ensures NoClears(actions) && TwoLive(Run(Apply(s, a), actions), s.outbox.rows[a.event].kind.order)
  {
    var order := s.outbox.rows[a.event].kind.order;
    var t := Apply(s, a);
    ClearedUnderWay(s, a);
    var reopen := Reopen(t, order);
    var u := WithStanding(t, order, Open);
    SameUnderWay(t, u, order);
    var rest := OpenLeadsToSecond(u, if a.ClearAndRetry? then Some(a.event) else None, order);
    actions := reopen + rest;
    RunConcat(t, reopen, rest);
  }

  /** The exact condition: after an admin has given the sentinel back, a second call for the order
      can be made while the first has created a shipment or still may, if and only if something
      was under way -- a call that may have succeeded, or a worker between its claim and its
      release. */
  lemma {:induction false} RedispatchIff(s: State, a: Action)
    requires Inv(s) && Clears(a) && Enabled(s, a)
    ensures SecondAhead(Apply(s, a), s.outbox.rows[a.event].kind.order) <==> Unsafe(s, a)
  {
    var order := s.outbox.rows[a.event].kind.order;
    var t := Apply(s, a);
    if Unsafe(s, a) {
      var more := UnsafeLeadsToSecond(s, a);
      NoClearsIsSafe(t, more);
      TwoLiveCalls(Run(t, more), order);
    } else {
      InvStep(s, a);
      forall more: seq<Action> | SafeRun(t, more) ensures |LiveCalls(Run(t, more), order)| <= 1 {
        InvRun(t, more);
        OneLiveCall(Run(t, more), order);
      }
    }
  }

  // ---- While the order stays closed

  predicate IsClosed(s: State, order: nat) {
    order < |s.orders| && !s.orders[order].standing.Open?
  }

  /** The order is closed, and at most one call is left for it in all. */
  ghost predicate Spent(s: State, order: nat) {
    IsClosed(s, order) && !TwoCalls(s, order)
  }

  ghost predicate StaysClosed(actions: seq<Action>, order: nat) {
    forall i :: 0 <= i < |actions| ==> actions[i] != SetStanding(order, Open)
  }

  lemma LeaseAddsNoCaller(s: State, step: Outbox.Action, order: nat)
    requires Outbox.Enabled(s.outbox, step)
    ensures forall j: nat :: CallerFor(ApplyLease(s, step), j, order) ==> CallerFor(s, j, order)
  {
    if step.Claim? {
      ClaimAddsWaiting(s, step);
    }
  }

  /** On a spent order nothing but its one call can still happen, whatever an admin does, while it
      stays closed. */
  lemma SpentStep(s: State, a: Action, order: nat)
    requires Spent(s, order) && Enabled(s, a) && a != SetStanding(order, Open)
    ensures Spent(Apply(s, a), order)
  {
    var t := Apply(s, a);
    match a
    case Lease(step) =>
      LeaseLetsGo(s, step, order);
      LeaseAddsNoCaller(s, step, order);
      StaysSpent(s, t, order);
    case CallProvider(j) => CallStaysSpent(s, j, order);
    case ReadOrder(j) => ReadStaysSpent(s, j, order);
    case _ => StaysSpent(s, t, order);
  }

  lemma StaysSpent(s: State, t: State, order: nat)
    requires Spent(s, order) && IsClosed(t, order)
    requires forall r: nat :: LiveFor(t, r, order) ==> LiveFor(s, r, order)
    requires forall j: nat :: CallerFor(t, j, order) ==> CallerFor(s, j, order)
    ensures Spent(t, order)
  {
  }

  lemma ReadStaysSpent(s: State, job: nat, order: nat)
    requires Spent(s, order) && Enabled(s, ReadOrder(job))
    ensures Spent(Apply(s, ReadOrder(job)), order)
  {
    StaysSpent(s, Apply(s, ReadOrder(job)), order);
  }

  lemma CallStaysSpent(s: State, job: nat, order: nat)
    requires Spent(s, order) && Enabled(s, CallProvider(job))
    ensures Spent(Apply(s, CallProvider(job)), order)
  {
    var t := Apply(s, CallProvider(job));
    if s.workers[job].order != order {
      StaysSpent(s, t, order);
    } else {
      assert CallerFor(s, job, order);
      assert forall j: nat :: CallerFor(t, j, order) ==> CallerFor(s, j, order) && j != job;
      assert forall r: nat :: LiveFor(t, r, order) ==> r == |s.requests| || LiveFor(s, r, order);
    }
  }

  lemma {:induction false} SpentRun(s: State, actions: seq<Action>, order: nat)
    requires Spent(s, order) && StaysClosed(actions, order)
    ensures Spent(Run(s, actions), order)
    decreases |actions|
  {
    if actions != [] {
      if Enabled(s, actions[0]) {
        SpentStep(s, actions[0], order);
      }
      SpentRun(Apply(s, actions[0]), actions[1..], order);
    }
  }

  /** Some such run that never opens the order makes a second call. */
  ghost predicate ClosedAhead(s: State, order: nat) {
    exists more: seq<Action> ::
      SafeRun(s, more) && StaysClosed(more, order) && |LiveCalls(Run(s, more), order)| >= 2
  }

  lemma SameCalls(s: State, t: State, order: nat)
    requires t.workers == s.workers && t.requests == s.requests
    ensures TwoCalls(t, order) <==> TwoCalls(s, order)
  {
    assert forall r: nat :: LiveFor(t, r, order) <==> LiveFor(s, r, order);
    assert forall j: nat :: CallerFor(t, j, order) <==> CallerFor(s, j, order);
  }

  /** The exact condition for a closed order that stays closed: something was under way, and two
      calls are made already or left to workers past their read of the order. */
  lemma {:induction false} ClosedRedispatchIff(s: State, a: Action)
    requires Inv(s) && Clears(a) && Enabled(s, a) && IsClosed(s, s.outbox.rows[a.event].kind.order)
    ensures var order := s.outbox.rows[a.event].kind.order;
      ClosedAhead(Apply(s, a), order) <==> Unsafe(s, a) && TwoCalls(s, order)
  {
    var order := s.outbox.rows[a.event].kind.order;
    var t := Apply(s, a);
    if !Unsafe(s, a) {
      RedispatchIff(s, a);
    } else {
      ClearedUnderWay(s, a);
      SameCalls(s, t, order);
      if TwoCalls(s, order) {
        var more := TwoCallsFollow(t, order);
        NoClearsIsSafe(t, more);
        TwoLiveCalls(Run(t, more), order);
      } else {
        forall more: seq<Action> | StaysClosed(more, order) ensures |LiveCalls(Run(t, more), order)| <= 1 {
          SpentRun(t, more, order);
          SpentHasOneCall(Run(t, more), order);
        }
      }
    }
  }

  lemma SpentHasOneCall(s: State, order: nat)
    requires Spent(s, order)
    ensures |LiveCalls(s, order)| <= 1
  {
    assert forall q: nat, r: nat :: LiveFor(s, q, order) && LiveFor(s, r, order) ==> q == r;
    AtMostOne(LiveCalls(s, order));
  }

  // ---- A run that meets it

  /** One worker has won the claim on the only order and has stalled before its call. */
  function Stalled(): State {
    State(Outbox.State([Outbox.Row(Outbox.Consignment(0), Outbox.Processing, 1, 0, 0)],
                       [Outbox.Job(0, 1, Outbox.Running, true)]),
          [Worker(0, 1, Holding)], [Order(Open, PendingDispatch)], [])
  }

  function Entering(): State {
    Stalled().(orders := [Order(Open, Unset)], workers := [Worker(0, 1, Entered)])
  }

  lemma {:induction false} EnteringIsReached() returns (done: seq<Action>)
    ensures Leads(EMPTY, done, Entering())
  {
    var s1 := EMPTY.(orders := [Order(Open, Unset)]);
    assert Leads(EMPTY, [], EMPTY);
    done := Then(EMPTY, [], EMPTY, PlaceOrder, s1);
    var row := Outbox.Row(Outbox.Consignment(0), Outbox.Pending, 0, 0, 0);
    var s2 := s1.(outbox := Outbox.State([row], []));
    done := Then(EMPTY, done, s1, Lease(Outbox.Insert(Outbox.Consignment(0), 0)), s2);
    ClaimEvent(s2, 0, 0);
    var s3 := Apply(s2, Lease(Outbox.Claim([0], 0)));
    assert s3 == State(Outbox.State([Outbox.Taken(row, 0)], [Outbox.Job(0, 1, Outbox.Claimed, false)]),
                       [Worker(0, 1, Waiting)], s1.orders, []);
    done := Then(EMPTY, done, s2, Lease(Outbox.Claim([0], 0)), s3);
    done := Then(EMPTY, done, s3, Lease(Outbox.Renew(0, 0)), Entering());
  }

  lemma {:induction false} StalledIsReached() returns (done: seq<Action>)
    ensures Leads(EMPTY, done, Stalled())
  {
    done := EnteringIsReached();
    var s := Entering().(workers := [Worker(0, 1, Claiming(None))]);
    done := Then(EMPTY, done, Entering(), ReadOrder(0), s);
    done := Then(EMPTY, done, s, ClaimDispatch(0), Stalled());
  }

  /** The provider has nothing for the order and no call is in flight, so the admin's evidence is
      true; yet after the retry two calls are made that can both succeed. */
  lemma {:induction false} StalledClaimWitness() returns (done: seq<Action>, more: seq<Action>)
    ensures NoClears(done) && Run(EMPTY, done).requests == []
    ensures var t := Apply(Run(EMPTY, done), ClearAndRetry(0, 1));
      NoClears(more) && |LiveCalls(Run(t, more), 0)| >= 2
  {
    done := StalledIsReached();
    var s := Stalled();
    NoClearsIsSafe(EMPTY, done);
    InvRun(EMPTY, done);
    assert HolderFor(s, 0, 0);
    assert Unsafe(s, ClearAndRetry(0, 1));
    more := UnsafeLeadsToSecond(s, ClearAndRetry(0, 1));
    TwoLiveCalls(Run(Apply(s, ClearAndRetry(0, 1)), more), 0);
  }
}
