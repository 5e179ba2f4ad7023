/** The outbox lease protocol: any number of workers claim batches of events, prove
    ownership before running a handler, crash, are recovered after five minutes, and
    finish under an attempt-number fence.  `Apply` gives each SQL statement as one step;
    a run is any sequence of steps of any number of workers. */
module Outbox {
  import opened Basics

  const MAX_ATTEMPTS: nat := 3
  const LEASE_MS: nat := 300_000
  const BATCH_SIZE: nat := 10

  type EventId = nat
  type Time = int

  datatype Status = Pending | Processing | Completed | Failed

  /** What the `switch` over the event type selects. */
  datatype Kind = Consignment(order: nat) | Notification | Unrecognised

  datatype Row = Row(kind: Kind, status: Status, attempts: nat, createdAt: Time, updatedAt: Time)

  /** How a handler ended: normally, with an ordinary error, with a
      NonRetryableOutboxError, or through the `default` branch of the switch. */
  datatype Outcome = Succeeded | Retryable | NonRetryable | NoHandler

  datatype Phase = Claimed | Running | Gone

  /** One claimed event in a worker's hands.  `attempt` is the value the claim returned;
      `entered` records whether the handler was entered. */
  datatype Job = Job(event: EventId, attempt: nat, phase: Phase, entered: bool)

  datatype State = State(rows: seq<Row>, jobs: seq<Job>)

  datatype Action =
    | Insert(kind: Kind, now: Time)
    | Recover(now: Time)
    | Claim(batch: seq<EventId>, now: Time)
    | Renew(job: nat, now: Time)
    | Finish(job: nat, outcome: Outcome, now: Time)
    | Crash(job: nat)

  // ---- The statements, row by row

  predicate Stranded(row: Row, now: Time) {
    row.status == Processing && row.updatedAt < now - LEASE_MS
  }

  function Recovered(row: Row, now: Time): Row {
    if Stranded(row, now) then
      row.(status := if row.attempts < MAX_ATTEMPTS then Pending else Failed, updatedAt := now)
    else row
  }

  predicate Claimable(row: Row) {
    row.status == Pending && row.attempts < MAX_ATTEMPTS
  }

  function Taken(row: Row, now: Time): Row {
    row.(status := Processing, attempts := row.attempts + 1, updatedAt := now)
  }

  predicate Owns(row: Row, attempt: nat) {
    row.status == Processing && row.attempts == attempt
  }

  /** `markFailed`: without an expected attempt number the statement has no fence. */
  function MarkedFailed(row: Row, fence: bool, attempt: nat, now: Time): Row {
    if fence && row.attempts > attempt then row else row.(status := Failed, updatedAt := now)
  }

  /** The one write that ends a job. */
  function FinalWrite(row: Row, attempt: nat, outcome: Outcome, now: Time): Row {
    match outcome
    case Succeeded =>
      if row.attempts == attempt then row.(status := Completed, updatedAt := now) else row
    case NoHandler => MarkedFailed(row, false, attempt, now)
    case NonRetryable => MarkedFailed(row, true, attempt, now)
    case Retryable =>
      if attempt >= MAX_ATTEMPTS then MarkedFailed(row, true, attempt, now)
      else if Owns(row, attempt) then row.(status := Pending, updatedAt := now)
      else row
  }

  // ---- The machine

  predicate Distinct(batch: seq<EventId>) {
    forall i, j :: 0 <= i < j < |batch| ==> batch[i] != batch[j]
  }

  predicate ValidBatch(rows: seq<Row>, batch: seq<EventId>) {
    && |batch| <= BATCH_SIZE
    && Distinct(batch)
    && forall i :: 0 <= i < |batch| ==> batch[i] < |rows| && Claimable(rows[batch[i]])
  }

  function TakeBatch(rows: seq<Row>, batch: seq<EventId>, now: Time): (taken: seq<Row>)
    ensures |taken| == |rows|
  {
    seq(|rows|, i requires 0 <= i < |rows| => if i in batch then Taken(rows[i], now) else rows[i])
  }

  function NewJobs(rows: seq<Row>, batch: seq<EventId>): seq<Job>
    requires ValidBatch(rows, batch)
  {
    seq(|batch|, i requires 0 <= i < |batch| => Job(batch[i], rows[batch[i]].attempts + 1, Claimed, false))
  }

  /** An ordinary error can come from any statement: the renewal, the handler, or the final
      write itself.  Only an event without a handler ends through the `default` branch. */
  predicate MayEnd(kind: Kind, outcome: Outcome) {
    outcome == Retryable || (outcome == NoHandler <==> kind == Unrecognised)
  }

  predicate Enabled(s: State, a: Action) {
    match a
    case Insert(_, _) => true
    case Recover(_) => true
    case Claim(batch, _) => ValidBatch(s.rows, batch)
    case Renew(j, _) => j < |s.jobs| && s.jobs[j].phase == Claimed && s.jobs[j].event < |s.rows|
    case Finish(j, outcome, _) =>
      && j < |s.jobs| && s.jobs[j].event < |s.rows|
      && (s.jobs[j].phase == Running || (s.jobs[j].phase == Claimed && outcome == Retryable))
      && MayEnd(s.rows[s.jobs[j].event].kind, outcome)
    case Crash(j) => j < |s.jobs|
  }

  function Apply(s: State, a: Action): State {
    if !Enabled(s, a) then s else
    match a
    case Insert(kind, now) => s.(rows := s.rows + [Row(kind, Pending, 0, now, now)])
    case Recover(now) =>
      s.(rows := seq(|s.rows|, i requires 0 <= i < |s.rows| => Recovered(s.rows[i], now)))
    case Claim(batch, now) =>
      State(TakeBatch(s.rows, batch, now), s.jobs + NewJobs(s.rows, batch))
    case Renew(j, now) =>
      var job := s.jobs[j];
      var row := s.rows[job.event];
      if Owns(row, job.attempt) then
        State(s.rows[job.event := row.(updatedAt := now)],
              s.jobs[j := job.(phase := Running, entered := true)])
      else s.(jobs := s.jobs[j := job.(phase := Gone)])
    case Finish(j, outcome, now) =>
      var job := s.jobs[j];
      State(s.rows[job.event := FinalWrite(s.rows[job.event], job.attempt, outcome, now)],
            s.jobs[j := job.(phase := Gone)])
    case Crash(j) => s.(jobs := s.jobs[j := s.jobs[j].(phase := Gone)])
  }

  function Run(s: State, actions: seq<Action>): State
    decreases |actions|
  {
    if actions == [] then s else Run(Apply(s, actions[0]), actions[1..])
  }

  const EMPTY: State := State([], [])

  // ---- Invariant

  predicate RowOk(row: Row) {
    && row.attempts <= MAX_ATTEMPTS
    && (row.status == Pending ==> row.attempts < MAX_ATTEMPTS)
    && (row.status == Processing ==> row.attempts >= 1)
    && (row.kind == Unrecognised ==> row.status != Completed)
  }

  predicate JobOk(rows: seq<Row>, job: Job) {
    && job.event < |rows|
    && 1 <= job.attempt <= rows[job.event].attempts
    // Only the latest claimant can complete an event, and it is gone afterwards.
    && (rows[job.event].status == Completed && job.attempt == rows[job.event].attempts ==>
          job.phase == Gone)
  }

  ghost predicate Inv(s: State) {
    && (forall e :: 0 <= e < |s.rows| ==> RowOk(s.rows[e]))
    && (forall j :: 0 <= j < |s.jobs| ==> JobOk(s.rows, s.jobs[j]))
    && (forall i, j :: 0 <= i < j < |s.jobs| ==>
          s.jobs[i].event != s.jobs[j].event || s.jobs[i].attempt != s.jobs[j].attempt)
  }

  lemma ClaimKeepsInv(s: State, batch: seq<EventId>, now: Time)
    requires Inv(s) && Enabled(s, Claim(batch, now))
    ensures Inv(Apply(s, Claim(batch, now)))
  {
    var t := Apply(s, Claim(batch, now));
    forall i, j | 0 <= i < j < |t.jobs|
      ensures t.jobs[i].event != t.jobs[j].event || t.jobs[i].attempt != t.jobs[j].attempt
    {
      if i < |s.jobs| <= j {
        assert JobOk(s.rows, s.jobs[i]);
      }
    }
  }

  lemma RecoverKeepsInv(s: State, now: Time)
    requires Inv(s)
    ensures Inv(Apply(s, Recover(now)))
  {
    var t := Apply(s, Recover(now));
    forall j | 0 <= j < |t.jobs| ensures JobOk(t.rows, t.jobs[j]) {
      assert JobOk(s.rows, s.jobs[j]);
    }
  }

  lemma FinishKeepsInv(s: State, job: nat, outcome: Outcome, now: Time)
    requires Inv(s) && Enabled(s, Finish(job, outcome, now))
    ensures Inv(Apply(s, Finish(job, outcome, now)))
  {
    var t := Apply(s, Finish(job, outcome, now));
    assert JobOk(s.rows, s.jobs[job]);
    forall j | 0 <= j < |t.jobs| ensures JobOk(t.rows, t.jobs[j]) {
      assert JobOk(s.rows, s.jobs[j]);
    }
  }

  lemma InvStep(s: State, a: Action)
    requires Inv(s)
    ensures Inv(Apply(s, a))
  {
    if Enabled(s, a) {
      match a
      case Claim(batch, now) => ClaimKeepsInv(s, batch, now);
      case Recover(now) => RecoverKeepsInv(s, now);
      case Finish(j, outcome, now) => FinishKeepsInv(s, j, outcome, now);
      case _ =>
    }
  }

  lemma {:induction false} InvRun(s: State, actions: seq<Action>)
    requires Inv(s)
    ensures Inv(Run(s, actions))
    decreases |actions|
  {
    if actions != [] {
      InvStep(s, actions[0]);
      InvRun(Apply(s, actions[0]), actions[1..]);
    }
  }

  // ---- Fencing

  function Entries(s: State, e: EventId): set<nat> {
    set j: nat | j < |s.jobs| && s.jobs[j].entered && s.jobs[j].event == e
  }

  /** In every reachable state at most one worker has entered the handler per attempt
      number, and an event's handler has been entered at most three times in all. */
  lemma {:induction false} AtMostThreeEntries(actions: seq<Action>, e: EventId)
    ensures var s := Run(EMPTY, actions);
      && (forall i, j :: i in Entries(s, e) && j in Entries(s, e) && i != j ==>
            s.jobs[i].attempt != s.jobs[j].attempt)
      && |Entries(s, e)| <= MAX_ATTEMPTS
  {
    InvRun(EMPTY, actions);
    var s := Run(EMPTY, actions);
    var used := set j | j in Entries(s, e) :: s.jobs[j].attempt;
    forall j | j in Entries(s, e) ensures s.jobs[j].attempt in {1, 2, 3} {
      assert JobOk(s.rows, s.jobs[j]);
    }
    assert used <= {1, 2, 3};
    SubsetSize(used, {1, 2, 3});
    InjectionSize(s, Entries(s, e), used);
  }

  lemma {:induction false} InjectionSize(s: State, js: set<nat>, used: set<nat>)
    requires forall j :: j in js ==> j < |s.jobs| && s.jobs[j].attempt in used
    requires forall i, j :: i in js && j in js && i != j ==> s.jobs[i].attempt != s.jobs[j].attempt
    ensures |js| <= |used|
  {
    if j :| j in js {
      InjectionSize(s, js - {j}, used - {s.jobs[j].attempt});
    }
  }

  // ---- How a job ends

  /** The end of a job whose worker owns the event: completed on success, failed at once on an
      error that must not be retried or without a handler, and on an ordinary error pending again
      -- and so claimable -- exactly while attempts are left. */
  lemma EndingDecides(row: Row, attempt: nat, outcome: Outcome, now: Time)
    requires row.status == Processing && row.attempts == attempt
    ensures var after := FinalWrite(row, attempt, outcome, now);
      && after.attempts == row.attempts && after.kind == row.kind && after.createdAt == row.createdAt
      && after.updatedAt == now
      && (after.status == Completed <==> outcome == Succeeded)
      && (after.status == Pending <==> outcome == Retryable && attempt < MAX_ATTEMPTS)
      && (Claimable(after) <==> outcome == Retryable && attempt < MAX_ATTEMPTS)
      && (after.status == Failed <==>
            outcome == NonRetryable || outcome == NoHandler || (outcome == Retryable && attempt >= MAX_ATTEMPTS))
  {
  }

  /** The end of a job whose lease was taken away but not claimed anew: a success still counts and
      a final failure still fails, but an ordinary error has nothing to give back. */
  lemma ExpiredEndingDecides(row: Row, attempt: nat, outcome: Outcome, now: Time)
    requires row.status != Processing && row.attempts == attempt
    ensures FinalWrite(row, attempt, outcome, now) ==
      if outcome == Retryable && attempt < MAX_ATTEMPTS then row
      else row.(status := if outcome == Succeeded then Completed else Failed, updatedAt := now)
  {
  }

  /** Recovery changes exactly the events in process for more than five minutes: pending again
      while attempts are left, failed otherwise. */
  lemma RecoveryDecides(row: Row, now: Time)
    ensures Recovered(row, now) ==
      if row.status == Processing && now - row.updatedAt > 300_000 then
        row.(status := if row.attempts < 3 then Pending else Failed, updatedAt := now)
      else row
  {
  }

  /** A worker enters the handler exactly if the event is still in process and no newer claim has
      been made; entering renews the lease, and nothing else changes. */
  lemma RenewalDecides(s: State, j: nat, now: Time)
    requires Enabled(s, Renew(j, now))
    ensures var t := Apply(s, Renew(j, now));
            var e := s.jobs[j].event;
            var owned := s.rows[e].status == Processing && s.rows[e].attempts == s.jobs[j].attempt;
      && |t.jobs| == |s.jobs| && (t.jobs[j].phase == Running <==> owned) && (owned ==> t.jobs[j].entered)
      && t.rows == if owned then s.rows[e := s.rows[e].(updatedAt := now)] else s.rows
  {
  }

  /** Once a newer claim exists, the final write of an older worker leaves the event's
      status and attempts alone exactly when it is not that of the `default` branch -- the one
      unfenced write -- or the row has already failed. */
  lemma StaleWriteChangesNothing(s: State, j: nat, outcome: Outcome, now: Time)
    requires Inv(s) && Enabled(s, Finish(j, outcome, now))
    requires s.jobs[j].attempt < s.rows[s.jobs[j].event].attempts
    ensures var before := s.rows[s.jobs[j].event];
            var after := Apply(s, Finish(j, outcome, now)).rows[s.jobs[j].event];
      && (after.status == before.status && after.attempts == before.attempts <==>
            outcome != NoHandler || before.status == Failed)
      && (outcome != NoHandler ==> after == before)
  {
    assert JobOk(s.rows, s.jobs[j]);
  }

  /** A run in which the unfenced write of an older worker kills the newer worker's claim. */
  lemma UnfencedWriteWitness()
    ensures var actions := [Insert(Unrecognised, 0), Claim([0], 0), Renew(0, 1),
                            Recover(LEASE_MS + 2), Claim([0], LEASE_MS + 3)];
            var s := Run(EMPTY, actions);
            var t := Apply(s, Finish(0, NoHandler, LEASE_MS + 4));
      && |s.rows| == |t.rows| == 1
      && s.rows[0].status == Processing && s.rows[0].attempts == 2
      && t.rows[0].status == Failed
  {
    var s1 := Apply(EMPTY, Insert(Unrecognised, 0));
    var s2 := Apply(s1, Claim([0], 0));
    var s3 := Apply(s2, Renew(0, 1));
    var s4 := Apply(s3, Recover(LEASE_MS + 2));
    var s5 := Apply(s4, Claim([0], LEASE_MS + 3));
    assert ValidBatch(s1.rows, [0]) && s2.jobs == [Job(0, 1, Claimed, false)];
    assert s3.rows[0] == Row(Unrecognised, Processing, 1, 0, 1);
    assert s4.rows[0].status == Pending;
    assert ValidBatch(s4.rows, [0]) && s5.jobs[0] == Job(0, 1, Running, true);
    RunFive(EMPTY, Insert(Unrecognised, 0), Claim([0], 0), Renew(0, 1),
            Recover(LEASE_MS + 2), Claim([0], LEASE_MS + 3));
  }

  lemma {:induction false} RunFive(s: State, a: Action, b: Action, c: Action, d: Action, e: Action)
    ensures Run(s, [a, b, c, d, e]) == Apply(Apply(Apply(Apply(Apply(s, a), b), c), d), e)
  {
    RunCons(s, a, [b, c, d, e]);
    RunCons(Apply(s, a), b, [c, d, e]);
    RunCons(Apply(Apply(s, a), b), c, [d, e]);
    RunCons(Apply(Apply(Apply(s, a), b), c), d, [e]);
    RunCons(Apply(Apply(Apply(Apply(s, a), b), c), d), e, []);
    assert [a] + [b, c, d, e] == [a, b, c, d, e] && [b] + [c, d, e] == [b, c, d, e];
    assert [c] + [d, e] == [c, d, e] && [d] + [e] == [d, e] && [e] + [] == [e];
  }

  lemma {:induction false} RunCons(s: State, a: Action, rest: seq<Action>)
    ensures Run(s, [a] + rest) == Run(Apply(s, a), rest)
  {
    assert ([a] + rest)[1..] == rest;
  }

  // ---- Ordinary errors

  /** A step that leaves the event's workers alone: none crashes, none is stranded, and each of
      them ends inside its handler, with an ordinary error. */
  predicate Ordinary(s: State, a: Action, e: EventId) {
    match a
    case Recover(now) => e < |s.rows| ==> !Stranded(s.rows[e], now)
    case Crash(j) => j < |s.jobs| ==> s.jobs[j].event != e
    case Finish(j, outcome, _) =>
      j < |s.jobs| && s.jobs[j].event == e ==> s.jobs[j].phase == Running && outcome == Retryable
    case _ => true
  }

  ghost predicate OrdinaryRun(s: State, actions: seq<Action>, e: EventId)
    decreases |actions|
  {
    actions == [] || (Ordinary(s, actions[0], e) && OrdinaryRun(Apply(s, actions[0]), actions[1..], e))
  }

  function JobsOf(s: State, e: EventId): set<nat> {
    set j: nat | j < |s.jobs| && s.jobs[j].event == e
  }

  function AttemptsOf(s: State, e: EventId): nat {
    if e < |s.rows| then s.rows[e].attempts else 0
  }

  /** Only the latest job has yet to enter or to end, while the event is in process. */
  predicate TryOk(s: State, e: EventId, job: Job) {
    job.event == e ==>
      && e < |s.rows|
      && (job.phase != Gone ==> s.rows[e].status == Processing && s.rows[e].attempts == job.attempt)
      && (!job.entered ==> job.phase == Claimed)
  }

  ghost predicate Trying(s: State, e: EventId) {
    && Inv(s)
    && |JobsOf(s, e)| == AttemptsOf(s, e)
    && (forall j :: 0 <= j < |s.jobs| ==> TryOk(s, e, s.jobs[j]))
    && (e < |s.rows| ==> s.rows[e].status != Completed && (s.rows[e].status == Failed ==> s.rows[e].attempts == 3))
  }

  lemma {:induction false} ClaimTries(s: State, batch: seq<EventId>, now: Time, e: EventId)
    requires Trying(s, e) && Enabled(s, Claim(batch, now))
    ensures Trying(Apply(s, Claim(batch, now)), e)
  {
    var t := Apply(s, Claim(batch, now));
    ClaimKeepsInv(s, batch, now);
    ClaimAddsJob(s, batch, now, e);
    forall j | 0 <= j < |t.jobs| ensures TryOk(t, e, t.jobs[j]) {
      if j < |s.jobs| {
        assert TryOk(s, e, s.jobs[j]);
      }
    }
  }

  lemma {:induction false} ClaimAddsJob(s: State, batch: seq<EventId>, now: Time, e: EventId)
    requires Enabled(s, Claim(batch, now))
    ensures var t := Apply(s, Claim(batch, now));
      |JobsOf(t, e)| == |JobsOf(s, e)| + if e in batch then 1 else 0
  {
    var t := Apply(s, Claim(batch, now));
    var n := |s.jobs|;
    ClaimJobs(s, batch, now);
    if e in batch {
      var i :| 0 <= i < |batch| && batch[i] == e;
      var added: nat := n + i;
      forall j: nat ensures j in JobsOf(t, e) <==> j in JobsOf(s, e) || j == added {
        if n <= j < |t.jobs| {
          assert t.jobs[j].event == batch[j - n];
        }
      }
      assert JobsOf(t, e) == JobsOf(s, e) + {added};
    } else {
      assert JobsOf(t, e) == JobsOf(s, e);
    }
  }

  lemma {:induction false} ClaimJobs(s: State, batch: seq<EventId>, now: Time)
    requires Enabled(s, Claim(batch, now))
    ensures var t := Apply(s, Claim(batch, now));
      && |t.jobs| == |s.jobs| + |batch|
      && (forall j :: 0 <= j < |s.jobs| ==> t.jobs[j] == s.jobs[j])
      && (forall j :: |s.jobs| <= j < |t.jobs| ==> t.jobs[j].event == batch[j - |s.jobs|])
  {
  }

  lemma {:induction false} SameJobsTry(s: State, a: Action, e: EventId)
    requires Trying(s, e) && Enabled(s, a) && Ordinary(s, a, e) && !a.Claim?
    ensures Trying(Apply(s, a), e)
  {
    var t := Apply(s, a);
    InvStep(s, a);
    assert JobsOf(t, e) == JobsOf(s, e);
    if a.Finish? {
      assert TryOk(s, e, s.jobs[a.job]);
    }
    forall j | 0 <= j < |t.jobs| ensures TryOk(t, e, t.jobs[j]) {
      assert TryOk(s, e, s.jobs[j]);
    }
  }

  lemma {:induction false} TryingRun(s: State, actions: seq<Action>, e: EventId)
    requires Trying(s, e) && OrdinaryRun(s, actions, e)
    ensures Trying(Run(s, actions), e)
    decreases |actions|
  {
    if actions != [] {
      var a := actions[0];
      if Enabled(s, a) {
        if a.Claim? {
          ClaimTries(s, a.batch, a.now, e);
        } else {
          SameJobsTry(s, a, e);
        }
      }
      TryingRun(Apply(s, a), actions[1..], e);
    }
  }

  /** Over every run in which an event's workers end in ordinary errors alone, its handler has
      been entered once for every attempt whenever no worker holds it; so it is pending, and can
      be claimed, until it has been entered exactly three times, and only then it has failed. */
  lemma {:induction false} ThreeTriesBeforeFailed(actions: seq<Action>, e: EventId)
    requires OrdinaryRun(EMPTY, actions, e) && e < |Run(EMPTY, actions).rows|
    ensures var s := Run(EMPTY, actions);
      && (s.rows[e].status != Processing ==> |Entries(s, e)| == s.rows[e].attempts)
      && (s.rows[e].status == Failed <==> s.rows[e].status != Processing && |Entries(s, e)| == 3)
      && (s.rows[e].status == Pending <==> s.rows[e].status != Processing && |Entries(s, e)| < 3)
      && (s.rows[e].status == Pending ==> Claimable(s.rows[e]))
  {
    assert JobsOf(EMPTY, e) == {};
    TryingRun(EMPTY, actions, e);
    var s := Run(EMPTY, actions);
    if s.rows[e].status != Processing {
      forall j | j in JobsOf(s, e) ensures j in Entries(s, e) {
        assert TryOk(s, e, s.jobs[j]);
      }
      assert Entries(s, e) == JobsOf(s, e);
      assert RowOk(s.rows[e]);
    }
  }

  // ---- Termination

  /** Pending events are always claimable again. */
  lemma {:induction false} PendingIsClaimable(actions: seq<Action>, e: EventId)
    requires e < |Run(EMPTY, actions).rows|
    ensures var row := Run(EMPTY, actions).rows[e]; row.status == Pending ==> Claimable(row)
  {
    InvRun(EMPTY, actions);
  }

  /** The pair (attempts left, status rank), flattened into one number. */
  function Potential(row: Row): nat
    requires RowOk(row)
  {
    match row.status
    case Completed => 0
    case Failed => 1
    case Pending => 7 - 2 * row.attempts
    case Processing => 8 - 2 * row.attempts
  }

  lemma {:induction false} StepLowersPotential(s: State, a: Action, e: EventId)
    requires Inv(s) && e < |s.rows|
    ensures e < |Apply(s, a).rows| && RowOk(Apply(s, a).rows[e])
    ensures var before := s.rows[e]; var after := Apply(s, a).rows[e];
      && (after.status != before.status ==> Potential(after) < Potential(before))
      && (after.status == before.status ==> after.attempts == before.attempts)
      && (before.status == Completed ==> after.status == Completed)
  {
    InvStep(s, a);
    if Enabled(s, a) && a.Finish? {
      assert JobOk(s.rows, s.jobs[a.job]);
    }
  }

  function StatusChanges(s: State, actions: seq<Action>, e: EventId): nat
    requires Inv(s) && e < |s.rows|
    decreases |actions|
  {
    if actions == [] then 0 else
    InvStep(s, actions[0]);
    StepLowersPotential(s, actions[0], e);
    var t := Apply(s, actions[0]);
    (if t.rows[e].status != s.rows[e].status then 1 else 0) + StatusChanges(t, actions[1..], e)
  }

  /** However long the workers run, an event changes status at most `Potential` times --
      at most seven times from its insertion -- and `completed` is never left. */
  lemma {:induction false} BoundedStatusChanges(s: State, actions: seq<Action>, e: EventId)
    requires Inv(s) && e < |s.rows|
    ensures e < |Run(s, actions).rows| && RowOk(Run(s, actions).rows[e])
    ensures StatusChanges(s, actions, e) + Potential(Run(s, actions).rows[e]) <= Potential(s.rows[e])
    ensures StatusChanges(s, actions, e) <= 7
    ensures s.rows[e].status == Completed ==> Run(s, actions).rows[e].status == Completed
    decreases |actions|
  {
    if actions != [] {
      InvStep(s, actions[0]);
      StepLowersPotential(s, actions[0], e);
      BoundedStatusChanges(Apply(s, actions[0]), actions[1..], e);
    }
  }

  lemma {:induction false} StatusChangesSnoc(s: State, actions: seq<Action>, a: Action, e: EventId)
    requires Inv(s) && e < |s.rows|
    ensures Run(s, actions + [a]) == Apply(Run(s, actions), a)
    ensures e < |Run(s, actions).rows| && e < |Run(s, actions + [a]).rows|
    ensures StatusChanges(s, actions + [a], e) == StatusChanges(s, actions, e)
      + if Run(s, actions + [a]).rows[e].status != Run(s, actions).rows[e].status then 1 else 0
    decreases |actions|
  {
    InvStep(s, if actions == [] then a else actions[0]);
    StepLowersPotential(s, if actions == [] then a else actions[0], e);
    if actions == [] {
      assert [a][1..] == [] && [] + [a] == [a];
    } else {
      StatusChangesSnoc(Apply(s, actions[0]), actions[1..], a, e);
      assert (actions + [a])[1..] == actions[1..] + [a];
    }
  }

  /** A run on the only event, and how often its status has changed. */
  ghost predicate Changed(s: State, actions: seq<Action>, t: State, n: nat) {
    Inv(s) && |s.rows| == |t.rows| == 1 && Run(s, actions) == t && StatusChanges(s, actions, 0) == n
  }

  lemma {:induction false} ThenChange(s: State, actions: seq<Action>, t: State, n: nat, a: Action, u: State)
    returns (more: seq<Action>)
    requires Changed(s, actions, t, n) && Apply(t, a) == u && |u.rows| == 1
    ensures Changed(s, more, u, n + if u.rows[0].status != t.rows[0].status then 1 else 0)
  {
    more := actions + [a];
    StatusChangesSnoc(s, actions, a, 0);
  }

  function OneRow(kind: Kind, status: Status, attempts: nat, updatedAt: Time, jobs: seq<Job>): State {
    State([Row(kind, status, attempts, 0, updatedAt)], jobs)
  }

  /** One claim whose lease expires: two changes of status. */
  lemma {:induction false} ClaimAndExpire(s: State, actions: seq<Action>, kind: Kind, attempts: nat, at: Time,
                                          jobs: seq<Job>, n: nat) returns (more: seq<Action>)
    requires Changed(s, actions, OneRow(kind, Pending, attempts, at, jobs), n) && attempts + 1 < MAX_ATTEMPTS
    ensures Changed(s, more, OneRow(kind, Pending, attempts + 1, LEASE_MS + 1,
                                    jobs + [Job(0, attempts + 1, Claimed, false)]), n + 2)
  {
    var t := OneRow(kind, Pending, attempts, at, jobs);
    var u := OneRow(kind, Processing, attempts + 1, 0, jobs + [Job(0, attempts + 1, Claimed, false)]);
    assert ValidBatch(t.rows, [0]) && 0 in [0];
    more := ThenChange(s, actions, t, n, Claim([0], 0), u);
    var v := OneRow(kind, Pending, attempts + 1, LEASE_MS + 1, u.jobs);
    more := ThenChange(s, more, u, n + 1, Recover(LEASE_MS + 1), v);
  }

  lemma {:induction false} Inserted(kind: Kind)
    ensures Run(EMPTY, [Insert(kind, 0)]) == OneRow(kind, Pending, 0, 0, [])
    ensures Changed(OneRow(kind, Pending, 0, 0, []), [], OneRow(kind, Pending, 0, 0, []), 0)
  {
    var s := OneRow(kind, Pending, 0, 0, []);
    assert [Insert(kind, 0)][1..] == [] && Apply(EMPTY, Insert(kind, 0)) == s;
    assert Run(EMPTY, [Insert(kind, 0)]) == Run(s, []) == s;
    InvRun(EMPTY, [Insert(kind, 0)]);
  }

  /** Seven is attained, by a run for every kind of event that has a handler: two claims whose
      leases expire, a third whose expiry fails the event, and the late success of its worker. */
  lemma {:induction false} SevenIsAttained(kind: Kind) returns (actions: seq<Action>)
    requires kind != Unrecognised
    ensures var s := Run(EMPTY, [Insert(kind, 0)]);
      && Inv(s) && |s.rows| == 1 && StatusChanges(s, actions, 0) == 7
      && |Run(s, actions).rows| == 1 && Run(s, actions).rows[0].status == Completed
  {
    var s := OneRow(kind, Pending, 0, 0, []);
    Inserted(kind);
    actions := TwiceExpired(s, kind);
    actions := ThirdClaimFailsLate(s, actions, kind, FirstJobs());
  }

  function FirstJobs(): seq<Job> {
    [Job(0, 1, Claimed, false)] + [Job(0, 2, Claimed, false)]
  }

  lemma {:induction false} TwiceExpired(s: State, kind: Kind) returns (actions: seq<Action>)
    requires s == OneRow(kind, Pending, 0, 0, []) && Changed(s, [], s, 0)
    ensures Changed(s, actions, OneRow(kind, Pending, 2, LEASE_MS + 1, FirstJobs()), 4)
  {
    var job := Job(0, 1, Claimed, false);
    actions := ClaimAndExpire(s, [], kind, 0, 0, [], 0);
    assert [] + [job] == [job];
    actions := ClaimAndExpire(s, actions, kind, 1, LEASE_MS + 1, [job], 2);
  }

  lemma {:induction false} ThirdClaimFailsLate(s: State, actions: seq<Action>, kind: Kind, jobs: seq<Job>)
    returns (more: seq<Action>)
    requires kind != Unrecognised && |jobs| == 2
    requires Changed(s, actions, OneRow(kind, Pending, 2, LEASE_MS + 1, jobs), 4)
    ensures Changed(s, more, Run(s, more), 7) && Run(s, more).rows[0].status == Completed
  {
    var t := OneRow(kind, Pending, 2, LEASE_MS + 1, jobs);
    var u := OneRow(kind, Processing, 3, 0, jobs + [Job(0, 3, Claimed, false)]);
    assert ValidBatch(t.rows, [0]) && 0 in [0];
    more := ThenChange(s, actions, t, 4, Claim([0], 0), u);
    more := RunsLate(s, more, kind, jobs);
  }

  /** The third worker enters the handler, its lease expires, and it succeeds. */
  lemma {:induction false} RunsLate(s: State, actions: seq<Action>, kind: Kind, jobs: seq<Job>)
    returns (more: seq<Action>)
    requires kind != Unrecognised && |jobs| == 2
    requires Changed(s, actions, OneRow(kind, Processing, 3, 0, jobs + [Job(0, 3, Claimed, false)]), 5)
    ensures Changed(s, more, Run(s, more), 7) && Run(s, more).rows[0].status == Completed
  {
    var u := OneRow(kind, Processing, 3, 0, jobs + [Job(0, 3, Claimed, false)]);
    var v := OneRow(kind, Processing, 3, 0, jobs + [Job(0, 3, Running, true)]);
    more := ThenChange(s, actions, u, 5, Renew(2, 0), v);
    var w := OneRow(kind, Failed, 3, LEASE_MS + 1, v.jobs);
    more := ThenChange(s, more, v, 5, Recover(LEASE_MS + 1), w);
    var x := OneRow(kind, Completed, 3, 0, jobs + [Job(0, 3, Gone, true)]);
    more := ThenChange(s, more, w, 6, Finish(2, Succeeded, 0), x);
  }

  // ---- The table and its statements

  ghost predicate OldestFirst(rows: seq<Row>, locked: set<EventId>, batch: seq<EventId>) {
    && ValidBatch(rows, batch)
    && (forall i :: 0 <= i < |batch| ==> batch[i] !in locked)
    && (forall i, e: nat :: 0 <= i < |batch| && Skipped(rows, locked, batch, e) ==>
          rows[batch[i]].createdAt <= rows[e].createdAt)
  }

  /** The oldest claimable rows that no other transaction has locked, at most ten. */
  ghost predicate OldestBatch(rows: seq<Row>, locked: set<EventId>, batch: seq<EventId>) {
    && OldestFirst(rows, locked, batch)
    && (|batch| < BATCH_SIZE ==> forall e: nat :: !Skipped(rows, locked, batch, e))
  }

  predicate Skipped(rows: seq<Row>, locked: set<EventId>, batch: seq<EventId>, e: EventId) {
    e < |rows| && Claimable(rows[e]) && e !in locked && e !in batch
  }

  /** What one uninterrupted `processEvent` makes of a row its worker has just claimed. */
  function Processed(row: Row, attempt: nat, outcome: Outcome, now: Time): Row {
    if Owns(row, attempt) then FinalWrite(row.(updatedAt := now), attempt, outcome, now) else row
  }

  class OutboxTable {
    var rows: seq<Row>

    constructor ()
      ensures rows == []
    {
      rows := [];
    }

    method RecoverStrandedEvents(now: Time) returns (recovered: nat)
      modifies this
      ensures |rows| == |old(rows)|
      ensures forall e :: 0 <= e < |rows| ==> rows[e] == Recovered(old(rows)[e], now)
      ensures recovered == |set e: nat | e < |old(rows)| && Stranded(old(rows)[e], now)|
    {
      recovered := 0;
      var e := 0;
      ghost var done: set<nat> := {};
      while e < |rows|
        invariant 0 <= e <= |rows| == |old(rows)|
        invariant forall i :: 0 <= i < e ==> rows[i] == Recovered(old(rows)[i], now)
        invariant forall i :: e <= i < |rows| ==> rows[i] == old(rows)[i]
        invariant done == set i: nat | i < e && Stranded(old(rows)[i], now)
        invariant recovered == |done|
      {
        if Stranded(rows[e], now) {
          rows := rows[e := Recovered(rows[e], now)];
          done := done + {e};
          recovered := recovered + 1;
        }
        e := e + 1;
      }
      assert done == set i: nat | i < |old(rows)| && Stranded(old(rows)[i], now);
    }

    /** The claim query: `ORDER BY created_at LIMIT 10 FOR UPDATE SKIP LOCKED`. */
    method ClaimBatch(locked: set<EventId>, now: Time) returns (batch: seq<EventId>)
      modifies this
      ensures OldestBatch(old(rows), locked, batch)
      ensures rows == TakeBatch(old(rows), batch, now)
    {
      batch := [];
      var more := true;
      while more && |batch| < BATCH_SIZE
        invariant OldestFirst(rows, locked, batch)
        invariant !more ==> forall e: nat :: !Skipped(rows, locked, batch, e)
        decreases BATCH_SIZE - |batch|, more
      {
        var oldest: nat := |rows|;
        var e: nat := 0;
        while e < |rows|
          invariant 0 <= e <= |rows|
          invariant oldest < e || oldest == |rows|
          invariant oldest < e ==> Skipped(rows, locked, batch, oldest)
          invariant oldest == |rows| ==> forall i: nat :: i < e ==> !Skipped(rows, locked, batch, i)
          invariant forall i: nat :: i < e && Skipped(rows, locked, batch, i) && oldest < |rows| ==>
            rows[oldest].createdAt <= rows[i].createdAt
        {
          if Skipped(rows, locked, batch, e) &&
             (oldest == |rows| || rows[e].createdAt < rows[oldest].createdAt) {
            oldest := e;
          }
          e := e + 1;
        }
        if oldest < |rows| {
          ghost var before := batch;
          batch := batch + [oldest];
          assert forall i: nat :: Skipped(rows, locked, batch, i) ==> Skipped(rows, locked, before, i);
        } else {
          more := false;
        }
      }
      rows := TakeBatch(rows, batch, now);
    }

    /** Lease-ownership check before the handler; renews the lease when it succeeds. */
    method RenewLease(event: EventId, attempt: nat, now: Time) returns (owned: bool)
      requires event < |rows|
      modifies this
      ensures owned == (old(rows)[event].status == Processing && old(rows)[event].attempts == attempt)
      ensures rows == if owned then old(rows)[event := old(rows)[event].(updatedAt := now)] else old(rows)
    {
      owned := rows[event].status == Processing && rows[event].attempts == attempt;
      if owned {
        rows := rows[event := rows[event].(updatedAt := now)];
      }
    }

    method MarkFailed(event: EventId, expectedAttempts: int, now: Time)
      requires event < |rows|
      modifies this
      ensures rows == old(rows)[event :=
        MarkedFailed(old(rows)[event], expectedAttempts >= 0,
                     if expectedAttempts >= 0 then expectedAttempts else 0, now)]
    {
      if expectedAttempts < 0 || rows[event].attempts <= expectedAttempts {
        rows := rows[event := rows[event].(status := Failed, updatedAt := now)];
      }
    }

    /** `processEvent` with the handler's outcome given.  A negative expected attempt
        number stands for the omitted argument of `markFailed`. */
    method ProcessEvent(event: EventId, attempt: nat, outcome: Outcome, now: Time) returns (success: bool)
      requires event < |rows|
      modifies this
      ensures rows == old(rows)[event := Processed(old(rows)[event], attempt, outcome, now)]
      ensures success <==> Owns(old(rows)[event], attempt) && outcome == Succeeded
      ensures !Owns(old(rows)[event], attempt) ==> rows == old(rows)
      ensures Owns(old(rows)[event], attempt) ==>
        && rows[event].attempts == attempt
        && (rows[event].status == Completed <==> outcome == Succeeded)
        && (rows[event].status == Pending <==> outcome == Retryable && attempt < MAX_ATTEMPTS)
        && (rows[event].status != Completed && rows[event].status != Pending ==> rows[event].status == Failed)
    {
      var owned := RenewLease(event, attempt, now);
      if !owned {
        return false;
      }
      match outcome {
        case NoHandler =>
          MarkFailed(event, -1, now);
          return false;
        case Succeeded =>
          if rows[event].attempts == attempt {
            rows := rows[event := rows[event].(status := Completed, updatedAt := now)];
          }
          return true;
        case NonRetryable =>
          MarkFailed(event, attempt, now);
        case Retryable =>
          if attempt >= MAX_ATTEMPTS {
            MarkFailed(event, attempt, now);
          } else if rows[event].attempts == attempt && rows[event].status == Processing {
            rows := rows[event := rows[event].(status := Pending, updatedAt := now)];
          }
      }
      success := false;
    }

    /** The loop over the claimed events, uninterrupted. */
    method ProcessClaimed(claimed: seq<EventId>, outcomes: seq<Outcome>, now: Time)
      returns (completed: nat, failed: nat)
      requires |outcomes| == |rows| && Distinct(claimed)
      requires forall i :: 0 <= i < |claimed| ==> claimed[i] < |rows| && rows[claimed[i]].status == Processing
      modifies this
      ensures |rows| == |old(rows)| && completed + failed == |claimed|
      ensures forall e :: 0 <= e < |rows| ==>
        rows[e] == if e in claimed
                   then Processed(old(rows)[e], old(rows)[e].attempts, outcomes[e], now)
                   else old(rows)[e]
      ensures completed == |set e | e in claimed && outcomes[e] == Succeeded|
    {
      completed, failed := 0, 0;
      ghost var won: set<EventId> := {};
      var i := 0;
      while i < |claimed|
        invariant 0 <= i <= |claimed| && |rows| == |old(rows)|
        invariant completed + failed == i
        invariant forall e :: 0 <= e < |rows| ==>
          rows[e] == if e in claimed[..i]
                     then Processed(old(rows)[e], old(rows)[e].attempts, outcomes[e], now)
                     else old(rows)[e]
        invariant won == set e | e in claimed[..i] && outcomes[e] == Succeeded
        invariant completed == |won|
      {
        var e := claimed[i];
        assert e !in claimed[..i] && claimed[..i + 1] == claimed[..i] + [e];
        var success := ProcessEvent(e, rows[e].attempts, outcomes[e], now);
        if success {
          won := won + {e};
          completed := completed + 1;
        } else {
          failed := failed + 1;
        }
        i := i + 1;
      }
      assert claimed[..i] == claimed;
    }

    /** One uninterrupted tick: every claimed event ends as its handler decided, no other
        claimable event is touched, and the counters add up to the claim. */
    method ProcessOutbox(outcomes: seq<Outcome>, now: Time)
      returns (claimed: seq<EventId>, completed: nat, failed: nat, recovered: nat)
      requires |outcomes| == |rows|
      modifies this
      ensures |rows| == |old(rows)| && completed + failed == |claimed| <= BATCH_SIZE
      ensures Distinct(claimed) && forall i :: 0 <= i < |claimed| ==> claimed[i] < |rows|
      ensures forall e :: 0 <= e < |rows| ==>
        var ready := Recovered(old(rows)[e], now);
        rows[e] == if e in claimed
                   then FinalWrite(Taken(ready, now), ready.attempts + 1, outcomes[e], now)
                   else ready
      ensures completed == |set e | e in claimed && outcomes[e] == Succeeded|
      ensures recovered == |set e: nat | e < |old(rows)| && Stranded(old(rows)[e], now)|
    {
      recovered := RecoverStrandedEvents(now);
      claimed := ClaimBatch({}, now);
      completed, failed := ProcessClaimed(claimed, outcomes, now);
    }
  }
}
