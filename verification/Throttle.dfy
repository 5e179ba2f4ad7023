/** The rate-limit script for one throttle key: a hit counter with a window, a block key with
    its own duration, and Redis expiry.  Times are integer milliseconds; a key whose expiry is
    exactly now still exists, with a remaining time of zero. */
module Throttle {
  import opened Basics

  datatype Config = Config(ttl: int, limit: nat, blockDuration: int)

  datatype Window = Window(hits: nat, expiresAt: int)

  datatype State = State(window: Option<Window>, block: Option<int>)

  datatype Answer = Answer(totalHits: nat, timeToExpire: int, blocked: bool, timeToBlockExpire: int)

  predicate Usable(c: Config) {
    c.ttl > 0 && c.limit >= 1 && c.blockDuration >= c.ttl
  }

  /** Keys whose expiry has passed are gone. */
  function Expired(s: State, now: int): State {
    State(if s.window.Some? && s.window.value.expiresAt < now then None else s.window,
          if s.block.Some? && s.block.value < now then None else s.block)
  }

  /** The counter after INCR, with the window opened or extended when it has no time left. */
  function Counted(w: Option<Window>, c: Config, now: int): Window {
    match w
    case None => Window(1, now + c.ttl)
    case Some(Window(hits, expiresAt)) =>
      Window(hits + 1, if expiresAt <= now then now + c.ttl else expiresAt)
  }

  /** What one request does, by cases: a block that has run out this very millisecond starts
      a new window; a running block answers blocked; otherwise the limit decides. */
  function Hit(s: State, c: Config, now: int): (State, Answer) {
    var live := Expired(s, now);
    var w := Counted(live.window, c, now);
    var left := w.expiresAt - now;
    match live.block
    case Some(until) =>
      if until <= now then
        (State(Some(Window(1, now + c.ttl)), None), Answer(1, c.ttl, false, until - now))
      else
        (State(Some(w), Some(until)), Answer(w.hits, left, true, until - now))
    case None =>
      if w.hits > c.limit then
        (State(Some(w), Some(now + c.blockDuration)), Answer(w.hits, left, true, c.blockDuration))
      else
        (State(Some(w), None), Answer(w.hits, left, false, 0))
  }

  // ---- Runs

  /** The answers to a sequence of requests made at the given times, from an empty store. */
  function After(c: Config, times: seq<int>): State {
    if times == [] then State(None, None)
    else Hit(After(c, times[..|times| - 1]), c, times[|times| - 1]).0
  }

  function Blocked(c: Config, times: seq<int>, i: nat): bool
    requires i < |times|
  {
    Hit(After(c, times[..i]), c, times[i]).1.blocked
  }

  predicate Ordered(times: seq<int>) {
    forall i, j :: 0 <= i < j < |times| ==> times[i] <= times[j]
  }

  /** The times of the unblocked answers. */
  function Passed(c: Config, times: seq<int>): seq<int> {
    if times == [] then []
    else
      var n := |times| - 1;
      var before := Passed(c, times[..n]);
      if Hit(After(c, times[..n]), c, times[n]).1.blocked then before else before + [times[n]]
  }

  /** How the unblocked answers so far lie relative to the window that is open: `start` is
      where it began and the last `own` of them are its own. */
  ghost predicate Spaced(s: State, c: Config, passed: seq<int>, start: int, own: nat) {
    && s.window.Some? && s.window.value.hits >= 1
    && start + c.ttl <= s.window.value.expiresAt
    && own <= |passed| && own <= s.window.value.hits && own <= c.limit
    && Ordered(passed)
    && (forall i :: 0 <= i < |passed| - own ==> passed[i] <= start)
    // A window that has used its limit, or has blocked nothing, passed its first request.
    && (own > 0 && (own == c.limit || own == s.window.value.hits) ==> passed[|passed| - own] <= start)
    && Aged(c, passed, start, |passed| - own - (c.limit - 1))
    && (s.block.Some? ==> Aged(c, passed, s.block.value, |passed|))
    && Apart(c, passed)
  }

  /** The first `n` of these answers are at least a ttl older than `time`. */
  ghost predicate Aged(c: Config, passed: seq<int>, time: int, n: int) {
    forall i :: 0 <= i < n && i < |passed| ==> passed[i] + c.ttl <= time
  }

  ghost predicate Apart(c: Config, passed: seq<int>) {
    forall i, j :: 0 <= i <= j < |passed| && i + 2 * c.limit - 1 <= j ==> passed[i] + c.ttl <= passed[j]
  }

  /** A request that is answered blocked adds nothing and opens at most a new window. */
  lemma BlockedStep(s: State, c: Config, passed: seq<int>, start: int, own: nat, now: int)
    returns (start': int, own': nat)
    requires Usable(c) && Spaced(s, c, passed, start, own)
    requires start <= now && forall i :: 0 <= i < |passed| ==> passed[i] <= now
    requires Hit(s, c, now).1.blocked
    ensures start' <= now && Spaced(Hit(s, c, now).0, c, passed, start', own')
  {
    if Expired(s, now).window.None? {
      start', own' := now, 0;
    } else {
      start', own' := start, own;
    }
  }

  /** A request that passes in the window that is already open. */
  lemma PassedStep(s: State, c: Config, passed: seq<int>, start: int, own: nat, now: int)
    requires Usable(c) && Spaced(s, c, passed, start, own)
    requires start <= now && forall i :: 0 <= i < |passed| ==> passed[i] <= now
    requires !Hit(s, c, now).1.blocked && Expired(s, now).window.Some? && Expired(s, now).block.None?
    ensures Spaced(Hit(s, c, now).0, c, passed + [now], start, own + 1)
  {
    var t := Hit(s, c, now).0;
    var all := passed + [now];
    assert t.window.value.hits == s.window.value.hits + 1;
    forall i, j | 0 <= i <= j < |all| && i + 2 * c.limit - 1 <= j ensures all[i] + c.ttl <= all[j] {
      if j == |passed| {
        assert passed[i] + c.ttl <= start;
      }
    }
  }

  lemma OpeningAges(s: State, c: Config, passed: seq<int>, start: int, own: nat, now: int)
    requires Usable(c) && Spaced(s, c, passed, start, own) && !Hit(s, c, now).1.blocked
    requires Expired(s, now).window.None? || Expired(s, now).block.Some?
    ensures Aged(c, passed, now, |passed| - (c.limit - 1))
  {
    if Expired(s, now).block.None? {
      forall i | 0 <= i < |passed| - (c.limit - 1) ensures passed[i] + c.ttl <= now {
        assert passed[i] <= start;
      }
    }
  }

  /** A request that passes and begins a window, after an expiry or at a block's end. */
  lemma OpeningStep(s: State, c: Config, passed: seq<int>, start: int, own: nat, now: int)
    requires Usable(c) && Spaced(s, c, passed, start, own)
    requires start <= now && forall i :: 0 <= i < |passed| ==> passed[i] <= now
    requires !Hit(s, c, now).1.blocked
    requires Expired(s, now).window.None? || Expired(s, now).block.Some?
    ensures Spaced(Hit(s, c, now).0, c, passed + [now], now, 1)
  {
    var all := passed + [now];
    OpeningAges(s, c, passed, start, own, now);
    forall i, j | 0 <= i <= j < |all| && i + 2 * c.limit - 1 <= j ensures all[i] + c.ttl <= all[j] {
      if j == |passed| {
        assert passed[i] + c.ttl <= now;
      }
    }
    assert Aged(c, all, now, |all| - 1 - (c.limit - 1));
  }

  lemma SpacedStep(s: State, c: Config, passed: seq<int>, start: int, own: nat, now: int)
    returns (start': int, own': nat)
    requires Usable(c) && Spaced(s, c, passed, start, own)
    requires start <= now && forall i :: 0 <= i < |passed| ==> passed[i] <= now
    ensures var (t, answer) := Hit(s, c, now);
      start' <= now && Spaced(t, c, if answer.blocked then passed else passed + [now], start', own')
  {
    if Hit(s, c, now).1.blocked {
      start', own' := BlockedStep(s, c, passed, start, own, now);
    } else if Expired(s, now).window.None? || Expired(s, now).block.Some? {
      OpeningStep(s, c, passed, start, own, now);
      start', own' := now, 1;
    } else {
      PassedStep(s, c, passed, start, own, now);
      start', own' := start, own + 1;
    }
  }

  lemma {:induction false} SpacedRun(c: Config, times: seq<int>) returns (start: int, own: nat)
    requires Usable(c) && Ordered(times) && times != []
    ensures start <= times[|times| - 1]
    ensures Spaced(After(c, times), c, Passed(c, times), start, own)
    ensures forall i :: 0 <= i < |Passed(c, times)| ==> Passed(c, times)[i] <= times[|times| - 1]
    decreases |times|
  {
    var n := |times| - 1;
    var now := times[n];
    if n == 0 {
      assert times[..0] == [];
      start, own := now, 1;
    } else {
      start, own := SpacedRun(c, times[..n]);
      assert times[..n][n - 1] <= now;
      start, own := SpacedStep(After(c, times[..n]), c, Passed(c, times[..n]), start, own, now);
    }
  }

  /** Of any 2 * limit consecutive unblocked answers, the first and the last are at least a
      ttl apart. */
  lemma {:induction false} UnblockedAnswersAreSpaced(c: Config, times: seq<int>, i: nat)
    requires Usable(c) && Ordered(times) && i + 2 * c.limit - 1 < |Passed(c, times)|
    ensures Passed(c, times)[i] + c.ttl <= Passed(c, times)[i + 2 * c.limit - 1]
  {
    var start, own := SpacedRun(c, times);
  }

  lemma {:induction false} PassedIsOrdered(c: Config, times: seq<int>)
    requires Usable(c) && Ordered(times)
    ensures Ordered(Passed(c, times))
  {
    if times != [] {
      var start, own := SpacedRun(c, times);
    }
  }

  function InStretch(passed: seq<int>, from: int, length: int): nat {
    if passed == [] then 0
    else
      var n := |passed| - 1;
      InStretch(passed[..n], from, length) + if from <= passed[n] < from + length then 1 else 0
  }

  /** Elements of an ordered sequence that lie in a stretch are consecutive. */
  lemma {:induction false} StretchIsConsecutive(passed: seq<int>, from: int, length: int) returns (first: nat)
    requires Ordered(passed)
    ensures var k := InStretch(passed, from, length);
      && first + k <= |passed|
      && (k > 0 ==> from <= passed[first] && passed[first + k - 1] < from + length)
      && (k > 0 && passed[|passed| - 1] < from + length ==> first + k == |passed|)
    decreases |passed|
  {
    first := 0;
    if passed != [] {
      var n := |passed| - 1;
      first := StretchIsConsecutive(passed[..n], from, length);
      if InStretch(passed[..n], from, length) == 0 && from <= passed[n] < from + length {
        first := n;
      }
    }
  }

  /** When any `n` consecutive elements span a length, a stretch of that length holds fewer. */
  lemma {:induction false} SpanBoundsStretch(passed: seq<int>, from: int, length: int, n: nat)
    requires Ordered(passed) && n >= 1
    requires forall i :: 0 <= i && i + n <= |passed| ==> passed[i] + length <= passed[i + n - 1]
    ensures InStretch(passed, from, length) < n
  {
    var first := StretchIsConsecutive(passed, from, length);
    if first + n <= |passed| {
      assert passed[first] + length <= passed[first + n - 1];
    }
  }

  /** Whatever the requests, any stretch of one ttl contains fewer than 2 * limit unblocked
      answers. */
  lemma {:induction false} FewerThanTwiceTheLimit(c: Config, times: seq<int>, from: int)
    requires Usable(c) && Ordered(times)
    ensures InStretch(Passed(c, times), from, c.ttl) <= 2 * c.limit - 1
  {
    var passed := Passed(c, times);
    PassedIsOrdered(c, times);
    forall i | 0 <= i && i + 2 * c.limit <= |passed| ensures passed[i] + c.ttl <= passed[i + 2 * c.limit - 1] {
      UnblockedAnswersAreSpaced(c, times, i);
    }
    SpanBoundsStretch(passed, from, c.ttl, 2 * c.limit);
  }

  // ---- The bound is attained

  function Repeat(time: int, n: nat): seq<int> {
    seq(n, i requires 0 <= i < n => time)
  }

  lemma {:induction false} AfterNext(c: Config, times: seq<int>, time: int)
    ensures After(c, times + [time]) == Hit(After(c, times), c, time).0
    ensures Passed(c, times + [time]) ==
      if Hit(After(c, times), c, time).1.blocked then Passed(c, times) else Passed(c, times) + [time]
  {
    assert (times + [time])[..|times|] == times;
  }

  /** The state a request sequence leaves, and how many unblocked answers lie in the stretch. */
  function Tally(c: Config, times: seq<int>, from: int): (State, nat) {
    if times == [] then (State(None, None), 0)
    else
      var time := times[|times| - 1];
      var (s, k) := Tally(c, times[..|times| - 1], from);
      var (t, answer) := Hit(s, c, time);
      (t, if !answer.blocked && from <= time < from + c.ttl then k + 1 else k)
  }

  lemma {:induction false} TallyCounts(c: Config, times: seq<int>, from: int)
    ensures Tally(c, times, from) == (After(c, times), InStretch(Passed(c, times), from, c.ttl))
    decreases |times|
  {
    if times != [] {
      var n := |times| - 1;
      TallyCounts(c, times[..n], from);
      StretchSnoc(Passed(c, times[..n]), times[n], from, c.ttl);
    }
  }

  lemma {:induction false} StretchSnoc(passed: seq<int>, time: int, from: int, length: int)
    ensures InStretch(passed + [time], from, length)
         == InStretch(passed, from, length) + if from <= time < from + length then 1 else 0
  {
    assert (passed + [time])[..|passed|] == passed;
  }

  lemma {:induction false} TallyNext(c: Config, times: seq<int>, time: int, from: int)
    ensures var (s, k) := Tally(c, times, from);
            var (t, answer) := Hit(s, c, time);
      Tally(c, times + [time], from) == (t, if !answer.blocked && from <= time < from + c.ttl then k + 1 else k)
  {
    assert (times + [time])[..|times|] == times;
  }

  /** What an open window with room left, or none, makes of one request. */
  lemma WindowPasses(c: Config, w: Window, time: int)
    requires Usable(c)
    ensures time < w.expiresAt && w.hits < c.limit ==>
      Hit(State(Some(w), None), c, time).0 == State(Some(Window(w.hits + 1, w.expiresAt)), None)
      && !Hit(State(Some(w), None), c, time).1.blocked
    ensures w.expiresAt < time ==>
      Hit(State(Some(w), None), c, time).0 == State(Some(Window(1, time + c.ttl)), None)
      && !Hit(State(Some(w), None), c, time).1.blocked
  {
  }

  lemma {:induction false} TallyPasses(c: Config, before: seq<int>, w: Window, time: int, from: int, k: nat)
    returns (times: seq<int>)
    requires Usable(c) && Tally(c, before, from) == (State(Some(w), None), k)
    requires time < w.expiresAt && w.hits < c.limit && from <= time < from + c.ttl
    ensures times == before + [time]
    ensures Tally(c, times, from) == (State(Some(Window(w.hits + 1, w.expiresAt)), None), k + 1)
  {
    times := before + [time];
    WindowPasses(c, w, time);
    TallyNext(c, before, time, from);
  }

  lemma RepeatMore(before: seq<int>, time: int, n: nat)
    ensures before + Repeat(time, n) + [time] == before + Repeat(time, n + 1)
    ensures before + Repeat(time, 0) == before
  {
    assert Repeat(time, n) + [time] == Repeat(time, n + 1);
  }

  /** Requests within the limit of an open window all pass. */
  lemma {:induction false} BurstPasses(c: Config, before: seq<int>, w: Window, time: int, n: nat, from: int, k: nat)
    returns (times: seq<int>)
    requires Usable(c) && Tally(c, before, from) == (State(Some(w), None), k)
    requires time < w.expiresAt && w.hits + n <= c.limit && from <= time < from + c.ttl
    ensures times == before + Repeat(time, n)
    ensures Tally(c, times, from) == (State(Some(Window(w.hits + n, w.expiresAt)), None), k + n)
    decreases n
  {
    if n == 0 {
      RepeatMore(before, time, 0);
      times := before;
    } else {
      var so := BurstPasses(c, before, w, time, n - 1, from, k);
      RepeatMore(before, time, n - 1);
      times := TallyPasses(c, so, Window(w.hits + n - 1, w.expiresAt), time, from, k + n - 1);
    }
  }

  /** One request at 0, and the rest of its window's limit just before the window closes ... */
  function OldWindow(c: Config): seq<int>
    requires c.limit >= 1
  {
    [0] + Repeat(c.ttl - 1, c.limit - 1)
  }

  /** ... then a full limit just after. */
  function Squeeze(c: Config): seq<int>
    requires c.limit >= 1
  {
    OldWindow(c) + [c.ttl + 1] + Repeat(c.ttl + 1, c.limit - 1)
  }

  lemma {:induction false} OldWindowFills(c: Config)
    requires Usable(c) && c.ttl >= 3
    ensures Tally(c, OldWindow(c), c.ttl - 1) == (State(Some(Window(c.limit, c.ttl)), None), c.limit - 1)
  {
    TallyNext(c, [], 0, c.ttl - 1);
    assert [] + [0] == [0];
    var times := BurstPasses(c, [0], Window(1, c.ttl), c.ttl - 1, c.limit - 1, c.ttl - 1, 0);
  }

  lemma {:induction false} NewWindowOpens(c: Config)
    requires Usable(c) && c.ttl >= 3
    ensures Tally(c, OldWindow(c) + [c.ttl + 1], c.ttl - 1)
         == (State(Some(Window(1, c.ttl + 1 + c.ttl)), None), c.limit)
  {
    OldWindowFills(c);
    WindowPasses(c, Window(c.limit, c.ttl), c.ttl + 1);
    TallyNext(c, OldWindow(c), c.ttl + 1, c.ttl - 1);
  }

  lemma {:induction false} NewWindowFills(c: Config)
    requires Usable(c) && c.ttl >= 3
    ensures Tally(c, Squeeze(c), c.ttl - 1).1 == 2 * c.limit - 1
  {
    NewWindowOpens(c);
    var times := BurstPasses(c, OldWindow(c) + [c.ttl + 1], Window(1, c.ttl + 1 + c.ttl), c.ttl + 1, c.limit - 1,
                             c.ttl - 1, c.limit);
  }

  lemma {:induction false} SqueezeIsOrdered(c: Config)
    requires Usable(c) && c.ttl >= 3
    ensures Ordered(Squeeze(c))
  {
  }

  /** The bound is attained for every limit, by every ttl of at least three milliseconds. */
  lemma {:induction false} SqueezeAttains(c: Config)
    requires Usable(c) && c.ttl >= 3
    ensures Ordered(Squeeze(c)) && InStretch(Passed(c, Squeeze(c)), c.ttl - 1, c.ttl) == 2 * c.limit - 1
  {
    SqueezeIsOrdered(c);
    NewWindowFills(c);
    TallyCounts(c, Squeeze(c), c.ttl - 1);
  }

  // ---- A ttl too short to straddle two windows

  /** With a ttl of one or two milliseconds a window's successor begins a whole ttl after every
      answer the window passed: all but the last `own` unblocked answers are that old. */
  ghost predicate Narrow(s: State, c: Config, passed: seq<int>, last: int, start: int, own: nat) {
    && s.window.Some? && own <= |passed| && own <= s.window.value.hits && own <= c.limit
    && Ordered(passed)
    && (forall i :: 0 <= i < |passed| ==> passed[i] <= last && passed[i] < s.window.value.expiresAt)
    && (s.block.None? ==> start <= last)
    && Aged(c, passed, start, |passed| - own)
    && (s.block.Some? ==> Aged(c, passed, s.block.value, |passed|))
    && FarApart(c, passed)
  }

  ghost predicate FarApart(c: Config, passed: seq<int>) {
    forall i, j :: 0 <= i <= j < |passed| && i + c.limit <= j ==> passed[i] + c.ttl <= passed[j]
  }

  lemma NarrowBlocked(s: State, c: Config, passed: seq<int>, last: int, start: int, own: nat, now: int)
    returns (start': int, own': nat)
    requires Usable(c) && Narrow(s, c, passed, last, start, own) && last <= now
    requires Hit(s, c, now).1.blocked
    ensures Narrow(Hit(s, c, now).0, c, passed, now, start', own')
  {
    if Expired(s, now).window.None? {
      start', own' := s.block.value, 0;
    } else {
      start', own' := start, own;
    }
  }

  lemma NarrowPassed(s: State, c: Config, passed: seq<int>, last: int, start: int, own: nat, now: int)
    returns (start': int, own': nat)
    requires Usable(c) && c.ttl <= 2 && Narrow(s, c, passed, last, start, own) && last <= now
    requires !Hit(s, c, now).1.blocked
    ensures Narrow(Hit(s, c, now).0, c, passed + [now], now, start', own')
  {
    var all := passed + [now];
    if s.block.None? && s.window.value.expiresAt >= now {
      start', own' := start, own + 1;
    } else {
      start', own' := now, 1;
    }
    assert Aged(c, passed, start', |all| - own');
    forall i, j | 0 <= i <= j < |all| && i + c.limit <= j ensures all[i] + c.ttl <= all[j] {
      if j == |passed| {
        assert passed[i] + c.ttl <= start' <= now;
      }
    }
  }

  lemma {:induction false} NarrowRun(c: Config, times: seq<int>) returns (start: int, own: nat)
    requires Usable(c) && c.ttl <= 2 && Ordered(times) && times != []
    ensures Narrow(After(c, times), c, Passed(c, times), times[|times| - 1], start, own)
    decreases |times|
  {
    var n := |times| - 1;
    var now := times[n];
    if n == 0 {
      assert times[..0] == [];
      start, own := now, 1;
    } else {
      start, own := NarrowRun(c, times[..n]);
      var s, passed := After(c, times[..n]), Passed(c, times[..n]);
      if Hit(s, c, now).1.blocked {
        start, own := NarrowBlocked(s, c, passed, times[n - 1], start, own, now);
      } else {
        start, own := NarrowPassed(s, c, passed, times[n - 1], start, own, now);
      }
    }
  }

  lemma {:induction false} NarrowStretch(c: Config, times: seq<int>, from: int)
    requires Usable(c) && c.ttl <= 2 && Ordered(times)
    ensures InStretch(Passed(c, times), from, c.ttl) <= c.limit
  {
    if times != [] {
      var start, own := NarrowRun(c, times);
      SpanBoundsStretch(Passed(c, times), from, c.ttl, c.limit + 1);
    }
  }

  /** Some request sequence and stretch have this many unblocked answers. */
  ghost predicate Attains(c: Config, n: nat) {
    exists times: seq<int>, from: int :: Ordered(times) && InStretch(Passed(c, times), from, c.ttl) == n
  }

  /** The exact condition: the bound is attained for every limit and ttl, unless the ttl is
      below three milliseconds and the limit above one. */
  lemma {:induction false} TheBoundIsTight(c: Config)
    requires Usable(c)
    ensures Attains(c, 2 * c.limit - 1) <==> c.ttl >= 3 || c.limit == 1
  {
    if c.ttl >= 3 {
      SqueezeAttains(c);
    } else if c.limit == 1 {
      TallyNext(c, [], 0, 0);
      TallyCounts(c, [0], 0);
      assert [] + [0] == [0] && Ordered([0]);
    } else {
      forall times: seq<int>, from: int | Ordered(times)
        ensures InStretch(Passed(c, times), from, c.ttl) < 2 * c.limit - 1
      {
        NarrowStretch(c, times, from);
      }
    }
  }

  lemma RunningBlockHolds(s: State, c: Config, now: int)
    requires s.block.Some? && now < s.block.value
    ensures Hit(s, c, now).1.blocked && Hit(s, c, now).0.block == s.block
  {
  }

  lemma {:induction false} BlockStands(c: Config, times: seq<int>, from: nat, end: nat, until: int)
    requires from <= end <= |times| && After(c, times[..from]).block == Some(until)
    requires forall k :: from <= k < end ==> times[k] < until
    ensures After(c, times[..end]).block == Some(until)
    decreases end
  {
    if from < end {
      BlockStands(c, times, from, end - 1, until);
      RunningBlockHolds(After(c, times[..end - 1]), c, times[end - 1]);
      assert times[..end] == times[..end - 1] + [times[end - 1]];
      AfterNext(c, times[..end - 1], times[end - 1]);
    }
  }

  lemma {:induction false} StandingBlockHolds(c: Config, times: seq<int>, j: nat, until: int)
    requires j < |times| && After(c, times[..j]).block == Some(until) && times[j] < until
    ensures Blocked(c, times, j) && After(c, times[..j + 1]).block == Some(until)
  {
    RunningBlockHolds(After(c, times[..j]), c, times[j]);
    assert times[..j + 1] == times[..j] + [times[j]];
    AfterNext(c, times[..j], times[j]);
  }

  /** Once an answer is blocked, every answer before the block's expiry is blocked, and the
      block's expiry does not move. */
  lemma {:induction false} BlockHolds(c: Config, times: seq<int>, i: nat, j: nat)
    requires Usable(c) && Ordered(times) && i <= j < |times| && Blocked(c, times, i)
    requires var s := After(c, times[..i + 1]); s.block.Some? && times[j] < s.block.value
    ensures Blocked(c, times, j)
    ensures After(c, times[..j + 1]).block == After(c, times[..i + 1]).block
  {
    if i < j {
      var until := After(c, times[..i + 1]).block.value;
      BlockStands(c, times, i + 1, j, until);
      StandingBlockHolds(c, times, j, until);
    }
  }

  /** A blocked answer always leaves a block that expires later than now. */
  lemma BlockedLeavesBlock(s: State, c: Config, now: int)
    requires Usable(c)
    ensures var (t, answer) := Hit(s, c, now);
      answer.blocked <==> t.block.Some? && t.block.value == now + answer.timeToBlockExpire
                          && answer.timeToBlockExpire > 0
  {
  }

  // ---- When an answer is blocked, and for how long

  /** A request is blocked exactly while a block runs, or when it goes over the limit of the open
      window and no block ends this very millisecond; a fresh block runs for the block duration,
      and a block that has run out leaves none. */
  lemma HitDecides(s: State, c: Config, now: int)
    ensures var (t, answer) := Hit(s, c, now);
            var runs := s.block.Some? && s.block.value > now;
            var ends := s.block.Some? && s.block.value == now;
            var open := s.window.Some? && s.window.value.expiresAt >= now;
            var hits := if open then s.window.value.hits + 1 else 1;
      && (answer.blocked <==> runs || (!ends && hits > c.limit))
      && t.block == (if runs then s.block else if answer.blocked then Some(now + c.blockDuration) else None)
      && t.window.Some? && t.window.value.hits == (if ends then 1 else hits)
      && t.window.value.expiresAt
         == (if !ends && open && s.window.value.expiresAt > now then s.window.value.expiresAt else now + c.ttl)
      && answer.totalHits == t.window.value.hits && answer.timeToExpire == t.window.value.expiresAt - now
      && (answer.blocked ==> answer.timeToBlockExpire == t.block.value - now)
      && (!answer.blocked ==> answer.timeToBlockExpire == 0)
  {
  }

  /** A block lasts exactly its duration from the request that began it: every answer before its
      end is blocked, and the first request at its end passes. */
  lemma {:induction false} BlockLastsExactly(c: Config, times: seq<int>, i: nat, j: nat)
    requires Usable(c) && Ordered(times) && i < j < |times| && Blocked(c, times, i)
    requires var before := After(c, times[..i]).block; before.Some? ==> before.value < times[i]
    requires forall k :: i < k < j ==> times[k] < times[i] + c.blockDuration
    ensures times[j] < times[i] + c.blockDuration ==> Blocked(c, times, j)
    ensures times[j] == times[i] + c.blockDuration ==> !Blocked(c, times, j)
  {
    var until := times[i] + c.blockDuration;
    assert times[..i + 1] == times[..i] + [times[i]];
    AfterNext(c, times[..i], times[i]);
    HitDecides(After(c, times[..i]), c, times[i]);
    assert After(c, times[..i + 1]).block == Some(until);
    BlockStands(c, times, i + 1, j, until);
    HitDecides(After(c, times[..j]), c, times[j]);
  }

  /** While fewer than ttl milliseconds have passed since the first request, the window counts every
      request, up to the limit. */
  lemma {:induction false} FirstWindowCounts(c: Config, times: seq<int>, k: nat)
    requires Usable(c) && Ordered(times) && 1 <= k <= |times| && k <= c.limit && times[k - 1] < times[0] + c.ttl
    ensures After(c, times[..k]) == State(Some(Window(k, times[0] + c.ttl)), None)
    decreases k
  {
    var before, now := times[..k - 1], times[k - 1];
    assert times[..k] == before + [now];
    AfterNext(c, before, now);
    if k == 1 {
      FirstHit(c, now);
    } else {
      FirstWindowCounts(c, times, k - 1);
      WindowPasses(c, Window(k - 1, times[0] + c.ttl), now);
    }
  }

  lemma FirstHit(c: Config, now: int)
    requires Usable(c)
    ensures After(c, []) == State(None, None)
    ensures Hit(State(None, None), c, now).0 == State(Some(Window(1, now + c.ttl)), None)
    ensures !Hit(State(None, None), c, now).1.blocked
  {
  }

  /** The limit is the limit: within one ttl of the first request, the first `limit` answers pass
      and the next is blocked. */
  lemma {:induction false} LimitIsExact(c: Config, times: seq<int>, k: nat)
    requires Usable(c) && Ordered(times) && k <= c.limit && k < |times| && times[k] < times[0] + c.ttl
    ensures Blocked(c, times, k) <==> k == c.limit
  {
    if k == 0 {
      assert times[..0] == [];
    } else {
      FirstWindowCounts(c, times, k);
    }
  }

  // ---- The script

  function CeilSeconds(ms: int): int {
    (ms + 999) / 1000
  }

  class ThrottleKey {
    var window: Option<Window>
    var block: Option<int>

    function Store(): State
      reads this
    {
      State(window, block)
    }

    constructor ()
      ensures Store() == State(None, None)
    {
      window, block := None, None;
    }

    /** The Lua script, command by command; `now` is the script's frozen clock.  Redis refuses
        durations that are not positive. */
    method RunScript(c: Config, now: int) returns (answer: Answer)
      requires c.ttl > 0 && c.blockDuration > 0
      modifies this
      ensures (Store(), answer) == Hit(old(Store()), c, now)
    {
      if window.Some? && window.value.expiresAt < now {
        window := None;
      }
      if block.Some? && block.value < now {
        block := None;
      }
      assert Store() == Expired(old(Store()), now);
      var totalHits := if window.Some? then window.value.hits + 1 else 1;
      var timeToExpire := if window.Some? then window.value.expiresAt - now else -1;
      if timeToExpire <= 0 {
        timeToExpire := c.ttl;
      }
      ghost var live := window;
      window := Some(Window(totalHits, now + timeToExpire));
      assert window == Some(Counted(live, c, now));

      var isBlocked := block.Some?;
      var timeToBlockExpire := 0;
      if isBlocked {
        timeToBlockExpire := block.value - now;
      } else if totalHits > c.limit {
        block := Some(now + c.blockDuration);
        isBlocked := true;
        timeToBlockExpire := c.blockDuration;
      }
      if isBlocked && timeToBlockExpire <= 0 {
        block := None;
        window := Some(Window(1, now + c.ttl));
        totalHits := 1;
        timeToExpire := c.ttl;
        isBlocked := false;
      }
      answer := Answer(totalHits, timeToExpire, isBlocked, timeToBlockExpire);
    }

    /** `increment`: the script's times rounded up to whole seconds. */
    method Increment(c: Config, now: int)
      returns (totalHits: nat, timeToExpire: int, isBlocked: bool, timeToBlockExpire: int)
      requires c.ttl > 0 && c.blockDuration > 0
      modifies this
      ensures var (t, answer) := Hit(old(Store()), c, now);
        && Store() == t && totalHits == answer.totalHits && isBlocked == answer.blocked
        && timeToExpire >= 1 && 1000 * timeToExpire >= answer.timeToExpire
        && 1000 * (timeToExpire - 1) < (if answer.timeToExpire > 0 then answer.timeToExpire else 1)
        && timeToBlockExpire >= 0 && 1000 * timeToBlockExpire >= answer.timeToBlockExpire
        && (answer.timeToBlockExpire > 0 ==> 1000 * (timeToBlockExpire - 1) < answer.timeToBlockExpire)
        && (answer.timeToBlockExpire <= 0 ==> timeToBlockExpire == 0)
    {
      var answer := RunScript(c, now);
      totalHits, isBlocked := answer.totalHits, answer.blocked;
      timeToExpire := if CeilSeconds(answer.timeToExpire) > 1 then CeilSeconds(answer.timeToExpire) else 1;
      var seconds := CeilSeconds(answer.timeToBlockExpire);
      timeToBlockExpire := if seconds > 0 then seconds else 0;
    }
  }
}
