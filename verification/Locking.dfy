/** The row locks of concurrent checkouts: each takes its user's advisory lock, then its
    stock rows one by one in the order of their sorted ids, then the promo row, then, when
    points are spent, its user's row, and keeps them all until it commits or rolls back. */
module Locking {
  import opened Basics
  import Shop
  import StockBooks
  import Tables

  type Item = Tables.Item

  datatype Lock = Advisory(user: nat) | StockRow(id: nat) | PromoRow(id: nat) | UserRow(user: nat)

  function Level(l: Lock): nat {
    match l case Advisory(_) => 0 case StockRow(_) => 1 case PromoRow(_) => 2 case UserRow(_) => 3
  }

  function Number(l: Lock): nat {
    match l case Advisory(u) => u case StockRow(i) => i case PromoRow(i) => i case UserRow(u) => u
  }

  predicate Before(a: Lock, b: Lock) {
    Level(a) < Level(b) || (Level(a) == Level(b) && Number(a) < Number(b))
  }

  // ---- What a checkout locks

  datatype Cart = Cart(user: nat, items: seq<Item>, promo: Option<nat>, spendsPoints: bool)

  predicate Ascending(items: seq<Item>) {
    forall i, j :: 0 <= i < j < |items| ==> items[i].cell <= items[j].cell
  }

  lemma {:induction false} InsertAscends(items: seq<Item>, item: Item)
    requires Ascending(items)
    ensures Ascending(Shop.InsertItem(items, item))
    ensures forall i :: 0 <= i < |Shop.InsertItem(items, item)| ==>
      Shop.InsertItem(items, item)[i] == item || Shop.InsertItem(items, item)[i] in items
    decreases |items|
  {
    if items != [] && items[|items| - 1].cell > item.cell {
      InsertAscends(items[..|items| - 1], item);
    }
  }

  /** The sort that precedes the deduction loop puts the rows in ascending order. */
  lemma {:induction false} SortAscends(items: seq<Item>)
    ensures Ascending(Shop.SortItems(items))
    decreases |items|
  {
    if items != [] {
      SortAscends(items[..|items| - 1]);
      InsertAscends(Shop.SortItems(items[..|items| - 1]), items[|items| - 1]);
    }
  }

  function Plan(c: Cart): seq<Lock> {
    [Advisory(c.user)]
    + StockLocks(Shop.SortItems(c.items))
    + (match c.promo case None => [] case Some(p) => [PromoRow(p)])
    + (if c.spendsPoints then [UserRow(c.user)] else [])
  }

  function StockLocks(items: seq<Item>): seq<Lock> {
    seq(|items|, i requires 0 <= i < |items| => StockRow(items[i].cell))
  }

  predicate InOrder(plan: seq<Lock>) {
    forall i, j :: 0 <= i < j < |plan| ==> !Before(plan[j], plan[i])
  }

  lemma PlansAreInOrder(c: Cart)
    ensures InOrder(Plan(c))
  {
    SortAscends(c.items);
  }

  /** A checkout locks its user's advisory lock, every stock row of its lines, its promo, and its
      user's row if it spends points -- these and no others. */
  lemma PlanLocks(c: Cart, l: Lock)
    ensures l in Plan(c) <==>
      || l == Advisory(c.user)
      || (exists i :: 0 <= i < |c.items| && l == StockRow(c.items[i].cell))
      || (c.promo.Some? && l == PromoRow(c.promo.value))
      || (c.spendsPoints && l == UserRow(c.user))
  {
    var sorted := Shop.SortItems(c.items);
    StockBooks.SortContents(c.items);
    if l in StockLocks(sorted) {
      var i :| 0 <= i < |sorted| && l == StockRow(sorted[i].cell);
      assert sorted[i] in multiset(c.items);
    }
    if i :| 0 <= i < |c.items| && l == StockRow(c.items[i].cell) {
      assert c.items[i] in multiset(sorted);
      var j :| 0 <= j < |sorted| && sorted[j] == c.items[i];
      assert StockLocks(sorted)[j] == l;
    }
  }

  // ---- The machine

  datatype Checkout = Checkout(plan: seq<Lock>, taken: nat, over: bool)

  datatype Action = Begin(cart: Cart) | Take(checkout: nat) | Commit(checkout: nat) | Abort(checkout: nat)

  type State = seq<Checkout>

  predicate Holds(c: Checkout, l: Lock) {
    !c.over && c.taken <= |c.plan| && l in c.plan[..c.taken]
  }

  predicate Free(s: State, t: nat, l: Lock) {
    forall u :: 0 <= u < |s| && u != t ==> !Holds(s[u], l)
  }

  predicate Enabled(s: State, a: Action) {
    match a
    case Begin(_) => true
    case Take(t) => t < |s| && !s[t].over && s[t].taken < |s[t].plan| && Free(s, t, s[t].plan[s[t].taken])
    case Commit(t) => t < |s| && !s[t].over && s[t].taken == |s[t].plan|
    case Abort(t) => t < |s| && !s[t].over
  }

  function Apply(s: State, a: Action): State {
    if !Enabled(s, a) then s else
    match a
    case Begin(cart) => s + [Checkout(Plan(cart), 0, false)]
    case Take(t) => s[t := s[t].(taken := s[t].taken + 1)]
    case Commit(t) => s[t := s[t].(over := true)]
    case Abort(t) => s[t := s[t].(over := true)]
  }

  function Run(s: State, actions: seq<Action>): State
    decreases |actions|
  {
    if actions == [] then s else Run(Apply(s, actions[0]), actions[1..])
  }

  ghost predicate Inv(s: State) {
    && (forall t :: 0 <= t < |s| ==> s[t].taken <= |s[t].plan| && InOrder(s[t].plan))
    && (forall t, u, l :: 0 <= t < u < |s| && Holds(s[t], l) ==> !Holds(s[u], l))
  }

  lemma TakeKeepsExclusion(s: State, t: nat)
    requires Inv(s) && Enabled(s, Take(t))
    ensures var n := Apply(s, Take(t));
      forall u, v, l :: 0 <= u < v < |n| && Holds(n[u], l) ==> !Holds(n[v], l)
  {
    var n := Apply(s, Take(t));
    var lock := s[t].plan[s[t].taken];
    assert s[t].plan[..s[t].taken + 1] == s[t].plan[..s[t].taken] + [lock];
    assert forall l :: Holds(n[t], l) <==> Holds(s[t], l) || l == lock;
    forall u, v, l | 0 <= u < v < |n| && Holds(n[u], l) ensures !Holds(n[v], l) {
      if l == lock {
        assert u != t ==> !Holds(s[u], lock);
        assert v != t ==> !Holds(s[v], lock);
      }
    }
  }

  lemma InvStep(s: State, a: Action)
    requires Inv(s)
    ensures Inv(Apply(s, a))
  {
    if Enabled(s, a) {
      match a
      case Begin(cart) => PlansAreInOrder(cart);
      case Take(t) =>
        TakeKeepsExclusion(s, t);
      case Commit(_) =>
      case Abort(_) =>
    }
  }

  lemma {:induction false} InvRun(s: State, actions: seq<Action>)
    requires Inv(s)
    ensures Inv(Run(s, actions))
    decreases |actions|
  {
    if actions != [] {
      InvStep(s, actions[0]);
      InvRun(Apply(s, actions[0]), actions[1..]);
    }
  }

  // ---- No deadlock

  predicate CanMove(s: State, t: nat) {
    Enabled(s, Take(t)) || Enabled(s, Commit(t))
  }

  /** Follow the blockers: each waits for a lock later in the order than the one before. */
  lemma {:induction false} SomeoneCanMove(s: State, t: nat, top: seq<Lock>) returns (mover: nat)
    requires Inv(s) && t < |s| && !s[t].over
    requires forall u :: 0 <= u < |s| && !s[u].over && s[u].taken < |s[u].plan| ==> s[u].plan[s[u].taken] in top
    ensures mover < |s| && CanMove(s, mover)
    decreases |LaterThan(top, s, t)|
  {
    if CanMove(s, t) {
      return t;
    }
    var wanted := s[t].plan[s[t].taken];
    var holder :| 0 <= holder < |s| && holder != t && Holds(s[holder], wanted);
    if CanMove(s, holder) {
      return holder;
    } else {
      var next := s[holder].plan[s[holder].taken];
      var blocker :| 0 <= blocker < |s| && blocker != holder && Holds(s[blocker], next);
      var k :| 0 <= k < s[holder].taken && s[holder].plan[k] == wanted;
      assert !Before(next, wanted) && next != wanted;
      LaterShrinks(top, s, t, holder);
    }
    mover := SomeoneCanMove(s, holder, top);
  }

  /** The locks someone wants that come after the one this checkout waits for. */
  function LaterThan(top: seq<Lock>, s: State, t: nat): set<Lock>
    requires t < |s|
  {
    if s[t].taken < |s[t].plan| then set l | l in top && Before(s[t].plan[s[t].taken], l) else {}
  }

  lemma LaterShrinks(top: seq<Lock>, s: State, t: nat, u: nat)
    requires t < |s| && u < |s| && s[t].taken < |s[t].plan| && s[u].taken < |s[u].plan|
    requires Before(s[t].plan[s[t].taken], s[u].plan[s[u].taken]) && s[u].plan[s[u].taken] in top
    ensures |LaterThan(top, s, u)| < |LaterThan(top, s, t)|
  {
    var lock := s[u].plan[s[u].taken];
    var a, b := LaterThan(top, s, u), LaterThan(top, s, t);
    assert a <= b - {lock};
    SubsetSize(a, b - {lock});
  }

  function Wanted(s: State): seq<Lock> {
    if s == [] then []
    else
      var c := s[|s| - 1];
      Wanted(s[..|s| - 1]) + if c.taken < |c.plan| then [c.plan[c.taken]] else []
  }

  lemma {:induction false} WantedComplete(s: State)
    ensures forall u :: 0 <= u < |s| && s[u].taken < |s[u].plan| ==> s[u].plan[s[u].taken] in Wanted(s)
    decreases |s|
  {
    if s != [] {
      WantedComplete(s[..|s| - 1]);
      assert forall u :: 0 <= u < |s| - 1 ==> s[..|s| - 1][u] == s[u];
    }
  }

  /** In no reachable state do all unfinished checkouts wait on each other: one of them can
      take its next lock or commit. */
  lemma NoDeadlock(actions: seq<Action>, t: nat) returns (mover: nat)
    requires t < |Run([], actions)| && !Run([], actions)[t].over
    ensures mover < |Run([], actions)| && CanMove(Run([], actions), mover)
  {
    var s := Run([], actions);
    InvRun([], actions);
    WantedComplete(s);
    mover := SomeoneCanMove(s, t, Wanted(s));
  }

  // ---- Everyone can finish

  function Remaining(c: Checkout): nat {
    if c.over || c.taken > |c.plan| then 0 else |c.plan| - c.taken + 1
  }

  function Work(s: State): nat {
    if s == [] then 0 else Work(s[..|s| - 1]) + Remaining(s[|s| - 1])
  }

  lemma {:induction false} WorkUpdate(s: State, t: nat, c: Checkout)
    requires t < |s|
    ensures Work(s[t := c]) == Work(s) - Remaining(s[t]) + Remaining(c)
    decreases |s|
  {
    var n := |s| - 1;
    if t < n {
      WorkUpdate(s[..n], t, c);
      assert s[t := c][..n] == s[..n][t := c];
    } else {
      assert s[t := c][..n] == s[..n];
    }
  }

  predicate AllOver(s: State) {
    forall t :: 0 <= t < |s| ==> s[t].over
  }

  /** From any reachable state every checkout can commit: no rollback is ever needed to
      resolve waiting. */
  lemma {:induction false} AllCanCommit(s: State) returns (steps: seq<Action>)
    requires Inv(s)
    ensures AllOver(Run(s, steps))
    ensures forall i :: 0 <= i < |steps| ==> steps[i].Take? || steps[i].Commit?
    decreases Work(s)
  {
    if AllOver(s) {
      return [];
    }
    var t :| 0 <= t < |s| && !s[t].over;
    WantedComplete(s);
    var mover := SomeoneCanMove(s, t, Wanted(s));
    var a := if Enabled(s, Take(mover)) then Take(mover) else Commit(mover);
    InvStep(s, a);
    WorkUpdate(s, mover, Apply(s, a)[mover]);
    var rest := AllCanCommit(Apply(s, a));
    steps := [a] + rest;
    assert steps[1..] == rest;
  }

  // ---- Without the sort

  /** The same locks, with the stock rows in the order of the cart. */
  function UnsortedPlan(c: Cart): seq<Lock> {
    [Advisory(c.user)]
    + StockLocks(c.items)
    + (match c.promo case None => [] case Some(p) => [PromoRow(p)])
    + (if c.spendsPoints then [UserRow(c.user)] else [])
  }

  /** The machine whose checkouts do not sort. */
  function UnsortedApply(s: State, a: Action): State {
    match a
    case Begin(cart) => s + [Checkout(UnsortedPlan(cart), 0, false)]
    case _ => Apply(s, a)
  }

  function UnsortedRun(s: State, actions: seq<Action>): State
    decreases |actions|
  {
    if actions == [] then s else UnsortedRun(UnsortedApply(s, actions[0]), actions[1..])
  }

  lemma {:induction false} UnsortedNext(s: State, actions: seq<Action>, a: Action)
    ensures UnsortedRun(s, actions + [a]) == UnsortedApply(UnsortedRun(s, actions), a)
    decreases |actions|
  {
    if actions == [] {
      assert [a][1..] == [] && [] + [a] == [a];
    } else {
      UnsortedNext(UnsortedApply(s, actions[0]), actions[1..], a);
      assert (actions + [a])[1..] == actions[1..] + [a];
    }
  }

  lemma {:induction false} ThenUnsorted(actions: seq<Action>, s: State, a: Action, t: State)
    returns (more: seq<Action>)
    requires UnsortedRun([], actions) == s && UnsortedApply(s, a) == t
    ensures UnsortedRun([], more) == t
  {
    more := actions + [a];
    UnsortedNext([], actions, a);
  }

  /** Two plans that start apart and then cross. */
  predicate Crossing(p: seq<Lock>, q: seq<Lock>) {
    |p| >= 3 && |q| >= 3 && p[0] != q[0] && p[0] != q[1] && p[1] != q[0] && p[1] != q[1] && p[2] == q[1] && q[2] == p[1]
  }

  lemma {:induction false} FourTakes(before: seq<Action>, p: seq<Lock>, q: seq<Lock>) returns (actions: seq<Action>)
    requires UnsortedRun([], before) == Taken(p, 0, q, 0) && Crossing(p, q)
    ensures UnsortedRun([], actions) == Taken(p, 2, q, 2)
  {
    assert p[..1] == [p[0]] && q[..1] == [q[0]] && p[..2] == [p[0], p[1]];
    actions := ThenUnsorted(before, Taken(p, 0, q, 0), Take(0), Taken(p, 1, q, 0));
    actions := ThenUnsorted(actions, Taken(p, 1, q, 0), Take(1), Taken(p, 1, q, 1));
    actions := ThenUnsorted(actions, Taken(p, 1, q, 1), Take(0), Taken(p, 2, q, 1));
    actions := ThenUnsorted(actions, Taken(p, 2, q, 1), Take(1), Taken(p, 2, q, 2));
  }

  lemma Crossed(p: seq<Lock>, q: seq<Lock>)
    requires Crossing(p, q)
    ensures forall t: nat :: !CanMove(Taken(p, 2, q, 2), t)
  {
    var s := Taken(p, 2, q, 2);
    assert p[..2] == [p[0], p[1]] && q[..2] == [q[0], q[1]];
    assert Holds(s[0], p[1]) && Holds(s[1], q[1]);
  }

  /** Without the sort the claim fails, for any two lines on different rows: two users who order
      them in opposite orders come to wait on each other, whatever promo and points they use. */
  lemma {:induction false} UnsortedPlansDeadlock(c: Cart, d: Cart) returns (actions: seq<Action>)
    requires c.user != d.user && |c.items| == 2 && c.items[0].cell != c.items[1].cell
    requires d.items == [c.items[1], c.items[0]]
    ensures var s := UnsortedRun([], actions);
      |s| == 2 && !s[0].over && !s[1].over && forall t: nat :: !CanMove(s, t)
  {
    var p, q := UnsortedPlan(c), UnsortedPlan(d);
    var a, b := StockRow(c.items[0].cell), StockRow(c.items[1].cell);
    assert StockLocks(c.items) == [a, b] && StockLocks(d.items) == [b, a];
    assert p[..3] == [Advisory(c.user), a, b] && q[..3] == [Advisory(d.user), b, a];
    actions := ThenUnsorted([], [], Begin(c), [Checkout(p, 0, false)]);
    actions := ThenUnsorted(actions, [Checkout(p, 0, false)], Begin(d), Taken(p, 0, q, 0));
    actions := FourTakes(actions, p, q);
    Crossed(p, q);
  }

  function Taken(p: seq<Lock>, i: nat, q: seq<Lock>, j: nat): State {
    [Checkout(p, i, false), Checkout(q, j, false)]
  }
}
